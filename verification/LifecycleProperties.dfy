/** What the lifecycle protocol guarantees over every run, from a new client, of any number of
    Login, Logout and Close calls, reconnects and monitors in any interleaving. */
module LifecycleProperties {
  import opened Common
  import opened Lifecycle
  import opened LifecycleSystem

  lemma NewLifeIsSound()
    ensures LifeInv(NewLife())
  {
  }

  ghost predicate Reachable(l: Life) {
    exists steps: seq<Step> :: l == Run(NewLife(), steps)
  }

  lemma ReachableIsSound(l: Life)
    requires Reachable(l)
    ensures LifeInv(l)
  {
    var steps: seq<Step> :| l == Run(NewLife(), steps);
    NewLifeIsSound();
    RunKeepsInv(NewLife(), steps);
  }

  // ---- Ownership and generations ----------------------------------------------------------------

  /** Exactly the call recorded in `connectDone` is between getting and giving back ownership, so
      no two calls are, and giving it back never panics. */
  lemma OwnershipIsExclusive(l: Life)
    requires Reachable(l)
    ensures !l.panicked
    ensures forall i :: i in l.calls ==> (Owning(l.calls[i]) <==> l.c.owner == Some(i))
    ensures l.c.owner.Some? ==> l.c.owner.value in l.calls && Owning(l.calls[l.c.owner.value])
    ensures forall i, k :: i in l.calls ==> Advance(l.c, i, l.calls[i], l.running, k).ok
  {
    ReachableIsSound(l);
    forall i, k | i in l.calls
      ensures Advance(l.c, i, l.calls[i], l.running, k).ok
    {
      AdvanceMoves(l.c, i, l.calls[i], l.running, k);
    }
  }

  /** A batch worker drops a job whose run does not have the newest generation. While the client
      is logged in that never hits the installed run, and it hits every other one. */
  predicate WorkerKeeps(c: Core, run: nat) {
    run == c.generation
  }

  lemma LoggedInRunIsNewest(l: Life)
    requires Reachable(l) && l.c.state == LoggedIn
    ensures l.c.run.Some? && forall r: nat :: WorkerKeeps(l.c, r) <==> l.c.run == Some(r)
  {
    ReachableIsSound(l);
  }

  /** Login state and connection state correspond, a run is installed exactly while the client is
      logged in or reconnecting, and the provision data applied is that run's. */
  lemma StatesStayCoupled(l: Life)
    requires Reachable(l)
    ensures Coupled(l.c.state, l.c.conn) && l.c.provision == l.c.run
    ensures l.c.run.Some? <==> l.c.state == LoggedIn || l.c.state == Reconnecting
    ensures l.c.user != "" <==> l.c.state != LoggedOut
  {
    ReachableIsSound(l);
  }

  // ---- Nothing is abandoned ---------------------------------------------------------------------

  /** Whatever the state, a call in progress is there to take it onwards. In particular a
      reconnect whose session was cancelled has a Logout that owns the lifecycle or holds exactly
      that session's generation. */
  lemma NoStateIsAbandoned(l: Life) returns (i: nat)
    requires Reachable(l) && l.c.state != LoggedOut
    ensures i in l.calls && Attends(l.c, l.calls[i])
    ensures l.c.state == Reconnecting && !l.c.live ==>
      (l.calls[i] == LogoutOwn && l.c.owner == Some(i)) || HoldsCanceled(l.calls[i], l.c.session)
  {
    ReachableIsSound(l);
    i :| i in l.calls && Attends(l.c, l.calls[i]);
  }

  function Plain(turn: Turn): Choice {
    Choice(turn, false, 0, false, 0)
  }

  lemma OneStep(l: Life, step: Step)
    ensures Run(l, [step]) == Next(l, step)
  {
    assert Run(Next(l, step), [step][1..]) == Next(l, step);
  }

  lemma LogoutGivesUp(l: Life, i: nat)
    requires i in l.calls && l.calls[i] == LogoutWait(Some(l.c.session))
    ensures var l' := Next(l, Proceed(i, Plain(GiveUp))); l'.c == l.c && i in l'.calls && l'.calls[i] == LogoutLate(l.c.session)
  {
  }

  lemma LogoutFrees(l: Life, i: nat)
    requires Shape(l.c) && l.c.state == Reconnecting && !l.c.live
    requires i in l.calls && (l.calls[i] == LogoutOwn || l.calls[i] == LogoutLate(l.c.session))
    ensures var l' := Next(l, Proceed(i, Plain(Go))); l'.c.state == LoggedOut && l'.c.session == l.c.session && !l'.c.closed
  {
  }

  /** That Logout alone logs the client out: as owner with its next section, and as a waiter by
      giving up and detaching the session it cancelled. No other call takes a step. */
  lemma CanceledReconnectIsFreed(l: Life) returns (i: nat, rest: seq<Step>)
    requires Reachable(l) && l.c.state == Reconnecting && !l.c.live
    ensures i in l.calls
    ensures (l.calls[i] == LogoutOwn && l.c.owner == Some(i)) || HoldsCanceled(l.calls[i], l.c.session)
    ensures |rest| <= 2 && forall n :: 0 <= n < |rest| ==> rest[n].Proceed? && rest[n].call == i
    ensures Run(l, rest).c.state == LoggedOut && Run(l, rest).c.session == l.c.session && !Run(l, rest).c.closed
  {
    ReachableIsSound(l);
    i := NoStateIsAbandoned(l);
    var give, go := Proceed(i, Plain(GiveUp)), Proceed(i, Plain(Go));
    if l.calls[i] == LogoutWait(Some(l.c.session)) {
      LogoutGivesUp(l, i);
      LogoutFrees(Next(l, give), i);
      OneStep(Next(l, give), go);
      rest := [give, go];
      assert rest[1..] == [go];
    } else {
      LogoutFrees(l, i);
      OneStep(l, go);
      rest := [go];
    }
  }

  /** A detach acts only on the session its Logout cancelled: that session is the newest one, it
      is no longer live, and the run torn down is not at work. */
  lemma DetachIsPrecise(l: Life, i: nat, k: Choice)
    requires Reachable(l) && i in l.calls && l.calls[i].LogoutLate?
    ensures var l' := Next(l, Proceed(i, k));
      if DetachCanceled(l.c, l.calls[i].session).1
      then l.c.session == l.calls[i].session && !l.c.live && l'.c.state == LoggedOut && l.c.run.Some? && l.c.run.value !in l.running
      else l'.c == l.c
    ensures l.c.live ==> Next(l, Proceed(i, k)).c == l.c
  {
    ReachableIsSound(l);
  }

  // ---- Ended sessions and Close -----------------------------------------------------------------

  /** Session g has ended, whatever ended it. */
  predicate Ended(c: Core, g: nat) {
    g <= c.session && !SessionIsCurrent(c, g)
  }

  ghost predicate LaterThan(installs: seq<Install>, n: nat, g: nat) {
    n <= |installs| && forall m :: n <= m < |installs| ==> installs[m].session > g
  }

  lemma StepKeepsEnded(l: Life, step: Step, g: nat, n: nat)
    requires LifeInv(l) && Ended(l.c, g) && LaterThan(l.installs, n, g)
    ensures Ended(Next(l, step).c, g) && LaterThan(Next(l, step).installs, n, g)
  {
    if step.Proceed? && step.call in l.calls {
      AdvanceMoves(l.c, step.call, l.calls[step.call], l.running, step.choice);
      InstallsAreCurrent(l.c, step.call, l.calls[step.call], l.running, step.choice);
    }
  }

  /** A run is installed only into a live session: by Login into a new one, by a reconnect into
      the one it started under. */
  lemma InstallsAreCurrent(c: Core, i: nat, p: Place, running: set<nat>, k: Choice)
    requires Shape(c) && PlaceOk(c, i, p, running)
    ensures var c' := Advance(c, i, p, running, k).c;
      c'.run.Some? && c'.run != c.run ==>
        && !c.closed && c'.live && c.owner == Some(i) && c'.run == Some(c.generation)
        && ((p.LoginHave? && c'.session == c.session + 1) || (p.ReconnectHave? && c'.session == c.session == p.session && c.live))
  {
  }

  lemma {:induction false} RunKeepsEnded(l: Life, steps: seq<Step>, g: nat, n: nat)
    requires LifeInv(l) && Ended(l.c, g) && LaterThan(l.installs, n, g)
    ensures Ended(Run(l, steps).c, g) && LaterThan(Run(l, steps).installs, n, g)
    decreases |steps|
  {
    if steps != [] {
      StepKeepsInv(l, steps[0]);
      StepKeepsEnded(l, steps[0], g, n);
      RunKeepsEnded(Next(l, steps[0]), steps[1..], g, n);
    }
  }

  /** Once a session has ended it is never current again, and every run installed from then on
      belongs to a later session: no late Login or reconnect brings it back. */
  lemma EndedSessionsStayEnded(l: Life, steps: seq<Step>, g: nat)
    requires Reachable(l) && Ended(l.c, g)
    ensures Ended(Run(l, steps).c, g) && LaterThan(Run(l, steps).installs, |l.installs|, g)
  {
    ReachableIsSound(l);
    RunKeepsEnded(l, steps, g, |l.installs|);
  }

  predicate ClosedFor(l: Life, l': Life) {
    && l'.c == l.c.(owner := l'.c.owner, terminal := l'.c.terminal, generation := l'.c.generation)
    && l'.installs == l.installs
    && (l'.c.owner == l.c.owner || l'.c.owner.None?)
    && (l'.c.terminal == l.c.terminal || l'.c.terminal.None?)
  }

  lemma ClosedStepsChangeNothing(l: Life, step: Step)
    requires LifeInv(l) && l.c.closed
    ensures ClosedFor(l, Next(l, step))
  {
    if step.Proceed? && step.call in l.calls {
      ClosedCallsChangeNothing(l.c, step.call, l.calls[step.call], l.running, step.choice);
    }
  }

  lemma ClosedCallsChangeNothing(c: Core, i: nat, p: Place, running: set<nat>, k: Choice)
    requires Shape(c) && c.closed && PlaceOk(c, i, p, running)
    ensures var c' := Advance(c, i, p, running, k).c;
      c' == c.(owner := c'.owner, generation := c'.generation) && (c'.owner == c.owner || c'.owner.None?)
  {
  }

  lemma {:induction false} ClosedRunsChangeNothing(l: Life, steps: seq<Step>)
    requires LifeInv(l) && l.c.closed
    ensures ClosedFor(l, Run(l, steps))
    decreases |steps|
  {
    if steps != [] {
      StepKeepsInv(l, steps[0]);
      ClosedStepsChangeNothing(l, steps[0]);
      ClosedRunsChangeNothing(Next(l, steps[0]), steps[1..]);
    }
  }

  /** Close is absorbing: whatever runs on, the client stays closed and logged out, installs no
      run, applies no provision data, no call becomes owner any more,
      and no terminal bundle is published any more. */
  lemma CloseIsAbsorbing(l: Life, steps: seq<Step>)
    requires Reachable(l)
    ensures var l' := Run(Next(l, CallClose), steps);
      && l'.c.closed && l'.c.state == LoggedOut && l'.c.run.None? && l'.c.provision.None? && !l'.c.live && l'.c.user == ""
      && l'.installs == l.installs
      && (l'.c.owner.Some? ==> l'.c.owner == l.c.owner) && (l'.c.terminal.Some? ==> l'.c.terminal == l.c.terminal)
  {
    ReachableIsSound(l);
    StepKeepsInv(l, CallClose);
    ClosedRunsChangeNothing(Next(l, CallClose), steps);
  }

  /** The codec is destroyed only when no lifecycle call owns the client and no run's pumps are
      at work, and it stays that way. */
  lemma CodecClosesLast(l: Life, steps: seq<Step>)
    requires Reachable(l) && l.finalizer.CodecClosed?
    ensures var l' := Run(l, steps); l'.running == {} && l'.c.owner.None? && forall i :: i in l'.calls ==> !Owning(l'.calls[i])
  {
    ReachableIsSound(l);
    RunKeepsInv(l, steps);
    RunKeepsCodecClosed(l, steps);
    assert Run(l, steps).running == {};
  }

  lemma {:induction false} RunKeepsCodecClosed(l: Life, steps: seq<Step>)
    requires LifeInv(l) && l.finalizer.CodecClosed?
    ensures Run(l, steps).finalizer.CodecClosed?
    decreases |steps|
  {
    if steps != [] {
      StepKeepsInv(l, steps[0]);
      RunKeepsCodecClosed(Next(l, steps[0]), steps[1..]);
    }
  }
}
