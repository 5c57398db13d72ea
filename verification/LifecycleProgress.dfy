/** What lifecycle calls achieve when they are let go on: a login, a reconnect attempt, a logout, the
    decision of a monitor and the finalizer, each from every reachable state it can meet. */
module LifecycleProgress {
  import opened Common
  import opened Lifecycle
  import opened LifecycleSystem
  import opened LifecycleProperties

  /** A step of call i that may spawn call m. */
  function Take(i: nat, turn: Turn, m: nat): Step {
    Proceed(i, Choice(turn, false, 0, false, m))
  }

  ghost predicate At(l: Life, i: nat, p: Place) {
    i in l.calls && l.calls[i] == p
  }

  /** One step of call i from p to q, with nothing spawned. */
  lemma Moves1(l: Life, i: nat, p: Place, k: Choice)
    requires At(l, i, p) && Advance(l.c, i, p, l.running, k).spawn.None?
    ensures var l', o := Next(l, Proceed(i, k)), Advance(l.c, i, p, l.running, k);
      && l'.c == o.c && (if o.next.Some? then At(l', i, o.next.value) else i !in l'.calls)
      && (forall j :: j != i ==> (j in l'.calls <==> j in l.calls) && (j in l.calls ==> l'.calls[j] == l.calls[j]))
  {
    NextProceeds(l, i, k);
  }

  /** One step of call i that spawns. */
  lemma Spawns1(l: Life, i: nat, p: Place, k: Choice)
    requires At(l, i, p) && k.spawned !in l.calls && Advance(l.c, i, p, l.running, k).spawn.Some?
    requires Advance(l.c, i, p, l.running, k).next.Some?
    ensures var l', o := Next(l, Proceed(i, k)), Advance(l.c, i, p, l.running, k);
      l'.c == o.c && At(l', i, o.next.value) && At(l', k.spawned, o.spawn.value)
  {
    NextProceeds(l, i, k);
  }

  lemma {:induction false} RunCons(l: Life, a: Step, rest: seq<Step>)
    ensures Run(l, [a] + rest) == Run(Next(l, a), rest)
  {
    assert ([a] + rest)[1..] == rest;
  }

  lemma Run3(l: Life, a: Step, b: Step, c: Step)
    ensures Run(l, [a, b, c]) == Next(Next(Next(l, a), b), c)
  {
    var l1 := Next(l, a);
    RunCons(l, a, [b, c]);
    RunCons(l1, b, [c]);
    OneStep(Next(l1, b), c);
    assert [a] + [b, c] == [a, b, c] && [b] + [c] == [b, c];
  }

  lemma {:induction false} RunAppends(l: Life, a: seq<Step>, b: seq<Step>)
    ensures Run(l, a + b) == Run(Run(l, a), b)
    decreases |a|
  {
    if a == [] {
      assert a + b == b;
    } else {
      assert (a + b)[1..] == a[1..] + b;
      RunAppends(Next(l, a[0]), a[1..], b);
    }
  }

  // ---- Login ------------------------------------------------------------------------------------

  /** The calls after `l` are those before, except i and m. */
  ghost predicate OthersSame(l: Life, l': Life, i: nat) {
    forall j :: j != i ==> (j in l'.calls <==> j in l.calls)
  }

  lemma LoginStarts(l: Life, i: nat, m: nat, user: string)
    requires Shape(l.c) && !l.c.closed && l.c.owner.None? && l.c.state == LoggedOut && l.c.terminal.None? && i !in l.calls && user != ""
    ensures var l' := Run(l, [CallLogin(i, user), Take(i, Go, m), Take(i, Go, m)]);
      && l'.c == l.c.(owner := Some(i), state := LoggingIn, conn := Connecting, user := user)
      && At(l', i, LoginDial(None)) && OthersSame(l, l', i)
  {
    var call, go := CallLogin(i, user), Take(i, Go, m);
    var l1 := Next(l, call);
    Moves1(l1, i, LoginWait(user), go.choice);
    Moves1(Next(l1, go), i, LoginOwn(user), go.choice);
    Run3(l, call, go, go);
  }

  lemma LoginConnects(l: Life, i: nat, m: nat)
    requires !l.c.closed && l.c.owner == Some(i) && At(l, i, LoginDial(None)) && m !in l.calls
    ensures var l', g := Run(l, [Take(i, Dial, m), Take(i, Succeed, m), Take(i, Go, m)]), l.c.generation + 1;
      && l'.c == Installed(l.c.(generation := g), g).(live := true, session := l.c.session + 1)
      && At(l', i, Ending) && At(l', m, Monitor(g))
  {
    var dial, succeed, go, g := Take(i, Dial, m), Take(i, Succeed, m), Take(i, Go, m), l.c.generation + 1;
    Moves1(l, i, LoginDial(None), dial.choice);
    var l1 := Next(l, dial);
    Moves1(l1, i, LoginDial(Some(g)), succeed.choice);
    Spawns1(Next(l1, succeed), i, LoginHave(g), go.choice);
    Run3(l, dial, succeed, go);
  }

  lemma OwnerEnds(l: Life, i: nat, m: nat, p: Place)
    requires At(l, i, Ending) && l.c.owner == Some(i) && m != i && At(l, m, p)
    ensures var l' := Run(l, [Take(i, Go, m)]); l'.c == l.c.(owner := None) && At(l', m, p) && i !in l'.calls
  {
    Moves1(l, i, Ending, Take(i, Go, m).choice);
    OneStep(l, Take(i, Go, m));
  }

  function LoginScript(i: nat, m: nat, user: string): seq<Step> {
    [CallLogin(i, user), Take(i, Go, m), Take(i, Go, m)] + [Take(i, Dial, m), Take(i, Succeed, m), Take(i, Go, m)] + [Take(i, Go, m)]
  }

  /** A login on a client that is open, logged out, without owner and without a pending terminal
      callback gets through by its own steps alone when its dial succeeds: a run with a new
      generation in a new session, its monitor, and ownership given back. */
  lemma LoginRunsThrough(l: Life, i: nat, m: nat, user: string)
    requires Reachable(l) && !l.c.closed && l.c.owner.None? && l.c.state == LoggedOut && l.c.terminal.None?
    requires i !in l.calls && m !in l.calls && i != m && user != ""
    ensures var l', g := Run(l, LoginScript(i, m, user)), l.c.generation + 1;
      && l'.c.state == LoggedIn && l'.c.run == Some(g) && l'.c.provision == Some(g) && l'.c.generation == g && l'.c.user == user
      && l'.c.live && l'.c.session == l.c.session + 1 && l'.c.owner.None?
      && At(l', m, Monitor(g)) && i !in l'.calls
  {
    ReachableIsSound(l);
    var first, second, last := [CallLogin(i, user), Take(i, Go, m), Take(i, Go, m)],
                               [Take(i, Dial, m), Take(i, Succeed, m), Take(i, Go, m)], [Take(i, Go, m)];
    LoginStarts(l, i, m, user);
    var l1 := Run(l, first);
    LoginConnects(l1, i, m);
    OwnerEnds(Run(l1, second), i, m, Monitor(l.c.generation + 1));
    RunAppends(l, first, second);
    RunAppends(l, first + second, last);
  }

  // ---- Reconnect --------------------------------------------------------------------------------

  /** One step of call i leads to place q and fields c, with the other calls as they were. */
  ghost predicate Leads(l: Life, l': Life, i: nat, q: Place, c: Core) {
    l'.c == c && At(l', i, q) && OthersSame(l, l', i)
  }

  lemma ReconnectChecks(l: Life, i: nat, m: nat, r: nat, s: nat)
    requires StillReconnecting(l.c, r, s) && At(l, i, ReconnectIdle(r, s))
    ensures Leads(l, Next(l, Take(i, Check, m)), i, ReconnectIdle(r, s), l.c)
  {
    Moves1(l, i, ReconnectIdle(r, s), Take(i, Check, m).choice);
  }

  lemma ReconnectOwns(l: Life, i: nat, m: nat, r: nat, s: nat)
    requires !l.c.closed && l.c.owner.None? && At(l, i, ReconnectIdle(r, s))
    ensures Leads(l, Next(l, Take(i, Go, m)), i, ReconnectOwn(r, s), l.c.(owner := Some(i)))
  {
    Moves1(l, i, ReconnectIdle(r, s), Take(i, Go, m).choice);
  }

  lemma ReconnectRechecks(l: Life, i: nat, m: nat, r: nat, s: nat)
    requires StillReconnecting(l.c, r, s) && At(l, i, ReconnectOwn(r, s))
    ensures Leads(l, Next(l, Take(i, Go, m)), i, ReconnectDial(r, s, None), l.c)
  {
    Moves1(l, i, ReconnectOwn(r, s), Take(i, Go, m).choice);
  }

  lemma ReconnectStarts(l: Life, i: nat, m: nat, r: nat, s: nat)
    requires StillReconnecting(l.c, r, s) && l.c.owner.None? && At(l, i, ReconnectIdle(r, s))
    ensures Leads(l, Run(l, [Take(i, Check, m), Take(i, Go, m), Take(i, Go, m)]), i, ReconnectDial(r, s, None), l.c.(owner := Some(i)))
  {
    var check, go := Take(i, Check, m), Take(i, Go, m);
    Run3(l, check, go, go);
    var l1 := Next(l, check);
    var l2 := Next(l1, go);
    ReconnectChecks(l, i, m, r, s);
    ReconnectOwns(l1, i, m, r, s);
    ReconnectRechecks(l2, i, m, r, s);
  }

  lemma ReconnectDials(l: Life, i: nat, m: nat, r: nat, s: nat)
    requires At(l, i, ReconnectDial(r, s, None))
    ensures Leads(l, Next(l, Take(i, Dial, m)), i, ReconnectDial(r, s, Some(l.c.generation + 1)), l.c.(generation := l.c.generation + 1))
  {
    Moves1(l, i, ReconnectDial(r, s, None), Take(i, Dial, m).choice);
  }

  lemma ReconnectFinds(l: Life, i: nat, m: nat, r: nat, s: nat, g: nat)
    requires At(l, i, ReconnectDial(r, s, Some(g)))
    ensures Leads(l, Next(l, Take(i, Succeed, m)), i, ReconnectHave(r, s, g), l.c)
  {
    Moves1(l, i, ReconnectDial(r, s, Some(g)), Take(i, Succeed, m).choice);
  }

  lemma ReconnectInstalls(l: Life, i: nat, m: nat, r: nat, s: nat, g: nat)
    requires StillReconnecting(l.c, r, s) && At(l, i, ReconnectHave(r, s, g)) && m !in l.calls
    ensures var l' := Next(l, Take(i, Go, m)); l'.c == Installed(l.c, g) && At(l', i, Ending) && At(l', m, Monitor(g))
  {
    Spawns1(l, i, ReconnectHave(r, s, g), Take(i, Go, m).choice);
  }

  lemma ReconnectConnects(l: Life, i: nat, m: nat, r: nat, s: nat)
    requires StillReconnecting(l.c, r, s) && l.c.owner == Some(i) && At(l, i, ReconnectDial(r, s, None)) && m !in l.calls
    ensures var l', g := Run(l, [Take(i, Dial, m), Take(i, Succeed, m), Take(i, Go, m)]), l.c.generation + 1;
      l'.c == Installed(l.c.(generation := g), g) && At(l', i, Ending) && At(l', m, Monitor(g))
  {
    var dial, succeed, go, g := Take(i, Dial, m), Take(i, Succeed, m), Take(i, Go, m), l.c.generation + 1;
    Run3(l, dial, succeed, go);
    var l1 := Next(l, dial);
    var l2 := Next(l1, succeed);
    ReconnectDials(l, i, m, r, s);
    ReconnectFinds(l1, i, m, r, s, g);
    ReconnectInstalls(l2, i, m, r, s, g);
  }

  function ReconnectScript(i: nat, m: nat): seq<Step> {
    [Take(i, Check, m), Take(i, Go, m), Take(i, Go, m)] + [Take(i, Dial, m), Take(i, Succeed, m), Take(i, Go, m)] + [Take(i, Go, m)]
  }

  /** A reconnect whose session is current, and which nobody holds up, gets through by its own steps
      alone when its dial succeeds: a run with a new generation goes into the same session, for the
      same user, with a new monitor. */
  lemma ReconnectRunsThrough(l: Life, i: nat, m: nat)
    requires Reachable(l) && i in l.calls && l.calls[i].ReconnectIdle? && l.c.owner.None? && m !in l.calls
    requires StillReconnecting(l.c, l.calls[i].run, l.calls[i].session)
    ensures var l', g := Run(l, ReconnectScript(i, m)), l.c.generation + 1;
      && l'.c == Installed(l.c.(generation := g), g) && l'.c.state == LoggedIn && l'.c.run == Some(g) && l'.c.provision == Some(g)
      && l'.c.session == l.c.session && l'.c.user == l.c.user
      && At(l', m, Monitor(g)) && i !in l'.calls
  {
    var r, s := l.calls[i].run, l.calls[i].session;
    var first, second, last := [Take(i, Check, m), Take(i, Go, m), Take(i, Go, m)],
                               [Take(i, Dial, m), Take(i, Succeed, m), Take(i, Go, m)], [Take(i, Go, m)];
    ReconnectStarts(l, i, m, r, s);
    var l1 := Run(l, first);
    ReconnectConnects(l1, i, m, r, s);
    OwnerEnds(Run(l1, second), i, m, Monitor(l.c.generation + 1));
    RunAppends(l, first, second);
    RunAppends(l, first + second, last);
  }

  // ---- Logout, monitor and finalizer ------------------------------------------------------------

  /** A Logout that meets no owner ends whatever session there is: it becomes owner, clears the
      client, shuts the run down and gives ownership back. */
  lemma LogoutRunsThrough(l: Life, i: nat)
    requires Reachable(l) && !l.c.closed && l.c.owner.None? && i !in l.calls
    ensures var own := Run(l, [CallLogout(i), Take(i, Go, i), Take(i, Go, i)]);
      && own.c.state == LoggedOut && own.c.run.None? && own.c.provision.None? && own.c.user == "" && !own.c.live
      && own.c.session == l.c.session && own.c.epoch == l.c.epoch + 1
      && At(own, i, if l.c.run.Some? then Discard(l.c.run.value) else Ending)
  {
    ReachableIsSound(l);
    var call, go := CallLogout(i), Take(i, Go, i);
    var l1 := Next(l, call);
    Moves1(l1, i, LogoutWait(None), go.choice);
    Moves1(Next(l1, go), i, LogoutOwn, go.choice);
    Run3(l, call, go, go);
  }

  lemma MonitorLooks(l: Life, i: nat, r: nat, k: Choice)
    requires At(l, i, Monitor(r)) && r !in l.running
    ensures var l1 := Next(l, Proceed(i, k));
      && l1.c == l.c
      && (if l.c.closed || l.c.run != Some(r) then i !in l1.calls else At(l1, i, if k.fatal then MonitorFail(r) else ReconnectStart(r)))
  {
    Moves1(l, i, Monitor(r), k);
  }

  lemma MonitorEndsSession(l: Life, i: nat, r: nat, k: Choice)
    requires Shape(l.c) && At(l, i, MonitorFail(r)) && l.c.run == Some(r) && !l.c.closed
    ensures var l' := Next(l, Proceed(i, k));
      && l'.c.state == LoggedOut && l'.c.run.None? && !l'.c.live && i !in l'.calls
      && l'.c.terminal == if k.heard then Some(Bundle(l.c.user, k.error, l.c.epoch + 1)) else None
  {
    Moves1(l, i, MonitorFail(r), k);
  }

  lemma MonitorReconnects(l: Life, i: nat, r: nat, k: Choice)
    requires Shape(l.c) && At(l, i, ReconnectStart(r)) && l.c.run == Some(r) && !l.c.closed
    ensures var l' := Next(l, Proceed(i, k));
      if l.c.live then
        && l'.c == l.c.(state := Reconnecting, conn := ConnReconnecting)
        && At(l', i, if k.fatal then ReconnectBad(r, l.c.session) else ReconnectIdle(r, l.c.session))
      else l'.c == l.c && i !in l'.calls
  {
    Moves1(l, i, ReconnectStart(r), k);
  }

  /** What a monitor does about a lost run that is still the installed one: a terminal error ends the
      session and publishes its bundle, any other one of a live session starts to reconnect, under
      that session. A run that was replaced, or a closed client, is left alone. */
  lemma MonitorDecides(l: Life, i: nat, r: nat, k: Choice, k': Choice)
    requires Reachable(l) && At(l, i, Monitor(r)) && r !in l.running
    ensures var l1 := Next(l, Proceed(i, k));
      var l2 := Next(l1, Proceed(i, k'));
      if l.c.closed || l.c.run != Some(r) then l1.c == l.c && i !in l1.calls
      else if k.fatal then
        && l2.c.state == LoggedOut && l2.c.run.None? && !l2.c.live && i !in l2.calls
        && l2.c.terminal == if k'.heard then Some(Bundle(l.c.user, k'.error, l.c.epoch + 1)) else None
      else if l.c.live then
        && l2.c == l.c.(state := Reconnecting, conn := ConnReconnecting)
        && At(l2, i, if k'.fatal then ReconnectBad(r, l.c.session) else ReconnectIdle(r, l.c.session))
      else l2.c == l.c && i !in l2.calls
  {
    ReachableIsSound(l);
    MonitorLooks(l, i, r, k);
    if !l.c.closed && l.c.run == Some(r) {
      var l1 := Next(l, Proceed(i, k));
      if k.fatal {
        MonitorEndsSession(l1, i, r, k');
      } else {
        MonitorReconnects(l1, i, r, k');
      }
    }
  }

  /** After Close the finalizer needs two steps of its own to destroy the codec when nobody owns the
      lifecycle, and otherwise waits for exactly that owner. */
  lemma FinalizerWaitsOnlyForOwner(l: Life)
    requires Reachable(l) && l.c.closed
    ensures var l' := Next(Next(l, Finalize), Finalize);
      if l.c.owner.None? then l'.finalizer == CodecClosed else l'.finalizer == AwaitingOwner(l.c.owner)
  {
    ReachableIsSound(l);
  }
}
