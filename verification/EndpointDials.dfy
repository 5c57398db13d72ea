/** Which endpoint a reconnect dials next, in terms of its dials: what each kind of loss and of
    dial error leads to. */
module EndpointDials {
  import opened EndpointRounds
  import opened EndpointWalk

  /** An error of the endpoint itself. */
  predicate Rotates(dial: DialResult) {
    dial.Down? && ShouldRotate(dial.code)
  }

  /** An error that ends neither the attempt series nor the use of the effective endpoint. */
  predicate Returns(dial: DialResult) {
    dial.Down? && !ShouldRotate(dial.code) && !IsTerminal(dial.code)
  }

  /** A success or a terminal error. */
  predicate Ends(dial: DialResult) {
    dial.Up? || IsTerminal(dial.code)
  }

  ghost predicate AllAnswersNamed(attempts: seq<Attempt>) {
    forall i :: 0 <= i < |attempts| ==> AllNamed(attempts[i].hosts)
  }

  predicate AllRotating(attempts: seq<Attempt>) {
    forall i :: 0 <= i < |attempts| ==> Rotates(attempts[i].dial)
  }

  /** The host n places past index i in the circle. */
  function HostAt(hosts: seq<string>, i: nat, n: nat): string
    requires i < |hosts| && n < |hosts|
  {
    hosts[if i + n < |hosts| then i + n else i + n - |hosts|]
  }

  // ---- Single attempts ----------------------------------------------------------------------------

  /** An attempt of a walk that does not wait for DNS dials exactly its endpoint. */
  lemma AttemptDials(w: Walk, a: Attempt)
    requires WalkOk(w) && !w.stopped && !w.needRefresh
    ensures Tried(w, a).dials == w.dials + [w.endpoint]
  {
  }

  /** An attempt of a walk that waits for DNS dials the first of the hosts it is given, or nothing
      when it is given none. */
  lemma RefreshDials(w: Walk, a: Attempt)
    requires WalkOk(w) && !w.stopped && w.needRefresh
    ensures Tried(w, a).dials == if a.hosts == [] then w.dials else w.dials + [a.hosts[0]]
    ensures a.hosts == [] ==> Tried(w, a).needRefresh && Tried(w, a).stopped == IsTerminal(a.dnsError)
  {
    if a.hosts != [] {
      WrapOnce(0, |a.hosts|);
    }
  }

  /** An error of the endpoint itself moves on to the next candidate of the round; after the last
      one the walk waits for DNS. */
  lemma RotatingErrorMovesOn(w: Walk, a: Attempt)
    requires WalkOk(w) && !w.stopped && !w.needRefresh && Rotates(a.dial)
    ensures var w', hosts := Tried(w, a), w.begun.candidates;
      && !w'.stopped && w'.begun == w.begun && |w'.tried| <= |hosts|
      && (if |w'.tried| < |hosts| then !w'.needRefresh && w'.endpoint == HostAt(hosts, w.begun.next, |w'.tried|) else w'.needRefresh)
  {
    DialedOrder(w);
    OrderLength(w.begun);
    OrderLength(w.round);
    var tried := Dialed(w).tried;
    if w.round.remaining > 0 {
      assert (tried + Order(w.round))[|tried|] == Order(w.round)[0] == w.round.next;
      OrderIsCircular(w.begun, |tried|);
    }
  }

  /** Any other error that is not terminal goes back to the effective endpoint. */
  lemma OtherErrorReturns(w: Walk, a: Attempt)
    requires WalkOk(w) && !w.stopped && !w.needRefresh && Returns(a.dial)
    ensures var w' := Tried(w, a);
      !w'.stopped && !w'.needRefresh && w'.endpoint == w.effective && w'.effective == w.effective
  {
  }

  lemma EndStops(w: Walk, a: Attempt)
    requires WalkOk(w) && !w.stopped && !w.needRefresh && Ends(a.dial)
    ensures Tried(w, a).stopped
  {
  }

  // ---- A round of rotating errors ------------------------------------------------------------------

  /** A candidate is in hand and its successors in the circle are still to come. */
  ghost predicate InRound(w: Walk) {
    && WalkOk(w) && !w.stopped && !w.needRefresh && w.index >= 0 && w.round.remaining < |w.round.candidates|
    && (w.round.remaining > 0 ==> w.round.next == After(w.index, |w.round.candidates|))
  }

  lemma RotatingStep(w: Walk, a: Attempt)
    requires InRound(w) && Rotates(a.dial) && AllNamed(a.hosts)
    ensures var w', hosts := Tried(w, a), w.round.candidates;
      && WalkOk(w') && w'.dials == w.dials + [hosts[w.index]]
      && (if w.round.remaining > 0
          then InRound(w') && w'.round.candidates == hosts && w'.round.remaining == w.round.remaining - 1
               && w'.index == (if w.index + 1 < |hosts| then w.index + 1 else 0)
          else w'.needRefresh && !w'.stopped)
  {
    TriedIsOk(w, a);
    AttemptDials(w, a);
    WrapOnce(w.index + 1, |w.round.candidates|);
  }

  /** `dials` goes on after `before` with `count` hosts in circular order from index i. */
  predicate GoesOn(dials: seq<string>, before: seq<string>, hosts: seq<string>, i: nat, count: nat)
    requires i < |hosts| && count <= |hosts|
  {
    && |dials| == |before| + count && dials[..|before|] == before
    && forall n :: 0 <= n < count ==> dials[|before| + n] == HostAt(hosts, i, n)
  }

  /** From a candidate in hand, endpoint errors alone dial it and the rest of the round in order. */
  lemma {:induction false} RotatingDials(w: Walk, attempts: seq<Attempt>)
    requires InRound(w) && AllAnswersNamed(attempts) && AllRotating(attempts) && |attempts| <= 1 + w.round.remaining
    ensures GoesOn(WalkAll(w, attempts).dials, w.dials, w.round.candidates, w.index, |attempts|)
    ensures |attempts| == 1 + w.round.remaining ==> WalkAll(w, attempts).needRefresh && !WalkAll(w, attempts).stopped
    decreases |attempts|
  {
    if attempts != [] {
      var w', rest := Tried(w, attempts[0]), attempts[1..];
      RotatingStep(w, attempts[0]);
      if w.round.remaining > 0 {
        RotatingDials(w', rest);
        ShiftDials(WalkAll(w', rest).dials, w.dials, w.round.candidates, w.index, w'.index, |rest|);
      } else {
        assert rest == [] && WalkAll(w, attempts) == w';
      }
    }
  }

  /** One more dial in front shifts the others by one. */
  lemma ShiftDials(dials: seq<string>, before: seq<string>, hosts: seq<string>, i: nat, i': nat, count: nat)
    requires i < |hosts| && i' == (if i + 1 < |hosts| then i + 1 else 0) && count < |hosts|
    requires GoesOn(dials, before + [hosts[i]], hosts, i', count)
    ensures GoesOn(dials, before, hosts, i, count + 1)
  {
    assert dials[..|before| + 1][..|before|] == before && dials[..|before| + 1][|before|] == hosts[i];
    forall n | 0 <= n < count + 1
      ensures dials[|before| + n] == HostAt(hosts, i, n)
    {
      if n > 0 {
        assert dials[|before + [hosts[i]]| + (n - 1)] == HostAt(hosts, i', n - 1);
      }
    }
  }

  lemma StartsWithRound(effective: string, hosts: seq<string>, cursor: int, code: ErrorCode)
    requires effective != "" && AllNamed(hosts) && ShouldRotate(code) && hosts != []
    ensures var w := StartWalk(effective, hosts, cursor, Lost(code));
      && InRound(w) && w.index == cursor % |hosts| && w.dials == [] && w.round.candidates == hosts && w.round.remaining == |hosts| - 1
  {
    StartIsOk(effective, hosts, cursor, Lost(code));
  }

  /** After a connection lost to an error of its endpoint, while every dial fails with such errors,
      the dials go through all hosts once, circularly from the cursor, and then DNS is asked: the
      next attempt dials the first host of its answer. */
  lemma LostEndpointTriesEveryHost(effective: string, hosts: seq<string>, cursor: int, code: ErrorCode, attempts: seq<Attempt>)
    requires effective != "" && AllNamed(hosts) && ShouldRotate(code) && hosts != []
    requires AllAnswersNamed(attempts) && AllRotating(attempts) && |attempts| <= |hosts|
    ensures WalkOk(StartWalk(effective, hosts, cursor, Lost(code)))
    ensures var w := WalkAll(StartWalk(effective, hosts, cursor, Lost(code)), attempts);
      && |w.dials| == |attempts|
      && (forall n :: 0 <= n < |attempts| ==> w.dials[n] == hosts[(cursor + n) % |hosts|])
      && (|attempts| == |hosts| ==> w.needRefresh && !w.stopped)
  {
    StartsWithRound(effective, hosts, cursor, code);
    var w := StartWalk(effective, hosts, cursor, Lost(code));
    RotatingDials(w, attempts);
    forall n | 0 <= n < |attempts|
      ensures WalkAll(w, attempts).dials[n] == hosts[(cursor + n) % |hosts|]
    {
      PastCursor(cursor, n, |hosts|);
      assert WalkAll(w, attempts).dials[|w.dials| + n] == HostAt(hosts, w.index, n);
    }
  }

  lemma PastCursor(cursor: int, n: nat, m: nat)
    requires n < m
    ensures (cursor + n) % m == if cursor % m + n < m then cursor % m + n else cursor % m + n - m
  {
    var q := cursor / m;
    if cursor % m + n < m {
      SameResidue(cursor + n, cursor % m + n, q, m);
    } else {
      NextMultiple(q, m);
      SameResidue(cursor + n, cursor % m + n - m, q + 1, m);
    }
  }

  lemma NextMultiple(q: int, m: int)
    ensures (q + 1) * m == q * m + m
  {
  }

  // ---- First dials and what follows each error ------------------------------------------------------

  /** The first dial of a reconnect: the target of a redirect, the next host after an endpoint's own
      error, and the effective endpoint after any other loss. */
  lemma FirstDial(effective: string, hosts: seq<string>, cursor: int, loss: Loss, a: Attempt)
    requires effective != "" && AllNamed(hosts) && AllNamed(a.hosts) && (loss.Redirected? ==> loss.target != "")
    ensures Tried(StartWalk(effective, hosts, cursor, loss), a).dials ==
      if loss.Redirected? then [loss.target]
      else if !ShouldRotate(loss.code) then [effective]
      else if hosts != [] then [hosts[cursor % |hosts|]]
      else if a.hosts != [] then [a.hosts[0]] else []
  {
    StartIsOk(effective, hosts, cursor, loss);
    FirstEndpoint(effective, hosts, cursor, loss);
    var w := StartWalk(effective, hosts, cursor, loss);
    if w.needRefresh {
      RefreshDials(w, a);
    } else {
      AttemptDials(w, a);
    }
  }

  lemma FirstEndpoint(effective: string, hosts: seq<string>, cursor: int, loss: Loss)
    ensures var w := StartWalk(effective, hosts, cursor, loss);
      && w.dials == [] && !w.stopped && (w.needRefresh <==> loss.Lost? && ShouldRotate(loss.code) && hosts == [])
      && (loss.Redirected? ==> w.endpoint == loss.target)
      && (loss.Lost? && !ShouldRotate(loss.code) ==> w.endpoint == effective)
      && (loss.Lost? && ShouldRotate(loss.code) && hosts != [] ==> w.endpoint == hosts[cursor % |hosts|])
  {
  }

  /** In any reconnect, after any attempts: an endpoint error is followed by a dial of the next
      untried host of the round, or by asking DNS when there is none; another error by a dial of the
      effective endpoint; and a success or a terminal error by nothing. */
  lemma NextDial(w: Walk, a: Attempt, b: Attempt)
    requires WalkOk(w) && !w.stopped && !w.needRefresh && AllNamed(a.hosts) && AllNamed(b.hosts)
    ensures var w' := Tried(w, a);
      var dials := w.dials + [w.endpoint];
      && (Ends(a.dial) ==> Tried(w', b).dials == dials)
      && (Returns(a.dial) ==> Tried(w', b).dials == dials + [w.effective])
      && (Rotates(a.dial) && |w'.tried| == |w.begun.candidates| ==>
            Tried(w', b).dials == if b.hosts == [] then dials else dials + [b.hosts[0]])
      && (Rotates(a.dial) && |w'.tried| < |w.begun.candidates| ==>
            Tried(w', b).dials == dials + [HostAt(w.begun.candidates, w.begun.next, |w'.tried|)])
  {
    var w' := Tried(w, a);
    AttemptDials(w, a);
    TriedIsOk(w, a);
    if Ends(a.dial) {
      EndStops(w, a);
    } else if Rotates(a.dial) {
      RotatingErrorMovesOn(w, a);
      if w'.needRefresh {
        RefreshDials(w', b);
      } else {
        AttemptDials(w', b);
      }
    } else {
      OtherErrorReturns(w, a);
      AttemptDials(w', b);
    }
  }

  /** Once an attempt has succeeded or failed for good, no further attempt dials anything. */
  lemma NothingAfterTheEnd(w: Walk, a: Attempt, attempts: seq<Attempt>)
    requires WalkOk(w) && !w.stopped && !w.needRefresh && Ends(a.dial) && AllNamed(a.hosts) && AllAnswersNamed(attempts)
    ensures WalkOk(Tried(w, a)) && WalkAll(Tried(w, a), attempts).dials == w.dials + [w.endpoint]
  {
    TriedIsOk(w, a);
    EndStops(w, a);
    AttemptDials(w, a);
    StoppedStays(Tried(w, a), attempts);
  }
}
