/** The endpoints that a login and a reconnect dial, and when a reconnect asks DNS again. */
module EndpointWalk {
  import opened EndpointRounds

  datatype ErrorCode =
    | Io | Timeout | TlsFailed | StreamClosed | Dns | Handshake
    | TokenExpired | InvalidToken | UserForbidden | BindAnotherDevice | TooManyDevices | ResourceChanged
    | Authentication | PermissionDenied | AppActiveLimit | UserNotFound | KickedChangePass | ProtocolLimit
    | OtherError

  predicate ShouldRotate(code: ErrorCode) {
    code.Io? || code.Timeout? || code.TlsFailed? || code.StreamClosed? || code.Dns? || code.Handshake?
  }

  predicate IsTerminal(code: ErrorCode) {
    || code.TokenExpired? || code.InvalidToken? || code.UserForbidden? || code.BindAnotherDevice? || code.TooManyDevices?
    || code.ResourceChanged? || code.Authentication? || code.PermissionDenied? || code.AppActiveLimit?
    || code.UserNotFound? || code.KickedChangePass? || code.ProtocolLimit?
  }

  datatype DialResult = Up | Down(code: ErrorCode)

  // ---- Login ------------------------------------------------------------------------------------

  /** `Nothing` is the run-less success that only an empty candidate list would give. */
  datatype LoginDial = Connected(index: nat) | FailedAt(index: nat, code: ErrorCode) | AllFailed(code: ErrorCode) | Interrupted | Nothing

  /** What the dials allow to report: the first candidate that answers, the first error that is
      not the endpoint's own, or the last error when candidates or time have run out. */
  predicate Justified(outcome: LoginDial, results: seq<DialResult>, late: nat) {
    match outcome
    case Connected(i) => i < |results| && i < late && results[i].Up? && AllRotate(results, i)
    case FailedAt(i, code) => i < |results| && i < late && results[i] == Down(code) && !ShouldRotate(code) && AllRotate(results, i)
    case AllFailed(code) =>
      var n := if late < |results| then late else |results|;
      n > 0 && AllRotate(results, n) && results[n - 1] == Down(code)
    case Interrupted => late == 0 && results != []
    case Nothing => results == []
  }

  /** No two outcomes are justified by the same dials. */
  lemma JustifiedIsUnique(a: LoginDial, b: LoginDial, results: seq<DialResult>, late: nat)
    requires Justified(a, results, late) && Justified(b, results, late)
    ensures a == b
  {
  }

  /** Dials the candidates in list order. `results[i]` is what dialing candidate i gives and
      `late` is how many dials the login's deadline leaves time for. */
  method ConnectLoginCandidates(candidates: seq<string>, results: seq<DialResult>, late: nat) returns (outcome: LoginDial)
    requires |results| == |candidates|
    ensures Justified(outcome, results, late)
  {
    var round := new EndpointRound(candidates, 0);
    var last: ErrorCode := OtherError;
    var done := 0;
    while round.remaining > 0
      invariant ValidRound(round.View()) && round.candidates == candidates && done + round.remaining == |candidates|
      invariant round.remaining > 0 ==> round.next == done
      invariant done <= late && done <= |results| && AllRotate(results, done) && (done > 0 ==> results[done - 1] == Down(last))
      decreases round.remaining
    {
      if done >= late {
        return if done > 0 then AllFailed(last) else Interrupted;
      }
      WrapOnce(round.next + 1, |candidates|);
      var _, index, _ := round.NextEndpoint();
      if results[index].Up? {
        return Connected(index);
      }
      last := results[index].code;
      if !ShouldRotate(last) {
        return FailedAt(index, last);
      }
      done := done + 1;
    }
    return if done > 0 then AllFailed(last) else Nothing;
  }

  predicate AllRotate(results: seq<DialResult>, n: nat)
    requires n <= |results|
  {
    forall i :: 0 <= i < n ==> results[i].Down? && ShouldRotate(results[i].code)
  }

  // ---- Reconnect --------------------------------------------------------------------------------

  /** A reconnect's local variables, with the round as it began, the endpoints dialed so far and
      the indices dialed in the current round. */
  datatype Walk = Walk(
    effective: string, round: Round, endpoint: string, index: int, needRefresh: bool, stopped: bool,
    begun: Round, dials: seq<string>, tried: seq<nat>)

  /** Why the connection was lost; a redirect names a target. */
  datatype Loss = Redirected(target: string) | Lost(code: ErrorCode)

  /** What an attempt meets: the DNS answer, if it asks for one, and the result of its dial. */
  datatype Attempt = Attempt(hosts: seq<string>, dnsError: ErrorCode, dial: DialResult)

  function Rotated(w: Walk): Walk
    requires ValidRound(w.round)
  {
    if w.round.remaining == 0 then w.(endpoint := "", index := 0, needRefresh := true)
    else w.(endpoint := w.round.candidates[w.round.next], index := w.round.next, round := Advanced(w.round), needRefresh := false)
  }

  function Begun(w: Walk, hosts: seq<string>, cursor: int): Walk {
    w.(round := NewRound(hosts, cursor), begun := NewRound(hosts, cursor), tried := [])
  }

  function StartWalk(effective: string, hosts: seq<string>, cursor: int, loss: Loss): Walk {
    var round := NewRound(hosts, cursor);
    var w := Walk(effective, round, effective, -1, false, false, round, [], []);
    match loss
    case Redirected(target) => w.(endpoint := target)
    case Lost(code) => if ShouldRotate(code) then Rotated(w) else w
  }

  /** An empty host list stands for a failed lookup. */
  function Refreshed(w: Walk, a: Attempt): Walk {
    if !w.needRefresh then w
    else if a.hosts == [] then w.(stopped := IsTerminal(a.dnsError))
    else Rotated(Begun(w, a.hosts, 0))
  }

  function Dialed(w: Walk): Walk {
    w.(dials := w.dials + [w.endpoint], tried := if w.index >= 0 then w.tried + [w.index] else w.tried)
  }

  function Judged(w: Walk, dial: DialResult): Walk
    requires ValidRound(w.round)
  {
    if dial.Up? || IsTerminal(dial.code) then w.(stopped := true)
    else if ShouldRotate(dial.code) then Rotated(w)
    else w.(endpoint := w.effective, index := -1)
  }

  function Tried(w: Walk, a: Attempt): Walk
    requires ValidRound(w.round)
  {
    if w.stopped then w
    else if w.needRefresh && a.hosts == [] then Refreshed(w, a)
    else Judged(Dialed(Refreshed(w, a)), a.dial)
  }

  // ---- The walk's invariant ---------------------------------------------------------------------

  predicate AllNamed(hosts: seq<string>) {
    forall i :: 0 <= i < |hosts| ==> hosts[i] != ""
  }

  /** The index handed out and not yet dialed. */
  function InHand(w: Walk): seq<nat> {
    if w.index >= 0 && !w.needRefresh && !w.stopped then [w.index] else []
  }

  ghost predicate WalkOk(w: Walk) {
    && ValidRound(w.round) && ValidRound(w.begun) && w.begun.remaining == |w.begun.candidates|
    && w.round.candidates == w.begun.candidates && AllNamed(w.round.candidates) && w.effective != "" && AllNamed(w.dials)
    && Order(w.begun) == w.tried + InHand(w) + Order(w.round)
    && (if w.needRefresh then w.endpoint == "" && w.round.remaining == 0 else w.endpoint != "")
    && (!w.needRefresh && w.index >= 0 ==> w.index < |w.round.candidates| && w.endpoint == w.round.candidates[w.index])
  }

  lemma RotatedIsOk(w: Walk)
    requires ValidRound(w.round) && ValidRound(w.begun) && w.begun.remaining == |w.begun.candidates|
    requires w.round.candidates == w.begun.candidates && AllNamed(w.round.candidates) && w.effective != "" && AllNamed(w.dials)
    requires Order(w.begun) == w.tried + Order(w.round) && !w.stopped
    ensures WalkOk(Rotated(w))
  {
    if w.round.remaining > 0 {
      assert w.tried + Order(w.round) == w.tried + [w.round.next] + Order(Advanced(w.round));
    }
  }

  lemma StartIsOk(effective: string, hosts: seq<string>, cursor: int, loss: Loss)
    requires effective != "" && AllNamed(hosts) && (loss.Redirected? ==> loss.target != "")
    ensures WalkOk(StartWalk(effective, hosts, cursor, loss)) && !StartWalk(effective, hosts, cursor, loss).stopped
  {
    var round := NewRound(hosts, cursor);
    var w := Walk(effective, round, effective, -1, false, false, round, [], []);
    assert Order(w.begun) == w.tried + Order(w.round);
    RotatedIsOk(w);
  }

  lemma RefreshedIsOk(w: Walk, a: Attempt)
    requires WalkOk(w) && AllNamed(a.hosts) && !w.stopped
    ensures WalkOk(Refreshed(w, a))
    ensures a.hosts != [] ==> !Refreshed(w, a).needRefresh && !Refreshed(w, a).stopped
  {
    if w.needRefresh && a.hosts != [] {
      var v := Begun(w, a.hosts, 0);
      assert Order(v.begun) == v.tried + Order(v.round);
      RotatedIsOk(v);
    }
  }

  /** A dialed endpoint is no longer in hand. */
  lemma DialedOrder(w: Walk)
    requires WalkOk(w) && !w.stopped && !w.needRefresh
    ensures Dialed(w).tried == w.tried + InHand(w) && Order(w.begun) == Dialed(w).tried + Order(w.round)
    ensures AllNamed(Dialed(w).dials)
  {
    assert w.index < 0 ==> w.tried + InHand(w) == w.tried;
  }

  /** A walk that dials nothing more, or goes back to the effective endpoint, has nothing in hand. */
  lemma SettledIsOk(w: Walk)
    requires ValidRound(w.round) && ValidRound(w.begun) && w.begun.remaining == |w.begun.candidates|
    requires w.round.candidates == w.begun.candidates && AllNamed(w.round.candidates) && w.effective != "" && AllNamed(w.dials)
    requires Order(w.begun) == w.tried + Order(w.round) && !w.needRefresh && w.endpoint != ""
    requires w.index >= 0 ==> w.stopped && w.index < |w.round.candidates| && w.endpoint == w.round.candidates[w.index]
    ensures WalkOk(w)
  {
    assert w.tried + InHand(w) == w.tried;
  }

  lemma JudgedIsOk(w: Walk, dial: DialResult)
    requires WalkOk(w) && !w.stopped && !w.needRefresh
    ensures WalkOk(Judged(Dialed(w), dial))
  {
    var v := Dialed(w);
    DialedOrder(w);
    if dial.Up? || IsTerminal(dial.code) {
      SettledIsOk(v.(stopped := true));
    } else if ShouldRotate(dial.code) {
      RotatedIsOk(v);
    } else {
      SettledIsOk(v.(endpoint := v.effective, index := -1));
    }
  }

  lemma TriedIsOk(w: Walk, a: Attempt)
    requires WalkOk(w) && AllNamed(a.hosts)
    ensures WalkOk(Tried(w, a))
  {
    if !w.stopped {
      RefreshedIsOk(w, a);
      if !w.needRefresh || a.hosts != [] {
        JudgedIsOk(Refreshed(w, a), a.dial);
      }
    }
  }

  ghost function WalkAll(w: Walk, attempts: seq<Attempt>): Walk
    requires WalkOk(w) && forall i :: 0 <= i < |attempts| ==> AllNamed(attempts[i].hosts)
    decreases |attempts|
  {
    if attempts == [] then w
    else
      TriedIsOk(w, attempts[0]);
      WalkAll(Tried(w, attempts[0]), attempts[1..])
  }

  lemma {:induction false} WalkAllIsOk(w: Walk, attempts: seq<Attempt>)
    requires WalkOk(w) && forall i :: 0 <= i < |attempts| ==> AllNamed(attempts[i].hosts)
    ensures WalkOk(WalkAll(w, attempts))
    decreases |attempts|
  {
    if attempts != [] {
      TriedIsOk(w, attempts[0]);
      WalkAllIsOk(Tried(w, attempts[0]), attempts[1..]);
    }
  }

  // ---- Guarantees -------------------------------------------------------------------------------

  /** Over any attempts: the placeholder left by an exhausted round is never dialed, and a walk
      that will ask DNS again has dialed every candidate of its round exactly once, in circular
      order. */
  lemma WalkIsSound(effective: string, hosts: seq<string>, cursor: int, loss: Loss, attempts: seq<Attempt>)
    requires effective != "" && AllNamed(hosts) && (loss.Redirected? ==> loss.target != "")
    requires forall i :: 0 <= i < |attempts| ==> AllNamed(attempts[i].hosts)
    ensures WalkOk(StartWalk(effective, hosts, cursor, loss))
    ensures var w := WalkAll(StartWalk(effective, hosts, cursor, loss), attempts);
      && AllNamed(w.dials)
      && (w.needRefresh ==> Exhausts(w.tried, |w.round.candidates|))
      && (!w.needRefresh && !w.stopped ==> w.endpoint != "")
  {
    StartIsOk(effective, hosts, cursor, loss);
    var w := WalkAll(StartWalk(effective, hosts, cursor, loss), attempts);
    WalkAllIsOk(StartWalk(effective, hosts, cursor, loss), attempts);
    if w.needRefresh {
      assert w.tried == Order(w.begun);
      FullRoundExhausts(w.begun);
    }
  }

  /** Every index below n exactly once, each followed by its neighbour in the circle. */
  predicate Exhausts(order: seq<nat>, n: nat) {
    && |order| == n
    && (forall k :: 0 <= k < n - 1 ==> order[k + 1] == if order[k] + 1 < n then order[k] + 1 else 0)
    && (forall j, k :: 0 <= j < k < n ==> order[j] != order[k])
    && (forall i :: 0 <= i < n ==> i in order)
  }

  lemma FullRoundExhausts(r: Round)
    requires ValidRound(r) && r.remaining == |r.candidates|
    ensures Exhausts(Order(r), |r.candidates|)
  {
    if r.candidates != [] {
      WrapOnce(r.next, |r.candidates|);
      assert r == NewRound(r.candidates, r.next);
      RoundVisitsEachOnce(r.candidates, r.next);
    }
  }

  // ---- The reconnect loop -----------------------------------------------------------------------

  class Walker {
    var round: EndpointRound
    var endpoint: string
    var index: int
    var needRefresh: bool
    var stopped: bool
    const effective: string
    ghost var begun: Round
    ghost var dials: seq<string>
    ghost var tried: seq<nat>

    ghost function View(): Walk
      reads this, round
    {
      Walk(effective, round.View(), endpoint, index, needRefresh, stopped, begun, dials, tried)
    }

    constructor (effective: string, hosts: seq<string>, cursor: int, loss: Loss)
      ensures View() == StartWalk(effective, hosts, cursor, loss) && fresh(round)
    {
      this.effective, endpoint, index := effective, effective, -1;
      needRefresh, stopped := false, false;
      dials, tried := [], [];
      round := new EndpointRound(hosts, cursor);
      begun := NewRound(hosts, cursor);
      new;
      if loss.Redirected? {
        endpoint := loss.target;
      } else if ShouldRotate(loss.code) {
        Rotate();
      }
    }

    method Rotate()
      requires ValidRound(round.View())
      modifies this`endpoint, this`index, this`needRefresh, round
      ensures View() == Rotated(old(View()))
    {
      var found;
      endpoint, index, found := round.NextEndpoint();
      needRefresh := !found;
    }

    method Refresh(hosts: seq<string>)
      requires hosts != [] && needRefresh
      modifies this`round, this`endpoint, this`index, this`needRefresh, this`begun, this`tried
      ensures View() == Rotated(Begun(old(View()), hosts, 0)) && fresh(round)
    {
      round := new EndpointRound(hosts, 0);
      begun, tried := NewRound(hosts, 0), [];
      Rotate();
    }

    /** The end of an attempt, after its dial. */
    method Judge(dial: DialResult)
      requires ValidRound(round.View())
      modifies this`endpoint, this`index, this`needRefresh, this`stopped, round
      ensures View() == Judged(old(View()), dial)
    {
      if dial.Up? || IsTerminal(dial.code) {
        stopped := true;
      } else if ShouldRotate(dial.code) {
        Rotate();
      } else {
        endpoint, index := effective, -1;
      }
    }

    /** One attempt; `dialed` is the endpoint it dials, if it comes to that. */
    method Try(a: Attempt) returns (dialed: seq<string>)
      requires WalkOk(View()) && !stopped && AllNamed(a.hosts)
      modifies this, round
      ensures View() == Tried(old(View()), a) && (round == old(round) || fresh(round))
      ensures View().dials == old(View().dials) + dialed && AllNamed(dialed) && |dialed| <= 1
    {
      RefreshedIsOk(View(), a);
      ghost var before := View();
      if needRefresh {
        if a.hosts == [] {
          stopped := IsTerminal(a.dnsError);
          return [];
        }
        Refresh(a.hosts);
      }
      assert View() == Refreshed(before, a);
      dialed := [endpoint];
      dials := dials + [endpoint];
      if index >= 0 {
        tried := tried + [index];
      }
      assert View() == Dialed(Refreshed(before, a));
      Judge(a.dial);
    }
  }

  /** Attempts one after the other until one ends the walk. No attempt dials the placeholder. */
  method WalkEndpoints(effective: string, hosts: seq<string>, cursor: int, loss: Loss, attempts: seq<Attempt>) returns (dials: seq<string>)
    requires effective != "" && AllNamed(hosts) && (loss.Redirected? ==> loss.target != "")
    requires forall i :: 0 <= i < |attempts| ==> AllNamed(attempts[i].hosts)
    ensures WalkOk(StartWalk(effective, hosts, cursor, loss))
    ensures dials == WalkAll(StartWalk(effective, hosts, cursor, loss), attempts).dials
    ensures AllNamed(dials) && |dials| <= |attempts|
  {
    StartIsOk(effective, hosts, cursor, loss);
    var walker := new Walker(effective, hosts, cursor, loss);
    dials := [];
    var n := 0;
    while n < |attempts| && !walker.stopped
      invariant fresh(walker) && fresh(walker.round)
      invariant 0 <= n <= |attempts| && |dials| <= n && AllNamed(dials)
      invariant WalkOk(walker.View()) && walker.View().dials == dials
      invariant WalkAll(StartWalk(effective, hosts, cursor, loss), attempts) == WalkAll(walker.View(), attempts[n..])
      decreases |attempts| - n
    {
      TriedIsOk(walker.View(), attempts[n]);
      assert attempts[n..][1..] == attempts[n + 1..];
      var dialed := walker.Try(attempts[n]);
      dials := dials + dialed;
      n := n + 1;
    }
    StoppedStays(walker.View(), attempts[n..]);
  }

  lemma {:induction false} StoppedStays(w: Walk, attempts: seq<Attempt>)
    requires WalkOk(w) && forall i :: 0 <= i < |attempts| ==> AllNamed(attempts[i].hosts)
    ensures w.stopped || attempts == [] ==> WalkAll(w, attempts) == w
    decreases |attempts|
  {
    if attempts != [] && w.stopped {
      StoppedStays(w, attempts[1..]);
    }
  }
}
