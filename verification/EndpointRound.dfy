/** One circular pass over the DNS candidates, and the walk over endpoints that a login and a
    reconnect make with it. */
module EndpointRounds {

  /** `next` is the index to hand out and `remaining` how many are still to be handed out. */
  datatype Round = Round(candidates: seq<string>, next: nat, remaining: nat)

  predicate ValidRound(r: Round) {
    r.remaining <= |r.candidates| && (r.candidates != [] ==> r.next < |r.candidates|)
  }

  /** The source's remainder, which truncates toward zero. */
  function Remainder(a: int, n: int): int
    requires n > 0
  {
    if a >= 0 then a % n else -((-a) % n)
  }

  function NewRound(candidates: seq<string>, start: int): (r: Round)
    ensures ValidRound(r) && r.candidates == candidates && r.remaining == |candidates|
    ensures candidates != [] ==> r.next == start % |candidates|
  {
    if candidates == [] then Round(candidates, 0, 0)
    else
      var s := Remainder(start, |candidates|);
      NegativeStart(start, |candidates|);
      Round(candidates, if s < 0 then s + |candidates| else s, |candidates|)
  }

  lemma NegativeStart(a: int, n: int)
    requires n > 0
    ensures a % n == if Remainder(a, n) < 0 then Remainder(a, n) + n else Remainder(a, n)
  {
    if a < 0 {
      var q, m := (-a) / n, (-a) % n;
      if m == 0 {
        SameResidue(a, 0, -q, n);
      } else {
        SameResidue(a, n - m, -q - 1, n);
      }
    }
  }

  lemma SameResidue(a: int, r: int, q: int, n: int)
    requires n > 0 && 0 <= r < n && a == q * n + r
    ensures a % n == r
  {
    var q', r' := a / n, a % n;
    assert (q' - q) * n == r - r';
    ProductIsFar(q' - q, n);
  }

  lemma ProductIsFar(d: int, n: int)
    requires n > 0
    ensures d >= 1 ==> d * n >= n
    ensures d <= -1 ==> d * n <= -n
  {
  }

  /** The next index in the circle. */
  function After(i: nat, n: nat): (r: nat)
    requires i < n
    ensures r < n
  {
    (i + 1) % n
  }

  function Advanced(r: Round): Round
    requires ValidRound(r) && r.remaining > 0
  {
    r.(next := After(r.next, |r.candidates|), remaining := r.remaining - 1)
  }

  /** The indices a round will hand out, in order. */
  function Order(r: Round): seq<nat>
    requires ValidRound(r)
    decreases r.remaining
  {
    if r.remaining == 0 then [] else [r.next] + Order(Advanced(r))
  }

  // ---- What a round hands out -------------------------------------------------------------------

  lemma WrapOnce(a: nat, n: nat)
    requires n > 0 && a < 2 * n
    ensures a % n == if a < n then a else a - n
  {
    if a < n {
      SameResidue(a, a, 0, n);
    } else {
      SameResidue(a, a - n, 1, n);
    }
  }

  /** Circular order: position k of the rest of a round is k steps past the next index. */
  lemma {:induction false} OrderIsCircular(r: Round, k: nat)
    requires ValidRound(r) && k < r.remaining
    ensures |Order(r)| == r.remaining
    ensures Order(r)[k] == if r.next + k < |r.candidates| then r.next + k else r.next + k - |r.candidates|
    decreases r.remaining
  {
    WrapOnce(r.next + 1, |r.candidates|);
    if r.remaining > 1 {
      OrderIsCircular(Advanced(r), if k > 0 then k - 1 else 0);
    } else {
      assert Order(Advanced(r)) == [];
    }
  }

  lemma OrderLength(r: Round)
    requires ValidRound(r)
    ensures |Order(r)| == r.remaining
  {
    if r.remaining > 0 {
      OrderIsCircular(r, 0);
    }
  }

  /** Where a full round hands out index i. */
  function Position(start: nat, n: nat, i: nat): nat
    requires start < n && i < n
  {
    if i >= start then i - start else i + n - start
  }

  /** From any start, negative or beyond the list, a round hands out every index exactly once, in
      circular order beginning at the start modulo the number of candidates. */
  lemma RoundVisitsEachOnce(candidates: seq<string>, start: int)
    ensures var order, n := Order(NewRound(candidates, start)), |candidates|;
      && |order| == n
      && (n > 0 ==> order[0] == start % n)
      && (forall k :: 0 <= k < n ==> 0 <= order[k] < n)
      && (forall k :: 0 <= k < n - 1 ==> order[k + 1] == if order[k] + 1 < n then order[k] + 1 else 0)
      && (forall j, k :: 0 <= j < k < n ==> order[j] != order[k])
      && (forall i :: 0 <= i < n ==> i in order)
  {
    var r, n := NewRound(candidates, start), |candidates|;
    OrderLength(r);
    forall k: nat | k < n
      ensures Order(r)[k] == if r.next + k < n then r.next + k else r.next + k - n
    {
      OrderIsCircular(r, k);
    }
    forall i: nat | i < n
      ensures i in Order(r)
    {
      assert Order(r)[Position(r.next, n, i)] == i;
    }
  }

  /** Where the next round begins after a connection over candidate `used`. */
  function NextCursor(used: int, count: nat): (cursor: int)
    ensures used < 0 ==> cursor == 0
    ensures count > 0 ==> 0 <= cursor < count
  {
    if count == 0 || used < 0 then 0 else (used + 1) % count
  }

  /** The endpoint that was just in use is the last one the next round tries. */
  lemma UsedEndpointComesLast(candidates: seq<string>, used: nat)
    requires used < |candidates|
    ensures var order := Order(NewRound(candidates, NextCursor(used, |candidates|)));
      |order| == |candidates| && order[|candidates| - 1] == used
  {
    var n := |candidates|;
    var r := NewRound(candidates, NextCursor(used, n));
    WrapOnce(used + 1, n);
    WrapOnce(NextCursor(used, n), n);
    OrderIsCircular(r, n - 1);
  }

  // ---- The round as an object -------------------------------------------------------------------

  class EndpointRound {
    const candidates: seq<string>
    var next: nat
    var remaining: nat

    ghost function View(): Round
      reads this
    {
      Round(candidates, next, remaining)
    }

    constructor (candidates: seq<string>, start: int)
      ensures View() == NewRound(candidates, start)
    {
      this.candidates := candidates;
      if candidates == [] {
        next, remaining := 0, 0;
      } else {
        var s := Remainder(start, |candidates|);
        NegativeStart(start, |candidates|);
        if s < 0 {
          s := s + |candidates|;
        }
        next, remaining := s, |candidates|;
      }
    }

    /** Hands out the head of the order and keeps its tail, until nothing is left. */
    method NextEndpoint() returns (endpoint: string, index: nat, ok: bool)
      requires ValidRound(View())
      modifies this`next, this`remaining
      ensures ValidRound(View()) && ok == (old(Order(View())) != [])
      ensures ok ==> old(Order(View())) == [index] + Order(View()) && index < |candidates| && endpoint == candidates[index]
      ensures !ok ==> endpoint == "" && index == 0 && View() == old(View())
      ensures ok ==> index == old(next) && View() == Advanced(old(View()))
    {
      if remaining == 0 || |candidates| == 0 {
        return "", 0, false;
      }
      index := next;
      endpoint := candidates[index];
      next := (next + 1) % |candidates|;
      remaining := remaining - 1;
      return endpoint, index, true;
    }
  }
}
