/** The weighted semaphore that bounds in-memory work: its mutex sections as a class, and
    the blocking `Acquire` protocol as a step system over any number of callers. */
module ByteBudgets {
  import opened MapSums

  const MAX_INT64: int := 0x7fff_ffff_ffff_ffff

  type Int64 = x: int | -MAX_INT64 - 1 <= x <= MAX_INT64

  /** `Granted` is the source's (true, nil), `Full` is (false, nil) and `Invariant` an ownership error. */
  datatype Acquisition = Granted | Full | Invariant

  predicate Sound(limit: int, used: int) {
    0 <= used <= limit <= MAX_INT64
  }

  /** What a request is worth asking for at all: positive and within the whole budget. */
  predicate Admissible(limit: int, n: int) {
    0 < n <= limit
  }

  function TryOutcome(limit: int, used: int, n: int): Acquisition {
    if !Sound(limit, used) || !Admissible(limit, n) then Invariant
    else if n > limit - used then Full
    else Granted
  }

  class ByteBudget {
    var limit: Int64
    var used: Int64
    var wait: nat  // the number of the open wait channel; every lower number is a closed channel

    constructor (limit: Int64)
      requires limit >= 0
      ensures this.limit == limit && used == 0 && wait == 0
    {
      this.limit, used, wait := limit, 0, 0;
    }

    method ValidateAcquire(n: Int64) returns (ok: bool)
      ensures ok <==> Sound(limit, used) && Admissible(limit, n)
    {
      if limit < 0 || used < 0 || used > limit {
        return false;
      }
      if n <= 0 {
        return false;
      }
      return n <= limit;
    }

    /** Both Int64 results below stay in range, so the source's subtraction and addition cannot wrap. */
    method TryAcquire(n: Int64) returns (outcome: Acquisition)
      modifies this`used
      ensures outcome == TryOutcome(limit, old(used), n)
      ensures used == old(used) + (if outcome.Granted? then n else 0)
      ensures old(Sound(limit, used)) ==> Sound(limit, used)
    {
      var ok := ValidateAcquire(n);
      if !ok {
        return Invariant;
      }
      var room: Int64 := limit - used;
      if n > room {
        return Full;
      }
      used := used + n;
      return Granted;
    }

    /** A rejected release changes nothing; an accepted one also closes the open wait channel. */
    method Release(n: Int64) returns (ok: bool)
      modifies this`used, this`wait
      ensures ok <==> old(Sound(limit, used)) && 0 < n <= old(used)
      ensures used == old(used) - (if ok then n else 0)
      ensures wait == old(wait) + (if ok then 1 else 0)
      ensures old(Sound(limit, used)) ==> Sound(limit, used)
    {
      if limit < 0 || used < 0 || used > limit {
        return false;
      }
      if n <= 0 || n > used {
        return false;
      }
      used := used - n;
      wait := wait + 1;
      return true;
    }
  }

  // ---- The blocking protocol -------------------------------------------------------------

  /** A caller inside `Acquire`: about to compete, or parked on a numbered wait channel. */
  datatype Waiter = Ready(n: int) | Blocked(n: int, channel: nat)

  datatype Semaphore = Semaphore(
    limit: int, used: int, wait: nat,
    waiters: map<nat, Waiter>,  // callers inside Acquire
    held: map<nat, int>         // reservations granted and not yet released
  )

  datatype SemStep =
    | Enter(id: nat, n: int)       // Acquire validates its request
    | Compete(id: nat)             // one locked pass of the Acquire loop
    | Wake(id: nat)                // the parked caller sees its channel closed
    | Cancel(id: nat)              // the caller's context ends
    | TryNow(id: nat, n: int)      // a TryAcquire call
    | GiveBack(id: nat)            // Release of a held reservation

  function InitSem(limit: nat): Semaphore {
    Semaphore(limit, 0, 0, map[], map[])
  }

  function SemNext(s: Semaphore, step: SemStep): Semaphore {
    match step
    case Enter(id, n) =>
      if id in s.waiters || id in s.held || !Sound(s.limit, s.used) || !Admissible(s.limit, n) then s
      else s.(waiters := s.waiters[id := Ready(n)])
    case Compete(id) =>
      if id !in s.waiters || !s.waiters[id].Ready? then s else
      var n := s.waiters[id].n;
      (match TryOutcome(s.limit, s.used, n)
       case Granted => s.(used := s.used + n, waiters := s.waiters - {id}, held := s.held[id := n])
       case Full => s.(waiters := s.waiters[id := Blocked(n, s.wait)])
       case Invariant => s.(waiters := s.waiters - {id}))
    case Wake(id) =>
      if id !in s.waiters || !s.waiters[id].Blocked? || s.waiters[id].channel >= s.wait then s
      else s.(waiters := s.waiters[id := Ready(s.waiters[id].n)])
    case Cancel(id) =>
      s.(waiters := s.waiters - {id})
    case TryNow(id, n) =>
      if id in s.waiters || id in s.held || !TryOutcome(s.limit, s.used, n).Granted? then s
      else s.(used := s.used + n, held := s.held[id := n])
    case GiveBack(id) =>
      if id !in s.held || !(Sound(s.limit, s.used) && 0 < s.held[id] <= s.used) then s
      else s.(used := s.used - s.held[id], wait := s.wait + 1, held := s.held - {id})
  }

  function SemRun(s: Semaphore, steps: seq<SemStep>): Semaphore
    decreases |steps|
  {
    if steps == [] then s else SemRun(SemNext(s, steps[0]), steps[1..])
  }

  ghost predicate SemInv(s: Semaphore) {
    && Sound(s.limit, s.used)
    && s.waiters.Keys !! s.held.Keys
    && s.used == Sum(s.held)
    && (forall id :: id in s.held ==> 0 < s.held[id] <= s.limit)
    && (forall id :: id in s.waiters ==> Admissible(s.limit, s.waiters[id].n))
    && (forall id :: id in s.waiters && s.waiters[id].Blocked? ==> s.waiters[id].channel <= s.wait)
    && NoLostWakeup(s)
  }

  /** A caller parked on the channel that is still open really does not fit. */
  ghost predicate NoLostWakeup(s: Semaphore) {
    forall id :: id in s.waiters && s.waiters[id].Blocked? && s.waiters[id].channel == s.wait
      ==> s.waiters[id].n > s.limit - s.used
  }

  lemma SemStepKeepsInv(s: Semaphore, step: SemStep)
    requires SemInv(s)
    ensures SemInv(SemNext(s, step))
    ensures SemNext(s, step).limit == s.limit
  {
    match step
    case Compete(id) =>
      if id in s.waiters {
        SumUpdate(s.held, id, s.waiters[id].n);
      }
    case TryNow(id, n) =>
      SumUpdate(s.held, id, n);
    case GiveBack(id) =>
      if id in s.held {
        SumRemove(s.held, id);
      }
    case _ =>
  }

  lemma {:induction false} SemRunKeepsInv(s: Semaphore, steps: seq<SemStep>)
    requires SemInv(s)
    ensures SemInv(SemRun(s, steps)) && SemRun(s, steps).limit == s.limit
    decreases |steps|
  {
    if steps != [] {
      SemStepKeepsInv(s, steps[0]);
      SemRunKeepsInv(SemNext(s, steps[0]), steps[1..]);
    }
  }

  /** Every reachable state of the semaphore, under any interleaving of any callers: usage is
      exactly what is held and within the limit, a release of something held is never refused,
      and a parked caller whose request fits can wake up and is then granted. In particular
      nobody stays parked once nothing is held. */
  lemma SemaphoreSafety(limit: nat, steps: seq<SemStep>)
    requires limit <= MAX_INT64
    ensures var s := SemRun(InitSem(limit), steps);
      && 0 <= s.used <= limit
      && s.used == Sum(s.held)
      && (forall id :: id in s.held ==> 0 < s.held[id] <= s.used)
      && (forall id :: id in s.waiters && s.waiters[id].Blocked? && s.waiters[id].n <= s.limit - s.used ==>
            id in SemNext(SemNext(s, Wake(id)), Compete(id)).held)
      && (s.held == map[] ==> (forall id :: id in s.waiters ==> s.waiters[id].n <= s.limit - s.used))
  {
    SemRunKeepsInv(InitSem(limit), steps);
    var s := SemRun(InitSem(limit), steps);
    forall id | id in s.held
      ensures 0 < s.held[id] <= s.used
    {
      SumBoundsEntry(s.held, id);
    }
  }
}
