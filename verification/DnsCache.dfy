/** The shared DNS resolver: the sections that run under its mutex as functions on the cache,
    and as an object with the source's loops. Clock readings are inputs. */
module DnsCache {
  import opened Common

  /** Distinct HTTP clients never share an entry, whatever their configuration. */
  datatype CacheKey = CacheKey(appKey: string, httpClient: nat)

  datatype Endpoints = Endpoints(wss: seq<string>, rest: string)

  /** What the loader returned; an error is a number. */
  datatype LoadResult = Loaded(endpoints: Endpoints) | LoadFailed(error: nat, transient: bool)

  datatype Resolution = Resolution(endpoints: Endpoints, generation: nat, stale: bool)

  datatype Entry = Entry(
    endpoints: Endpoints, hasValue: bool, fetchedAt: int, generation: nat,
    flight: Option<nat>,
    failures: nat, refreshNotBefore: Option<int>, lastErr: Option<nat>, lastTransient: bool)

  const EMPTY_ENTRY: Entry := Entry(Endpoints([], ""), false, 0, 0, None, 0, None, None, false)

  /** `lru` lists the keys, most recently used first. */
  datatype Cache = Cache(entries: map<CacheKey, Entry>, lru: seq<CacheKey>, capacity: nat,
                         freshTTL: int, staleTTL: int, generation: nat)

  // ---- Cooldown -------------------------------------------------------------------------------

  const COOLDOWN: int := 5
  const MAX_COOLDOWN: int := 120

  ghost function Pow2(n: nat): nat {
    if n == 0 then 1 else 2 * Pow2(n - 1)
  }

  /** In seconds: 5 doubled for every further failure, at most 120. */
  ghost function Cooldown(failures: nat): int {
    if failures < 1 then 0
    else if COOLDOWN * Pow2(failures - 1) < MAX_COOLDOWN then COOLDOWN * Pow2(failures - 1)
    else MAX_COOLDOWN
  }

  lemma {:induction false} Pow2Grows(m: nat, n: nat)
    requires m <= n
    ensures Pow2(m) <= Pow2(n)
    decreases n - m
  {
    if m < n {
      Pow2Grows(m, n - 1);
    }
  }

  method RefreshCooldown(failures: int) returns (delay: int)
    ensures failures < 1 ==> delay == 0
    ensures failures >= 1 ==> delay == Cooldown(failures)
  {
    if failures < 1 {
      return 0;
    }
    delay := COOLDOWN;
    var i := 1;
    while i < failures && delay < MAX_COOLDOWN
      invariant 1 <= i <= failures && delay == COOLDOWN * Pow2(i - 1) < MAX_COOLDOWN
    {
      delay := delay * 2;
      if delay >= MAX_COOLDOWN {
        Pow2Grows(i, failures - 1);
        return MAX_COOLDOWN;
      }
      i := i + 1;
    }
  }

  // ---- Sections -------------------------------------------------------------------------------

  function Without(s: seq<CacheKey>, k: CacheKey): seq<CacheKey> {
    if s == [] then []
    else if s[0] == k then Without(s[1..], k)
    else [s[0]] + Without(s[1..], k)
  }

  function Touch(c: Cache, k: CacheKey): Cache {
    c.(lru := [k] + Without(c.lru, k))
  }

  function Evict(c: Cache, k: CacheKey): Cache {
    c.(entries := c.entries - {k}, lru := Without(c.lru, k))
  }

  /** The least recently used of the first n keys that has no load running. */
  function Victim(c: Cache, n: nat): (v: Option<CacheKey>)
    requires n <= |c.lru|
    ensures v.Some? ==> v.value in c.lru && v.value in c.entries && c.entries[v.value].flight.None?
  {
    if n == 0 then None
    else if c.lru[n - 1] in c.entries && c.entries[c.lru[n - 1]].flight.None? then Some(c.lru[n - 1])
    else Victim(c, n - 1)
  }

  lemma {:induction false} WithoutShrinks(s: seq<CacheKey>, k: CacheKey)
    ensures |Without(s, k)| <= |s|
    ensures k in s ==> |Without(s, k)| < |s|
  {
    if s != [] {
      WithoutShrinks(s[1..], k);
    }
  }

  /** Evicts until there is room; the flag is false when every entry turned out busy. */
  function MakeRoom(c: Cache): (Cache, bool)
    decreases |c.lru|
  {
    if |c.entries| < c.capacity then (c, true)
    else
      var victim := Victim(c, |c.lru|);
      if victim.None? then (c, false)
      else
        WithoutShrinks(c.lru, victim.value);
        MakeRoom(Evict(c, victim.value))
  }

  function Insert(c: Cache, k: CacheKey): (Cache, bool) {
    var room := MakeRoom(c);
    if !room.1 then room
    else (room.0.(entries := room.0.entries[k := EMPTY_ENTRY], lru := [k] + room.0.lru), true)
  }

  function FromEntry(e: Entry, stale: bool): Resolution {
    Resolution(e.endpoints, e.generation, stale)
  }

  /** What a lookup decides under the mutex. */
  datatype Answer =
    | Hit(resolution: Resolution)
    | Join(flight: nat)
    | Refused(error: Option<nat>)
    | Start
    | Overflow

  predicate IsFresh(c: Cache, e: Entry, known: nat, now: int) {
    e.hasValue && now - e.fetchedAt <= c.freshTTL && e.generation > known
  }

  predicate MayServeStale(c: Cache, e: Entry, now: int) {
    e.lastTransient && e.hasValue && now - e.fetchedAt <= c.staleTTL
  }

  predicate CoolingDown(e: Entry, now: int) {
    e.refreshNotBefore.Some? && now < e.refreshNotBefore.value
  }

  /** A lookup; `flight` names the load it starts, if it starts one. */
  function Resolve(c: Cache, k: CacheKey, known: nat, now: int, flight: nat): (Cache, Answer) {
    if k in c.entries then
      var c', e := Touch(c, k), c.entries[k];
      if IsFresh(c, e, known, now) then (c', Hit(FromEntry(e, false)))
      else if e.flight.Some? then (c', Join(e.flight.value))
      else if CoolingDown(e, now) then
        (c', if MayServeStale(c, e, now) then Hit(FromEntry(e, true)) else Refused(e.lastErr))
      else (Launch(c', k, flight), Start)
    else
      var room := Insert(c, k);
      if !room.1 then (room.0, Overflow) else (Launch(room.0, k, flight), Start)
  }

  function Launch(c: Cache, k: CacheKey, flight: nat): Cache {
    if k in c.entries then c.(entries := c.entries[k := c.entries[k].(flight := Some(flight))]) else c
  }

  /** How a load ended for everyone waiting on it. */
  datatype Landing = Landed(resolution: Resolution) | Failed(error: nat) | Superseded

  ghost function Refreshed(e: Entry, endpoints: Endpoints, generation: nat, now: int): Entry {
    Entry(endpoints, true, now, generation, None, 0, None, None, false)
  }

  ghost function Burned(e: Entry, error: nat, transient: bool, now: int): Entry {
    e.(flight := None, failures := e.failures + 1, lastErr := Some(error), lastTransient := transient,
       refreshNotBefore := Some(now + Cooldown(e.failures + 1)))
  }

  /** The end of a load. An entry that is gone or carries another load was superseded. */
  ghost function Settle(c: Cache, k: CacheKey, flight: nat, now: int, result: LoadResult): (Cache, Landing) {
    if k !in c.entries || c.entries[k].flight != Some(flight) then (c, Superseded)
    else
      var e := c.entries[k];
      match result
      case Loaded(endpoints) =>
        var e' := Refreshed(e, endpoints, c.generation + 1, now);
        (c.(entries := c.entries[k := e'], generation := c.generation + 1), Landed(FromEntry(e', false)))
      case LoadFailed(error, transient) =>
        var e' := Burned(e, error, transient, now);
        (c.(entries := c.entries[k := e']),
         if MayServeStale(c, e', now) then Landed(FromEntry(e', true)) else Failed(error))
  }

  // ---- The cache as an object -------------------------------------------------------------------

  class DnsResolver {
    var entries: map<CacheKey, Entry>
    var lru: seq<CacheKey>
    var generation: nat
    const capacity: nat
    const freshTTL: int
    const staleTTL: int

    ghost function View(): Cache
      reads this
    {
      Cache(entries, lru, capacity, freshTTL, staleTTL, generation)
    }

    constructor (capacity: int, freshTTL: int, staleTTL: int)
      ensures View() == Cache(map[], [], if capacity < 1 then 1 else capacity, freshTTL, staleTTL, 0)
    {
      this.capacity := if capacity < 1 then 1 else capacity;
      this.freshTTL, this.staleTTL := freshTTL, staleTTL;
      entries, lru, generation := map[], [], 0;
    }

    /** The inner loop of the eviction: from the back of the list to its front. */
    method FindVictim() returns (victim: Option<CacheKey>)
      ensures victim == Victim(View(), |lru|)
    {
      var n := |lru|;
      while n > 0
        invariant 0 <= n <= |lru| && Victim(View(), |lru|) == Victim(View(), n)
      {
        if lru[n - 1] in entries && entries[lru[n - 1]].flight == None {
          return Some(lru[n - 1]);
        }
        n := n - 1;
      }
      return None;
    }

    method InsertLocked(k: CacheKey) returns (inserted: bool)
      modifies this`entries, this`lru
      ensures (View(), inserted) == Insert(old(View()), k)
    {
      while |entries| >= capacity
        invariant MakeRoom(View()) == MakeRoom(old(View()))
        decreases |lru|
      {
        var victim := FindVictim();
        if victim == None {
          return false;
        }
        WithoutShrinks(lru, victim.value);
        entries := entries - {victim.value};
        lru := Without(lru, victim.value);
      }
      entries := entries[k := EMPTY_ENTRY];
      lru := [k] + lru;
      return true;
    }

    method ResolveLocked(k: CacheKey, known: nat, now: int, flight: nat) returns (answer: Answer)
      modifies this`entries, this`lru
      ensures (View(), answer) == Resolve(old(View()), k, known, now, flight)
    {
      if k in entries {
        var e := entries[k];
        lru := [k] + Without(lru, k);
        if e.hasValue && now - e.fetchedAt <= freshTTL && e.generation > known {
          return Hit(FromEntry(e, false));
        }
        if e.flight.Some? {
          return Join(e.flight.value);
        }
        if e.refreshNotBefore.Some? && now < e.refreshNotBefore.value {
          if e.lastTransient && e.hasValue && now - e.fetchedAt <= staleTTL {
            return Hit(FromEntry(e, true));
          }
          return Refused(e.lastErr);
        }
      } else {
        var inserted := InsertLocked(k);
        if !inserted {
          return Overflow;
        }
      }
      entries := entries[k := entries[k].(flight := Some(flight))];
      return Start;
    }

    method SettleLocked(k: CacheKey, flight: nat, now: int, result: LoadResult) returns (landing: Landing)
      modifies this`entries, this`generation
      ensures (View(), landing) == Settle(old(View()), k, flight, now, result)
    {
      if k !in entries || entries[k].flight != Some(flight) {
        return Superseded;
      }
      var e := entries[k].(flight := None);
      match result
      case Loaded(endpoints) =>
        generation := generation + 1;
        e := e.(endpoints := endpoints, hasValue := true, fetchedAt := now, generation := generation,
                failures := 0, refreshNotBefore := None, lastErr := None, lastTransient := false);
        entries := entries[k := e];
        return Landed(FromEntry(e, false));
      case LoadFailed(error, transient) =>
        var delay := RefreshCooldown(e.failures + 1);
        e := e.(failures := e.failures + 1, lastErr := Some(error), lastTransient := transient,
                refreshNotBefore := Some(now + delay));
        entries := entries[k := e];
        if transient && e.hasValue && now - e.fetchedAt <= staleTTL {
          return Landed(FromEntry(e, true));
        }
        return Failed(error);
    }
  }
}
