/** The shared resolver under any interleaving of lookups and loads. */
module DnsProperties {
  import opened Common
  import opened DnsCache

  const OVERFLOW_SLOTS: nat := 8

  /** A load for a cache entry, a load outside the full cache, or a load that has ended. */
  datatype Flight = Running(k: CacheKey) | Uncached(k: CacheKey) | Done(k: CacheKey, landing: Landing)

  datatype Reply = Resolved(resolution: Resolution) | Unresolved

  /** A lookup call: waiting for an overflow slot or for a load, or answered. */
  datatype Call =
    | WaitingSlot(k: CacheKey, known: nat)
    | Waiting(k: CacheKey, flight: nat, known: nat)
    | Answered(k: CacheKey, known: nat, reply: Reply)

  /** A finished load of a cache entry and the generation after it, or a new entry. */
  datatype Event =
    | Event(k: CacheKey, result: LoadResult, at: int, generation: nat)
    | Inserted(k: CacheKey)

  /** A successful load of any kind. */
  datatype Load = Load(k: CacheKey, endpoints: Endpoints, generation: nat)

  /** `log` holds the entries made and their loads, `asks` the keys looked up, oldest first, and `loads`
      are all successful loads so far, inside and outside the cache. */
  datatype Dns = Dns(c: Cache, flights: map<nat, Flight>, calls: map<nat, Call>, log: seq<Event>, asks: seq<CacheKey>,
                     loads: set<Load>)

  datatype DnsStep =
    | Ask(call: nat, k: CacheKey, known: nat, now: int, flight: nat)
    | TakeSlot(call: nat, flight: nat)
    | Land(flight: nat, now: int, result: LoadResult)
    | Collect(call: nat)
    | GiveUp(call: nat)

  ghost function DnsNext(d: Dns, step: DnsStep): Dns {
    match step
    case Ask(call, k, known, now, flight) =>
      if call in d.calls || flight in d.flights || known > d.c.generation then d else AskStep(d, call, k, known, now, flight)
    case TakeSlot(call, flight) =>
      if call !in d.calls || !d.calls[call].WaitingSlot? || flight in d.flights || |Slots(d)| >= OVERFLOW_SLOTS then d
      else d.(flights := d.flights[flight := Uncached(d.calls[call].k)], calls := d.calls[call := Waiting(d.calls[call].k, flight, d.calls[call].known)])
    case Land(flight, now, result) =>
      if flight !in d.flights || d.flights[flight].Done? then d
      else if d.flights[flight].Running? then LandStep(d, flight, now, result)
      else LandUncached(d, flight, result)
    case Collect(call) =>
      if call !in d.calls || !d.calls[call].Waiting? || d.calls[call].flight !in d.flights || !d.flights[d.calls[call].flight].Done? then d
      else d.(calls := d.calls[call := Answered(d.calls[call].k, d.calls[call].known, ReplyOf(d.flights[d.calls[call].flight].landing))])
    case GiveUp(call) =>
      if call !in d.calls || d.calls[call].Answered? then d
      else d.(calls := d.calls[call := Answered(d.calls[call].k, d.calls[call].known, Unresolved)])
  }

  ghost function Slots(d: Dns): set<nat> {
    set f | f in d.flights && d.flights[f].Uncached?
  }

  function ReplyOf(landing: Landing): Reply {
    if landing.Landed? then Resolved(landing.resolution) else Unresolved
  }

  ghost function AskStep(d: Dns, call: nat, k: CacheKey, known: nat, now: int, flight: nat): Dns {
    var r := Resolve(d.c, k, known, now, flight);
    Asked(d, r.0, r.1, call, k, known, flight)
  }

  /** What becomes of a lookup once the section has left cache c and given its answer. */
  ghost function Asked(d: Dns, c: Cache, answer: Answer, call: nat, k: CacheKey, known: nat, flight: nat): Dns {
    Dns(c, if answer.Start? then d.flights[flight := Running(k)] else d.flights,
        d.calls[call := CallFor(answer, k, known, flight)],
        if answer.Start? && k !in d.c.entries then d.log + [Inserted(k)] else d.log, d.asks + [k], d.loads)
  }

  function CallFor(answer: Answer, k: CacheKey, known: nat, flight: nat): Call {
    match answer
    case Hit(resolution) => Answered(k, known, Resolved(resolution))
    case Join(f) => Waiting(k, f, known)
    case Refused(_) => Answered(k, known, Unresolved)
    case Start => Waiting(k, flight, known)
    case Overflow => WaitingSlot(k, known)
  }

  ghost function LandStep(d: Dns, flight: nat, now: int, result: LoadResult): Dns
    requires flight in d.flights && d.flights[flight].Running?
  {
    var k := d.flights[flight].k;
    var r := Settle(d.c, k, flight, now, result);
    d.(c := r.0, flights := d.flights[flight := Done(k, r.1)],
       loads := if r.1.Landed? && !r.1.resolution.stale then d.loads + {LoadOf(k, r.1.resolution)} else d.loads,
       log := if r.1.Superseded? then d.log else d.log + [Event(k, result, now, r.0.generation)])
  }

  function LoadOf(k: CacheKey, r: Resolution): Load {
    Load(k, r.endpoints, r.generation)
  }

  ghost function LandUncached(d: Dns, flight: nat, result: LoadResult): Dns
    requires flight in d.flights && d.flights[flight].Uncached?
  {
    var k := d.flights[flight].k;
    match result
    case Loaded(endpoints) =>
      var g := d.c.generation + 1;
      d.(c := d.c.(generation := g), flights := d.flights[flight := Done(k, Landed(Resolution(endpoints, g, false)))],
         loads := d.loads + {Load(k, endpoints, g)})
    case LoadFailed(error, _) => d.(flights := d.flights[flight := Done(k, Failed(error))])
  }

  ghost function DnsRun(d: Dns, steps: seq<DnsStep>): Dns
    decreases |steps|
  {
    if steps == [] then d else DnsRun(DnsNext(d, steps[0]), steps[1..])
  }

  // ---- Structure: map, list and flights -------------------------------------------------------

  /** The list names each cached key once and nothing else, within capacity. */
  ghost predicate Listed(c: Cache) {
    && NoDuplicates(c.lru)
    && (forall k :: k in c.lru <==> k in c.entries)
    && |c.entries| <= c.capacity && c.capacity >= 1
  }

  /** Running loads and marked entries correspond one to one. */
  ghost predicate OneFlightEach(c: Cache, flights: map<nat, Flight>) {
    && (forall k :: k in c.entries && c.entries[k].flight.Some? ==>
          c.entries[k].flight.value in flights && flights[c.entries[k].flight.value] == Running(k))
    && (forall f :: f in flights && flights[f].Running? ==>
          flights[f].k in c.entries && c.entries[flights[f].k].flight == Some(f))
  }

  lemma {:induction false} WithoutKeepsOthers(s: seq<CacheKey>, k: CacheKey)
    ensures forall x :: x in Without(s, k) <==> x in s && x != k
    ensures NoDuplicates(s) ==> NoDuplicates(Without(s, k))
  {
    if s != [] {
      WithoutKeepsOthers(s[1..], k);
      assert forall x :: x in s <==> x == s[0] || x in s[1..];
      if NoDuplicates(s) {
        assert s[0] !in s[1..];
        assert s[0] !in Without(s[1..], k);
      }
    }
  }

  lemma TouchKeepsListed(c: Cache, k: CacheKey)
    requires Listed(c) && k in c.entries
    ensures Listed(Touch(c, k))
  {
    WithoutKeepsOthers(c.lru, k);
  }

  lemma EvictKeepsListed(c: Cache, k: CacheKey)
    requires Listed(c) && k in c.entries
    ensures Listed(Evict(c, k)) && |Evict(c, k).entries| == |c.entries| - 1
  {
    WithoutKeepsOthers(c.lru, k);
  }

  /** The victim is the least recently used entry without a load: everything less recent is
      busy, and there is no victim only when everything is busy. */
  lemma {:induction false} VictimIsLeastRecent(c: Cache, n: nat) returns (i: nat)
    requires Listed(c) && n <= |c.lru|
    ensures Victim(c, n).None? ==> forall j :: 0 <= j < n ==> c.lru[j] in c.entries && c.entries[c.lru[j]].flight.Some?
    ensures Victim(c, n).Some? ==> IsVictim(c, n, i) && c.lru[i] == Victim(c, n).value
    decreases n
  {
    i := 0;
    if n > 0 {
      assert c.lru[n - 1] in c.lru;
      if c.entries[c.lru[n - 1]].flight.Some? {
        i := VictimIsLeastRecent(c, n - 1);
      } else {
        i := n - 1;
      }
    }
  }

  ghost predicate IsVictim(c: Cache, n: nat, i: nat)
    requires Listed(c) && n <= |c.lru|
  {
    && i < n && c.lru[i] in c.entries && c.entries[c.lru[i]].flight.None?
    && forall j :: i < j < n ==> c.lru[j] in c.entries && c.entries[c.lru[j]].flight.Some?
  }

  /** One eviction is enough, and an entry with a load is never evicted. */
  lemma MakeRoomShape(c: Cache)
    requires Listed(c)
    ensures var room, victim := MakeRoom(c), Victim(c, |c.lru|);
      if |c.entries| < c.capacity then room == (c, true)
      else if victim.None? then room == (c, false)
      else room == (Evict(c, victim.value), true) && |room.0.entries| < c.capacity && Listed(room.0)
  {
    var victim := Victim(c, |c.lru|);
    if |c.entries| >= c.capacity && victim.Some? {
      EvictKeepsListed(c, victim.value);
    }
  }

  /** What a lookup may do to the cache besides marking k: reorder it and drop idle entries. */
  ghost predicate Reshaped(c: Cache, c': Cache, k: CacheKey) {
    && Listed(c') && c'.capacity == c.capacity && c'.generation == c.generation && c'.freshTTL == c.freshTTL && c'.staleTTL == c.staleTTL
    && (forall x :: x in c'.entries && x != k ==> x in c.entries && c'.entries[x] == c.entries[x])
    && (forall x :: x in c.entries && c.entries[x].flight.Some? ==> x in c'.entries && c'.entries[x] == c.entries[x])
  }

  lemma MakeRoomReshapes(c: Cache, k: CacheKey)
    requires Listed(c)
    ensures Reshaped(c, MakeRoom(c).0, k) && (!MakeRoom(c).1 ==> MakeRoom(c).0 == c)
    ensures MakeRoom(c).1 ==> |MakeRoom(c).0.entries| < MakeRoom(c).0.capacity
    ensures k !in c.entries ==> k !in MakeRoom(c).0.entries
  {
    MakeRoomShape(c);
  }

  lemma AddKeepsListed(c: Cache, k: CacheKey, e: Entry)
    requires Listed(c) && k !in c.entries && |c.entries| < c.capacity
    ensures Listed(c.(entries := c.entries[k := e], lru := [k] + c.lru))
  {
    assert k !in c.lru;
    assert |c.entries[k := e]| == |c.entries| + 1;
  }

  lemma InsertReshapes(c: Cache, k: CacheKey)
    requires Listed(c) && k !in c.entries
    ensures Reshaped(c, Insert(c, k).0, k)
    ensures Insert(c, k).1 ==> k in Insert(c, k).0.entries && Insert(c, k).0.entries[k] == EMPTY_ENTRY
    ensures !Insert(c, k).1 ==> Insert(c, k).0 == c
  {
    MakeRoomReshapes(c, k);
    if MakeRoom(c).1 {
      AddKeepsListed(MakeRoom(c).0, k, EMPTY_ENTRY);
    }
  }

  lemma LaunchReshapes(c: Cache, c': Cache, k: CacheKey, flight: nat)
    requires Reshaped(c, c', k) && k in c'.entries && (k in c.entries ==> c.entries[k].flight.None?)
    ensures Reshaped(c, Launch(c', k, flight), k)
  {
    assert |c'.entries[k := c'.entries[k].(flight := Some(flight))]| == |c'.entries|;
  }

  lemma TouchReshapes(c: Cache, k: CacheKey)
    requires Listed(c) && k in c.entries
    ensures Reshaped(c, Touch(c, k), k) && Touch(c, k).entries == c.entries
  {
    TouchKeepsListed(c, k);
  }

  lemma ResolveKnown(c: Cache, k: CacheKey, known: nat, now: int, flight: nat)
    requires Listed(c) && k in c.entries
    ensures Reshaped(c, Resolve(c, k, known, now, flight).0, k)
    ensures k in Resolve(c, k, known, now, flight).0.entries && !Resolve(c, k, known, now, flight).1.Overflow?
    ensures Resolve(c, k, known, now, flight).1.Start? ==> c.entries[k].flight.None?
    ensures Resolve(c, k, known, now, flight).0.entries[k] ==
      if Resolve(c, k, known, now, flight).1.Start? then c.entries[k].(flight := Some(flight)) else c.entries[k]
  {
    TouchReshapes(c, k);
    if c.entries[k].flight.None? {
      LaunchReshapes(c, Touch(c, k), k, flight);
    }
  }

  lemma ResolveNew(c: Cache, k: CacheKey, known: nat, now: int, flight: nat)
    requires Listed(c) && k !in c.entries
    ensures var r := Resolve(c, k, known, now, flight);
      && Reshaped(c, r.0, k)
      && (r.1.Start? ==> k in r.0.entries && r.0.entries[k] == EMPTY_ENTRY.(flight := Some(flight)))
      && (r.1.Overflow? ==> r.0 == c) && (r.1.Start? || r.1.Overflow?)
  {
    InsertReshapes(c, k);
    if Insert(c, k).1 {
      LaunchReshapes(c, Insert(c, k).0, k, flight);
    }
  }

  /** A lookup is sent past the cache exactly when the cache is full of running loads. */
  lemma OverflowExactlyWhenAllBusy(c: Cache, k: CacheKey, known: nat, now: int, flight: nat)
    requires Listed(c) && k !in c.entries
    ensures Resolve(c, k, known, now, flight).1.Overflow? <==>
      (|c.entries| >= c.capacity && forall x :: x in c.entries ==> c.entries[x].flight.Some?)
  {
    MakeRoomShape(c);
    var v := VictimIsLeastRecent(c, |c.lru|);
    if Victim(c, |c.lru|).None? {
      forall x | x in c.entries
        ensures c.entries[x].flight.Some?
      {
        var i :| 0 <= i < |c.lru| && c.lru[i] == x;
      }
    }
  }

  // ---- Values and generations -------------------------------------------------------------------

  /** The last successful load of an entry of k. */
  function LastSuccess(log: seq<Event>, k: CacheKey): (e: Option<Event>)
    ensures e.Some? ==> e.value.Event? && e.value.k == k && e.value.result.Loaded?
  {
    if log == [] then None
    else
      var e := log[|log| - 1];
      if e.k == k && e.Event? && e.result.Loaded? then Some(e) else LastSuccess(log[..|log| - 1], k)
  }

  /** The last load of an entry of k, successful or not. */
  function Latest(log: seq<Event>, k: CacheKey): (e: Option<Event>)
    ensures e.Some? ==> e.value.Event? && e.value.k == k
  {
    if log == [] then None
    else
      var e := log[|log| - 1];
      if e.k == k && e.Event? then Some(e) else Latest(log[..|log| - 1], k)
  }

  predicate LatestFailed(log: seq<Event>, k: CacheKey) {
    Latest(log, k).Some? && Latest(log, k).value.result.LoadFailed?
  }

  /** How many loads of k have failed since the entry was made or last loaded. */
  function FailuresInARow(log: seq<Event>, k: CacheKey): (n: nat)
    ensures n > 0 ==> LatestFailed(log, k)
  {
    if log == [] then 0
    else
      var e, before := log[|log| - 1], log[..|log| - 1];
      if e.k != k then FailuresInARow(before, k)
      else if e.Inserted? || e.result.Loaded? then 0
      else FailuresInARow(before, k) + 1
  }

  /** Whether a load of k has succeeded since the entry was made. */
  function LoadedSinceInserted(log: seq<Event>, k: CacheKey): (loaded: bool)
    ensures loaded ==> LastSuccess(log, k).Some?
  {
    if log == [] then false
    else
      var e, before := log[|log| - 1], log[..|log| - 1];
      if e.k != k then LoadedSinceInserted(before, k)
      else e.Event? && (e.result.Loaded? || LoadedSinceInserted(before, k))
  }

  /** An entry holds the last load that succeeded since it was made, and, exactly while failures
      follow it, how the last one failed and when its cooldown ends. */
  ghost predicate EntryOk(c: Cache, log: seq<Event>, k: CacheKey, e: Entry) {
    && e.generation <= c.generation && e.failures == FailuresInARow(log, k) && e.hasValue == LoadedSinceInserted(log, k)
    && (e.hasValue ==> LastSuccess(log, k) == Some(Event(k, Loaded(e.endpoints), e.fetchedAt, e.generation)))
    && (if e.failures == 0 then e.refreshNotBefore.None? && e.lastErr.None? && !e.lastTransient
        else
          var last := Latest(log, k).value;
          && e.refreshNotBefore == Some(last.at + Cooldown(e.failures))
          && e.lastErr == Some(last.result.error) && e.lastTransient == last.result.transient)
  }

  /** A non-stale answer is newer than what its caller knew. */
  predicate Newer(reply: Reply, known: nat) {
    reply.Resolved? && !reply.resolution.stale ==> reply.resolution.generation > known
  }

  ghost predicate CallOk(c: Cache, flights: map<nat, Flight>, call: Call) {
    match call
    case WaitingSlot(_, known) => known <= c.generation
    case Waiting(_, f, known) =>
      f in flights && known <= c.generation && (flights[f].Done? ==> Newer(ReplyOf(flights[f].landing), known))
    case Answered(_, known, reply) => Newer(reply, known)
  }

  ghost predicate EntriesOk(d: Dns) {
    forall k :: k in d.c.entries ==> EntryOk(d.c, d.log, k, d.c.entries[k])
  }

  ghost predicate CallsOk(d: Dns) {
    forall i :: i in d.calls ==> CallOk(d.c, d.flights, d.calls[i])
  }

  ghost predicate DnsInv(d: Dns) {
    Listed(d.c) && OneFlightEach(d.c, d.flights) && EntriesOk(d) && CallsOk(d) && |Slots(d)| <= OVERFLOW_SLOTS
  }

  lemma LogAppended(log: seq<Event>, e: Event, k: CacheKey)
    ensures Latest(log + [e], k) == if e.k == k && e.Event? then Some(e) else Latest(log, k)
    ensures FailuresInARow(log + [e], k) ==
      if e.k != k then FailuresInARow(log, k) else if e.Inserted? || e.result.Loaded? then 0 else FailuresInARow(log, k) + 1
    ensures LoadedSinceInserted(log + [e], k) ==
      if e.k != k then LoadedSinceInserted(log, k) else e.Event? && (e.result.Loaded? || LoadedSinceInserted(log, k))
    ensures LastSuccess(log + [e], k) == if e.k == k && e.Event? && e.result.Loaded? then Some(e) else LastSuccess(log, k)
  {
    assert (log + [e])[..|log|] == log;
  }

  // ---- Lookups ------------------------------------------------------------------------------------

  lemma StartKeepsFlights(c: Cache, c': Cache, flights: map<nat, Flight>, k: CacheKey, flight: nat)
    requires OneFlightEach(c, flights) && Reshaped(c, c', k) && flight !in flights
    requires k in c'.entries && c'.entries[k].flight == Some(flight) && (k in c.entries ==> c.entries[k].flight.None?)
    ensures OneFlightEach(c', flights[flight := Running(k)])
  {
  }

  lemma QuietKeepsFlights(c: Cache, c': Cache, flights: map<nat, Flight>, k: CacheKey)
    requires OneFlightEach(c, flights) && Reshaped(c, c', k)
    requires k in c'.entries ==> k in c.entries && c'.entries[k] == c.entries[k]
    ensures OneFlightEach(c', flights)
  {
  }

  /** What a lookup answers: only the last successful load, fresh and newer than what the caller
      knew, or stale, within the stale limit and after a transient failure of the latest load. */
  lemma HitIsJustified(d: Dns, k: CacheKey, known: nat, now: int, flight: nat)
    requires EntriesOk(d) && Resolve(d.c, k, known, now, flight).1.Hit?
    ensures var r := Resolve(d.c, k, known, now, flight).1.resolution;
      && LastSuccess(d.log, k).Some?
      && var last := LastSuccess(d.log, k).value;
         && r.endpoints == last.result.endpoints && r.generation == last.generation
         && (if r.stale
             then now - last.at <= d.c.staleTTL && Latest(d.log, k).value.result.LoadFailed? && Latest(d.log, k).value.result.transient
             else now - last.at <= d.c.freshTTL && r.generation > known)
  {
    assert EntryOk(d.c, d.log, k, d.c.entries[k]);
  }

  /** When a lookup is refused, the latest load failed with that error and is still cooling
      down, and there is no stale value to serve: the failure was not transient, or the entry
      has no value, or its last successful load is past the stale limit. */
  lemma RefusalIsJustified(d: Dns, k: CacheKey, known: nat, now: int, flight: nat)
    requires EntriesOk(d) && Resolve(d.c, k, known, now, flight).1.Refused?
    ensures k in d.c.entries && Latest(d.log, k).Some? && Latest(d.log, k).value.result.LoadFailed?
    ensures var last, e := Latest(d.log, k).value, d.c.entries[k];
      && Resolve(d.c, k, known, now, flight).1.error == Some(last.result.error)
      && now < last.at + Cooldown(FailuresInARow(d.log, k)) && FailuresInARow(d.log, k) >= 1
      && (!last.result.transient || !e.hasValue || now - LastSuccess(d.log, k).value.at > d.c.staleTTL)
  {
    assert EntryOk(d.c, d.log, k, d.c.entries[k]);
  }

  /** The entry's value may be served as it is. */
  ghost predicate Fresh(d: Dns, k: CacheKey, known: nat, now: int) {
    LoadedSinceInserted(d.log, k) &&
    var last := LastSuccess(d.log, k).value;
    now - last.at <= d.c.freshTTL && last.generation > known
  }

  ghost predicate Loading(d: Dns, k: CacheKey) {
    exists f :: f in d.flights && d.flights[f] == Running(k)
  }

  /** Loads of k fail, and the pause that the last failure started is not over. */
  ghost predicate Cooling(d: Dns, k: CacheKey, now: int) {
    FailuresInARow(d.log, k) > 0 && now < Latest(d.log, k).value.at + Cooldown(FailuresInARow(d.log, k))
  }

  /** The last failure was transient and the entry's value is within the stale limit. */
  ghost predicate StaleServes(d: Dns, k: CacheKey, now: int) {
    && LatestFailed(d.log, k) && Latest(d.log, k).value.result.transient
    && LoadedSinceInserted(d.log, k) && now - LastSuccess(d.log, k).value.at <= d.c.staleTTL
  }

  function Held(log: seq<Event>, k: CacheKey, stale: bool): Resolution
    requires LoadedSinceInserted(log, k)
  {
    var last := LastSuccess(log, k).value;
    Resolution(last.result.endpoints, last.generation, stale)
  }

  /** What a lookup of a cached key must answer, by what happened to its entry. */
  ghost predicate Answers(d: Dns, k: CacheKey, known: nat, now: int, answer: Answer) {
    if Fresh(d, k, known, now) then answer == Hit(Held(d.log, k, false))
    else if Loading(d, k) then answer.Join? && answer.flight in d.flights && d.flights[answer.flight] == Running(k)
    else if Cooling(d, k, now) && StaleServes(d, k, now) then answer == Hit(Held(d.log, k, true))
    else if Cooling(d, k, now) then answer == Refused(Some(Latest(d.log, k).value.result.error))
    else answer == Start
  }

  lemma LookupAnswers(d: Dns, k: CacheKey, known: nat, now: int, flight: nat)
    requires EntriesOk(d) && OneFlightEach(d.c, d.flights) && k in d.c.entries
    ensures Answers(d, k, known, now, Resolve(d.c, k, known, now, flight).1)
  {
    var e := d.c.entries[k];
    assert EntryOk(d.c, d.log, k, e);
    assert IsFresh(d.c, e, known, now) == Fresh(d, k, known, now);
    assert e.flight.Some? <==> Loading(d, k);
    assert CoolingDown(e, now) == Cooling(d, k, now);
  }

  function Before(c: Cache, k: CacheKey): Entry {
    if k in c.entries then c.entries[k] else EMPTY_ENTRY
  }

  /** What a lookup's section leaves: a reshaped cache where only k may have been marked. */
  ghost predicate Looked(c: Cache, c': Cache, answer: Answer, k: CacheKey, flight: nat) {
    && Reshaped(c, c', k)
    && (answer.Start? ==> k in c'.entries && c'.entries[k] == Before(c, k).(flight := Some(flight)) && Before(c, k).flight.None?)
    && (!answer.Start? && k in c'.entries ==> k in c.entries && c'.entries[k] == c.entries[k])
    && (answer.Join? ==> k in c.entries && c.entries[k].flight == Some(answer.flight))
  }

  lemma ResolveLooks(c: Cache, k: CacheKey, known: nat, now: int, flight: nat)
    requires Listed(c)
    ensures Looked(c, Resolve(c, k, known, now, flight).0, Resolve(c, k, known, now, flight).1, k, flight)
  {
    if k in c.entries {
      ResolveKnown(c, k, known, now, flight);
    } else {
      ResolveNew(c, k, known, now, flight);
    }
  }

  lemma AskedKeepsFlights(d: Dns, c: Cache, answer: Answer, call: nat, k: CacheKey, known: nat, flight: nat)
    requires OneFlightEach(d.c, d.flights) && flight !in d.flights && Looked(d.c, c, answer, k, flight)
    ensures var d' := Asked(d, c, answer, call, k, known, flight);
      OneFlightEach(c, d'.flights) && Slots(d') == Slots(d)
  {
    if answer.Start? {
      StartKeepsFlights(d.c, c, d.flights, k, flight);
    } else {
      QuietKeepsFlights(d.c, c, d.flights, k);
    }
  }

  lemma NewEntryIsOk(c: Cache, log: seq<Event>, k: CacheKey, flight: nat)
    ensures EntryOk(c, log + [Inserted(k)], k, EMPTY_ENTRY.(flight := Some(flight)))
  {
    LogAppended(log, Inserted(k), k);
  }

  /** The mark of a running load is no part of what an entry remembers. */
  lemma MarkedEntryStaysOk(c: Cache, c': Cache, log: seq<Event>, k: CacheKey, e: Entry, e': Entry)
    requires EntryOk(c, log, k, e) && c'.generation == c.generation && e' == e.(flight := e'.flight)
    ensures EntryOk(c', log, k, e')
  {
  }

  lemma AskedEntryIsOk(d: Dns, c: Cache, answer: Answer, k: CacheKey, flight: nat, x: CacheKey)
    requires Looked(d.c, c, answer, k, flight) && x in c.entries
    requires x in d.c.entries ==> EntryOk(d.c, d.log, x, d.c.entries[x])
    ensures EntryOk(c, if answer.Start? && k !in d.c.entries then d.log + [Inserted(k)] else d.log, x, c.entries[x])
  {
    if x !in d.c.entries {
      NewEntryIsOk(c, d.log, k, flight);
    } else if answer.Start? && k !in d.c.entries {
      OtherEntriesStayOk(d.c, d.log, x, d.c.entries[x], Inserted(k), c);
    } else {
      MarkedEntryStaysOk(d.c, c, d.log, x, d.c.entries[x], c.entries[x]);
    }
  }

  lemma AskedKeepsEntries(d: Dns, c: Cache, answer: Answer, call: nat, k: CacheKey, known: nat, flight: nat)
    requires EntriesOk(d) && Looked(d.c, c, answer, k, flight)
    ensures EntriesOk(Asked(d, c, answer, call, k, known, flight))
  {
    forall x | x in c.entries
      ensures EntryOk(c, Asked(d, c, answer, call, k, known, flight).log, x, c.entries[x])
    {
      AskedEntryIsOk(d, c, answer, k, flight, x);
    }
  }

  lemma AskedKeepsCalls(d: Dns, c: Cache, answer: Answer, call: nat, k: CacheKey, known: nat, flight: nat)
    requires OneFlightEach(d.c, d.flights) && CallsOk(d) && Looked(d.c, c, answer, k, flight)
    requires flight !in d.flights && known <= d.c.generation
    requires answer.Hit? ==> Newer(Resolved(answer.resolution), known)
    ensures CallsOk(Asked(d, c, answer, call, k, known, flight))
  {
    var d' := Asked(d, c, answer, call, k, known, flight);
    forall i | i in d'.calls
      ensures CallOk(d'.c, d'.flights, d'.calls[i])
    {
      if i != call {
        assert CallOk(d.c, d.flights, d.calls[i]);
      }
    }
  }

  lemma AskKeepsInv(d: Dns, call: nat, k: CacheKey, known: nat, now: int, flight: nat)
    requires DnsInv(d) && flight !in d.flights && known <= d.c.generation
    ensures DnsInv(AskStep(d, call, k, known, now, flight))
  {
    var r := Resolve(d.c, k, known, now, flight);
    ResolveLooks(d.c, k, known, now, flight);
    if r.1.Hit? {
      HitIsJustified(d, k, known, now, flight);
    }
    AskedKeepsFlights(d, r.0, r.1, call, k, known, flight);
    AskedKeepsEntries(d, r.0, r.1, call, k, known, flight);
    AskedKeepsCalls(d, r.0, r.1, call, k, known, flight);
  }

  // ---- Landings -----------------------------------------------------------------------------------

  /** A load of a cached entry is never superseded. */
  lemma LandingIsNeverSuperseded(d: Dns, flight: nat, now: int, result: LoadResult)
    requires OneFlightEach(d.c, d.flights) && flight in d.flights && d.flights[flight].Running?
    ensures !Settle(d.c, d.flights[flight].k, flight, now, result).1.Superseded?
  {
  }

  lemma LandKeepsStructure(d: Dns, flight: nat, now: int, result: LoadResult)
    requires Listed(d.c) && OneFlightEach(d.c, d.flights) && flight in d.flights && d.flights[flight].Running?
    ensures var d' := LandStep(d, flight, now, result);
      Listed(d'.c) && OneFlightEach(d'.c, d'.flights) && Slots(d') == Slots(d)
  {
    var k, d' := d.flights[flight].k, LandStep(d, flight, now, result);
    assert |d'.c.entries| == |d.c.entries| by {
      assert d'.c.entries.Keys == d.c.entries.Keys;
    }
  }

  lemma RefreshedIsOk(c: Cache, log: seq<Event>, k: CacheKey, e: Entry, endpoints: Endpoints, now: int, c': Cache)
    requires c'.generation == c.generation + 1
    ensures EntryOk(c', log + [Event(k, Loaded(endpoints), now, c'.generation)], k, Refreshed(e, endpoints, c'.generation, now))
  {
    LogAppended(log, Event(k, Loaded(endpoints), now, c'.generation), k);
  }

  lemma BurnedIsOk(c: Cache, log: seq<Event>, k: CacheKey, e: Entry, error: nat, transient: bool, now: int)
    requires EntryOk(c, log, k, e)
    ensures EntryOk(c, log + [Event(k, LoadFailed(error, transient), now, c.generation)], k, Burned(e, error, transient, now))
  {
    LogAppended(log, Event(k, LoadFailed(error, transient), now, c.generation), k);
  }

  lemma OtherEntriesStayOk(c: Cache, log: seq<Event>, x: CacheKey, e: Entry, event: Event, c': Cache)
    requires EntryOk(c, log, x, e) && event.k != x && c.generation <= c'.generation
    ensures EntryOk(c', log + [event], x, e)
  {
    LogAppended(log, event, x);
  }

  lemma LandedEntryIsOk(d: Dns, flight: nat, now: int, result: LoadResult)
    requires OneFlightEach(d.c, d.flights) && flight in d.flights && d.flights[flight].Running?
    requires EntryOk(d.c, d.log, d.flights[flight].k, d.c.entries[d.flights[flight].k])
    ensures var k, d' := d.flights[flight].k, LandStep(d, flight, now, result);
      k in d'.c.entries && EntryOk(d'.c, d'.log, k, d'.c.entries[k])
  {
    var k, d' := d.flights[flight].k, LandStep(d, flight, now, result);
    match result {
      case Loaded(endpoints) => RefreshedIsOk(d.c, d.log, k, d.c.entries[k], endpoints, now, d'.c);
      case LoadFailed(error, transient) => BurnedIsOk(d.c, d.log, k, d.c.entries[k], error, transient, now);
    }
  }

  lemma LandKeepsEntries(d: Dns, flight: nat, now: int, result: LoadResult)
    requires OneFlightEach(d.c, d.flights) && EntriesOk(d) && flight in d.flights && d.flights[flight].Running?
    ensures EntriesOk(LandStep(d, flight, now, result))
  {
    var k, d' := d.flights[flight].k, LandStep(d, flight, now, result);
    LandedEntryIsOk(d, flight, now, result);
    forall x | x in d'.c.entries
      ensures EntryOk(d'.c, d'.log, x, d'.c.entries[x])
    {
      if x != k {
        OtherEntriesStayOk(d.c, d.log, x, d.c.entries[x], Event(k, result, now, d'.c.generation), d'.c);
      }
    }
  }

  /** Whatever lands now is newer than every generation issued so far, or marked stale. */
  lemma LandKeepsCalls(d: Dns, flight: nat, now: int, result: LoadResult)
    requires OneFlightEach(d.c, d.flights) && CallsOk(d) && flight in d.flights && d.flights[flight].Running?
    ensures CallsOk(LandStep(d, flight, now, result))
  {
    var d' := LandStep(d, flight, now, result);
    forall i | i in d'.calls
      ensures CallOk(d'.c, d'.flights, d'.calls[i])
    {
      assert CallOk(d.c, d.flights, d.calls[i]);
    }
  }

  lemma UncachedLandKeepsInv(d: Dns, flight: nat, result: LoadResult)
    requires DnsInv(d) && flight in d.flights && d.flights[flight].Uncached?
    ensures DnsInv(LandUncached(d, flight, result))
  {
    var d' := LandUncached(d, flight, result);
    assert Slots(d') == Slots(d) - {flight};
    forall k | k in d'.c.entries
      ensures EntryOk(d'.c, d'.log, k, d'.c.entries[k])
    {
      assert EntryOk(d.c, d.log, k, d.c.entries[k]);
    }
    forall i | i in d'.calls
      ensures CallOk(d'.c, d'.flights, d'.calls[i])
    {
      assert CallOk(d.c, d.flights, d.calls[i]);
    }
  }

  /** How a load of a cached entry ends: with the value just loaded under a generation above all
      earlier ones, or with the last successful load, marked stale and within the stale limit,
      exactly when this load failed transiently and such a value is still kept. */
  lemma LandingIsJustified(d: Dns, flight: nat, now: int, result: LoadResult)
    requires DnsInv(d) && flight in d.flights && d.flights[flight].Running?
    ensures LandingOk(d, d.flights[flight].k, LandStep(d, flight, now, result).flights[flight].landing, now, result)
  {
    assert EntryOk(d.c, d.log, d.flights[flight].k, d.c.entries[d.flights[flight].k]);
  }

  ghost predicate LandingOk(d: Dns, k: CacheKey, landing: Landing, now: int, result: LoadResult)
    requires k in d.c.entries
  {
    match result
    case Loaded(endpoints) => landing == Landed(Resolution(endpoints, d.c.generation + 1, false))
    case LoadFailed(error, transient) =>
      if transient && d.c.entries[k].hasValue && now - d.c.entries[k].fetchedAt <= d.c.staleTTL
      then LastSuccess(d.log, k).Some? && landing == Landed(StaleOf(LastSuccess(d.log, k).value)) && now - LastSuccess(d.log, k).value.at <= d.c.staleTTL
      else landing == Failed(error)
  }

  function StaleOf(e: Event): Resolution
    requires e.Event? && e.result.Loaded?
  {
    Resolution(e.result.endpoints, e.generation, true)
  }

  // ---- Runs ---------------------------------------------------------------------------------------

  lemma TakeSlotKeepsFlights(d: Dns, k: CacheKey, flight: nat)
    requires OneFlightEach(d.c, d.flights) && flight !in d.flights
    ensures OneFlightEach(d.c, d.flights[flight := Uncached(k)])
  {
  }

  lemma TakeSlotKeepsInv(d: Dns, call: nat, flight: nat)
    requires DnsInv(d) && call in d.calls && d.calls[call].WaitingSlot? && flight !in d.flights && |Slots(d)| < OVERFLOW_SLOTS
    ensures DnsInv(DnsNext(d, TakeSlot(call, flight)))
  {
    var d' := DnsNext(d, TakeSlot(call, flight));
    TakeSlotKeepsFlights(d, d.calls[call].k, flight);
    assert Slots(d') == Slots(d) + {flight};
    assert EntriesOk(d');
    forall i | i in d'.calls
      ensures CallOk(d'.c, d'.flights, d'.calls[i])
    {
      assert CallOk(d.c, d.flights, d.calls[i]);
    }
  }

  /** A call is answered. */
  lemma AnswerKeepsInv(d: Dns, call: nat, known: nat, reply: Reply)
    requires DnsInv(d) && call in d.calls && Newer(reply, known)
    ensures DnsInv(d.(calls := d.calls[call := Answered(d.calls[call].k, known, reply)]))
  {
    var d' := d.(calls := d.calls[call := Answered(d.calls[call].k, known, reply)]);
    assert Slots(d') == Slots(d);
    assert EntriesOk(d');
    forall i | i in d'.calls
      ensures CallOk(d'.c, d'.flights, d'.calls[i])
    {
      assert CallOk(d.c, d.flights, d.calls[i]);
    }
  }

  lemma CollectKeepsInv(d: Dns, call: nat)
    requires DnsInv(d)
    ensures DnsInv(DnsNext(d, Collect(call)))
  {
    if DnsNext(d, Collect(call)) != d {
      assert CallOk(d.c, d.flights, d.calls[call]);
      AnswerKeepsInv(d, call, d.calls[call].known, ReplyOf(d.flights[d.calls[call].flight].landing));
    }
  }

  lemma GiveUpKeepsInv(d: Dns, call: nat)
    requires DnsInv(d)
    ensures DnsInv(DnsNext(d, GiveUp(call)))
  {
    if DnsNext(d, GiveUp(call)) != d {
      AnswerKeepsInv(d, call, d.calls[call].known, Unresolved);
    }
  }

  lemma LandKeepsInv(d: Dns, flight: nat, now: int, result: LoadResult)
    requires DnsInv(d) && flight in d.flights && d.flights[flight].Running?
    ensures DnsInv(LandStep(d, flight, now, result))
  {
    LandKeepsStructure(d, flight, now, result);
    LandKeepsEntries(d, flight, now, result);
    LandKeepsCalls(d, flight, now, result);
  }

  lemma AskStepKeepsInv(d: Dns, step: DnsStep)
    requires DnsInv(d) && step.Ask?
    ensures DnsInv(DnsNext(d, step))
  {
    if step.call !in d.calls && step.flight !in d.flights && step.known <= d.c.generation {
      AskKeepsInv(d, step.call, step.k, step.known, step.now, step.flight);
    }
  }

  lemma TakeSlotStepKeepsInv(d: Dns, step: DnsStep)
    requires DnsInv(d) && step.TakeSlot?
    ensures DnsInv(DnsNext(d, step))
  {
    if step.call in d.calls && d.calls[step.call].WaitingSlot? && step.flight !in d.flights && |Slots(d)| < OVERFLOW_SLOTS {
      TakeSlotKeepsInv(d, step.call, step.flight);
    }
  }

  lemma LandStepKeepsInv(d: Dns, step: DnsStep)
    requires DnsInv(d) && step.Land?
    ensures DnsInv(DnsNext(d, step))
  {
    if step.flight in d.flights && d.flights[step.flight].Running? {
      LandKeepsInv(d, step.flight, step.now, step.result);
    } else if step.flight in d.flights && d.flights[step.flight].Uncached? {
      UncachedLandKeepsInv(d, step.flight, step.result);
    }
  }

  lemma DnsStepKeepsInv(d: Dns, step: DnsStep)
    requires DnsInv(d)
    ensures DnsInv(DnsNext(d, step))
  {
    match step
    case Ask(_, _, _, _, _) => AskStepKeepsInv(d, step);
    case TakeSlot(_, _) => TakeSlotStepKeepsInv(d, step);
    case Land(_, _, _) => LandStepKeepsInv(d, step);
    case Collect(call) => CollectKeepsInv(d, call);
    case GiveUp(call) => GiveUpKeepsInv(d, call);
  }

  /** An empty resolver. */
  ghost predicate Initial(d: Dns) {
    && d.c.entries == map[] && d.c.lru == [] && d.c.capacity >= 1
    && d.flights == map[] && d.calls == map[] && d.log == [] && d.asks == [] && d.loads == {}
  }

  lemma {:induction false} DnsRunKeepsInv(d: Dns, steps: seq<DnsStep>)
    requires DnsInv(d)
    ensures DnsInv(DnsRun(d, steps))
    decreases |steps|
  {
    if steps != [] {
      DnsStepKeepsInv(d, steps[0]);
      DnsRunKeepsInv(DnsNext(d, steps[0]), steps[1..]);
    }
  }

  /** Over every run of the shared resolver: the list and the map name the same keys within
      capacity, no two running loads share a key, every running load's entry is still cached and
      marked with it, so its landing is never superseded, and at most eight loads run outside. */
  lemma CacheStaysSound(d: Dns, steps: seq<DnsStep>)
    requires Initial(d)
    ensures var d' := DnsRun(d, steps);
      && Listed(d'.c) && |Slots(d')| <= OVERFLOW_SLOTS
      && (forall f, g :: f in d'.flights && g in d'.flights && d'.flights[f].Running? && d'.flights[g].Running? && f != g ==>
            d'.flights[f].k != d'.flights[g].k)
      && (forall f, now, result :: f in d'.flights && d'.flights[f].Running? ==>
            !Settle(d'.c, d'.flights[f].k, f, now, result).1.Superseded?)
  {
    assert Slots(d) == {};
    DnsRunKeepsInv(d, steps);
    var d' := DnsRun(d, steps);
    forall f, now, result | f in d'.flights && d'.flights[f].Running?
      ensures !Settle(d'.c, d'.flights[f].k, f, now, result).1.Superseded?
    {
      LandingIsNeverSuperseded(d', f, now, result);
    }
  }
}
