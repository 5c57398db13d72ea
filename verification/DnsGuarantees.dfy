/** What callers of the shared resolver can rely on over every run: who is evicted, whose
    endpoints they get, and how fresh those are. */
module DnsGuarantees {
  import opened Common
  import opened DnsCache
  import opened DnsProperties

  // ---- Recency ------------------------------------------------------------------------------------

  /** When k was last looked up; 0 if never. */
  function LastAsked(asks: seq<CacheKey>, k: CacheKey): (t: nat)
    ensures t <= |asks|
  {
    if asks == [] then 0
    else if asks[|asks| - 1] == k then |asks| else LastAsked(asks[..|asks| - 1], k)
  }

  ghost predicate ByRecency(s: seq<CacheKey>, asks: seq<CacheKey>) {
    forall i, j :: 0 <= i < j < |s| ==> LastAsked(asks, s[i]) > LastAsked(asks, s[j])
  }

  lemma {:induction false} WithoutKeepsRecency(s: seq<CacheKey>, asks: seq<CacheKey>, k: CacheKey)
    requires ByRecency(s, asks)
    ensures ByRecency(Without(s, k), asks)
  {
    if s != [] {
      WithoutKeepsRecency(s[1..], asks, k);
      WithoutKeepsOthers(s[1..], k);
      var rest := Without(s[1..], k);
      forall j | 0 <= j < |rest|
        ensures LastAsked(asks, s[0]) > LastAsked(asks, rest[j])
      {
        assert rest[j] in s[1..];
      }
    }
  }

  lemma FrontIsMostRecent(s: seq<CacheKey>, asks: seq<CacheKey>, k: CacheKey)
    requires ByRecency(s, asks) && k !in s
    ensures ByRecency([k] + s, asks + [k]) && ByRecency(s, asks + [k])
  {
    assert (asks + [k])[..|asks|] == asks;
    forall x | x != k
      ensures LastAsked(asks + [k], x) == LastAsked(asks, x)
    {
    }
  }

  lemma TouchKeepsRecency(c: Cache, asks: seq<CacheKey>, k: CacheKey)
    requires ByRecency(c.lru, asks)
    ensures ByRecency(Touch(c, k).lru, asks + [k])
  {
    WithoutKeepsRecency(c.lru, asks, k);
    WithoutKeepsOthers(c.lru, k);
    FrontIsMostRecent(Without(c.lru, k), asks, k);
  }

  lemma MakeRoomKeepsRecency(c: Cache, asks: seq<CacheKey>)
    requires Listed(c) && ByRecency(c.lru, asks)
    ensures ByRecency(MakeRoom(c).0.lru, asks)
  {
    MakeRoomShape(c);
    if MakeRoom(c).0 != c {
      WithoutKeepsRecency(c.lru, asks, Victim(c, |c.lru|).value);
    }
  }

  lemma InsertKeepsRecency(c: Cache, asks: seq<CacheKey>, k: CacheKey)
    requires Listed(c) && ByRecency(c.lru, asks) && k !in c.entries
    ensures ByRecency(Insert(c, k).0.lru, asks + [k])
  {
    MakeRoomKeepsRecency(c, asks);
    MakeRoomReshapes(c, k);
    FrontIsMostRecent(MakeRoom(c).0.lru, asks, k);
  }

  lemma ResolveKeepsRecency(c: Cache, asks: seq<CacheKey>, k: CacheKey, known: nat, now: int, flight: nat)
    requires Listed(c) && ByRecency(c.lru, asks)
    ensures ByRecency(Resolve(c, k, known, now, flight).0.lru, asks + [k])
  {
    if k in c.entries {
      TouchKeepsRecency(c, asks, k);
    } else {
      InsertKeepsRecency(c, asks, k);
    }
  }

  lemma DnsStepKeepsRecency(d: Dns, step: DnsStep)
    requires Listed(d.c) && ByRecency(d.c.lru, d.asks)
    ensures ByRecency(DnsNext(d, step).c.lru, DnsNext(d, step).asks)
  {
    if step.Ask? {
      ResolveKeepsRecency(d.c, d.asks, step.k, step.known, step.now, step.flight);
    }
  }

  lemma {:induction false} DnsRunKeepsRecency(d: Dns, steps: seq<DnsStep>)
    requires DnsInv(d) && ByRecency(d.c.lru, d.asks)
    ensures ByRecency(DnsRun(d, steps).c.lru, DnsRun(d, steps).asks)
    decreases |steps|
  {
    if steps != [] {
      DnsStepKeepsInv(d, steps[0]);
      DnsStepKeepsRecency(d, steps[0]);
      DnsRunKeepsRecency(DnsNext(d, steps[0]), steps[1..]);
    }
  }

  /** Over every run, a full cache evicts for a new key exactly one entry: of those without a
      running load, the one whose last lookup is longest ago. */
  lemma EvictsLeastRecentlyUsed(d: Dns, steps: seq<DnsStep>, k: CacheKey)
    requires Initial(d)
    ensures var c, asks := DnsRun(d, steps).c, DnsRun(d, steps).asks;
      |c.entries| >= c.capacity && k !in c.entries && Insert(c, k).1 ==>
        Evicts(c, asks, k, Victim(c, |c.lru|))
  {
    assert Slots(d) == {};
    DnsRunKeepsInv(d, steps);
    DnsRunKeepsRecency(d, steps);
    var c, asks := DnsRun(d, steps).c, DnsRun(d, steps).asks;
    if |c.entries| >= c.capacity && k !in c.entries && Insert(c, k).1 {
      EvictionIsExact(c, asks, k);
    }
  }

  ghost predicate Evicts(c: Cache, asks: seq<CacheKey>, k: CacheKey, victim: Option<CacheKey>) {
    && victim.Some? && victim.value in c.entries && c.entries[victim.value].flight.None?
    && Insert(c, k).0.entries.Keys == c.entries.Keys - {victim.value} + {k}
    && (forall x :: x in c.entries && c.entries[x].flight.None? && x != victim.value ==>
          LastAsked(asks, x) > LastAsked(asks, victim.value))
  }

  lemma EvictionIsExact(c: Cache, asks: seq<CacheKey>, k: CacheKey)
    requires Listed(c) && ByRecency(c.lru, asks)
    requires |c.entries| >= c.capacity && k !in c.entries && Insert(c, k).1
    ensures Evicts(c, asks, k, Victim(c, |c.lru|))
  {
    MakeRoomShape(c);
    OldestIdleIsVictim(c, asks);
    assert Insert(c, k).0.entries.Keys == c.entries.Keys - {Victim(c, |c.lru|).value} + {k};
  }

  lemma OldestIdleIsVictim(c: Cache, asks: seq<CacheKey>)
    requires Listed(c) && ByRecency(c.lru, asks) && Victim(c, |c.lru|).Some?
    ensures forall x :: x in c.entries && c.entries[x].flight.None? && x != Victim(c, |c.lru|).value ==>
        LastAsked(asks, x) > LastAsked(asks, Victim(c, |c.lru|).value)
  {
    var i := VictimIsLeastRecent(c, |c.lru|);
    forall x | x in c.entries && c.entries[x].flight.None? && x != c.lru[i]
      ensures LastAsked(asks, x) > LastAsked(asks, c.lru[i])
    {
      var j :| 0 <= j < |c.lru| && c.lru[j] == x;
    }
  }

  // ---- Isolation ----------------------------------------------------------------------------------

  /** A resolution is what some successful load of k returned. */
  predicate From(loads: set<Load>, k: CacheKey, r: Resolution) {
    LoadOf(k, r) in loads
  }

  ghost predicate EntriesGenuine(c: Cache, loads: set<Load>) {
    forall k :: k in c.entries && c.entries[k].hasValue ==> From(loads, k, FromEntry(c.entries[k], false))
  }

  ghost predicate FlightsGenuine(flights: map<nat, Flight>, loads: set<Load>) {
    forall f :: f in flights && flights[f].Done? && flights[f].landing.Landed? ==>
      From(loads, flights[f].k, flights[f].landing.resolution)
  }

  predicate CallGenuine(call: Call, flights: map<nat, Flight>, loads: set<Load>) {
    match call
    case WaitingSlot(_, _) => true
    case Waiting(k, f, _) => f in flights && flights[f].k == k
    case Answered(k, _, reply) => reply.Resolved? ==> From(loads, k, reply.resolution)
  }

  ghost predicate Genuine(d: Dns) {
    && EntriesGenuine(d.c, d.loads) && FlightsGenuine(d.flights, d.loads)
    && (forall i :: i in d.calls ==> CallGenuine(d.calls[i], d.flights, d.loads))
  }

  lemma AskedKeepsGenuine(d: Dns, c: Cache, answer: Answer, call: nat, k: CacheKey, known: nat, flight: nat)
    requires OneFlightEach(d.c, d.flights) && Genuine(d) && Looked(d.c, c, answer, k, flight) && flight !in d.flights
    requires answer.Hit? ==> From(d.loads, k, answer.resolution)
    ensures Genuine(Asked(d, c, answer, call, k, known, flight))
  {
    var d' := Asked(d, c, answer, call, k, known, flight);
    forall i | i in d'.calls
      ensures CallGenuine(d'.calls[i], d'.flights, d'.loads)
    {
      if i != call {
        assert CallGenuine(d.calls[i], d.flights, d.loads);
      }
    }
  }

  lemma HitIsGenuine(c: Cache, loads: set<Load>, k: CacheKey, known: nat, now: int, flight: nat)
    requires EntriesGenuine(c, loads) && Resolve(c, k, known, now, flight).1.Hit?
    ensures From(loads, k, Resolve(c, k, known, now, flight).1.resolution)
  {
  }

  /** A load ends: what it brings for its waiters, and for its entry, is a load of its own key. */
  lemma LandingKeepsGenuine(d: Dns, d': Dns, flight: nat)
    requires Genuine(d) && flight in d.flights && d.loads <= d'.loads && d'.calls == d.calls
    requires flight in d'.flights && d'.flights == d.flights[flight := d'.flights[flight]]
    requires d'.flights[flight].Done? && d'.flights[flight].k == d.flights[flight].k
    requires d'.flights[flight].landing.Landed? ==> From(d'.loads, d.flights[flight].k, d'.flights[flight].landing.resolution)
    requires EntriesGenuine(d'.c, d'.loads)
    ensures Genuine(d')
  {
    forall i | i in d'.calls
      ensures CallGenuine(d'.calls[i], d'.flights, d'.loads)
    {
      assert CallGenuine(d.calls[i], d.flights, d.loads);
    }
  }

  lemma SettleIsGenuine(d: Dns, flight: nat, now: int, result: LoadResult)
    requires OneFlightEach(d.c, d.flights) && EntriesGenuine(d.c, d.loads) && flight in d.flights && d.flights[flight].Running?
    ensures var d' := LandStep(d, flight, now, result);
      && EntriesGenuine(d'.c, d'.loads)
      && (d'.flights[flight].landing.Landed? ==> From(d'.loads, d.flights[flight].k, d'.flights[flight].landing.resolution))
  {
  }

  lemma LandKeepsGenuine(d: Dns, flight: nat, now: int, result: LoadResult)
    requires DnsInv(d) && Genuine(d) && flight in d.flights && !d.flights[flight].Done?
    ensures Genuine(DnsNext(d, Land(flight, now, result)))
  {
    if d.flights[flight].Running? {
      SettleIsGenuine(d, flight, now, result);
      LandingKeepsGenuine(d, LandStep(d, flight, now, result), flight);
    } else {
      LandingKeepsGenuine(d, LandUncached(d, flight, result), flight);
    }
  }

  /** A call moves on: it takes a slot, collects its load's result or gives up. */
  lemma CallKeepsGenuine(d: Dns, step: DnsStep)
    requires Genuine(d) && (step.TakeSlot? || step.Collect? || step.GiveUp?)
    ensures Genuine(DnsNext(d, step))
  {
    var d' := DnsNext(d, step);
    forall i | i in d'.calls
      ensures CallGenuine(d'.calls[i], d'.flights, d'.loads)
    {
      assert CallGenuine(d.calls[i], d.flights, d.loads);
    }
  }

  lemma DnsStepKeepsGenuine(d: Dns, step: DnsStep)
    requires DnsInv(d) && Genuine(d)
    ensures Genuine(DnsNext(d, step))
  {
    match step
    case Ask(call, k, known, now, flight) =>
      if call !in d.calls && flight !in d.flights && known <= d.c.generation {
        var r := Resolve(d.c, k, known, now, flight);
        ResolveLooks(d.c, k, known, now, flight);
        if r.1.Hit? {
          HitIsGenuine(d.c, d.loads, k, known, now, flight);
        }
        AskedKeepsGenuine(d, r.0, r.1, call, k, known, flight);
      }
    case Land(flight, now, result) =>
      if flight in d.flights && !d.flights[flight].Done? {
        LandKeepsGenuine(d, flight, now, result);
      }
    case _ => CallKeepsGenuine(d, step);
  }

  lemma {:induction false} DnsRunKeepsGenuine(d: Dns, steps: seq<DnsStep>)
    requires DnsInv(d) && Genuine(d)
    ensures Genuine(DnsRun(d, steps))
    decreases |steps|
  {
    if steps != [] {
      DnsStepKeepsInv(d, steps[0]);
      DnsStepKeepsGenuine(d, steps[0]);
      DnsRunKeepsGenuine(DnsNext(d, steps[0]), steps[1..]);
    }
  }

  /** Over every run, whether a caller is answered from the cache, joins a load, starts one or is
      sent past the cache: the endpoints it gets are those of a successful load of its own key,
      under that load's generation. */
  lemma AnswersComeFromOwnKey(d: Dns, steps: seq<DnsStep>)
    requires Initial(d)
    ensures var d' := DnsRun(d, steps);
      forall i :: i in d'.calls && d'.calls[i].Answered? && d'.calls[i].reply.Resolved? ==>
        Load(d'.calls[i].k, d'.calls[i].reply.resolution.endpoints, d'.calls[i].reply.resolution.generation) in d'.loads
  {
    assert Slots(d) == {};
    DnsRunKeepsGenuine(d, steps);
    var d' := DnsRun(d, steps);
    forall i | i in d'.calls && d'.calls[i].Answered? && d'.calls[i].reply.Resolved?
      ensures From(d'.loads, d'.calls[i].k, d'.calls[i].reply.resolution)
    {
      assert CallGenuine(d'.calls[i], d'.flights, d'.loads);
    }
  }

  // ---- Exact answers ------------------------------------------------------------------------------

  /** Over every run, what a lookup answers, by what happened to its key. A cached key with a fresh
      value newer than the caller knows is answered with it at once; otherwise the caller joins
      the running load; otherwise, during the cooldown of a failure, it gets the stale value or
      that failure; otherwise it starts the load. A key not cached starts a load, and is sent past
      the cache exactly when the cache is full of running loads. */
  lemma LookupIsExact(d: Dns, steps: seq<DnsStep>, k: CacheKey, known: nat, now: int, flight: nat)
    requires Initial(d)
    ensures var d' := DnsRun(d, steps);
      var answer := Resolve(d'.c, k, known, now, flight).1;
      if k in d'.c.entries then Answers(d', k, known, now, answer)
      else if |d'.c.entries| >= d'.c.capacity && forall x :: x in d'.c.entries ==> Loading(d', x) then answer == Overflow
      else answer == Start
  {
    assert Slots(d) == {};
    DnsRunKeepsInv(d, steps);
    LookupFrom(DnsRun(d, steps), k, known, now, flight);
  }

  lemma NewKeyAnswers(d: Dns, k: CacheKey, known: nat, now: int, flight: nat)
    requires Listed(d.c) && OneFlightEach(d.c, d.flights) && k !in d.c.entries
    ensures Resolve(d.c, k, known, now, flight).1 ==
      if |d.c.entries| >= d.c.capacity && forall x :: x in d.c.entries ==> Loading(d, x) then Overflow else Start
  {
    OverflowExactlyWhenAllBusy(d.c, k, known, now, flight);
    assert forall x :: x in d.c.entries ==> (d.c.entries[x].flight.Some? <==> Loading(d, x));
  }

  lemma LookupFrom(d: Dns, k: CacheKey, known: nat, now: int, flight: nat)
    requires DnsInv(d)
    ensures var answer := Resolve(d.c, k, known, now, flight).1;
      if k in d.c.entries then Answers(d, k, known, now, answer)
      else if |d.c.entries| >= d.c.capacity && forall x :: x in d.c.entries ==> Loading(d, x) then answer == Overflow
      else answer == Start
  {
    if k in d.c.entries {
      LookupAnswers(d, k, known, now, flight);
    } else {
      NewKeyAnswers(d, k, known, now, flight);
    }
  }

  lemma CollectGives(d: Dns, call: nat, k: CacheKey, landing: Landing)
    requires call in d.calls && d.calls[call].Waiting? && d.calls[call].flight in d.flights
    requires d.flights[d.calls[call].flight] == Done(k, landing)
    ensures var d' := DnsNext(d, Collect(call));
      && call in d'.calls
      && d'.calls[call] == Answered(d.calls[call].k, d.calls[call].known,
                                    if landing.Landed? then Resolved(landing.resolution) else Unresolved)
  {
  }

  lemma LoadLands(d: Dns, flight: nat, now: int, endpoints: Endpoints)
    requires OneFlightEach(d.c, d.flights) && flight in d.flights && !d.flights[flight].Done?
    ensures var landed := DnsNext(d, Land(flight, now, Loaded(endpoints)));
      && flight in landed.flights && landed.calls == d.calls
      && landed.flights[flight] == Done(d.flights[flight].k, Landed(Resolution(endpoints, d.c.generation + 1, false)))
  {
  }

  lemma LoadIsCached(d: Dns, flight: nat, now: int, endpoints: Endpoints, known: nat, later: int, other: nat)
    requires OneFlightEach(d.c, d.flights) && flight in d.flights && d.flights[flight].Running?
    requires known <= d.c.generation && later - now <= d.c.freshTTL
    ensures Resolve(DnsNext(d, Land(flight, now, Loaded(endpoints))).c, d.flights[flight].k, known, later, other).1 ==
      Hit(Resolution(endpoints, d.c.generation + 1, false))
  {
  }

  /** A call waits for this load. */
  ghost predicate WaitsFor(d: Dns, call: nat, flight: nat) {
    && call in d.calls && d.calls[call].Waiting? && d.calls[call].flight == flight
    && flight in d.flights && !d.flights[flight].Done?
  }

  /** Whoever waits for a load that succeeds gets what it brings, under a generation above all
      before it; and when the load was for the cache, every lookup within the fresh limit by a
      caller that knows no newer generation then hits it. */
  lemma LoadedValueIsServed(d: Dns, call: nat, flight: nat, now: int, endpoints: Endpoints)
    requires DnsInv(d) && WaitsFor(d, call, flight)
    ensures var landed := DnsNext(d, Land(flight, now, Loaded(endpoints)));
      && call in DnsNext(landed, Collect(call)).calls
      && DnsNext(landed, Collect(call)).calls[call] ==
           Answered(d.calls[call].k, d.calls[call].known, Resolved(Resolution(endpoints, d.c.generation + 1, false)))
    ensures d.flights[flight].Running? ==>
      forall known: nat, later, other :: known <= d.c.generation && later - now <= d.c.freshTTL ==>
        Resolve(DnsNext(d, Land(flight, now, Loaded(endpoints))).c, d.flights[flight].k, known, later, other).1 ==
          Hit(Resolution(endpoints, d.c.generation + 1, false))
  {
    LoadLands(d, flight, now, endpoints);
    CollectGives(DnsNext(d, Land(flight, now, Loaded(endpoints))), call, d.flights[flight].k,
                 Landed(Resolution(endpoints, d.c.generation + 1, false)));
    if d.flights[flight].Running? {
      forall known: nat, later, other | known <= d.c.generation && later - now <= d.c.freshTTL
        ensures Resolve(DnsNext(d, Land(flight, now, Loaded(endpoints))).c, d.flights[flight].k, known, later, other).1 ==
          Hit(Resolution(endpoints, d.c.generation + 1, false))
      {
        LoadIsCached(d, flight, now, endpoints, known, later, other);
      }
    }
  }

  /** The landing of a load that failed. */
  ghost function FailedLanding(d: Dns, flight: nat, now: int, error: nat, transient: bool): Landing
    requires flight in d.flights
  {
    var k := d.flights[flight].k;
    if d.flights[flight].Running? && transient && LoadedSinceInserted(d.log, k) && now - LastSuccess(d.log, k).value.at <= d.c.staleTTL
    then Landed(Held(d.log, k, true)) else Failed(error)
  }

  lemma FailureLands(d: Dns, flight: nat, now: int, error: nat, transient: bool)
    requires OneFlightEach(d.c, d.flights) && flight in d.flights && !d.flights[flight].Done?
    requires d.flights[flight].Running? ==> EntryOk(d.c, d.log, d.flights[flight].k, d.c.entries[d.flights[flight].k])
    ensures var landed := DnsNext(d, Land(flight, now, LoadFailed(error, transient)));
      && flight in landed.flights && landed.calls == d.calls
      && landed.flights[flight] == Done(d.flights[flight].k, FailedLanding(d, flight, now, error, transient))
  {
  }

  /** Whoever waits for a load that fails gets the value its entry still holds, marked stale, when
      the failure is transient and that value is within the stale limit, and otherwise nothing. */
  lemma FailedLoadAnswers(d: Dns, call: nat, flight: nat, now: int, error: nat, transient: bool)
    requires DnsInv(d) && WaitsFor(d, call, flight)
    ensures var landing := FailedLanding(d, flight, now, error, transient);
      var after := DnsNext(DnsNext(d, Land(flight, now, LoadFailed(error, transient))), Collect(call));
      && call in after.calls
      && after.calls[call] == Answered(d.calls[call].k, d.calls[call].known,
                                       if landing.Landed? then Resolved(landing.resolution) else Unresolved)
  {
    FailureLands(d, flight, now, error, transient);
    CollectGives(DnsNext(d, Land(flight, now, LoadFailed(error, transient))), call, d.flights[flight].k,
                 FailedLanding(d, flight, now, error, transient));
  }

  /** A caller sent past the full cache gets a slot as soon as fewer than eight are taken, and then
      waits for a load of its own key; with more it waits on. */
  lemma OverflowGetsSlot(d: Dns, call: nat, flight: nat)
    requires call in d.calls && d.calls[call].WaitingSlot? && flight !in d.flights
    ensures var d' := DnsNext(d, TakeSlot(call, flight));
      if |Slots(d)| < 8 then WaitsFor(d', call, flight) && d'.flights[flight] == Uncached(d.calls[call].k) else d' == d
  {
  }

  // ---- Results ------------------------------------------------------------------------------------

  /** Over every run: a cached value is the last successful load of an entry of its key, the
      cooldown starts at the entry's last failed load and counts exactly its failures in a row,
      and every answer not marked stale is newer than what its caller knew. */
  lemma ResultsRefineLastSuccess(d: Dns, steps: seq<DnsStep>)
    requires Initial(d)
    ensures var d' := DnsRun(d, steps);
      && (forall k :: k in d'.c.entries ==> EntryOk(d'.c, d'.log, k, d'.c.entries[k]))
      && (forall i :: i in d'.calls && d'.calls[i].Answered? ==> Newer(d'.calls[i].reply, d'.calls[i].known))
  {
    assert Slots(d) == {};
    DnsRunKeepsInv(d, steps);
    var d' := DnsRun(d, steps);
    assert CallsOk(d');
    forall i | i in d'.calls && d'.calls[i].Answered?
      ensures Newer(d'.calls[i].reply, d'.calls[i].known)
    {
      assert CallOk(d'.c, d'.flights, d'.calls[i]);
    }
  }
}
