/** The sections of the per-connection pull scheduler that run under the queue mutex, each as
    a function from the tracked state to the next one, with the invariants they keep. */
module QueueScheduler {
  import opened Common
  import opened MapSums
  import opened ByteBudgets

  const MAX_ACTIVE_QUEUES: nat := 256
  const PULL_REQUEST_CAPACITY: nat := 256
  const MIN_QUEUE_WEIGHT: int := 1024
  const CONNECTION_QUEUE_BUDGET: int := 4 * 1024 * 1024
  const PROCESS_QUEUE_BUDGET: int := 64 * 1024 * 1024
  const MAX_TRACKED_QUEUES: nat := CONNECTION_QUEUE_BUDGET / MIN_QUEUE_WEIGHT
  const MAX_JID_COMPONENT: nat := 4096
  const MAX_JID: nat := 16384

  datatype JID = JID(appKey: string, name: string, domain: string, resource: string)

  datatype QueueKey = QueueKey(appKey: string, name: string, domain: string)

  datatype Phase = Idle | Deferred | Active

  datatype Queue = Queue(
    jid: JID, cursor: nat, phase: Phase,
    processing: bool, noticePending: bool, pullQueued: bool, pullInFlight: bool,
    weight: int)

  /** What the queue mutex protects. The ring is a sequence of keys, oldest first. */
  datatype Sched = Sched(
    queues: map<QueueKey, Queue>,
    deferred: seq<QueueKey>,
    pullRequests: seq<QueueKey>,
    active: int,
    used: int)  // the connection's own queue budget

  const EMPTY: Sched := Sched(map[], [], [], 0, 0)

  function KeyOf(j: JID): QueueKey {
    QueueKey(j.appKey, j.name, j.domain)
  }

  predicate ValidJID(j: JID) {
    && |j.appKey| <= MAX_JID_COMPONENT && |j.name| <= MAX_JID_COMPONENT
    && |j.domain| <= MAX_JID_COMPONENT && |j.resource| <= MAX_JID_COMPONENT
    && |j.appKey| + |j.name| + |j.domain| + |j.resource| <= MAX_JID
  }

  function RetainedWeight(j: JID): (w: int)
    ensures w >= MIN_QUEUE_WEIGHT
  {
    RoundToQuantum(MIN_QUEUE_WEIGHT + |j.appKey| + |j.name| + |j.domain| + |j.resource|)
  }

  function RoundToQuantum(bytes: int): (w: int)
    ensures bytes <= w < bytes + MIN_QUEUE_WEIGHT && w % MIN_QUEUE_WEIGHT == 0
  {
    ((bytes + MIN_QUEUE_WEIGHT - 1) / MIN_QUEUE_WEIGHT) * MIN_QUEUE_WEIGHT
  }

  // ---- Sections --------------------------------------------------------------------------

  /** Stores q under k and charges the connection budget. */
  function Put(s: Sched, k: QueueKey, q: Queue, charge: int): Sched {
    s.(queues := s.queues[k := q], used := s.used + charge)
  }

  function Fresh(j: JID, weight: int): Queue {
    Queue(j, 0, Idle, false, false, false, false, weight)
  }

  /** Queue q after one more NOTICE: the device resource may be new and cost more, and an
      active queue remembers that another pull is due. */
  function Renoticed(q: Queue, j: JID, charge: int): Queue {
    q.(jid := j, weight := q.weight + charge, noticePending := q.noticePending || q.phase.Active?)
  }

  /** Asks for one pull of k unless one of its three stages is already under way. The flag
      reports a scheduling error: the request channel is full. */
  function EnqueuePull(s: Sched, k: QueueKey): (Sched, bool)
    requires k in s.queues
  {
    var q := s.queues[k];
    if !q.phase.Active? || q.processing || q.pullQueued || q.pullInFlight then (s, false)
    else if |s.pullRequests| >= PULL_REQUEST_CAPACITY then (s, true)
    else (s.(queues := s.queues[k := q.(pullQueued := true)], pullRequests := s.pullRequests + [k]), false)
  }

  function Activated(s: Sched, k: QueueKey): Sched
    requires k in s.queues
  {
    s.(queues := s.queues[k := s.queues[k].(phase := Active)], active := s.active + 1)
  }

  function ActivateOrDefer(s: Sched, k: QueueKey): (Sched, bool)
    requires k in s.queues
  {
    if s.active < MAX_ACTIVE_QUEUES then
      EnqueuePull(Activated(s, k), k)
    else
      var s' := s.(queues := s.queues[k := s.queues[k].(phase := Deferred)]);
      if |s.deferred| >= MAX_TRACKED_QUEUES then (s', true)
      else (s'.(deferred := s.deferred + [k]), false)
  }

  function PromoteDeferred(s: Sched): (Sched, bool)
    decreases |s.deferred|
  {
    if s.active >= MAX_ACTIVE_QUEUES || s.deferred == [] then (s, false)
    else
      var k, s' := s.deferred[0], s.(deferred := s.deferred[1..]);
      if k !in s.queues || !s.queues[k].phase.Deferred? then PromoteDeferred(s')
      else EnqueuePull(Activated(s', k), k)
  }

  /** The connection budget and the process budget both take `weight`, or neither does. */
  predicate Reserves(s: Sched, weight: int, processUsed: int) {
    && TryOutcome(CONNECTION_QUEUE_BUDGET, s.used, weight).Granted?
    && TryOutcome(PROCESS_QUEUE_BUDGET, processUsed, weight).Granted?
  }

  /** The result of a NOTICE: the next state, whether the run must be failed, and what was
      taken from and given back to the process-wide budget. */
  datatype Noticed = Noticed(sched: Sched, failed: bool, charge: int, refund: int)

  function StartQueue(s: Sched, j: JID, processUsed: int): Noticed {
    if !ValidJID(j) then Noticed(s, true, 0, 0)
    else if KeyOf(j) in s.queues then RepeatNotice(s, j, RetainedWeight(j), processUsed)
    else FirstNotice(s, j, RetainedWeight(j), processUsed)
  }

  /** `weight` is the retained weight of j. The source rebuilds the JID on the strings already
      retained by the map key; as a value that is j itself. */
  function RepeatNotice(s: Sched, j: JID, weight: int, processUsed: int): Noticed
    requires KeyOf(j) in s.queues
  {
    var k := KeyOf(j);
    var q := s.queues[k];
    var delta := weight - q.weight;
    if delta > 0 && !Reserves(s, delta, processUsed) then Noticed(s, true, 0, 0)
    else
      var charge := if delta > 0 then delta else 0;
      var s' := Put(s, k, Renoticed(q, j, charge), charge);
      if !q.phase.Idle? then Noticed(s', false, charge, 0)
      else Noticed(ActivateOrDefer(s', k).0, ActivateOrDefer(s', k).1, charge, 0)
  }

  function FirstNotice(s: Sched, j: JID, weight: int, processUsed: int): Noticed {
    var k := KeyOf(j);
    if !Reserves(s, weight, processUsed) then Noticed(s, true, 0, 0)
    else
      var tried := ActivateOrDefer(Put(s, k, Fresh(j, weight), weight), k);
      if !tried.1 then Noticed(tried.0, false, weight, 0)
      else Noticed(Forget(tried.0, k, weight), true, weight, weight)
  }

  /** Undoes a first NOTICE that could not be scheduled. */
  function Forget(s: Sched, k: QueueKey, weight: int): Sched {
    var drop := if k in s.queues && s.queues[k].phase.Active? then 1 else 0;
    s.(queues := s.queues - {k}, active := s.active - drop, used := s.used - weight)
  }

  /** A pull worker acts on a token; the flag tells whether a pull began. */
  function BeginPull(s: Sched, k: QueueKey, cancelled: bool): (Sched, bool)
    requires k in s.queues
  {
    var q := s.queues[k];
    if cancelled || !q.phase.Active? || !q.pullQueued || q.processing || q.pullInFlight then
      (s.(queues := s.queues[k := q.(pullQueued := false)]), false)
    else
      (s.(queues := s.queues[k := q.(pullQueued := false, pullInFlight := true)]), true)
  }

  function PullFailed(s: Sched, k: QueueKey): Sched
    requires k in s.queues
  {
    s.(queues := s.queues[k := s.queues[k].(pullInFlight := false)])
  }

  /** A SYNC batch arrives; the flag tells whether it was accepted for processing. */
  function ArriveBatch(s: Sched, k: QueueKey): (Sched, bool) {
    if k !in s.queues || !s.queues[k].phase.Active? || s.queues[k].processing then (s, false)
    else
      (s.(queues := s.queues[k := s.queues[k].(pullQueued := false, pullInFlight := false, processing := true)]), true)
  }

  function ResetProcessing(s: Sched, k: QueueKey): Sched {
    if k !in s.queues then s
    else s.(queues := s.queues[k := s.queues[k].(processing := false)])
  }

  function FinishBatch(s: Sched, k: QueueKey, nextKey: nat, isLast: bool): (Sched, bool) {
    if k !in s.queues then (s, false)
    else
      var q := s.queues[k];
      var q' := q.(processing := false, cursor := if nextKey != 0 then nextKey else q.cursor);
      if (isLast || nextKey == 0) && !q.noticePending then
        PromoteDeferred(s.(queues := s.queues[k := q'.(phase := Idle)], active := s.active - 1))
      else
        EnqueuePull(s.(queues := s.queues[k := q'.(noticePending := false)]), k)
  }

  // ---- Invariants ------------------------------------------------------------------------

  ghost function ActiveKeys(queues: map<QueueKey, Queue>): set<QueueKey> {
    set k | k in queues && queues[k].phase.Active?
  }

  ghost function Weights(queues: map<QueueKey, Queue>): map<QueueKey, int> {
    map k | k in queues :: queues[k].weight
  }

  ghost function Tracked(s: Sched): int {
    Sum(Weights(s.queues))
  }

  /** finalizeQueues forgets every queue and releases what it counted from the connection's
      budget; a release that the budget refuses changes nothing. */
  ghost function Finalized(s: Sched): Sched {
    Sched(map[], [], s.pullRequests, 0, if 0 < Tracked(s) <= s.used then s.used - Tracked(s) else s.used)
  }

  /** At most one stage of a pull is under way, and nothing at all on a queue that is not active. */
  predicate FlagsOk(q: Queue) {
    && !(q.pullQueued && q.pullInFlight)
    && !(q.pullQueued && q.processing)
    && !(q.pullInFlight && q.processing)
    && (!q.phase.Active? ==> !q.pullQueued && !q.pullInFlight && !q.processing && !q.noticePending)
  }

  predicate QueueOk(k: QueueKey, q: Queue) {
    FlagsOk(q) && KeyOf(q.jid) == k && q.weight >= MIN_QUEUE_WEIGHT
  }

  ghost predicate Core(s: Sched) {
    && (forall k :: k in s.queues ==> QueueOk(k, s.queues[k]))
    && NoDuplicates(s.deferred)
    && (forall k :: k in s.deferred <==> k in s.queues && s.queues[k].phase.Deferred?)
    && s.active == |ActiveKeys(s.queues)| <= MAX_ACTIVE_QUEUES
    && s.used == Sum(Weights(s.queues)) <= CONNECTION_QUEUE_BUDGET
    && |s.pullRequests| <= PULL_REQUEST_CAPACITY
  }

  /** A queue waits in the ring only while all 256 active places are taken. */
  ghost predicate WorkConserving(s: Sched) {
    s.deferred != [] ==> s.active == MAX_ACTIVE_QUEUES
  }

  ghost predicate SchedInv(s: Sched) {
    Core(s) && WorkConserving(s)
  }

  lemma {:induction false} DistinctFit<T>(s: seq<T>, room: set<T>)
    requires NoDuplicates(s)
    requires forall x :: x in s ==> x in room
    ensures |s| <= |room|
  {
    if s != [] {
      DistinctFit(s[1..], room - {s[0]});
    }
  }

  /** How the number of active queues and the tracked weight follow one queue. */
  lemma PutCounts(queues: map<QueueKey, Queue>, k: QueueKey, q: Queue)
    ensures |ActiveKeys(queues[k := q])| == |ActiveKeys(queues)|
      + (if q.phase.Active? then 1 else 0) - (if k in queues && queues[k].phase.Active? then 1 else 0)
    ensures Sum(Weights(queues[k := q])) == Sum(Weights(queues)) + q.weight - (if k in queues then queues[k].weight else 0)
  {
    var rest := ActiveKeys(queues) - {k};
    assert ActiveKeys(queues[k := q]) == if q.phase.Active? then rest + {k} else rest;
    assert ActiveKeys(queues) == if k in queues && queues[k].phase.Active? then rest + {k} else rest;
    assert Weights(queues[k := q]) == Weights(queues)[k := q.weight];
    SumUpdate(Weights(queues), k, q.weight);
  }

  /** Queue k is replaced, or added as idle, without changing phase; its weight may change. */
  lemma PutKeepsCore(s: Sched, k: QueueKey, q: Queue, s': Sched)
    requires Core(s) && QueueOk(k, q)
    requires q.phase == if k in s.queues then s.queues[k].phase else Idle
    requires s'.queues == s.queues[k := q] && s'.deferred == s.deferred && s'.active == s.active
    requires |s'.pullRequests| <= PULL_REQUEST_CAPACITY
    requires s'.used == s.used + q.weight - (if k in s.queues then s.queues[k].weight else 0) <= CONNECTION_QUEUE_BUDGET
    ensures Core(s')
  {
    PutCounts(s.queues, k, q);
  }

  /** Queue k changes phase; the ring and the counter follow. */
  lemma MoveKeepsCore(s: Sched, k: QueueKey, phase: Phase, s': Sched)
    requires Core(s) && k in s.queues && s.queues[k].phase != phase
    requires s'.queues == s.queues[k := s.queues[k].(phase := phase)]
    requires QueueOk(k, s.queues[k].(phase := phase))
    requires s'.pullRequests == s.pullRequests && s'.used == s.used
    requires NoDuplicates(s'.deferred)
    requires forall x :: x in s'.deferred <==> (x in s.deferred && x != k) || (x == k && phase.Deferred?)
    requires s'.active == s.active + (if phase.Active? then 1 else 0) - (if s.queues[k].phase.Active? then 1 else 0)
    requires s'.active <= MAX_ACTIVE_QUEUES
    ensures Core(s')
  {
    PutCounts(s.queues, k, s.queues[k].(phase := phase));
  }

  lemma EnqueueKeepsCore(s: Sched, k: QueueKey)
    requires Core(s) && k in s.queues
    ensures var s' := EnqueuePull(s, k).0;
      Core(s') && s'.active == s.active && s'.deferred == s.deferred
  {
    var s' := EnqueuePull(s, k).0;
    if s' != s {
      PutKeepsCore(s, k, s'.queues[k], s');
    }
  }

  /** Every weight is at least 1 KiB, so the 4 MiB budget leaves a ring slot for any queue
      that is not in the ring yet. */
  lemma RingHasRoom(s: Sched, k: QueueKey)
    requires Core(s) && k in s.queues && !s.queues[k].phase.Deferred?
    ensures |s.deferred| < MAX_TRACKED_QUEUES
  {
    SumAtLeast(Weights(s.queues), MIN_QUEUE_WEIGHT);
    assert Weights(s.queues).Keys == s.queues.Keys;
    DistinctFit(s.deferred, s.queues.Keys - {k});
    assert |s.queues.Keys - {k}| == |s.queues.Keys| - 1;
  }

  lemma ActivateOrDeferKeepsInv(s: Sched, k: QueueKey)
    requires SchedInv(s) && k in s.queues && s.queues[k].phase.Idle?
    ensures SchedInv(ActivateOrDefer(s, k).0) && ActivateOrDefer(s, k).0.used == s.used
    ensures ActivateOrDefer(s, k).1 ==> s.active < MAX_ACTIVE_QUEUES && |s.pullRequests| >= PULL_REQUEST_CAPACITY
  {
    if s.active < MAX_ACTIVE_QUEUES {
      var s' := Activated(s, k);
      MoveKeepsCore(s, k, Active, s');
      EnqueueKeepsCore(s', k);
    } else {
      RingHasRoom(s, k);
      MoveKeepsCore(s, k, Deferred, ActivateOrDefer(s, k).0);
    }
  }

  /** One place has just become free: the oldest deferred queue takes it. */
  lemma PromoteKeepsInv(s: Sched)
    requires Core(s) && (s.deferred != [] ==> s.active == MAX_ACTIVE_QUEUES - 1)
    ensures SchedInv(PromoteDeferred(s).0)
  {
    if s.active < MAX_ACTIVE_QUEUES && s.deferred != [] {
      var k := s.deferred[0];
      assert k in s.deferred;
      var s' := Activated(s.(deferred := s.deferred[1..]), k);
      MoveKeepsCore(s, k, Active, s');
      EnqueueKeepsCore(s', k);
    }
  }

  lemma RenoticeKeepsInv(s: Sched, k: QueueKey, j: JID, charge: nat)
    requires SchedInv(s) && k in s.queues && KeyOf(j) == k
    requires s.used + charge <= CONNECTION_QUEUE_BUDGET
    ensures SchedInv(Put(s, k, Renoticed(s.queues[k], j, charge), charge))
  {
    var q := Renoticed(s.queues[k], j, charge);
    PutKeepsCore(s, k, q, Put(s, k, q, charge));
  }

  lemma RepeatNoticeKeepsInv(s: Sched, j: JID, weight: int, processUsed: int)
    requires SchedInv(s) && KeyOf(j) in s.queues
    ensures var n := RepeatNotice(s, j, weight, processUsed);
      SchedInv(n.sched) && n.refund == 0 && n.sched.used == s.used + n.charge
  {
    var k, n := KeyOf(j), RepeatNotice(s, j, weight, processUsed);
    var q := s.queues[k];
    if !(weight > q.weight && !Reserves(s, weight - q.weight, processUsed)) {
      var s' := Put(s, k, Renoticed(q, j, n.charge), n.charge);
      RenoticeKeepsInv(s, k, j, n.charge);
      if q.phase.Idle? {
        ActivateOrDeferKeepsInv(s', k);
        assert n.sched == ActivateOrDefer(s', k).0;
      }
    }
  }

  lemma FreshKeepsInv(s: Sched, j: JID, weight: int)
    requires SchedInv(s) && KeyOf(j) !in s.queues
    requires MIN_QUEUE_WEIGHT <= weight <= CONNECTION_QUEUE_BUDGET - s.used
    ensures SchedInv(Put(s, KeyOf(j), Fresh(j, weight), weight))
  {
    var k, q := KeyOf(j), Fresh(j, weight);
    PutKeepsCore(s, k, q, Put(s, k, q, weight));
  }

  /** Forgetting a queue whose activation found the request channel full restores the state. */
  lemma ForgetUndoes(s: Sched, j: JID, weight: int)
    requires SchedInv(s) && KeyOf(j) !in s.queues
    requires ActivateOrDefer(Put(s, KeyOf(j), Fresh(j, weight), weight), KeyOf(j)).1 && s.active < MAX_ACTIVE_QUEUES
    ensures Forget(ActivateOrDefer(Put(s, KeyOf(j), Fresh(j, weight), weight), KeyOf(j)).0, KeyOf(j), weight) == s
  {
    var k := KeyOf(j);
    var t := ActivateOrDefer(Put(s, k, Fresh(j, weight), weight), k).0;
    assert t.queues - {k} == s.queues;
  }

  /** A first NOTICE that cannot be scheduled leaves no trace. */
  lemma FirstNoticeKeepsInv(s: Sched, j: JID, weight: int, processUsed: int)
    requires SchedInv(s) && weight >= MIN_QUEUE_WEIGHT && KeyOf(j) !in s.queues
    ensures var n := FirstNotice(s, j, weight, processUsed);
      && SchedInv(n.sched) && n.sched.used == s.used + n.charge - n.refund
      && (n.failed ==> n.sched == s && n.charge == n.refund)
  {
    if Reserves(s, weight, processUsed) {
      var s' := Put(s, KeyOf(j), Fresh(j, weight), weight);
      FreshKeepsInv(s, j, weight);
      ActivateOrDeferKeepsInv(s', KeyOf(j));
      if ActivateOrDefer(s', KeyOf(j)).1 {
        ForgetUndoes(s, j, weight);
      }
    }
  }

  lemma NoticeKeepsInv(s: Sched, j: JID, processUsed: int)
    requires SchedInv(s)
    ensures var n := StartQueue(s, j, processUsed);
      && SchedInv(n.sched) && n.sched.used == s.used + n.charge - n.refund
      && 0 <= n.refund <= n.charge
      && (n.charge > 0 ==> TryOutcome(PROCESS_QUEUE_BUDGET, processUsed, n.charge).Granted?)
  {
    if ValidJID(j) {
      if KeyOf(j) in s.queues {
        RepeatNoticeKeepsInv(s, j, RetainedWeight(j), processUsed);
      } else {
        FirstNoticeKeepsInv(s, j, RetainedWeight(j), processUsed);
      }
    }
  }

  /** A repeated NOTICE for an idle queue that its budgets would admit, but whose pull request
      finds the channel full. */
  predicate FindsChannelFull(s: Sched, j: JID, processUsed: int) {
    && ValidJID(j) && KeyOf(j) in s.queues && s.queues[KeyOf(j)].phase.Idle?
    && (var more := RetainedWeight(j) - s.queues[KeyOf(j)].weight; more > 0 ==> Reserves(s, more, processUsed))
    && s.active < MAX_ACTIVE_QUEUES && |s.pullRequests| >= PULL_REQUEST_CAPACITY
  }

  lemma RepeatNoticeTrace(s: Sched, j: JID, weight: int, processUsed: int)
    requires SchedInv(s) && KeyOf(j) in s.queues && RepeatNotice(s, j, weight, processUsed).failed
    ensures var n, q := RepeatNotice(s, j, weight, processUsed), s.queues[KeyOf(j)];
      if weight > q.weight && !Reserves(s, weight - q.weight, processUsed) then n.sched == s && n.charge == n.refund
      else
        && q.phase.Idle? && s.active < MAX_ACTIVE_QUEUES && |s.pullRequests| >= PULL_REQUEST_CAPACITY
        && n.sched.active == s.active + 1
  {
    var k, n := KeyOf(j), RepeatNotice(s, j, weight, processUsed);
    if !(weight > s.queues[k].weight && !Reserves(s, weight - s.queues[k].weight, processUsed)) {
      RenoticeKeepsInv(s, k, j, n.charge);
      ActivateOrDeferKeepsInv(Put(s, k, Renoticed(s.queues[k], j, n.charge), n.charge), k);
    }
  }

  /** A NOTICE that fails the run leaves no trace in the scheduler or the budgets, with exactly
      one exception: a repeated one that finds the request channel full has already activated
      its queue and does not take that back. */
  lemma FailedNoticeLeavesNoTraceExactlyWhen(s: Sched, j: JID, processUsed: int)
    requires SchedInv(s) && StartQueue(s, j, processUsed).failed
    ensures var n := StartQueue(s, j, processUsed);
      n.sched == s && n.charge == n.refund <==> !FindsChannelFull(s, j, processUsed)
  {
    if ValidJID(j) && KeyOf(j) in s.queues {
      RepeatNoticeTrace(s, j, RetainedWeight(j), processUsed);
    } else if ValidJID(j) {
      FirstNoticeKeepsInv(s, j, RetainedWeight(j), processUsed);
    }
  }

  /** The charge for a queue: the bytes of its identity and a fixed 1 KiB, in whole KiB. */
  lemma QueueWeightCoversIdentity(j: JID)
    ensures var bytes := |j.appKey| + |j.name| + |j.domain| + |j.resource|;
      && RetainedWeight(j) % MIN_QUEUE_WEIGHT == 0
      && MIN_QUEUE_WEIGHT + bytes <= RetainedWeight(j) < 2 * MIN_QUEUE_WEIGHT + bytes
    ensures ValidJID(j) ==> Admissible(CONNECTION_QUEUE_BUDGET, RetainedWeight(j)) && Admissible(PROCESS_QUEUE_BUDGET, RetainedWeight(j))
  {
  }

  /** Sections that touch only the flags of one queue. */
  lemma FlagsKeepInv(s: Sched, k: QueueKey, q: Queue)
    requires SchedInv(s) && k in s.queues && FlagsOk(q)
    requires q == s.queues[k].(processing := q.processing, noticePending := q.noticePending,
                              pullQueued := q.pullQueued, pullInFlight := q.pullInFlight)
    ensures SchedInv(s.(queues := s.queues[k := q]))
  {
    PutKeepsCore(s, k, q, s.(queues := s.queues[k := q]));
  }

  lemma PullKeepsInv(s: Sched, k: QueueKey, cancelled: bool)
    requires SchedInv(s) && k in s.queues
    ensures SchedInv(BeginPull(s, k, cancelled).0)
    ensures SchedInv(PullFailed(s, k))
  {
    FlagsKeepInv(s, k, BeginPull(s, k, cancelled).0.queues[k]);
    FlagsKeepInv(s, k, PullFailed(s, k).queues[k]);
  }

  /** A pull worker's whole turn with a token of k. */
  function PullTurn(s: Sched, k: QueueKey, cancelled: bool, sent: bool): Sched
    requires k in s.queues
  {
    var tried := BeginPull(s, k, cancelled);
    if tried.1 && !sent then PullFailed(tried.0, k) else tried.0
  }

  lemma PullTurnShape(s: Sched, k: QueueKey, cancelled: bool, sent: bool)
    requires k in s.queues && FlagsOk(s.queues[k])
    ensures BeginPull(s, k, cancelled).1 <==> !cancelled && s.queues[k].pullQueued
    ensures PullTurn(s, k, cancelled, sent) == s.(queues := s.queues[k := AfterTurn(s.queues[k], cancelled, sent)])
  {
  }

  function AfterTurn(q: Queue, cancelled: bool, sent: bool): Queue {
    if q.pullQueued then q.(pullQueued := false, pullInFlight := !cancelled && sent) else q
  }

  /** In a sound state a requested pull of a run that is not cancelled is never discarded: it
      begins, and then it is in flight or, when it could not be sent, over. A token without a
      request changes nothing. */
  lemma RequestIsNeverDiscarded(s: Sched, k: QueueKey, cancelled: bool, sent: bool)
    requires SchedInv(s) && k in s.queues
    ensures BeginPull(s, k, cancelled).1 <==> !cancelled && s.queues[k].pullQueued
    ensures PullTurn(s, k, cancelled, sent) == s.(queues := s.queues[k := AfterTurn(s.queues[k], cancelled, sent)])
    ensures SchedInv(PullTurn(s, k, cancelled, sent))
  {
    PullTurnShape(s, k, cancelled, sent);
    FlagsKeepInv(s, k, AfterTurn(s.queues[k], cancelled, sent));
  }

  lemma BatchKeepsInv(s: Sched, k: QueueKey)
    requires SchedInv(s)
    ensures SchedInv(ArriveBatch(s, k).0)
    ensures SchedInv(ResetProcessing(s, k))
  {
    if k in s.queues {
      if ArriveBatch(s, k).1 {
        FlagsKeepInv(s, k, ArriveBatch(s, k).0.queues[k]);
      }
      FlagsKeepInv(s, k, ResetProcessing(s, k).queues[k]);
    }
  }

  lemma FinishKeepsInv(s: Sched, k: QueueKey, nextKey: nat, isLast: bool)
    requires SchedInv(s) && (k in s.queues ==> s.queues[k].processing)
    ensures SchedInv(FinishBatch(s, k, nextKey, isLast).0)
  {
    if k in s.queues {
      var q := s.queues[k];
      var q' := q.(processing := false, cursor := if nextKey != 0 then nextKey else q.cursor);
      var s' := s.(queues := s.queues[k := q'.(noticePending := false)]);
      PutKeepsCore(s, k, q'.(noticePending := false), s');
      if (isLast || nextKey == 0) && !q.noticePending {
        var s'' := s.(queues := s.queues[k := q'.(phase := Idle)], active := s.active - 1);
        assert s''.queues == s'.queues[k := s'.queues[k].(phase := Idle)];
        MoveKeepsCore(s', k, Idle, s'');
        PromoteKeepsInv(s'');
      } else {
        EnqueueKeepsCore(s', k);
      }
    }
  }

  lemma FinalizedIsEmpty(s: Sched)
    requires Core(s)
    ensures Finalized(s) == EMPTY.(pullRequests := s.pullRequests) && SchedInv(Finalized(s))
  {
    SumAtLeast(Weights(s.queues), MIN_QUEUE_WEIGHT);
    assert ActiveKeys(map[]) == {};
    assert Weights(map[]) == map[];
  }

  lemma EmptyIsSound()
    ensures SchedInv(EMPTY)
  {
    assert ActiveKeys(map[]) == {};
    assert Weights(map[]) == map[];
  }
}
