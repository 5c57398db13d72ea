/** What holds in every run of the pull scheduler. */
module QueueProperties {
  import opened Common
  import opened QueueScheduler
  import opened QueueSystem
  import MapSums

  lemma {:induction false} ExecuteKeepsInv(y: Sys, steps: seq<Step>)
    requires SysInv(y)
    ensures SysInv(Execute(y, steps))
    decreases |steps|
  {
    if steps != [] {
      StepKeepsInv(y, steps[0]);
      ExecuteKeepsInv(Next(y, steps[0]), steps[1..]);
    }
  }

  function Stages(q: Queue): nat {
    (if q.pullQueued then 1 else 0) + (if q.pullInFlight then 1 else 0) + (if q.processing then 1 else 0)
  }

  /** In every interleaving a queue is in at most one stage of a pull and in none unless it is
      active; while the run is live an active queue is in exactly one, a requested pull still
      has its token, a worker that picks up the token of a requested pull does begin it, and
      a queue being processed has a job unless a newer connection has superseded the run. */
  lemma NoActiveQueueStranded(steps: seq<Step>, k: QueueKey)
    requires k in Execute(INIT, steps).s.queues
    ensures var y := Execute(INIT, steps);
      var q := y.s.queues[k];
      && Stages(q) <= (if q.phase.Active? then 1 else 0)
      && (q.noticePending ==> q.phase.Active?)
      && (Live(y) && q.phase.Active? ==> Stages(q) == 1)
      && (q.pullQueued ==> HasToken(y, k))
      && (Live(y) && q.pullQueued ==> BeginPull(y.s, k, y.failed).1)
      && (Live(y) && q.processing && !y.superseded ==> k in y.jobs)
  {
    EmptyIsSound();
    ExecuteKeepsInv(INIT, steps);
  }

  /** The ring holds each deferred queue exactly once, the counter counts the active queues,
      no more than 256 are active, none waits while a place is free, and the connection budget
      is exactly the sum of the tracked weights. */
  lemma RingAndCounterAreExact(steps: seq<Step>)
    ensures var s := Execute(INIT, steps).s;
      && NoDuplicates(s.deferred)
      && (forall k :: k in s.deferred <==> k in s.queues && s.queues[k].phase.Deferred?)
      && s.active == |ActiveKeys(s.queues)| <= MAX_ACTIVE_QUEUES
      && (s.deferred != [] ==> s.active == MAX_ACTIVE_QUEUES)
      && s.used == MapSums.Sum(Weights(s.queues)) <= CONNECTION_QUEUE_BUDGET
  {
    EmptyIsSound();
    ExecuteKeepsInv(INIT, steps);
  }

  // ---- Order of activation ---------------------------------------------------------------

  /** What one section may do to the ring: nothing, a push at the end, or the oldest entry
      leaves and becomes active. Nobody becomes active past a waiting queue. */
  ghost predicate FifoStep(s: Sched, s': Sched) {
    && (|| s'.deferred == s.deferred
        || (exists k :: s'.deferred == s.deferred + [k])
        || (s.deferred != [] && s'.deferred == s.deferred[1..]))
    && (forall k :: k in s'.queues && s'.queues[k].phase.Active? && !(k in s.queues && s.queues[k].phase.Active?) ==>
          if s.deferred == [] then s'.deferred == [] else k == s.deferred[0] && s'.deferred == s.deferred[1..])
  }

  lemma PromoteIsFifo(s: Sched)
    requires Core(s)
    ensures FifoStep(s, PromoteDeferred(s).0)
    ensures forall k :: k in s.queues && !s.queues[k].phase.Deferred? ==> PromoteDeferred(s).0.queues[k].phase == s.queues[k].phase
  {
    if s.active < MAX_ACTIVE_QUEUES && s.deferred != [] {
      assert s.deferred[0] in s.deferred;
    }
  }

  lemma ActivateIsFifo(s: Sched, k: QueueKey)
    requires WorkConserving(s) && k in s.queues
    ensures FifoStep(s, ActivateOrDefer(s, k).0)
  {
  }

  /** Recording a NOTICE or finishing a batch activates nobody and leaves the ring alone. */
  lemma FifoFrom(s: Sched, p: Sched, s': Sched)
    requires FifoStep(p, s') && p.deferred == s.deferred
    requires forall k :: k in p.queues && p.queues[k].phase.Active? ==> k in s.queues && s.queues[k].phase.Active?
    ensures FifoStep(s, s')
  {
  }

  /** A NOTICE is recorded without touching a phase or the ring, and then schedules its queue. */
  lemma RecordedIsFifo(s: Sched, j: JID, charge: nat)
    requires WorkConserving(s)
    ensures FifoStep(s, ActivateOrDefer(Recorded(s, j, charge), KeyOf(j)).0) && FifoStep(s, Recorded(s, j, charge))
  {
    var p := Recorded(s, j, charge);
    ActivateIsFifo(p, KeyOf(j));
    FifoFrom(s, p, ActivateOrDefer(p, KeyOf(j)).0);
  }

  lemma RepeatNoticeIsFifo(s: Sched, j: JID, weight: int, processUsed: int)
    requires WorkConserving(s) && KeyOf(j) in s.queues
    ensures FifoStep(s, RepeatNotice(s, j, weight, processUsed).sched)
  {
    RecordedIsFifo(s, j, RepeatNotice(s, j, weight, processUsed).charge);
  }

  lemma FirstNoticeIsFifo(s: Sched, j: JID, weight: int, processUsed: int)
    requires SchedInv(s) && KeyOf(j) !in s.queues && weight >= MIN_QUEUE_WEIGHT
    ensures FifoStep(s, FirstNotice(s, j, weight, processUsed).sched)
  {
    FirstNoticeKeepsInv(s, j, weight, processUsed);
    if !FirstNotice(s, j, weight, processUsed).failed {
      RecordedIsFifo(s, j, weight);
    }
  }

  lemma NoticeIsFifo(y: Sys, step: Step)
    requires SchedInv(y.s) && step.Notice?
    ensures FifoStep(y.s, Next(y, step).s)
  {
    var j := step.j;
    if ValidJID(j) && KeyOf(j) in y.s.queues {
      RepeatNoticeIsFifo(y.s, j, RetainedWeight(j), step.processUsed);
    } else if ValidJID(j) {
      FirstNoticeIsFifo(y.s, j, RetainedWeight(j), step.processUsed);
    }
  }

  lemma FinishIsFifo(s: Sched, k: QueueKey, nextKey: nat, isLast: bool)
    requires SchedInv(s) && k in s.queues && s.queues[k].processing
    ensures FifoStep(s, FinishBatch(s, k, nextKey, isLast).0)
  {
    var p := Finished(s, k, nextKey, isLast);
    if p.queues[k].phase.Idle? {
      FinishedIdleCore(s, k, nextKey, isLast);
      PromoteIsFifo(p);
      FifoFrom(s, p, PromoteDeferred(p).0);
    }
  }

  lemma CompleteIsFifo(y: Sys, step: Step)
    requires SysInv(y) && step.Complete?
    ensures FifoStep(y.s, Next(y, step).s)
  {
    if step.k in y.jobs && !y.finalized {
      FinishIsFifo(y.s, step.k, step.nextKey, step.isLast);
    }
  }

  /** Every other section rewrites at most one queue, and not its phase. */
  lemma SamePhaseIsFifo(s: Sched, k: QueueKey, q: Queue, s': Sched)
    requires k in s.queues && q.phase == s.queues[k].phase
    requires s'.queues == s.queues[k := q] && s'.deferred == s.deferred
    ensures FifoStep(s, s')
  {
  }

  lemma QuietIsFifo(y: Sys, step: Step)
    requires !step.Notice? && !step.Complete? && !step.Finalize?
    ensures FifoStep(y.s, Next(y, step).s)
  {
    var s' := Next(y, step).s;
    if s'.queues != y.s.queues {
      var k := if step.Batch? || step.Reject? then step.k else y.workers[step.w].k;
      SamePhaseIsFifo(y.s, k, s'.queues[k], s');
    }
  }

  lemma StepIsFifo(y: Sys, step: Step)
    requires SysInv(y) && !step.Finalize?
    ensures FifoStep(y.s, Next(y, step).s)
  {
    if step.Notice? {
      NoticeIsFifo(y, step);
    } else if step.Complete? {
      CompleteIsFifo(y, step);
    } else {
      QuietIsFifo(y, step);
    }
  }

  /** Deferred queues become active strictly in the order in which they were deferred. */
  lemma DeferredOrderIsKept(steps: seq<Step>, step: Step)
    requires !step.Finalize?
    ensures FifoStep(Execute(INIT, steps).s, Next(Execute(INIT, steps), step).s)
  {
    EmptyIsSound();
    ExecuteKeepsInv(INIT, steps);
    StepIsFifo(Execute(INIT, steps), step);
  }

  // ---- Runs in which every batch answers a pull -------------------------------------------

  /** The server sends a batch for a queue only in answer to a pull that is in flight. */
  predicate Answers(y: Sys, step: Step) {
    step.Batch? && ArriveBatch(y.s, step.k).1 ==> y.s.queues[step.k].pullInFlight
  }

  ghost predicate Solicited(y: Sys, steps: seq<Step>)
    decreases |steps|
  {
    steps == [] || (Answers(y, steps[0]) && Solicited(Next(y, steps[0]), steps[1..]))
  }

  /** Every token stands for a requested pull, and there is only one per queue. */
  ghost predicate OneToken(y: Sys) {
    && NoDuplicates(y.s.pullRequests)
    && (!y.finalized ==>
          && (forall k :: k in y.s.pullRequests ==> k in y.s.queues && y.s.queues[k].pullQueued)
          && (forall w :: w in y.workers && y.workers[w].Taken? ==>
                var k := y.workers[w].k;
                k in y.s.queues && y.s.queues[k].pullQueued && k !in y.s.pullRequests))
    && (forall v, w :: v in y.workers && w in y.workers && v != w && y.workers[v].Taken? && y.workers[w].Taken? ==>
          y.workers[v].k != y.workers[w].k)
  }

  /** Scheduling adds a token only for a queue that had none. */
  lemma ScheduledKeepsOneToken(y: Sys, p: Sched, y': Sys, err: bool)
    requires OneToken(y) && !y.finalized && !y'.finalized && y'.workers == y.workers
    requires Scheduled(p, y'.s, err) && p.pullRequests == y.s.pullRequests && y.s.queues.Keys <= p.queues.Keys
    requires forall k :: k in y.s.queues ==> p.queues[k].pullQueued == y.s.queues[k].pullQueued
    requires forall k :: k in p.queues && k !in y.s.queues ==> !p.queues[k].pullQueued
    ensures OneToken(y')
  {
    if y'.s.pullRequests != p.pullRequests {
      var k :| k in p.queues && y'.s.pullRequests == p.pullRequests + [k];
      assert k !in y.s.pullRequests;
    }
  }

  lemma TakeKeepsOneToken(y: Sys, w: nat)
    requires StagesOk(y) && OneToken(y)
    ensures OneToken(TakeStep(y, w))
  {
  }

  /** The consumed token was the only one of its queue, whose request it ends. */
  lemma BeginKeepsOneToken(y: Sys, w: nat)
    requires StagesOk(y) && OneToken(y)
    ensures OneToken(BeginStep(y, w))
  {
  }

  lemma OthersKeepOneToken(y: Sys, step: Step)
    requires StagesOk(y) && OneToken(y) && Answers(y, step)
    requires !step.Notice? && !step.Complete? && !step.Take? && !step.Begin?
    ensures OneToken(Next(y, step))
  {
    var y' := Next(y, step);
    if !y'.finalized {
      assert forall k :: k in y.s.queues && y.s.queues[k].pullQueued ==> y'.s.queues[k].pullQueued;
    }
  }

  lemma NoticeKeepsOneToken(y: Sys, j: JID, n: Noticed)
    requires OneToken(y) && !y.finalized
    requires (n.failed && n.sched == y.s) || Scheduled(Recorded(y.s, j, n.charge), n.sched, n.failed)
    ensures OneToken(y.(s := n.sched, doomed := y.doomed || n.failed))
  {
    if !(n.failed && n.sched == y.s) {
      ScheduledKeepsOneToken(y, Recorded(y.s, j, n.charge), y.(s := n.sched, doomed := y.doomed || n.failed), n.failed);
    }
  }

  lemma CompleteKeepsOneToken(y: Sys, k: QueueKey, nextKey: nat, isLast: bool, done: (Sched, bool))
    requires OneToken(y) && !y.finalized && k in y.s.queues
    requires Scheduled(Finished(y.s, k, nextKey, isLast), done.0, done.1)
    ensures OneToken(y.(s := done.0, jobs := y.jobs - {k}, doomed := y.doomed || done.1))
  {
    ScheduledKeepsOneToken(y, Finished(y.s, k, nextKey, isLast),
      y.(s := done.0, jobs := y.jobs - {k}, doomed := y.doomed || done.1), done.1);
  }

  lemma StepKeepsOneToken(y: Sys, step: Step)
    requires SysInv(y) && OneToken(y) && Answers(y, step)
    ensures OneToken(Next(y, step))
  {
    match step
    case Notice(j, processUsed) =>
      if !y.finalized {
        NoticeShape(y.s, j, processUsed);
        NoticeKeepsOneToken(y, j, StartQueue(y.s, j, processUsed));
      }
    case Complete(k, nextKey, isLast) =>
      if k in y.jobs && !y.finalized {
        FinishShape(y.s, k, nextKey, isLast);
        CompleteKeepsOneToken(y, k, nextKey, isLast, FinishBatch(y.s, k, nextKey, isLast));
      }
    case Take(w) => TakeKeepsOneToken(y, w);
    case Begin(w) => BeginKeepsOneToken(y, w);
    case _ => OthersKeepOneToken(y, step);
  }

  lemma {:induction false} SolicitedKeepsInv(y: Sys, steps: seq<Step>)
    requires SysInv(y) && OneToken(y) && Solicited(y, steps)
    ensures SysInv(Execute(y, steps)) && OneToken(Execute(y, steps))
    decreases |steps|
  {
    if steps != [] {
      StepKeepsInv(y, steps[0]);
      StepKeepsOneToken(y, steps[0]);
      SolicitedKeepsInv(Next(y, steps[0]), steps[1..]);
    }
  }

  /** Tokens are distinct active queues, so 256 places in the channel are enough. */
  lemma ChannelHasRoom(y: Sys)
    requires SchedInv(y.s) && StagesOk(y) && OneToken(y) && !y.finalized
    ensures |y.s.pullRequests| <= y.s.active
    ensures forall k :: k in y.s.queues && y.s.queues[k].phase.Active? && !y.s.queues[k].pullQueued ==>
      |y.s.pullRequests| < y.s.active
  {
    DistinctFit(y.s.pullRequests, ActiveKeys(y.s.queues));
    forall k | k in y.s.queues && y.s.queues[k].phase.Active? && !y.s.queues[k].pullQueued
      ensures |y.s.pullRequests| < y.s.active
    {
      DistinctFit(y.s.pullRequests, ActiveKeys(y.s.queues) - {k});
    }
  }

  lemma FinishHasRoom(s: Sched, k: QueueKey, nextKey: nat, isLast: bool)
    requires SchedInv(s) && k in s.queues && s.queues[k].processing && |s.pullRequests| < s.active
    ensures !FinishBatch(s, k, nextKey, isLast).1
  {
    if (isLast || nextKey == 0) && !s.queues[k].noticePending && s.deferred != [] {
      assert s.deferred[0] in s.deferred;
    }
  }

  /** The NOTICE carries an oversized identity, or what it adds to the tracked weight does not
      fit into the connection's or the process's queue budget. */
  predicate Refused(s: Sched, j: JID, processUsed: int) {
    || !ValidJID(j)
    || var more := RetainedWeight(j) - (if KeyOf(j) in s.queues then s.queues[KeyOf(j)].weight else 0);
       more > 0 && !(0 <= processUsed && s.used + more <= CONNECTION_QUEUE_BUDGET && processUsed + more <= PROCESS_QUEUE_BUDGET)
  }

  lemma ReservesExactly(s: Sched, more: int, processUsed: int)
    requires 0 <= s.used <= CONNECTION_QUEUE_BUDGET && more > 0
    ensures Reserves(s, more, processUsed) <==>
      0 <= processUsed && s.used + more <= CONNECTION_QUEUE_BUDGET && processUsed + more <= PROCESS_QUEUE_BUDGET
  {
  }

  lemma FirstNoticeHasRoom(s: Sched, j: JID, weight: int, processUsed: int)
    requires SchedInv(s) && |s.pullRequests| <= s.active && KeyOf(j) !in s.queues && weight >= MIN_QUEUE_WEIGHT
    ensures FirstNotice(s, j, weight, processUsed).failed <==> !Reserves(s, weight, processUsed)
  {
    if Reserves(s, weight, processUsed) {
      FreshKeepsInv(s, j, weight);
      ActivateOrDeferKeepsInv(Put(s, KeyOf(j), Fresh(j, weight), weight), KeyOf(j));
    }
  }

  lemma RepeatNoticeHasRoom(s: Sched, j: JID, weight: int, processUsed: int)
    requires SchedInv(s) && |s.pullRequests| <= s.active && KeyOf(j) in s.queues
    ensures var more := weight - s.queues[KeyOf(j)].weight;
      RepeatNotice(s, j, weight, processUsed).failed <==> more > 0 && !Reserves(s, more, processUsed)
  {
    var k := KeyOf(j);
    var more := weight - s.queues[k].weight;
    var charge := if more > 0 then more else 0;
    if s.queues[k].phase.Idle? && (more <= 0 || Reserves(s, more, processUsed)) {
      RenoticeKeepsInv(s, k, j, charge);
      ActivateOrDeferKeepsInv(Put(s, k, Renoticed(s.queues[k], j, charge), charge), k);
    }
  }

  lemma NoticeHasRoom(s: Sched, j: JID, processUsed: int)
    requires SchedInv(s) && |s.pullRequests| <= s.active
    ensures StartQueue(s, j, processUsed).failed <==> Refused(s, j, processUsed)
  {
    MapSums.SumAtLeast(Weights(s.queues), 0);
    var more := RetainedWeight(j) - (if KeyOf(j) in s.queues then s.queues[KeyOf(j)].weight else 0);
    if more > 0 {
      ReservesExactly(s, more, processUsed);
    }
    if KeyOf(j) in s.queues {
      RepeatNoticeHasRoom(s, j, RetainedWeight(j), processUsed);
    } else {
      FirstNoticeHasRoom(s, j, RetainedWeight(j), processUsed);
    }
  }

  /** The ordinary NOTICE: components of at most 4096 bytes, 16384 together, room in both budgets
      for them and 2 KiB more, and room in the request channel. It never fails the run, and its
      queue is then tracked and active, or deferred when 256 others are active. */
  lemma OrdinaryNoticeIsTaken(s: Sched, j: JID, processUsed: int)
    requires SchedInv(s) && |s.pullRequests| < PULL_REQUEST_CAPACITY
    requires |j.appKey| <= 4096 && |j.name| <= 4096 && |j.domain| <= 4096 && |j.resource| <= 4096
    requires |j.appKey| + |j.name| + |j.domain| + |j.resource| <= 16384
    requires s.used + |j.appKey| + |j.name| + |j.domain| + |j.resource| + 2048 <= CONNECTION_QUEUE_BUDGET
    requires 0 <= processUsed && processUsed + |j.appKey| + |j.name| + |j.domain| + |j.resource| + 2048 <= PROCESS_QUEUE_BUDGET
    ensures var n := StartQueue(s, j, processUsed);
      !n.failed && KeyOf(j) in n.sched.queues && !n.sched.queues[KeyOf(j)].phase.Idle?
  {
    QueueWeightCoversIdentity(j);
    MapSums.SumAtLeast(Weights(s.queues), 0);
    NoticeShape(s, j, processUsed);
    if KeyOf(j) in s.queues {
      RepeatIsTaken(s, j, RetainedWeight(j), processUsed);
    } else {
      FirstIsTaken(s, j, RetainedWeight(j), processUsed);
    }
  }

  lemma FirstIsTaken(s: Sched, j: JID, weight: int, processUsed: int)
    requires SchedInv(s) && |s.pullRequests| < PULL_REQUEST_CAPACITY && KeyOf(j) !in s.queues && weight >= MIN_QUEUE_WEIGHT
    requires 0 <= s.used && 0 <= processUsed && s.used + weight <= CONNECTION_QUEUE_BUDGET && processUsed + weight <= PROCESS_QUEUE_BUDGET
    ensures !FirstNotice(s, j, weight, processUsed).failed
  {
    ReservesExactly(s, weight, processUsed);
    FreshKeepsInv(s, j, weight);
    ActivateOrDeferKeepsInv(Put(s, KeyOf(j), Fresh(j, weight), weight), KeyOf(j));
  }

  lemma RepeatIsTaken(s: Sched, j: JID, weight: int, processUsed: int)
    requires SchedInv(s) && |s.pullRequests| < PULL_REQUEST_CAPACITY && KeyOf(j) in s.queues
    requires 0 <= s.used && 0 <= processUsed && s.used + weight <= CONNECTION_QUEUE_BUDGET && processUsed + weight <= PROCESS_QUEUE_BUDGET
    ensures !RepeatNotice(s, j, weight, processUsed).failed
  {
    var k := KeyOf(j);
    var more := weight - s.queues[k].weight;
    assert QueueOk(k, s.queues[k]);
    if more > 0 {
      ReservesExactly(s, more, processUsed);
    }
    if s.queues[k].phase.Idle? {
      var charge := if more > 0 then more else 0;
      RenoticeKeepsInv(s, k, j, charge);
      ActivateOrDeferKeepsInv(Put(s, k, Renoticed(s.queues[k], j, charge), charge), k);
    }
  }

  /** When every batch answers a pull, the 256-place request channel never overflows: finishing
      a batch never fails the run ... */
  lemma SolicitedBatchesAlwaysSchedule(steps: seq<Step>, k: QueueKey, nextKey: nat, isLast: bool)
    requires Solicited(INIT, steps) && k in Execute(INIT, steps).jobs
    ensures !FinishBatch(Execute(INIT, steps).s, k, nextKey, isLast).1
  {
    EmptyIsSound();
    SolicitedKeepsInv(INIT, steps);
    var y := Execute(INIT, steps);
    if !y.finalized {
      ChannelHasRoom(y);
      FinishHasRoom(y.s, k, nextKey, isLast);
    }
  }

  /** ... and a NOTICE fails it exactly when it is refused. */
  lemma SolicitedNoticesAlwaysSchedule(steps: seq<Step>, j: JID, processUsed: int)
    requires Solicited(INIT, steps) && !Execute(INIT, steps).finalized
    ensures StartQueue(Execute(INIT, steps).s, j, processUsed).failed <==> Refused(Execute(INIT, steps).s, j, processUsed)
  {
    EmptyIsSound();
    SolicitedKeepsInv(INIT, steps);
    ChannelHasRoom(Execute(INIT, steps));
    NoticeHasRoom(Execute(INIT, steps).s, j, processUsed);
  }

  // ---- The cursor ------------------------------------------------------------------------

  ghost predicate CursorSet(s: Sched, k: QueueKey) {
    k in s.queues && s.queues[k].cursor != 0
  }

  lemma ScheduledKeepsCursor(p: Sched, s': Sched, err: bool, k: QueueKey)
    requires CursorSet(p, k) && Scheduled(p, s', err)
    ensures CursorSet(s', k)
  {
  }

  lemma NoticeKeepsCursor(y: Sys, step: Step, k: QueueKey)
    requires SysInv(y) && CursorSet(y.s, k) && step.Notice?
    ensures CursorSet(Next(y, step).s, k)
  {
    var n := StartQueue(y.s, step.j, step.processUsed);
    NoticeShape(y.s, step.j, step.processUsed);
    if n.sched != y.s {
      ScheduledKeepsCursor(Recorded(y.s, step.j, n.charge), n.sched, n.failed, k);
    }
  }

  lemma CompleteKeepsCursor(y: Sys, step: Step, k: QueueKey)
    requires SysInv(y) && CursorSet(y.s, k) && step.Complete?
    ensures CursorSet(Next(y, step).s, k)
  {
    if step.k in y.jobs && !y.finalized {
      var done := FinishBatch(y.s, step.k, step.nextKey, step.isLast);
      FinishShape(y.s, step.k, step.nextKey, step.isLast);
      ScheduledKeepsCursor(Finished(y.s, step.k, step.nextKey, step.isLast), done.0, done.1, k);
    }
  }

  lemma StepKeepsCursor(y: Sys, step: Step, k: QueueKey)
    requires SysInv(y) && CursorSet(y.s, k)
    ensures Next(y, step).finalized || CursorSet(Next(y, step).s, k)
  {
    if step.Notice? {
      NoticeKeepsCursor(y, step, k);
    } else if step.Complete? {
      CompleteKeepsCursor(y, step, k);
    } else {
      QuietKeepsCursor(y, step, k);
    }
  }

  lemma QuietKeepsCursor(y: Sys, step: Step, k: QueueKey)
    requires CursorSet(y.s, k) && !step.Notice? && !step.Complete?
    ensures Next(y, step).finalized || CursorSet(Next(y, step).s, k)
  {
  }

  /** The sync cursor of a tracked queue, once set, is never reset while the run tracks it. */
  lemma {:induction false} CursorNeverReset(y: Sys, steps: seq<Step>, k: QueueKey)
    requires SysInv(y) && CursorSet(y.s, k)
    ensures k in Execute(y, steps).s.queues ==> Execute(y, steps).s.queues[k].cursor != 0
    decreases |steps|
  {
    if steps != [] {
      StepKeepsInv(y, steps[0]);
      StepKeepsCursor(y, steps[0], k);
      if Next(y, steps[0]).finalized {
        ExecuteKeepsFinal(Next(y, steps[0]), steps[1..]);
      } else {
        CursorNeverReset(Next(y, steps[0]), steps[1..], k);
      }
    }
  }

  lemma {:induction false} ExecuteKeepsFinal(y: Sys, steps: seq<Step>)
    requires SysInv(y) && y.finalized
    ensures Execute(y, steps).s.queues == map[]
    decreases |steps|
  {
    if steps != [] {
      StepKeepsInv(y, steps[0]);
      assert Next(y, steps[0]).finalized;
      ExecuteKeepsFinal(Next(y, steps[0]), steps[1..]);
    }
  }
}
