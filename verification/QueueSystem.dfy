/** One connection's pull scheduler as a concurrent system: the NOTICE reader, the pull
    workers, the batch reader and the client's batch workers interleave freely, one queue-mutex
    section per step. */
module QueueSystem {
  import opened QueueScheduler

  /** A pull worker that has received a token, or that is writing the pull to the socket. */
  datatype Worker = Taken(k: QueueKey) | Sending(k: QueueKey)

  datatype Sys = Sys(
    s: Sched,
    workers: map<nat, Worker>,
    jobs: set<QueueKey>,  // batches accepted and neither finished, rejected nor dropped
    doomed: bool,         // some goroutine has left its section with an error it is about to report
    failed: bool,         // the run's context is cancelled
    superseded: bool,     // the client has dialled a newer connection
    finalized: bool)      // finalizeQueues has run; it waits for the reader and the pull workers

  datatype Step =
    | Notice(j: JID, processUsed: int)
    | Take(w: nat)
    | Begin(w: nat)
    | Sent(w: nat)
    | SendFailed(w: nat)
    | Batch(k: QueueKey)
    | Reject(k: QueueKey)
    | Complete(k: QueueKey, nextKey: nat, isLast: bool)
    | Discard(k: QueueKey, panicked: bool)
    | FailRun
    | Supersede
    | Finalize

  const INIT: Sys := Sys(EMPTY, map[], {}, false, false, false, false)

  ghost function Next(y: Sys, step: Step): Sys {
    match step
    case Notice(j, processUsed) => if y.finalized then y else NoticeStep(y, j, processUsed)
    case Take(w) => TakeStep(y, w)
    case Begin(w) => BeginStep(y, w)
    case Sent(w) => if w in y.workers && y.workers[w].Sending? then y.(workers := y.workers - {w}) else y
    case SendFailed(w) => SendFailedStep(y, w)
    case Batch(k) => if y.finalized then y else BatchStep(y, k)
    case Reject(k) => RejectStep(y, k)
    case Complete(k, nextKey, isLast) => CompleteStep(y, k, nextKey, isLast)
    case Discard(k, panicked) => DiscardStep(y, k, panicked)
    case FailRun => y.(failed := true)
    case Supersede => y.(superseded := true)
    case Finalize => FinalizeStep(y)
  }

  function NoticeStep(y: Sys, j: JID, processUsed: int): Sys {
    var n := StartQueue(y.s, j, processUsed);
    y.(s := n.sched, doomed := y.doomed || n.failed)
  }

  function TakeStep(y: Sys, w: nat): Sys {
    if w in y.workers || y.s.pullRequests == [] || y.finalized then y
    else y.(workers := y.workers[w := Taken(y.s.pullRequests[0])],
            s := y.s.(pullRequests := y.s.pullRequests[1..]))
  }

  function BeginStep(y: Sys, w: nat): Sys {
    if w !in y.workers || !y.workers[w].Taken? || y.workers[w].k !in y.s.queues then y
    else
      var k := y.workers[w].k;
      var tried := BeginPull(y.s, k, y.failed);
      y.(s := tried.0, workers := if tried.1 then y.workers[w := Sending(k)] else y.workers - {w})
  }

  /** The pull could not be written. The worker clears the in-flight flag whatever happened to
      the queue meanwhile, then fails the run unless it has failed already. */
  function SendFailedStep(y: Sys, w: nat): Sys {
    if w !in y.workers || !y.workers[w].Sending? || y.workers[w].k !in y.s.queues then y
    else y.(s := PullFailed(y.s, y.workers[w].k), workers := y.workers - {w}, doomed := y.doomed || !y.failed)
  }

  function BatchStep(y: Sys, k: QueueKey): Sys {
    var tried := ArriveBatch(y.s, k);
    if tried.1 then y.(s := tried.0, jobs := y.jobs + {k}) else y
  }

  /** An accepted batch that got no reservation or no place in the batch channel. */
  function RejectStep(y: Sys, k: QueueKey): Sys {
    if k !in y.jobs then y
    else y.(s := ResetProcessing(y.s, k), jobs := y.jobs - {k}, doomed := y.doomed || !y.failed)
  }

  function CompleteStep(y: Sys, k: QueueKey, nextKey: nat, isLast: bool): Sys {
    if k !in y.jobs then y
    else
      var done := FinishBatch(y.s, k, nextKey, isLast);
      y.(s := done.0, jobs := y.jobs - {k}, doomed := y.doomed || done.1)
  }

  /** A batch worker drops a job whose run is cancelled or no longer the newest, or panics. */
  function DiscardStep(y: Sys, k: QueueKey, panicked: bool): Sys {
    if k !in y.jobs || !(y.failed || y.superseded || panicked) then y
    else y.(jobs := y.jobs - {k}, doomed := y.doomed || panicked)
  }

  ghost function FinalizeStep(y: Sys): Sys {
    if !y.failed || y.finalized || y.workers != map[] then y
    else y.(s := Finalized(y.s), finalized := true)
  }

  ghost function Execute(y: Sys, steps: seq<Step>): Sys
    decreases |steps|
  {
    if steps == [] then y else Execute(Next(y, steps[0]), steps[1..])
  }

  // ---- Invariant -------------------------------------------------------------------------

  predicate Busy(q: Queue) {
    q.pullQueued || q.pullInFlight || q.processing
  }

  predicate Live(y: Sys) {
    !y.doomed && !y.failed
  }

  /** A token for k is in the request channel or in the hands of a pull worker. */
  ghost predicate HasToken(y: Sys, k: QueueKey) {
    k in y.s.pullRequests || exists w :: w in y.workers && y.workers[w] == Taken(k)
  }

  ghost predicate References(y: Sys) {
    if y.finalized then y.failed && y.workers == map[] && y.s.queues == map[]
    else
      && (forall k :: k in y.s.pullRequests ==> k in y.s.queues)
      && (forall w :: w in y.workers ==> y.workers[w].k in y.s.queues)
      && (forall k :: k in y.jobs ==> k in y.s.queues && y.s.queues[k].processing)
  }

  ghost predicate Tokens(y: Sys) {
    forall k :: k in y.s.queues && y.s.queues[k].pullQueued ==> HasToken(y, k)
  }

  /** No active queue is stranded: one stage of a pull is under way, and a queue in the
      processing stage has a job that will finish it. */
  ghost predicate NotStranded(y: Sys) {
    Live(y) ==> forall k :: k in y.s.queues ==>
      && (y.s.queues[k].phase.Active? ==> Busy(y.s.queues[k]))
      && (y.s.queues[k].processing && !y.superseded ==> k in y.jobs)
  }

  ghost predicate AllFlagsOk(s: Sched) {
    forall k :: k in s.queues ==> FlagsOk(s.queues[k])
  }

  /** The part of the invariant about the stages of a pull. */
  ghost predicate StagesOk(y: Sys) {
    AllFlagsOk(y.s) && References(y) && Tokens(y) && NotStranded(y)
  }

  ghost predicate SysInv(y: Sys) {
    SchedInv(y.s) && StagesOk(y)
  }

  /** What scheduling may do to the queues: nothing but one more requested pull, announced by
      one more token at the end of the channel, and phase changes that leave every newly
      active queue with its pull requested. */
  ghost predicate Scheduled(s: Sched, s': Sched, err: bool) {
    && s'.queues.Keys == s.queues.Keys
    && (forall x :: x in s.queues ==>
          && s'.queues[x].processing == s.queues[x].processing
          && s'.queues[x].pullInFlight == s.queues[x].pullInFlight
          && s'.queues[x].noticePending == s.queues[x].noticePending
          && s'.queues[x].cursor == s.queues[x].cursor
          && (s'.queues[x].phase == s.queues[x].phase || (!s.queues[x].phase.Active? && !s'.queues[x].phase.Idle?)))
    && (!err ==> forall x :: x in s.queues && s'.queues[x].phase.Active? && !s.queues[x].phase.Active? ==>
          s'.queues[x].pullQueued)
    && (s'.pullRequests == s.pullRequests || (exists k :: k in s.queues && s'.pullRequests == s.pullRequests + [k]))
    && (forall x :: x in s.queues ==>
          if s'.pullRequests == s.pullRequests + [x]
          then !s.queues[x].pullQueued && s'.queues[x].pullQueued && s'.queues[x].phase.Active?
          else s'.queues[x].pullQueued == s.queues[x].pullQueued)
  }

  lemma EnqueueSchedules(s: Sched, k: QueueKey)
    requires k in s.queues
    ensures var (s', err) := EnqueuePull(s, k);
      Scheduled(s, s', err) && (!err && s.queues[k].phase.Active? ==> Busy(s'.queues[k]))
  {
    var s' := EnqueuePull(s, k).0;
    if s' != s {
      assert s'.pullRequests[|s.pullRequests|] == k;
    }
  }

  lemma ActivateSchedules(s: Sched, k: QueueKey)
    requires k in s.queues && s.queues[k].phase.Idle? && !Busy(s.queues[k])
    ensures Scheduled(s, ActivateOrDefer(s, k).0, ActivateOrDefer(s, k).1) && !ActivateOrDefer(s, k).0.queues[k].phase.Idle?
  {
    if s.active < MAX_ACTIVE_QUEUES {
      var p := Activated(s, k);
      EnqueueSchedules(p, k);
      ActivatedThenScheduled(s, k, p, EnqueuePull(p, k).0, EnqueuePull(p, k).1);
    }
  }

  /** Scheduling after queue k alone has become active. */
  lemma ActivatedThenScheduled(s: Sched, k: QueueKey, p: Sched, s': Sched, err: bool)
    requires k in s.queues && !s.queues[k].phase.Active? && !Busy(s.queues[k])
    requires p.queues == s.queues[k := s.queues[k].(phase := Active)] && p.pullRequests == s.pullRequests
    requires Scheduled(p, s', err) && (!err ==> Busy(s'.queues[k])) && s'.queues[k].phase.Active?
    ensures Scheduled(s, s', err)
  {
  }

  lemma PromoteSchedules(s: Sched)
    requires Core(s)
    ensures Scheduled(s, PromoteDeferred(s).0, PromoteDeferred(s).1)
  {
    if s.active < MAX_ACTIVE_QUEUES && s.deferred != [] {
      var k := s.deferred[0];
      assert k in s.deferred && QueueOk(k, s.queues[k]);
      var p := Activated(s.(deferred := s.deferred[1..]), k);
      EnqueueSchedules(p, k);
      ActivatedThenScheduled(s, k, p, EnqueuePull(p, k).0, EnqueuePull(p, k).1);
    }
  }

  /** The state in which a NOTICE is recorded, before any scheduling. */
  ghost function Recorded(s: Sched, j: JID, charge: int): Sched {
    var k := KeyOf(j);
    Put(s, k, if k in s.queues then Renoticed(s.queues[k], j, charge) else Fresh(j, charge), charge)
  }

  /** A NOTICE is refused without a trace, or recorded and then scheduled. */
  ghost predicate NoticedWell(s: Sched, j: JID, n: Noticed) {
    || (n.failed && n.sched == s)
    || (Scheduled(Recorded(s, j, n.charge), n.sched, n.failed) && !n.sched.queues[KeyOf(j)].phase.Idle?)
  }

  /** Scheduling that has nothing to do. */
  lemma ScheduledAlready(s: Sched)
    ensures Scheduled(s, s, false)
  {
  }

  lemma RepeatNoticeShape(s: Sched, j: JID, weight: int, processUsed: int)
    requires SchedInv(s) && KeyOf(j) in s.queues
    ensures NoticedWell(s, j, RepeatNotice(s, j, weight, processUsed))
  {
    var k, n := KeyOf(j), RepeatNotice(s, j, weight, processUsed);
    var p := Recorded(s, j, n.charge);
    assert QueueOk(k, s.queues[k]);
    if s.queues[k].phase.Idle? {
      ActivateSchedules(p, k);
    } else {
      ScheduledAlready(p);
    }
  }

  lemma FirstNoticeShape(s: Sched, j: JID, weight: int, processUsed: int)
    requires KeyOf(j) !in s.queues
    requires FirstNotice(s, j, weight, processUsed).failed ==> FirstNotice(s, j, weight, processUsed).sched == s
    ensures NoticedWell(s, j, FirstNotice(s, j, weight, processUsed))
  {
    if !FirstNotice(s, j, weight, processUsed).failed {
      ActivateSchedules(Recorded(s, j, weight), KeyOf(j));
    }
  }

  lemma NoticeShape(s: Sched, j: JID, processUsed: int)
    requires SchedInv(s)
    ensures NoticedWell(s, j, StartQueue(s, j, processUsed))
  {
    if ValidJID(j) && KeyOf(j) in s.queues {
      RepeatNoticeShape(s, j, RetainedWeight(j), processUsed);
    } else if ValidJID(j) {
      FirstNoticeKeepsInv(s, j, RetainedWeight(j), processUsed);
      FirstNoticeShape(s, j, RetainedWeight(j), processUsed);
    }
  }

  /** Scheduling from a state p in which at most queue k is short of a pull. */
  lemma ScheduledKeepsStages(y: Sys, p: Sched, k: QueueKey, s': Sched, err: bool)
    requires !y.finalized && AllFlagsOk(s') && Scheduled(p, s', err)
    requires References(y.(s := p)) && Tokens(y.(s := p))
    requires Live(y) ==> forall x :: x in p.queues ==>
      && (p.queues[x].phase.Active? ==> Busy(p.queues[x]) || x == k)
      && (p.queues[x].processing && !y.superseded ==> x in y.jobs)
    requires Live(y) && !err && k in s'.queues && s'.queues[k].phase.Active? ==> Busy(s'.queues[k])
    ensures StagesOk(y.(s := s', doomed := y.doomed || err))
  {
    var y' := y.(s := s', doomed := y.doomed || err);
    forall x | x in s'.queues && s'.queues[x].pullQueued
      ensures HasToken(y', x)
    {
      if s'.pullRequests != p.pullRequests + [x] {
        assert HasToken(y.(s := p), x);
        assert x in p.pullRequests ==> x in s'.pullRequests;
      }
    }
  }

  lemma NoticeKeepsStages(y: Sys, j: JID, n: Noticed)
    requires StagesOk(y) && !y.finalized && AllFlagsOk(n.sched)
    requires (n.failed && n.sched == y.s) || Scheduled(Recorded(y.s, j, n.charge), n.sched, n.failed)
    ensures StagesOk(y.(s := n.sched, doomed := y.doomed || n.failed))
  {
    if n.failed && n.sched == y.s {
      TokensStay(y, y.(doomed := true));
    } else {
      var p := Recorded(y.s, j, n.charge);
      TokensStay(y, y.(s := p));
      ScheduledKeepsStages(y, p, KeyOf(j), n.sched, n.failed);
    }
  }

  /** A step that adds no request and takes no token away. */
  lemma TokensStay(y: Sys, y': Sys)
    requires Tokens(y) && y'.s.pullRequests == y.s.pullRequests && y'.workers == y.workers
    requires forall x :: x in y'.s.queues && y'.s.queues[x].pullQueued ==> x in y.s.queues && y.s.queues[x].pullQueued
    ensures Tokens(y')
  {
    forall x | x in y'.s.queues && y'.s.queues[x].pullQueued
      ensures HasToken(y', x)
    {
      assert HasToken(y, x);
    }
  }

  /** A step that changes one queue k, asks for no pull and moves at most the job of k. */
  lemma TouchKeepsStages(y: Sys, k: QueueKey, q: Queue, y': Sys)
    requires StagesOk(y) && !y.finalized && !y'.finalized && k in y.s.queues
    requires y'.s.queues == y.s.queues[k := q] && y'.s.pullRequests == y.s.pullRequests && y'.workers == y.workers
    requires y'.jobs - {k} == y.jobs - {k} && y'.superseded == y.superseded
    requires FlagsOk(q) && (q.pullQueued ==> y.s.queues[k].pullQueued) && (k in y'.jobs ==> q.processing)
    requires Live(y') ==> Live(y) && (q.phase.Active? ==> Busy(q)) && (q.processing && !y'.superseded ==> k in y'.jobs)
    ensures StagesOk(y')
  {
    TokensStay(y, y');
    forall x | x != k
      ensures x in y'.jobs <==> x in y.jobs
    {
      assert x in y'.jobs - {k} <==> x in y.jobs - {k};
    }
  }

  /** A worker other than w that holds the token of x still holds it. */
  lemma OtherWorkersKeepTokens(y: Sys, w: nat, y': Sys, x: QueueKey)
    requires HasToken(y, x) && y'.s.pullRequests == y.s.pullRequests
    requires forall v :: v in y.workers && v != w ==> v in y'.workers && y'.workers[v] == y.workers[v]
    requires w in y.workers && y.workers[w] != Taken(x)
    ensures HasToken(y', x)
  {
    if x !in y.s.pullRequests {
      var v :| v in y.workers && y.workers[v] == Taken(x);
      assert y'.workers[v] == Taken(x);
    }
  }

  lemma TakeKeepsStages(y: Sys, w: nat)
    requires StagesOk(y)
    ensures StagesOk(TakeStep(y, w))
  {
    var y' := TakeStep(y, w);
    if y' != y {
      forall x | x in y'.s.queues && y'.s.queues[x].pullQueued
        ensures HasToken(y', x)
      {
        assert HasToken(y, x);
        if x == y.s.pullRequests[0] {
          assert y'.workers[w] == Taken(x);
        } else if !(x in y.s.pullRequests) {
          var v :| v in y.workers && y.workers[v] == Taken(x);
          assert y'.workers[v] == Taken(x);
        }
      }
    }
  }

  /** Tokens of other queues survive when worker w drops the token it held. */
  lemma WorkerMoves(y: Sys, w: nat, y': Sys)
    requires StagesOk(y) && !y.finalized && y' == y.(workers := y'.workers)
    requires w in y.workers && y'.workers - {w} == y.workers - {w}
    requires y.workers[w].Taken? ==> !y.s.queues[y.workers[w].k].pullQueued
    requires w in y'.workers ==> y'.workers[w].k == y.workers[w].k
    ensures StagesOk(y')
  {
    forall v | v in y.workers && v != w
      ensures v in y'.workers && y'.workers[v] == y.workers[v]
    {
      assert v in y.workers - {w};
      assert (y'.workers - {w})[v] == (y.workers - {w})[v];
    }
    forall v | v in y'.workers
      ensures y'.workers[v].k in y.s.queues
    {
      if v != w {
        assert v in y'.workers - {w};
        assert (y'.workers - {w})[v] == (y.workers - {w})[v];
      }
    }
    forall x | x in y.s.queues && y.s.queues[x].pullQueued
      ensures HasToken(y', x)
    {
      OtherWorkersKeepTokens(y, w, y', x);
    }
  }

  lemma BeginKeepsStages(y: Sys, w: nat)
    requires StagesOk(y)
    ensures StagesOk(BeginStep(y, w))
  {
    if w in y.workers && y.workers[w].Taken? && y.workers[w].k in y.s.queues {
      var k := y.workers[w].k;
      var y' := BeginStep(y, w);
      var mid := y.(s := y'.s);
      TouchKeepsStages(y, k, y'.s.queues[k], mid);
      WorkerMoves(mid, w, y');
    }
  }

  lemma SendingKeepsStages(y: Sys, w: nat)
    requires StagesOk(y)
    ensures StagesOk(Next(y, Sent(w))) && StagesOk(SendFailedStep(y, w))
  {
    if w in y.workers && y.workers[w].Sending? {
      var idle := y.(workers := y.workers - {w});
      WorkerMoves(y, w, idle);
      var k, y' := y.workers[w].k, SendFailedStep(y, w);
      if k in y.s.queues {
        TouchKeepsStages(idle, k, y'.s.queues[k], y');
      }
    }
  }

  lemma BatchKeepsStages(y: Sys, k: QueueKey)
    requires StagesOk(y) && !y.finalized
    ensures StagesOk(BatchStep(y, k))
  {
    var y' := BatchStep(y, k);
    if ArriveBatch(y.s, k).1 {
      TouchKeepsStages(y, k, y'.s.queues[k], y');
    }
  }

  lemma RejectKeepsStages(y: Sys, k: QueueKey)
    requires StagesOk(y)
    ensures StagesOk(RejectStep(y, k))
  {
    var y' := RejectStep(y, k);
    if k in y.jobs && !y.finalized {
      TouchKeepsStages(y, k, y'.s.queues[k], y');
    }
  }

  /** Where a finished batch leaves its queue, before any scheduling. */
  ghost function Finished(s: Sched, k: QueueKey, nextKey: nat, isLast: bool): Sched
    requires k in s.queues
  {
    var q := s.queues[k];
    var q' := q.(processing := false, cursor := if nextKey != 0 then nextKey else q.cursor);
    if (isLast || nextKey == 0) && !q.noticePending
    then s.(queues := s.queues[k := q'.(phase := Idle)], active := s.active - 1)
    else s.(queues := s.queues[k := q'.(noticePending := false)])
  }

  lemma FinishShape(s: Sched, k: QueueKey, nextKey: nat, isLast: bool)
    requires SchedInv(s) && k in s.queues && s.queues[k].processing
    ensures var done := FinishBatch(s, k, nextKey, isLast);
      && Scheduled(Finished(s, k, nextKey, isLast), done.0, done.1)
      && (!done.1 && done.0.queues[k].phase.Active? ==> Busy(done.0.queues[k]))
  {
    var p := Finished(s, k, nextKey, isLast);
    if p.queues[k].phase.Idle? {
      FinishedIdleCore(s, k, nextKey, isLast);
      PromoteSchedules(p);
    } else {
      EnqueueSchedules(p, k);
    }
  }

  lemma FinishedIdleCore(s: Sched, k: QueueKey, nextKey: nat, isLast: bool)
    requires SchedInv(s) && k in s.queues && s.queues[k].processing
    requires (isLast || nextKey == 0) && !s.queues[k].noticePending
    ensures Core(Finished(s, k, nextKey, isLast))
  {
    PutCounts(s.queues, k, Finished(s, k, nextKey, isLast).queues[k]);
  }

  /** With its job gone and its queue finished, only the finished queue may be short of a pull. */
  lemma FinishedKeepsReferences(y: Sys, k: QueueKey, nextKey: nat, isLast: bool)
    requires StagesOk(y) && !y.finalized && k in y.jobs
    ensures var rest := y.(s := Finished(y.s, k, nextKey, isLast), jobs := y.jobs - {k}); References(rest) && Tokens(rest)
  {
    TokensStay(y, y.(s := Finished(y.s, k, nextKey, isLast), jobs := y.jobs - {k}));
  }

  lemma FinishedIsShortOnlyAt(y: Sys, k: QueueKey, nextKey: nat, isLast: bool, x: QueueKey)
    requires StagesOk(y) && !y.finalized && k in y.jobs && Live(y) && x in Finished(y.s, k, nextKey, isLast).queues
    ensures var p := Finished(y.s, k, nextKey, isLast);
      && (p.queues[x].phase.Active? ==> Busy(p.queues[x]) || x == k)
      && (p.queues[x].processing && !y.superseded ==> x in y.jobs - {k})
  {
  }

  lemma CompleteKeepsStages(y: Sys, k: QueueKey, nextKey: nat, isLast: bool, done: (Sched, bool))
    requires StagesOk(y) && !y.finalized && k in y.jobs && AllFlagsOk(done.0)
    requires Scheduled(Finished(y.s, k, nextKey, isLast), done.0, done.1)
    requires !done.1 && done.0.queues[k].phase.Active? ==> Busy(done.0.queues[k])
    ensures StagesOk(y.(s := done.0, jobs := y.jobs - {k}, doomed := y.doomed || done.1))
  {
    var p, rest := Finished(y.s, k, nextKey, isLast), y.(jobs := y.jobs - {k});
    FinishedKeepsReferences(y, k, nextKey, isLast);
    if Live(y) {
      forall x | x in p.queues
        ensures p.queues[x].phase.Active? ==> Busy(p.queues[x]) || x == k
        ensures p.queues[x].processing && !y.superseded ==> x in rest.jobs
      {
        FinishedIsShortOnlyAt(y, k, nextKey, isLast, x);
      }
    }
    ScheduledKeepsStages(rest, p, k, done.0, done.1);
  }

  // ---- Every step keeps the invariant ------------------------------------------------------

  lemma NoticeKeepsSys(y: Sys, step: Step)
    requires SysInv(y) && step.Notice?
    ensures SysInv(Next(y, step))
  {
    if !y.finalized {
      var n := StartQueue(y.s, step.j, step.processUsed);
      NoticeKeepsInv(y.s, step.j, step.processUsed);
      NoticeShape(y.s, step.j, step.processUsed);
      NoticeKeepsStages(y, step.j, n);
    }
  }

  lemma TakeKeepsSys(y: Sys, step: Step)
    requires SysInv(y) && step.Take?
    ensures SysInv(Next(y, step))
  {
    TakeKeepsStages(y, step.w);
  }

  lemma BeginKeepsSys(y: Sys, step: Step)
    requires SysInv(y) && step.Begin?
    ensures SysInv(Next(y, step))
  {
    BeginKeepsStages(y, step.w);
    if step.w in y.workers && y.workers[step.w].k in y.s.queues {
      PullKeepsInv(y.s, y.workers[step.w].k, y.failed);
    }
  }

  lemma SendStepKeepsSys(y: Sys, step: Step)
    requires SysInv(y) && (step.Sent? || step.SendFailed?)
    ensures SysInv(Next(y, step))
  {
    SendingKeepsStages(y, step.w);
    if step.w in y.workers && y.workers[step.w].k in y.s.queues {
      PullKeepsInv(y.s, y.workers[step.w].k, false);
    }
  }

  lemma BatchStepKeepsSys(y: Sys, step: Step)
    requires SysInv(y) && (step.Batch? || step.Reject?)
    ensures SysInv(Next(y, step))
  {
    BatchKeepsInv(y.s, step.k);
    if step.Reject? {
      RejectKeepsStages(y, step.k);
    } else if !y.finalized {
      BatchKeepsStages(y, step.k);
    }
  }

  lemma CompleteKeepsSys(y: Sys, step: Step)
    requires SysInv(y) && step.Complete?
    ensures SysInv(Next(y, step))
  {
    if step.k in y.jobs && !y.finalized {
      var done := FinishBatch(y.s, step.k, step.nextKey, step.isLast);
      FinishKeepsInv(y.s, step.k, step.nextKey, step.isLast);
      FinishShape(y.s, step.k, step.nextKey, step.isLast);
      CompleteKeepsStages(y, step.k, step.nextKey, step.isLast, done);
    }
  }

  lemma FinalizeKeepsSys(y: Sys, step: Step)
    requires SysInv(y) && step.Finalize?
    ensures SysInv(Next(y, step))
  {
    FinalizedIsEmpty(y.s);
  }

  lemma EndKeepsSys(y: Sys, step: Step)
    requires SysInv(y) && (step.Discard? || step.FailRun? || step.Supersede?)
    ensures SysInv(Next(y, step))
  {
    TokensStay(y, Next(y, step));
  }

  lemma StepKeepsInv(y: Sys, step: Step)
    requires SysInv(y)
    ensures SysInv(Next(y, step))
  {
    if step.Notice? {
      NoticeKeepsSys(y, step);
    } else if step.Take? {
      TakeKeepsSys(y, step);
    } else if step.Begin? {
      BeginKeepsSys(y, step);
    } else if step.Sent? || step.SendFailed? {
      SendStepKeepsSys(y, step);
    } else if step.Batch? || step.Reject? {
      BatchStepKeepsSys(y, step);
    } else if step.Complete? {
      CompleteKeepsSys(y, step);
    } else if step.Finalize? {
      FinalizeKeepsSys(y, step);
    } else {
      EndKeepsSys(y, step);
    }
  }

  /** A run that is live after a step was live before it. */
  lemma LiveBefore(y: Sys, step: Step)
    requires Live(Next(y, step))
    ensures Live(y)
  {
  }
}
