/** What a pull asks for: the scheduler against a plain record, kept beside it, of the notices
    and batches each queue has seen. */
module QueueRequests {
  import opened QueueScheduler
  import opened QueueSystem

  /** Of one queue: the address in its latest NOTICE, the greatest weight any of its notices had,
      and the last non-zero cursor a processed batch brought. */
  datatype Trace = Trace(jid: JID, heaviest: int, cursor: nat)

  datatype Traced = Traced(y: Sys, traces: map<QueueKey, Trace>)

  function Noted(traces: map<QueueKey, Trace>, j: JID, weight: int): map<QueueKey, Trace> {
    var k := KeyOf(j);
    if k in traces
    then traces[k := Trace(j, if weight > traces[k].heaviest then weight else traces[k].heaviest, traces[k].cursor)]
    else traces[k := Trace(j, weight, 0)]
  }

  function Moved(traces: map<QueueKey, Trace>, k: QueueKey, nextKey: nat): map<QueueKey, Trace> {
    if k in traces && nextKey != 0 then traces[k := traces[k].(cursor := nextKey)] else traces
  }

  ghost function NextTraced(t: Traced, step: Step): Traced {
    Traced(Next(t.y, step),
      match step
      case Notice(j, _) => if t.y.finalized then t.traces else Noted(t.traces, j, RetainedWeight(j))
      case Complete(k, nextKey, _) => if k in t.y.jobs then Moved(t.traces, k, nextKey) else t.traces
      case _ => t.traces)
  }

  ghost function ExecuteTraced(t: Traced, steps: seq<Step>): Traced
    decreases |steps|
  {
    if steps == [] then t else ExecuteTraced(NextTraced(t, steps[0]), steps[1..])
  }

  /** The scheduler's queues carry exactly what the record says. */
  ghost predicate Agrees(s: Sched, traces: map<QueueKey, Trace>) {
    && s.queues.Keys == traces.Keys
    && (forall k :: k in s.queues ==> Trace(s.queues[k].jid, s.queues[k].weight, s.queues[k].cursor) == traces[k])
  }

  /** Scheduling leaves address, weight and cursor of every queue alone. */
  ghost predicate SameCargo(s: Sched, s': Sched) {
    && s'.queues.Keys == s.queues.Keys
    && (forall k :: k in s.queues ==>
          SameLoad(s.queues[k], s'.queues[k]))
  }

  /** One queue changes flags or phase only. */
  predicate SameLoad(q: Queue, q': Queue) {
    q'.jid == q.jid && q'.weight == q.weight && q'.cursor == q.cursor
  }

  lemma OneQueueKeepsCargo(s: Sched, k: QueueKey, q: Queue, s': Sched)
    requires k in s.queues && SameLoad(s.queues[k], q) && s'.queues == s.queues[k := q]
    ensures SameCargo(s, s')
  {
  }

  lemma CargoKeepsAgreement(s: Sched, s': Sched, traces: map<QueueKey, Trace>)
    requires Agrees(s, traces) && SameCargo(s, s')
    ensures Agrees(s', traces)
  {
  }

  lemma CargoIsTransitive(s: Sched, s': Sched, s'': Sched)
    requires SameCargo(s, s') && SameCargo(s', s'')
    ensures SameCargo(s, s'')
  {
  }

  lemma EnqueueKeepsCargo(s: Sched, k: QueueKey)
    requires k in s.queues
    ensures SameCargo(s, EnqueuePull(s, k).0)
  {
  }

  lemma ActivateKeepsCargo(s: Sched, k: QueueKey)
    requires k in s.queues
    ensures SameCargo(s, ActivateOrDefer(s, k).0)
  {
    if s.active < MAX_ACTIVE_QUEUES {
      var p := Activated(s, k);
      OneQueueKeepsCargo(s, k, p.queues[k], p);
      EnqueueKeepsCargo(p, k);
      CargoIsTransitive(s, p, EnqueuePull(p, k).0);
    } else {
      OneQueueKeepsCargo(s, k, s.queues[k].(phase := Deferred), ActivateOrDefer(s, k).0);
    }
  }

  lemma {:induction false} PromoteKeepsCargo(s: Sched)
    ensures SameCargo(s, PromoteDeferred(s).0)
    decreases |s.deferred|
  {
    if s.active < MAX_ACTIVE_QUEUES && s.deferred != [] {
      var k, s' := s.deferred[0], s.(deferred := s.deferred[1..]);
      if k in s.queues && s.queues[k].phase.Deferred? {
        EnqueueKeepsCargo(Activated(s', k), k);
      } else {
        PromoteKeepsCargo(s');
      }
    }
  }

  lemma FirstNoticeAgrees(s: Sched, j: JID, weight: int, processUsed: int, traces: map<QueueKey, Trace>)
    requires Agrees(s, traces) && KeyOf(j) !in s.queues && !FirstNotice(s, j, weight, processUsed).failed
    ensures Agrees(FirstNotice(s, j, weight, processUsed).sched, Noted(traces, j, weight))
  {
    ActivateKeepsCargo(Put(s, KeyOf(j), Fresh(j, weight), weight), KeyOf(j));
  }

  lemma RepeatNoticeAgrees(s: Sched, j: JID, weight: int, processUsed: int, traces: map<QueueKey, Trace>)
    requires Agrees(s, traces) && KeyOf(j) in s.queues && !RepeatNotice(s, j, weight, processUsed).failed
    ensures Agrees(RepeatNotice(s, j, weight, processUsed).sched, Noted(traces, j, weight))
  {
    var k, n := KeyOf(j), RepeatNotice(s, j, weight, processUsed);
    ActivateKeepsCargo(Put(s, k, Renoticed(s.queues[k], j, n.charge), n.charge), k);
  }

  lemma NoticeAgrees(s: Sched, j: JID, processUsed: int, traces: map<QueueKey, Trace>)
    requires Agrees(s, traces) && !StartQueue(s, j, processUsed).failed
    ensures Agrees(StartQueue(s, j, processUsed).sched, Noted(traces, j, RetainedWeight(j)))
  {
    if KeyOf(j) in s.queues {
      RepeatNoticeAgrees(s, j, RetainedWeight(j), processUsed, traces);
    } else {
      FirstNoticeAgrees(s, j, RetainedWeight(j), processUsed, traces);
    }
  }

  lemma FinishAgrees(s: Sched, k: QueueKey, nextKey: nat, isLast: bool, traces: map<QueueKey, Trace>)
    requires Agrees(s, traces) && k in s.queues
    ensures Agrees(FinishBatch(s, k, nextKey, isLast).0, Moved(traces, k, nextKey))
  {
    var p := Finished(s, k, nextKey, isLast);
    assert Agrees(p, Moved(traces, k, nextKey));
    if (isLast || nextKey == 0) && !s.queues[k].noticePending {
      PromoteKeepsCargo(p);
    } else {
      EnqueueKeepsCargo(p, k);
    }
  }

  /** Steps of the pull and batch workers that end no batch change at most one queue. */
  lemma QuietKeepsCargo(y: Sys, step: Step)
    requires !step.Notice? && !step.Complete? && !step.Finalize?
    ensures SameCargo(y.s, Next(y, step).s)
  {
    var s' := Next(y, step).s;
    if s'.queues != y.s.queues {
      var k := if step.Batch? || step.Reject? then step.k else y.workers[step.w].k;
      OneQueueKeepsCargo(y.s, k, s'.queues[k], s');
    }
  }

  lemma StepAgrees(t: Traced, step: Step)
    requires SysInv(t.y) && Live(NextTraced(t, step).y) && Agrees(t.y.s, t.traces)
    ensures Agrees(NextTraced(t, step).y.s, NextTraced(t, step).traces)
  {
    match step
    case Notice(j, processUsed) => if !t.y.finalized { NoticeAgrees(t.y.s, j, processUsed, t.traces); }
    case Complete(k, nextKey, isLast) =>
      if k in t.y.jobs {
        FinishAgrees(t.y.s, k, nextKey, isLast, t.traces);
      }
    case Finalize =>
    case _ =>
      QuietKeepsCargo(t.y, step);
      CargoKeepsAgreement(t.y.s, Next(t.y, step).s, t.traces);
  }

  lemma {:induction false} ExecuteAgrees(t: Traced, steps: seq<Step>)
    requires SysInv(t.y) && (Live(t.y) ==> Agrees(t.y.s, t.traces))
    ensures var t' := ExecuteTraced(t, steps);
      t'.y == Execute(t.y, steps) && SysInv(t'.y) && (Live(t'.y) ==> Agrees(t'.y.s, t'.traces))
    decreases |steps|
  {
    if steps != [] {
      StepKeepsInv(t.y, steps[0]);
      if Live(Next(t.y, steps[0])) {
        LiveBefore(t.y, steps[0]);
        StepAgrees(t, steps[0]);
      }
      ExecuteAgrees(NextTraced(t, steps[0]), steps[1..]);
    }
  }

  /** Over every run that is still live: the run tracks exactly the queues it was notified of,
      and each pull of a queue asks at the address of its latest NOTICE, from the last non-zero
      cursor a processed batch brought, while its charge is that of its heaviest NOTICE. */
  lemma PullsAskForTheLatest(steps: seq<Step>)
    ensures var t := ExecuteTraced(Traced(INIT, map[]), steps);
      && t.y == Execute(INIT, steps)
      && (Live(t.y) ==>
            && t.y.s.queues.Keys == t.traces.Keys
            && (forall k :: k in t.y.s.queues ==>
                  && t.y.s.queues[k].jid == t.traces[k].jid
                  && t.y.s.queues[k].cursor == t.traces[k].cursor
                  && t.y.s.queues[k].weight == t.traces[k].heaviest))
  {
    EmptyIsSound();
    ExecuteAgrees(Traced(INIT, map[]), steps);
  }
}
