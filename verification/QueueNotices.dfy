/** When a NOTICE can be lost. A queue should go idle only after a pull that began after its
    latest NOTICE; this says for every run, with or without unsolicited batches, exactly which
    batch breaks that. */
module QueueNotices {
  import opened QueueScheduler
  import opened QueueSystem
  import opened QueueProperties

  /** What an observer of the run sees of a step: a NOTICE came, or a pull began. */
  datatype Mark = Notified(k: QueueKey) | Began(k: QueueKey) | Other

  /** A state with the marks of the steps that led to it. */
  datatype Marked = Marked(y: Sys, marks: seq<Mark>)

  predicate BeginsPull(y: Sys, step: Step) {
    && step.Begin? && step.w in y.workers && y.workers[step.w].Taken? && y.workers[step.w].k in y.s.queues
    && BeginPull(y.s, y.workers[step.w].k, y.failed).1
  }

  function MarkOf(y: Sys, step: Step): Mark {
    if step.Notice? then Notified(KeyOf(step.j))
    else if BeginsPull(y, step) then Began(y.workers[step.w].k)
    else Other
  }

  ghost function NextMarked(t: Marked, step: Step): Marked {
    Marked(Next(t.y, step), t.marks + [MarkOf(t.y, step)])
  }

  ghost function Observe(t: Marked, steps: seq<Step>): Marked
    decreases |steps|
  {
    if steps == [] then t else Observe(NextMarked(t, steps[0]), steps[1..])
  }

  /** A pull of k began and no NOTICE for k came after it. */
  predicate PulledSinceNotice(marks: seq<Mark>, k: QueueKey) {
    exists n :: 0 <= n < |marks| && marks[n] == Began(k) && !NotifiedAfter(marks, n, k)
  }

  predicate NotifiedAfter(marks: seq<Mark>, n: int, k: QueueKey)
    requires -1 <= n
  {
    exists m :: n < m < |marks| && marks[m] == Notified(k)
  }

  lemma PulledAppended(marks: seq<Mark>, mark: Mark, k: QueueKey)
    ensures PulledSinceNotice(marks + [mark], k) <==>
      mark == Began(k) || (mark != Notified(k) && PulledSinceNotice(marks, k))
  {
    var all := marks + [mark];
    if mark == Began(k) {
      assert all[|marks|] == Began(k) && !NotifiedAfter(all, |marks|, k);
    } else if mark == Notified(k) {
      assert forall n :: -1 <= n < |marks| ==> NotifiedAfter(all, n, k) by {
        assert all[|marks|] == Notified(k);
      }
    } else {
      forall n | 0 <= n < |marks|
        ensures NotifiedAfter(all, n, k) <==> NotifiedAfter(marks, n, k)
      {
        if NotifiedAfter(marks, n, k) {
          var m :| n < m < |marks| && marks[m] == Notified(k);
          assert all[m] == Notified(k);
        }
      }
      if PulledSinceNotice(marks, k) {
        var n :| 0 <= n < |marks| && marks[n] == Began(k) && !NotifiedAfter(marks, n, k);
        assert all[n] == Began(k);
      }
    }
  }

  // ---- Runs in which every batch is harmless -----------------------------------------------------

  /** A batch that is accepted finds a NOTICE pending, or a pull has begun since the latest one. */
  ghost predicate Harmless(t: Marked, step: Step) {
    step.Batch? && Live(t.y) && ArriveBatch(t.y.s, step.k).1 ==>
      t.y.s.queues[step.k].noticePending || PulledSinceNotice(t.marks, step.k)
  }

  ghost predicate AllHarmless(t: Marked, steps: seq<Step>)
    decreases |steps|
  {
    steps == [] || (Harmless(t, steps[0]) && AllHarmless(NextMarked(t, steps[0]), steps[1..]))
  }

  /** Whether a queue in this condition claims that its latest NOTICE was followed by a pull. */
  predicate Claims(q: Queue) {
    q.phase.Idle? || (q.phase.Active? && !q.noticePending && (q.pullInFlight || q.processing))
  }

  predicate ClaimHolds(t: Marked, k: QueueKey) {
    k in t.y.s.queues && Claims(t.y.s.queues[k]) ==> PulledSinceNotice(t.marks, k)
  }

  ghost predicate ClaimsHold(t: Marked) {
    Live(t.y) ==> forall k :: k in t.y.s.queues ==> ClaimHolds(t, k)
  }

  /** Scheduling makes no queue claim anything new. */
  lemma ScheduledClaims(p: Sched, s': Sched, err: bool, k: QueueKey)
    requires Scheduled(p, s', err) && AllFlagsOk(p) && k in s'.queues && Claims(s'.queues[k])
    ensures k in p.queues && Claims(p.queues[k])
  {
    assert FlagsOk(p.queues[k]);
  }

  lemma NoticeClaims(s: Sched, j: JID, n: Noticed, k: QueueKey)
    requires AllFlagsOk(s) && k in n.sched.queues && Claims(n.sched.queues[k])
    requires Scheduled(Recorded(s, j, n.charge), n.sched, n.failed) && !n.sched.queues[KeyOf(j)].phase.Idle?
    ensures k != KeyOf(j) && k in s.queues && Claims(s.queues[k])
  {
    ScheduledClaims(Recorded(s, j, n.charge), n.sched, n.failed, k);
  }

  lemma FinishClaims(s: Sched, k: QueueKey, nextKey: nat, isLast: bool, done: (Sched, bool), x: QueueKey)
    requires AllFlagsOk(s) && k in s.queues && s.queues[k].processing
    requires Scheduled(Finished(s, k, nextKey, isLast), done.0, done.1) && x in done.0.queues && Claims(done.0.queues[x])
    ensures x in s.queues && Claims(s.queues[x])
  {
    assert FlagsOk(s.queues[k]);
    ScheduledClaims(Finished(s, k, nextKey, isLast), done.0, done.1, x);
  }

  /** Steps of the pull workers: a queue claims something new only when its pull begins. */
  lemma PullClaims(y: Sys, step: Step, k: QueueKey)
    requires AllFlagsOk(y.s) && (step.Take? || step.Begin? || step.Sent? || step.SendFailed?)
    requires k in Next(y, step).s.queues && Claims(Next(y, step).s.queues[k])
    ensures k in y.s.queues && (MarkOf(y, step) == Began(k) || Claims(y.s.queues[k]))
  {
    assert FlagsOk(y.s.queues[k]);
  }

  /** Steps of the batch reader and workers: a queue claims something new only when a batch for
      it is accepted with no NOTICE pending. */
  lemma BatchClaims(y: Sys, step: Step, k: QueueKey)
    requires AllFlagsOk(y.s) && (step.Batch? || step.Reject? || step.Discard? || step.FailRun? || step.Supersede?)
    requires k in Next(y, step).s.queues && Claims(Next(y, step).s.queues[k])
    ensures k in y.s.queues
    ensures Claims(y.s.queues[k]) || (step == Batch(k) && ArriveBatch(y.s, k).1 && !y.s.queues[k].noticePending)
  {
    assert FlagsOk(y.s.queues[k]);
  }

  /** Where a claim after a step comes from. */
  lemma ClaimsComeFrom(y: Sys, step: Step, k: QueueKey)
    requires SysInv(y) && Live(Next(y, step)) && k in Next(y, step).s.queues && Claims(Next(y, step).s.queues[k])
    ensures MarkOf(y, step) != Notified(k) && k in y.s.queues
    ensures || MarkOf(y, step) == Began(k) || Claims(y.s.queues[k])
            || (step == Batch(k) && ArriveBatch(y.s, k).1 && !y.s.queues[k].noticePending)
  {
    LiveBefore(y, step);
    match step
    case Notice(j, processUsed) =>
      NoticeShape(y.s, j, processUsed);
      NoticeClaims(y.s, j, StartQueue(y.s, j, processUsed), k);
    case Complete(x, nextKey, isLast) =>
      if x in y.jobs {
        FinishShape(y.s, x, nextKey, isLast);
        FinishClaims(y.s, x, nextKey, isLast, FinishBatch(y.s, x, nextKey, isLast), k);
      }
    case Finalize =>
    case Take(_) => PullClaims(y, step, k);
    case Begin(_) => PullClaims(y, step, k);
    case Sent(_) => PullClaims(y, step, k);
    case SendFailed(_) => PullClaims(y, step, k);
    case _ => BatchClaims(y, step, k);
  }

  lemma StepKeepsClaims(t: Marked, step: Step)
    requires SysInv(t.y) && ClaimsHold(t) && Harmless(t, step)
    ensures ClaimsHold(NextMarked(t, step))
  {
    var t' := NextMarked(t, step);
    if Live(t'.y) {
      LiveBefore(t.y, step);
      forall k | k in t'.y.s.queues
        ensures ClaimHolds(t', k)
      {
        PulledAppended(t.marks, MarkOf(t.y, step), k);
        if Claims(t'.y.s.queues[k]) {
          ClaimsComeFrom(t.y, step, k);
          assert ClaimHolds(t, k);
        }
      }
    }
  }

  lemma {:induction false} ObserveKeepsClaims(t: Marked, steps: seq<Step>)
    requires SysInv(t.y) && ClaimsHold(t) && AllHarmless(t, steps)
    ensures SysInv(Observe(t, steps).y) && ClaimsHold(Observe(t, steps))
    decreases |steps|
  {
    if steps != [] {
      StepKeepsInv(t.y, steps[0]);
      StepKeepsClaims(t, steps[0]);
      ObserveKeepsClaims(NextMarked(t, steps[0]), steps[1..]);
    }
  }

  /** A run from the beginning. */
  predicate Start(t: Marked) {
    t == Marked(INIT, [])
  }

  /** In a run whose accepted batches are all harmless, a queue of a live run is idle only if a
      pull of it began after its latest NOTICE, over any sequence of notices, continuations and
      last batches. */
  lemma NoNoticeLost(t: Marked, steps: seq<Step>, k: QueueKey)
    requires Start(t) && AllHarmless(t, steps)
    ensures var t' := Observe(t, steps);
      Live(t'.y) && k in t'.y.s.queues && t'.y.s.queues[k].phase.Idle? ==> PulledSinceNotice(t'.marks, k)
  {
    EmptyIsSound();
    ObserveKeepsClaims(t, steps);
    assert Live(Observe(t, steps).y) && k in Observe(t, steps).y.s.queues ==> ClaimHolds(Observe(t, steps), k);
  }

  // ---- Flags that make a batch harmless ----------------------------------------------------------

  predicate InFlight(q: Queue) {
    q.pullInFlight && !q.noticePending
  }

  ghost predicate InFlightHolds(t: Marked) {
    Live(t.y) ==> forall k :: k in t.y.s.queues && InFlight(t.y.s.queues[k]) ==> PulledSinceNotice(t.marks, k)
  }

  lemma NoticeInFlight(s: Sched, j: JID, n: Noticed, k: QueueKey)
    requires AllFlagsOk(s) && k in n.sched.queues && InFlight(n.sched.queues[k])
    requires Scheduled(Recorded(s, j, n.charge), n.sched, n.failed)
    ensures k != KeyOf(j) && k in s.queues && InFlight(s.queues[k])
  {
    assert k in s.queues ==> FlagsOk(s.queues[k]);
  }

  lemma FinishInFlight(s: Sched, x: QueueKey, nextKey: nat, isLast: bool, done: (Sched, bool), k: QueueKey)
    requires AllFlagsOk(s) && x in s.queues && s.queues[x].processing
    requires Scheduled(Finished(s, x, nextKey, isLast), done.0, done.1) && k in done.0.queues && InFlight(done.0.queues[k])
    ensures k in s.queues && InFlight(s.queues[k])
  {
    assert FlagsOk(s.queues[x]);
  }

  lemma QuietInFlight(y: Sys, step: Step, k: QueueKey)
    requires !step.Notice? && !step.Complete? && k in Next(y, step).s.queues && InFlight(Next(y, step).s.queues[k])
    ensures k in y.s.queues && (MarkOf(y, step) == Began(k) || InFlight(y.s.queues[k]))
  {
  }

  /** A pull is in flight without a pending NOTICE only if it just began or already was so. */
  lemma InFlightComesFrom(y: Sys, step: Step, k: QueueKey)
    requires SysInv(y) && Live(Next(y, step)) && k in Next(y, step).s.queues && InFlight(Next(y, step).s.queues[k])
    ensures MarkOf(y, step) != Notified(k) && k in y.s.queues && (MarkOf(y, step) == Began(k) || InFlight(y.s.queues[k]))
  {
    LiveBefore(y, step);
    if step.Notice? {
      NoticeShape(y.s, step.j, step.processUsed);
      NoticeInFlight(y.s, step.j, StartQueue(y.s, step.j, step.processUsed), k);
    } else if step.Complete? {
      if step.k in y.jobs {
        FinishShape(y.s, step.k, step.nextKey, step.isLast);
        FinishInFlight(y.s, step.k, step.nextKey, step.isLast, FinishBatch(y.s, step.k, step.nextKey, step.isLast), k);
      }
    } else {
      QuietInFlight(y, step, k);
    }
  }

  lemma StepKeepsInFlight(t: Marked, step: Step)
    requires SysInv(t.y) && InFlightHolds(t)
    ensures InFlightHolds(NextMarked(t, step))
  {
    var t' := NextMarked(t, step);
    if Live(t'.y) {
      LiveBefore(t.y, step);
      forall k | k in t'.y.s.queues && InFlight(t'.y.s.queues[k])
        ensures PulledSinceNotice(t'.marks, k)
      {
        PulledAppended(t.marks, MarkOf(t.y, step), k);
        InFlightComesFrom(t.y, step, k);
      }
    }
  }

  /** The server sends a batch only in answer to a pull in flight, or while a NOTICE is pending. */
  predicate Timely(y: Sys, step: Step) {
    step.Batch? && ArriveBatch(y.s, step.k).1 ==> y.s.queues[step.k].pullInFlight || y.s.queues[step.k].noticePending
  }

  ghost predicate AllTimely(y: Sys, steps: seq<Step>)
    decreases |steps|
  {
    steps == [] || (Timely(y, steps[0]) && AllTimely(Next(y, steps[0]), steps[1..]))
  }

  lemma {:induction false} TimelyFrom(t: Marked, steps: seq<Step>)
    requires SysInv(t.y) && InFlightHolds(t) && AllTimely(t.y, steps)
    ensures AllHarmless(t, steps)
    decreases |steps|
  {
    if steps != [] {
      StepKeepsInv(t.y, steps[0]);
      StepKeepsInFlight(t, steps[0]);
      TimelyFrom(NextMarked(t, steps[0]), steps[1..]);
    }
  }

  /** Two flags of the queue at arrival are enough: a run in which every accepted batch finds its
      pull in flight or a NOTICE pending is harmless. Answering only pulls in flight is a special
      case. */
  lemma TimelyBatchesAreHarmless(t: Marked, steps: seq<Step>)
    requires Start(t) && AllTimely(t.y, steps)
    ensures AllHarmless(t, steps)
  {
    EmptyIsSound();
    TimelyFrom(t, steps);
  }

  lemma {:induction false} SolicitedIsTimely(y: Sys, steps: seq<Step>)
    requires Solicited(y, steps)
    ensures AllTimely(y, steps)
    decreases |steps|
  {
    if steps != [] {
      SolicitedIsTimely(Next(y, steps[0]), steps[1..]);
    }
  }

  // ---- Exactly which batch loses a NOTICE --------------------------------------------------------

  predicate NotifiedIn(steps: seq<Step>, k: QueueKey) {
    exists n :: 0 <= n < |steps| && steps[n].Notice? && KeyOf(steps[n].j) == k
  }

  /** The job of k is neither finished nor given up by these steps. */
  predicate LeavesJob(step: Step, k: QueueKey) {
    !((step.Complete? || step.Reject? || step.Discard?) && step.k == k) && !step.Finalize?
  }

  predicate AllLeaveJob(steps: seq<Step>, k: QueueKey) {
    forall n :: 0 <= n < |steps| ==> LeavesJob(steps[n], k)
  }

  predicate InProcess(y: Sys, k: QueueKey) {
    k in y.s.queues && y.s.queues[k].processing && k in y.jobs
  }

  lemma NoticeKeepsProcess(s: Sched, j: JID, n: Noticed, k: QueueKey)
    requires AllFlagsOk(s) && k in s.queues && s.queues[k].processing
    requires Scheduled(Recorded(s, j, n.charge), n.sched, n.failed)
    ensures k in n.sched.queues && n.sched.queues[k].processing
    ensures n.sched.queues[k].noticePending == (s.queues[k].noticePending || KeyOf(j) == k)
  {
    assert FlagsOk(s.queues[k]);
  }

  lemma FinishKeepsProcess(s: Sched, x: QueueKey, nextKey: nat, isLast: bool, done: (Sched, bool), k: QueueKey)
    requires x in s.queues && k in s.queues && x != k && s.queues[k].processing
    requires Scheduled(Finished(s, x, nextKey, isLast), done.0, done.1)
    ensures k in done.0.queues && done.0.queues[k].processing && done.0.queues[k].noticePending == s.queues[k].noticePending
  {
  }

  lemma QuietKeepsProcess(y: Sys, step: Step, k: QueueKey)
    requires InProcess(y, k) && LeavesJob(step, k) && !step.Notice? && !step.Complete?
    ensures InProcess(Next(y, step), k) && Next(y, step).s.queues[k].noticePending == y.s.queues[k].noticePending
  {
  }

  /** While a batch of k is being processed, no pull of k begins, and a NOTICE for k is kept. */
  lemma StepKeepsProcess(y: Sys, step: Step, k: QueueKey)
    requires SysInv(y) && InProcess(y, k) && LeavesJob(step, k) && Live(Next(y, step))
    ensures InProcess(Next(y, step), k) && MarkOf(y, step) != Began(k)
    ensures Next(y, step).s.queues[k].noticePending == (y.s.queues[k].noticePending || MarkOf(y, step) == Notified(k))
  {
    LiveBefore(y, step);
    if step.Notice? {
      NoticeShape(y.s, step.j, step.processUsed);
      NoticeKeepsProcess(y.s, step.j, StartQueue(y.s, step.j, step.processUsed), k);
    } else if step.Complete? {
      if step.k in y.jobs {
        FinishShape(y.s, step.k, step.nextKey, step.isLast);
        FinishKeepsProcess(y.s, step.k, step.nextKey, step.isLast, FinishBatch(y.s, step.k, step.nextKey, step.isLast), k);
      }
    } else {
      QuietKeepsProcess(y, step, k);
    }
  }

  lemma {:induction false} LiveThroughout(t: Marked, steps: seq<Step>)
    requires Live(Observe(t, steps).y)
    ensures Live(t.y)
    decreases |steps|
  {
    if steps != [] {
      LiveThroughout(NextMarked(t, steps[0]), steps[1..]);
      LiveBefore(t.y, steps[0]);
    }
  }

  lemma NotifiedInTail(steps: seq<Step>, k: QueueKey)
    requires steps != []
    ensures NotifiedIn(steps, k) <==> (steps[0].Notice? && KeyOf(steps[0].j) == k) || NotifiedIn(steps[1..], k)
  {
    if NotifiedIn(steps[1..], k) {
      var n :| 0 <= n < |steps[1..]| && steps[1..][n].Notice? && KeyOf(steps[1..][n].j) == k;
      assert steps[n + 1] == steps[1..][n];
    }
    if NotifiedIn(steps, k) {
      var n :| 0 <= n < |steps| && steps[n].Notice? && KeyOf(steps[n].j) == k;
      assert n > 0 ==> steps[1..][n - 1] == steps[n];
    }
  }

  lemma {:induction false} ProcessingLasts(t: Marked, steps: seq<Step>, k: QueueKey)
    requires SysInv(t.y) && InProcess(t.y, k) && AllLeaveJob(steps, k) && Live(Observe(t, steps).y)
    ensures var t' := Observe(t, steps);
      && SysInv(t'.y) && InProcess(t'.y, k)
      && (t'.y.s.queues[k].noticePending <==> t.y.s.queues[k].noticePending || NotifiedIn(steps, k))
      && (PulledSinceNotice(t'.marks, k) <==> PulledSinceNotice(t.marks, k) && !NotifiedIn(steps, k))
    decreases |steps|
  {
    if steps != [] {
      var t1 := NextMarked(t, steps[0]);
      LiveThroughout(t1, steps[1..]);
      StepKeepsInv(t.y, steps[0]);
      StepKeepsProcess(t.y, steps[0], k);
      PulledAppended(t.marks, MarkOf(t.y, steps[0]), k);
      NotifiedInTail(steps, k);
      ProcessingLasts(t1, steps[1..], k);
    }
  }

  /** Promotion leaves an idle queue idle. */
  lemma {:induction false} PromoteKeepsIdle(s: Sched, k: QueueKey)
    requires k in s.queues && s.queues[k].phase.Idle?
    ensures k in PromoteDeferred(s).0.queues && PromoteDeferred(s).0.queues[k].phase.Idle?
    decreases |s.deferred|
  {
    if s.active < MAX_ACTIVE_QUEUES && s.deferred != [] {
      PromoteKeepsIdle(s.(deferred := s.deferred[1..]), k);
    }
  }

  lemma CompletionIdles(s: Sched, k: QueueKey, nextKey: nat, isLast: bool)
    requires k in s.queues && s.queues[k].processing && s.queues[k].phase.Active?
    ensures var s' := FinishBatch(s, k, nextKey, isLast).0;
      k in s'.queues && (s'.queues[k].phase.Idle? <==> (isLast || nextKey == 0) && !s.queues[k].noticePending)
  {
    if (isLast || nextKey == 0) && !s.queues[k].noticePending {
      PromoteKeepsIdle(Finished(s, k, nextKey, isLast), k);
    }
  }

  lemma CompleteStepIdles(t: Marked, k: QueueKey, nextKey: nat, isLast: bool)
    requires SysInv(t.y) && InProcess(t.y, k) && !t.y.finalized
    ensures var t' := NextMarked(t, Complete(k, nextKey, isLast));
      && k in t'.y.s.queues
      && (t'.y.s.queues[k].phase.Idle? <==> (isLast || nextKey == 0) && !t.y.s.queues[k].noticePending)
      && (PulledSinceNotice(t'.marks, k) <==> PulledSinceNotice(t.marks, k))
  {
    assert FlagsOk(t.y.s.queues[k]);
    CompletionIdles(t.y.s, k, nextKey, isLast);
    PulledAppended(t.marks, Other, k);
  }

  lemma AcceptedBatchIsInProcess(t: Marked, k: QueueKey)
    requires SysInv(t.y) && Live(t.y) && ArriveBatch(t.y.s, k).1
    ensures var t' := NextMarked(t, Batch(k));
      && SysInv(t'.y) && Live(t'.y) && InProcess(t'.y, k) && t'.y.s.queues[k].noticePending == t.y.s.queues[k].noticePending
      && (PulledSinceNotice(t'.marks, k) <==> PulledSinceNotice(t.marks, k))
  {
    StepKeepsInv(t.y, Batch(k));
    PulledAppended(t.marks, Other, k);
  }

  /** Exactly which batch loses a NOTICE, in any run and whoever asked for the batch. A batch of k
      is accepted, other steps follow that leave its job alone, and then it is completed: k is
      left idle without a pull since its latest NOTICE if and only if the batch ends the queue,
      no NOTICE for k came while it was processed, and when it came none was pending and no pull
      of k had begun since the latest one, that is, the batch was not harmless. */
  lemma BatchLosesNoticeExactlyWhen(t: Marked, steps: seq<Step>, k: QueueKey, between: seq<Step>, nextKey: nat, isLast: bool)
    requires Start(t) && Live(Observe(t, steps).y) && ArriveBatch(Observe(t, steps).y.s, k).1
    requires AllLeaveJob(between, k) && Live(Observe(NextMarked(Observe(t, steps), Batch(k)), between).y)
    ensures var before := Observe(t, steps);
      var after := NextMarked(Observe(NextMarked(before, Batch(k)), between), Complete(k, nextKey, isLast));
      && k in after.y.s.queues
      && (after.y.s.queues[k].phase.Idle? && !PulledSinceNotice(after.marks, k) <==>
            && (isLast || nextKey == 0) && !NotifiedIn(between, k)
            && !before.y.s.queues[k].noticePending && !PulledSinceNotice(before.marks, k))
  {
    EmptyIsSound();
    ObserveKeepsInv(t, steps);
    var before := Observe(t, steps);
    AcceptedBatchIsInProcess(before, k);
    ProcessingLasts(NextMarked(before, Batch(k)), between, k);
    CompleteStepIdles(Observe(NextMarked(before, Batch(k)), between), k, nextKey, isLast);
  }

  lemma {:induction false} ObserveKeepsInv(t: Marked, steps: seq<Step>)
    requires SysInv(t.y)
    ensures SysInv(Observe(t, steps).y) && Observe(t, steps).y == Execute(t.y, steps)
    decreases |steps|
  {
    if steps != [] {
      StepKeepsInv(t.y, steps[0]);
      ObserveKeepsInv(NextMarked(t, steps[0]), steps[1..]);
    }
  }

  /** Such a batch exists: sent before the first pull has begun, it clears the request but not its
      token, and its completion leaves the queue idle although no pull of it ever began. */
  lemma UnsolicitedBatchLosesNotice(t: Marked, j: JID)
    requires Start(t) && ValidJID(j)
    ensures var k, notified := KeyOf(j), NextMarked(t, Notice(j, 0));
      var after := NextMarked(NextMarked(notified, Batch(k)), Complete(k, 0, true));
      && ArriveBatch(notified.y.s, k).1 && !Timely(notified.y, Batch(k)) && !Harmless(notified, Batch(k))
      && Live(after.y) && k in after.y.s.queues && after.y.s.queues[k].phase.Idle?
      && after.marks == [Notified(k), Other, Other] && after.y.s.pullRequests == [k]
  {
    var k, notified := KeyOf(j), NextMarked(t, Notice(j, 0));
    assert notified.y.s.queues[k] == Fresh(j, RetainedWeight(j)).(phase := Active, pullQueued := true);
    assert notified.y.s.pullRequests == [k];
    assert notified.marks == [Notified(k)];
    var arrived := NextMarked(notified, Batch(k));
    assert arrived.y.s.queues[k].processing && k in arrived.y.jobs;
  }
}
