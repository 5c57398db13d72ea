/** What a pending NOTICE stands for: the flag against the steps of the run. A flag that stayed
    set would make its queue pull for ever, one cleared early would lose a NOTICE. */
module QueuePending {
  import opened QueueScheduler
  import opened QueueSystem
  import opened QueueProperties
  import opened QueueNotices

  predicate ActiveIn(y: Sys, k: QueueKey) {
    k in y.s.queues && y.s.queues[k].phase.Active?
  }

  /** What a step means for the notices of k: k is not active after it or only became so by it, a
      batch of k was completed, a NOTICE for k came while it was active, or none of these. */
  datatype Sign = Restart | NoticeWhileActive | Nothing

  ghost function SignOf(y: Sys, step: Step, k: QueueKey): Sign {
    if !ActiveIn(y, k) || !ActiveIn(Next(y, step), k) || (step.Complete? && step.k == k && k in y.jobs) then Restart
    else if step.Notice? && KeyOf(step.j) == k then NoticeWhileActive
    else Nothing
  }

  ghost function Signs(y: Sys, steps: seq<Step>, k: QueueKey): seq<Sign>
    decreases |steps|
  {
    if steps == [] then [] else [SignOf(y, steps[0], k)] + Signs(Next(y, steps[0]), steps[1..], k)
  }

  /** A NOTICE came while the queue was active, and since then neither did the queue leave the
      active phase nor was a batch of it completed. */
  predicate Outstanding(signs: seq<Sign>) {
    exists n :: 0 <= n < |signs| && signs[n] == NoticeWhileActive && NoRestart(signs[n + 1..])
  }

  predicate NoRestart(signs: seq<Sign>) {
    forall m :: 0 <= m < |signs| ==> signs[m] != Restart
  }

  /** Whether a NOTICE is outstanding after `signs`, given whether one was before. */
  predicate Carried(signs: seq<Sign>, before: bool) {
    Outstanding(signs) || (before && NoRestart(signs))
  }

  lemma CarriedFirst(sign: Sign, rest: seq<Sign>, before: bool)
    ensures Carried([sign] + rest, before) == Carried(rest, AfterSign(sign, before))
  {
    var all := [sign] + rest;
    assert all[1..] == rest;
    assert NoRestart(all) <==> sign != Restart && NoRestart(rest) by {
      assert all[0] == sign && forall m :: 0 <= m < |rest| ==> all[m + 1] == rest[m];
    }
    if Outstanding(rest) {
      var n :| 0 <= n < |rest| && rest[n] == NoticeWhileActive && NoRestart(rest[n + 1..]);
      assert all[n + 1] == NoticeWhileActive && all[n + 2..] == rest[n + 1..];
    }
    if Outstanding(all) {
      var n :| 0 <= n < |all| && all[n] == NoticeWhileActive && NoRestart(all[n + 1..]);
      assert n > 0 ==> rest[n - 1] == NoticeWhileActive && all[n + 1..] == rest[n..];
    }
    if sign == NoticeWhileActive && NoRestart(rest) {
      assert all[0] == NoticeWhileActive && all[0 + 1..] == rest;
    }
  }

  function AfterSign(sign: Sign, before: bool): bool {
    match sign
    case Restart => false
    case NoticeWhileActive => true
    case Nothing => before
  }

  function PendingIn(y: Sys, k: QueueKey): bool {
    k in y.s.queues && y.s.queues[k].noticePending
  }

  // ---- One step ---------------------------------------------------------------------------------

  lemma NoticePending(s: Sched, j: JID, n: Noticed, k: QueueKey)
    requires AllFlagsOk(s) && Scheduled(Recorded(s, j, n.charge), n.sched, n.failed) && k in s.queues
    ensures k in n.sched.queues
    ensures s.queues[k].phase.Active? ==> n.sched.queues[k].phase.Active?
    ensures n.sched.queues[k].noticePending == (s.queues[k].phase.Active? && (s.queues[k].noticePending || KeyOf(j) == k))
  {
    assert FlagsOk(s.queues[k]);
  }

  lemma NewQueueNotPending(s: Sched, j: JID, n: Noticed, k: QueueKey)
    requires Scheduled(Recorded(s, j, n.charge), n.sched, n.failed) && k !in s.queues && k in n.sched.queues
    ensures !n.sched.queues[k].noticePending
  {
  }

  lemma NoticeStepPending(y: Sys, step: Step, k: QueueKey)
    requires SysInv(y) && step.Notice? && Live(Next(y, step))
    ensures PendingIn(Next(y, step), k) == AfterSign(SignOf(y, step, k), PendingIn(y, k))
  {
    var n := StartQueue(y.s, step.j, step.processUsed);
    NoticeShape(y.s, step.j, step.processUsed);
    if k in y.s.queues {
      NoticePending(y.s, step.j, n, k);
    } else if k in n.sched.queues {
      NewQueueNotPending(y.s, step.j, n, k);
    }
  }

  lemma FinishPending(s: Sched, x: QueueKey, nextKey: nat, isLast: bool, done: (Sched, bool), k: QueueKey)
    requires AllFlagsOk(s) && x in s.queues && s.queues[x].processing && k in s.queues
    requires Scheduled(Finished(s, x, nextKey, isLast), done.0, done.1)
    ensures k in done.0.queues && (k == x ==> !done.0.queues[k].noticePending)
    ensures k != x ==> done.0.queues[k].noticePending == s.queues[k].noticePending
    ensures k != x && s.queues[k].phase.Active? ==> done.0.queues[k].phase.Active?
  {
    assert FlagsOk(s.queues[k]);
  }

  lemma CompleteStepPending(y: Sys, step: Step, k: QueueKey)
    requires SysInv(y) && step.Complete? && Live(Next(y, step))
    ensures PendingIn(Next(y, step), k) == AfterSign(SignOf(y, step, k), PendingIn(y, k))
  {
    assert k in y.s.queues ==> FlagsOk(y.s.queues[k]);
    if step.k in y.jobs {
      var done := FinishBatch(y.s, step.k, step.nextKey, step.isLast);
      FinishShape(y.s, step.k, step.nextKey, step.isLast);
      if k in y.s.queues {
        FinishPending(y.s, step.k, step.nextKey, step.isLast, done, k);
      }
    }
  }

  lemma QuietStepPending(y: Sys, step: Step, k: QueueKey)
    requires AllFlagsOk(y.s) && !step.Notice? && !step.Complete? && !step.Finalize?
    ensures PendingIn(Next(y, step), k) == AfterSign(SignOf(y, step, k), PendingIn(y, k))
  {
    assert k in y.s.queues ==> FlagsOk(y.s.queues[k]);
  }

  lemma StepPending(y: Sys, step: Step, k: QueueKey)
    requires SysInv(y) && Live(Next(y, step))
    ensures PendingIn(Next(y, step), k) == AfterSign(SignOf(y, step, k), PendingIn(y, k))
  {
    LiveBefore(y, step);
    if step.Notice? {
      NoticeStepPending(y, step, k);
    } else if step.Complete? {
      CompleteStepPending(y, step, k);
    } else if !step.Finalize? {
      QuietStepPending(y, step, k);
    } else {
      assert k in y.s.queues ==> FlagsOk(y.s.queues[k]);
    }
  }

  // ---- Whole runs -------------------------------------------------------------------------------

  lemma {:induction false} LiveAllAlong(y: Sys, steps: seq<Step>)
    requires Live(Execute(y, steps))
    ensures Live(y)
    decreases |steps|
  {
    if steps != [] {
      LiveAllAlong(Next(y, steps[0]), steps[1..]);
      LiveBefore(y, steps[0]);
    }
  }

  lemma {:induction false} RunPending(y: Sys, steps: seq<Step>, k: QueueKey)
    requires SysInv(y) && Live(Execute(y, steps))
    ensures SysInv(Execute(y, steps))
    ensures PendingIn(Execute(y, steps), k) == Carried(Signs(y, steps, k), PendingIn(y, k))
    decreases |steps|
  {
    if steps != [] {
      var y' := Next(y, steps[0]);
      LiveAllAlong(y', steps[1..]);
      StepKeepsInv(y, steps[0]);
      StepPending(y, steps[0], k);
      RunPending(y', steps[1..], k);
      CarriedFirst(SignOf(y, steps[0], k), Signs(y', steps[1..], k), PendingIn(y, k));
    }
  }

  /** Over every run that is still live: a NOTICE of k is pending exactly when one came while k was
      active, after its activation and after its last completed batch. */
  lemma PendingExactlyWhenOutstanding(steps: seq<Step>, k: QueueKey)
    requires Live(Execute(INIT, steps)) && k in Execute(INIT, steps).s.queues
    ensures Execute(INIT, steps).s.queues[k].noticePending <==> Outstanding(Signs(INIT, steps, k))
  {
    EmptyIsSound();
    RunPending(INIT, steps, k);
  }

  // ---- No pull for ever ---------------------------------------------------------------------------

  predicate NotifiesNot(steps: seq<Step>, k: QueueKey) {
    forall n :: 0 <= n < |steps| ==> !(steps[n].Notice? && KeyOf(steps[n].j) == k)
  }

  lemma {:induction false} NoNoticeNoSign(y: Sys, steps: seq<Step>, k: QueueKey)
    requires NotifiesNot(steps, k)
    ensures forall n :: 0 <= n < |Signs(y, steps, k)| ==> Signs(y, steps, k)[n] != NoticeWhileActive
    decreases |steps|
  {
    if steps != [] {
      NoNoticeNoSign(Next(y, steps[0]), steps[1..], k);
    }
  }

  /** A batch of k is at its worker. */
  predicate AtWorker(y: Sys, k: QueueKey) {
    k in y.s.queues && y.s.queues[k].processing && k in y.jobs && !y.finalized
  }

  /** A completed last batch with nothing pending idles its queue. */
  lemma LastBatchIdles(y: Sys, k: QueueKey, nextKey: nat, isLast: bool)
    requires SysInv(y) && AtWorker(y, k) && !y.s.queues[k].noticePending && (isLast || nextKey == 0)
    ensures var y' := Next(y, Complete(k, nextKey, isLast)); k in y'.s.queues && y'.s.queues[k].phase.Idle?
  {
    assert FlagsOk(y.s.queues[k]);
    CompletionIdles(y.s, k, nextKey, isLast);
  }

  /** In any run, once a batch of k has been completed and no further NOTICE for k comes, the next
      completed last batch of k leaves k idle, whatever happens in between: a queue that nobody
      notifies any more stops pulling after two last batches at the latest. */
  lemma SecondLastBatchIdles(steps: seq<Step>, k: QueueKey, nextKey: nat, isLast: bool, between: seq<Step>, nextKey': nat, isLast': bool)
    requires AtWorker(Execute(INIT, steps), k) && NotifiesNot(between, k) && (isLast' || nextKey' == 0)
    requires var done := Next(Execute(INIT, steps), Complete(k, nextKey, isLast));
      Live(Execute(done, between)) && AtWorker(Execute(done, between), k)
    ensures var again := Execute(Next(Execute(INIT, steps), Complete(k, nextKey, isLast)), between);
      var y' := Next(again, Complete(k, nextKey', isLast'));
      k in y'.s.queues && y'.s.queues[k].phase.Idle?
  {
    EmptyIsSound();
    ExecuteKeepsInv(INIT, steps);
    var y, step := Execute(INIT, steps), Complete(k, nextKey, isLast);
    SecondIdlesFrom(y, k, nextKey, isLast, between, nextKey', isLast');
  }

  lemma SecondIdlesFrom(y: Sys, k: QueueKey, nextKey: nat, isLast: bool, between: seq<Step>, nextKey': nat, isLast': bool)
    requires SysInv(y) && AtWorker(y, k) && NotifiesNot(between, k) && (isLast' || nextKey' == 0)
    requires var done := Next(y, Complete(k, nextKey, isLast)); Live(Execute(done, between)) && AtWorker(Execute(done, between), k)
    ensures var again := Execute(Next(y, Complete(k, nextKey, isLast)), between);
      var y' := Next(again, Complete(k, nextKey', isLast'));
      k in y'.s.queues && y'.s.queues[k].phase.Idle?
  {
    var done := Next(y, Complete(k, nextKey, isLast));
    LiveAllAlong(done, between);
    StepKeepsInv(y, Complete(k, nextKey, isLast));
    StepPending(y, Complete(k, nextKey, isLast), k);
    RunPending(done, between, k);
    NoNoticeNoSign(done, between, k);
    LastBatchIdles(Execute(done, between), k, nextKey', isLast');
  }
}
