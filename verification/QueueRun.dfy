/** The queue scheduler of one connection as an object: each method is one section under the
    queue mutex and is proved to compute the section function of the same name. */
module QueueRun {
  import opened Common
  import opened MapSums
  import opened ByteBudgets
  import opened DeferredRings
  import opened QueueScheduler

  class ConnectionRun {
    var queues: map<QueueKey, Queue>
    var deferred: DeferredRing<QueueKey>
    var pullRequests: seq<QueueKey>
    var activeQueues: int
    const queueBudget: ByteBudget
    const processBudget: ByteBudget

    ghost predicate Valid()
      reads this, deferred, deferred.items, queueBudget, processBudget
    {
      && deferred.Valid()
      && queueBudget != processBudget
      && queueBudget.limit == CONNECTION_QUEUE_BUDGET && Sound(queueBudget.limit, queueBudget.used)
      && processBudget.limit == PROCESS_QUEUE_BUDGET && Sound(processBudget.limit, processBudget.used)
    }

    /** The ring has its full capacity, as it does until the run is finalized. */
    ghost predicate Open()
      reads this
    {
      deferred.items.Length == MAX_TRACKED_QUEUES
    }

    ghost function View(): Sched
      requires Valid()
      reads this, deferred, deferred.items, queueBudget, processBudget
    {
      Sched(queues, deferred.Contents(), pullRequests, activeQueues, queueBudget.used)
    }

    constructor (processBudget: ByteBudget)
      requires processBudget.limit == PROCESS_QUEUE_BUDGET && Sound(processBudget.limit, processBudget.used)
      ensures Valid() && Open() && View() == EMPTY && this.processBudget == processBudget
      ensures fresh(deferred) && fresh(deferred.items) && fresh(queueBudget)
    {
      queues, pullRequests, activeQueues := map[], [], 0;
      deferred := new DeferredRing(MAX_TRACKED_QUEUES);
      queueBudget := new ByteBudget(CONNECTION_QUEUE_BUDGET);
      this.processBudget := processBudget;
    }

    method EnqueuePullLocked(k: QueueKey) returns (err: bool)
      requires Valid() && k in queues
      modifies this`queues, this`pullRequests
      ensures Valid() && (View(), err) == EnqueuePull(old(View()), k)
    {
      var q := queues[k];
      if q.phase != Active || q.processing || q.pullQueued || q.pullInFlight {
        return false;
      }
      if |pullRequests| < PULL_REQUEST_CAPACITY {
        queues := queues[k := q.(pullQueued := true)];
        pullRequests := pullRequests + [k];
        return false;
      }
      return true;
    }

    method ActivateOrDeferLocked(k: QueueKey) returns (err: bool)
      requires Valid() && Open() && k in queues
      modifies this`queues, this`pullRequests, this`activeQueues, deferred`size, deferred.items
      ensures Valid() && (View(), err) == ActivateOrDefer(old(View()), k)
    {
      if activeQueues < MAX_ACTIVE_QUEUES {
        queues := queues[k := queues[k].(phase := Active)];
        activeQueues := activeQueues + 1;
        err := EnqueuePullLocked(k);
      } else {
        queues := queues[k := queues[k].(phase := Deferred)];
        var pushed := deferred.Push(k);
        err := !pushed;
      }
    }

    method PromoteDeferredLocked() returns (err: bool)
      requires Valid()
      modifies this`queues, this`pullRequests, this`activeQueues, deferred, deferred.items
      ensures Valid() && (View(), err) == PromoteDeferred(old(View()))
    {
      while activeQueues < MAX_ACTIVE_QUEUES
        invariant Valid() && queueBudget.used == old(queueBudget.used)
        invariant PromoteDeferred(View()) == PromoteDeferred(old(View()))
        invariant deferred == old(deferred)
        decreases deferred.size
      {
        ghost var before := View();
        var next := deferred.Pop();
        if next == None {
          return false;
        }
        var k := next.value;
        assert before.deferred[0] == k && before.deferred[1..] == deferred.Contents();
        if k in queues && queues[k].phase == Deferred {
          queues := queues[k := queues[k].(phase := Active)];
          activeQueues := activeQueues + 1;
          err := EnqueuePullLocked(k);
          return;
        }
      }
      return false;
    }

    /** Takes `weight` from both budgets, or from neither. */
    method ReserveQueueLocked(weight: Int64) returns (reserved: bool)
      requires Valid()
      modifies queueBudget, processBudget
      ensures Valid()
      ensures reserved == Reserves(old(View()), weight, old(processBudget.used))
      ensures queueBudget.used == old(queueBudget.used) + (if reserved then weight else 0)
      ensures processBudget.used == old(processBudget.used) + (if reserved then weight else 0)
    {
      var local := queueBudget.TryAcquire(weight);
      if local != Granted {
        return false;
      }
      var process := processBudget.TryAcquire(weight);
      if process != Granted {
        var released := queueBudget.Release(weight);
        assert released;
        return false;
      }
      return true;
    }

    method StartQueueLocked(j: JID) returns (failed: bool)
      requires Valid() && Open()
      requires forall k :: k in queues ==> queues[k].weight >= MIN_QUEUE_WEIGHT
      modifies this, deferred, deferred.items, queueBudget, processBudget
      ensures Valid()
      ensures var n := StartQueue(old(View()), j, old(processBudget.used));
        View() == n.sched && failed == n.failed && processBudget.used == old(processBudget.used) + n.charge - n.refund
    {
      if |j.appKey| > MAX_JID_COMPONENT || |j.name| > MAX_JID_COMPONENT || |j.domain| > MAX_JID_COMPONENT
         || |j.resource| > MAX_JID_COMPONENT || |j.appKey| + |j.name| + |j.domain| + |j.resource| > MAX_JID {
        return true;
      }
      var k := KeyOf(j);
      if k in queues {
        failed := RepeatNoticeLocked(j);
      } else {
        failed := FirstNoticeLocked(j);
      }
    }

    method RepeatNoticeLocked(j: JID) returns (failed: bool)
      requires Valid() && Open() && ValidJID(j) && KeyOf(j) in queues && queues[KeyOf(j)].weight >= MIN_QUEUE_WEIGHT
      modifies this, deferred, deferred.items, queueBudget, processBudget
      ensures Valid()
      ensures var n := RepeatNotice(old(View()), j, RetainedWeight(j), old(processBudget.used));
        View() == n.sched && failed == n.failed && processBudget.used == old(processBudget.used) + n.charge - n.refund
    {
      var k := KeyOf(j);
      var q := queues[k];
      var newWeight := RetainedWeight(j);
      var charge := 0;
      if newWeight > q.weight {
        charge := newWeight - q.weight;
        var reserved := ReserveQueueLocked(charge);
        if !reserved {
          return true;
        }
      }
      queues := queues[k := Renoticed(q, j, charge)];
      assert View() == Put(old(View()), k, Renoticed(q, j, charge), charge);
      if q.phase == Idle {
        failed := ActivateOrDeferLocked(k);
      } else {
        failed := false;
      }
    }

    method FirstNoticeLocked(j: JID) returns (failed: bool)
      requires Valid() && Open() && ValidJID(j) && KeyOf(j) !in queues
      modifies this, deferred, deferred.items, queueBudget, processBudget
      ensures Valid()
      ensures var n := FirstNotice(old(View()), j, RetainedWeight(j), old(processBudget.used));
        View() == n.sched && failed == n.failed && processBudget.used == old(processBudget.used) + n.charge - n.refund
    {
      var k, weight := KeyOf(j), RetainedWeight(j);
      var reserved := ReserveQueueLocked(weight);
      if !reserved {
        return true;
      }
      queues := queues[k := Fresh(j, weight)];
      assert View() == Put(old(View()), k, Fresh(j, weight), weight);
      failed := ActivateOrDeferLocked(k);
      if failed {
        ForgetLocked(k, weight);
      }
    }

    /** Rolls a first NOTICE back, in both budgets. */
    method ForgetLocked(k: QueueKey, weight: Int64)
      requires Valid() && 0 < weight <= queueBudget.used && weight <= processBudget.used
      modifies this`queues, this`activeQueues, queueBudget, processBudget
      ensures Valid() && View() == Forget(old(View()), k, weight)
      ensures processBudget.used == old(processBudget.used) - weight
    {
      if k in queues && queues[k].phase == Active {
        activeQueues := activeQueues - 1;
      }
      queues := queues - {k};
      var local := queueBudget.Release(weight);
      var process := processBudget.Release(weight);
    }

    /** The two sections of executePull; `cancelled` is the state of the run's context. */
    method BeginPullLocked(k: QueueKey, cancelled: bool) returns (began: bool)
      requires Valid() && k in queues
      modifies this`queues
      ensures Valid() && (View(), began) == BeginPull(old(View()), k, cancelled)
    {
      var q := queues[k];
      if cancelled || q.phase != Active || !q.pullQueued || q.processing || q.pullInFlight {
        queues := queues[k := q.(pullQueued := false)];
        return false;
      }
      queues := queues[k := q.(pullQueued := false, pullInFlight := true)];
      return true;
    }

    method PullFailedLocked(k: QueueKey)
      requires Valid() && k in queues
      modifies this`queues
      ensures Valid() && View() == PullFailed(old(View()), k)
    {
      queues := queues[k := queues[k].(pullInFlight := false)];
    }

    /** A pull worker's whole turn with a token; `sent` says that the pull was written. The run
        is to be failed exactly when a pull began and could not be sent. */
    method ExecutePull(k: QueueKey, cancelled: bool, sent: bool) returns (failRun: bool)
      requires Valid() && k in queues && SchedInv(View())
      modifies this`queues
      ensures Valid() && SchedInv(View()) && View() == PullTurn(old(View()), k, cancelled, sent)
      ensures failRun <==> !cancelled && old(queues[k].pullQueued) && !sent
    {
      RequestIsNeverDiscarded(View(), k, cancelled, sent);
      var began := BeginPullLocked(k, cancelled);
      if began && !sent {
        PullFailedLocked(k);
        return true;
      }
      return false;
    }

    method ArriveBatchLocked(k: QueueKey) returns (accepted: bool)
      requires Valid()
      modifies this`queues
      ensures Valid() && (View(), accepted) == ArriveBatch(old(View()), k)
    {
      if k !in queues || queues[k].phase != Active || queues[k].processing {
        return false;
      }
      queues := queues[k := queues[k].(pullQueued := false, pullInFlight := false, processing := true)];
      return true;
    }

    method ResetProcessingLocked(k: QueueKey)
      requires Valid()
      modifies this`queues
      ensures Valid() && View() == ResetProcessing(old(View()), k)
    {
      if k in queues {
        queues := queues[k := queues[k].(processing := false)];
      }
    }

    method FinishBatchLocked(k: QueueKey, nextKey: nat, isLast: bool) returns (err: bool)
      requires Valid()
      modifies this, deferred, deferred.items
      ensures Valid() && (View(), err) == FinishBatch(old(View()), k, nextKey, isLast)
    {
      if k !in queues {
        return false;
      }
      var q := queues[k].(processing := false);
      if nextKey != 0 {
        q := q.(cursor := nextKey);
      }
      if (isLast || nextKey == 0) && !q.noticePending {
        queues := queues[k := q.(phase := Idle)];
        activeQueues := activeQueues - 1;
        err := PromoteDeferredLocked();
      } else {
        queues := queues[k := q.(noticePending := false)];
        err := EnqueuePullLocked(k);
      }
    }

    static method CountTracked(queues: map<QueueKey, Queue>) returns (tracked: int)
      ensures tracked == Sum(Weights(queues))
    {
      tracked := 0;
      var rest := queues;
      while rest != map[]
        invariant tracked + Sum(Weights(rest)) == Sum(Weights(queues))
        decreases |rest|
      {
        var k :| k in rest;
        assert Weights(rest) - {k} == Weights(rest - {k});
        SumRemove(Weights(rest), k);
        tracked := tracked + rest[k].weight;
        rest := rest - {k};
      }
    }

    /** Gives `tracked` back to both budgets. */
    method ReturnShare(tracked: Int64) returns (ok: bool)
      requires Valid() && 0 < tracked <= queueBudget.used && tracked <= processBudget.used
      modifies queueBudget, processBudget
      ensures Valid() && ok && queueBudget.used == old(queueBudget.used) - tracked
      ensures processBudget.used == old(processBudget.used) - tracked
    {
      var localOk := queueBudget.Release(tracked);
      var processOk := processBudget.Release(tracked);
      ok := localOk && processOk;
    }

    /** Forgets every queue and returns the run's share; neither release is refused as long
        as the process budget still covers the share. */
    method FinalizeQueues() returns (ok: bool)
      requires Valid() && queueBudget.used == Sum(Weights(queues))
      requires processBudget.used >= queueBudget.used
      modifies this, queueBudget, processBudget
      ensures Valid() && View() == Finalized(old(View()))
      ensures ok && queueBudget.used == 0
      ensures processBudget.used == old(processBudget.used) - old(queueBudget.used)
    {
      var tracked := CountTracked(queues);
      queues := map[];
      deferred := new DeferredRing(0);
      activeQueues := 0;
      if tracked == 0 {
        return true;
      }
      ok := ReturnShare(tracked);
    }
  }
}
