/** A received batch from end to end: the reader charges it and puts it into the client's batch
    channel, a worker processes or drops it. */
module BatchIntake {
  import opened Common
  import opened ByteBudgets
  import opened BatchReservations
  import opened QueueScheduler
  import opened QueueRun
  import Weights = RetainedWeight

  datatype Intake = Ignored | Rejected | Accepted

  /** Two budgets that are neither each other nor one of the run's queue budgets. */
  ghost predicate Apart(run: ConnectionRun, client: ByteBudget, process: ByteBudget) {
    client != process && {client, process} !! {run.queueBudget, run.processBudget}
  }

  ghost predicate BudgetsOk(client: ByteBudget, process: ByteBudget)
    reads client, process
  {
    && client.limit == CLIENT_BATCH_BUDGET && Sound(client.limit, client.used)
    && process.limit == PROCESS_BATCH_BUDGET && Sound(process.limit, process.used)
  }

  predicate Fits(budget: ByteBudget, weight: int)
    reads budget
  {
    weight <= budget.limit - budget.used
  }

  /** Whether a batch can be charged and queued; `room` says that the channel takes its job. */
  ghost predicate Admitted(sync: Weights.Sync, client: ByteBudget, process: ByteBudget, room: bool)
    reads client, process
  {
    room && Weights.Weight(sync) <= Weights.MAX_WEIGHT && Fits(client, Weights.Weight(sync)) && Fits(process, Weights.Weight(sync))
  }

  /** Weighs the batch, charges both budgets and offers its job to the channel. Both carry exactly
      its weight when it is admitted and are what they were when it is not. */
  method Admit(sync: Weights.Sync, client: ByteBudget, process: ByteBudget, room: bool) returns (reservation: BatchReservation?)
    requires client != process && BudgetsOk(client, process)
    modifies client, process
    ensures BudgetsOk(client, process) && (reservation != null <==> old(Admitted(sync, client, process, room)))
    ensures client.used == old(client.used) + (if reservation != null then Weights.Weight(sync) else 0)
    ensures process.used == old(process.used) + (if reservation != null then Weights.Weight(sync) else 0)
    ensures reservation != null ==>
      && fresh(reservation) && !reservation.released && reservation.weight == Weights.Weight(sync)
      && reservation.client == client && reservation.process == process
  {
    var weight := Weights.SyncRetainedWeight(Some(sync));
    Weights.WeightIsAdmissible(sync);
    if weight == None {
      return null;
    }
    var reserved := TryReserveBatchScoped(client, process, weight.value);
    if !reserved.ok {
      return null;
    }
    reservation := new BatchReservation(client, process, weight.value);
    if !room {
      var released := reservation.Release();
      return null;
    }
  }

  /** The reader's part. A batch for a queue that does not expect one changes nothing. Otherwise
      its queue is processing with its charge taken exactly when the batch is admitted, and is
      back in no stage of a pull with both budgets as they were when it is not. */
  method HandleBatch(run: ConnectionRun, k: QueueKey, sync: Weights.Sync, client: ByteBudget, process: ByteBudget, room: bool)
    returns (intake: Intake, reservation: BatchReservation?)
    requires run.Valid() && Apart(run, client, process) && BudgetsOk(client, process)
    modifies run`queues, client, process
    ensures run.Valid() && BudgetsOk(client, process)
    ensures intake == (
      if !old(ArriveBatch(run.View(), k).1) then Ignored
      else if old(Admitted(sync, client, process, room)) then Accepted else Rejected)
    ensures intake.Ignored? <==> !old(k in run.queues && run.queues[k].phase.Active? && !run.queues[k].processing)
    ensures run.queues == if intake.Ignored? then old(run.queues)
      else old(run.queues)[k := old(run.queues[k]).(pullQueued := false, pullInFlight := false, processing := intake.Accepted?)]
    ensures run.View() == (match intake
      case Ignored => old(run.View())
      case Accepted => old(ArriveBatch(run.View(), k).0)
      case Rejected => ResetProcessing(old(ArriveBatch(run.View(), k).0), k))
    ensures client.used == old(client.used) + (if intake.Accepted? then Weights.Weight(sync) else 0)
    ensures process.used == old(process.used) + (if intake.Accepted? then Weights.Weight(sync) else 0)
    ensures intake.Accepted? <==> reservation != null
    ensures reservation != null ==> !reservation.released && reservation.weight == Weights.Weight(sync)
  {
    var accepted := run.ArriveBatchLocked(k);
    if !accepted {
      return Ignored, null;
    }
    reservation := Admit(sync, client, process, room);
    if reservation == null {
      run.ResetProcessingLocked(k);
      return Rejected, null;
    }
    return Accepted, reservation;
  }

  /** How a worker leaves a job: drops it because its run is cancelled or not the newest, panics,
      gives up halfway because the run was cancelled meanwhile, or finishes it. */
  datatype Work = Dropped | Panicked | CutShort | Finished(nextKey: nat, isLast: bool)

  /** The worker's part: on every path the reservation is released once and both budgets get back
      exactly its weight, and the queue moves on only when the batch was finished. */
  method ProcessBatchJob(run: ConnectionRun, k: QueueKey, reservation: BatchReservation, work: Work) returns (failRun: bool)
    requires run.Valid() && SchedInv(run.View()) && (k in run.queues ==> run.queues[k].processing)
    requires Apart(run, reservation.client, reservation.process) && BudgetsOk(reservation.client, reservation.process)
    requires !reservation.released && 0 < reservation.weight
    requires reservation.weight <= reservation.client.used && reservation.weight <= reservation.process.used
    modifies run, run.deferred, run.deferred.items, reservation, reservation.client, reservation.process
    ensures run.Valid() && SchedInv(run.View()) && BudgetsOk(reservation.client, reservation.process)
    ensures reservation.released
    ensures reservation.client.used == old(reservation.client.used) - reservation.weight
    ensures reservation.process.used == old(reservation.process.used) - reservation.weight
    ensures run.View() == if work.Finished? then old(FinishBatch(run.View(), k, work.nextKey, work.isLast).0) else old(run.View())
    ensures failRun <==> work.Panicked? || (work.Finished? && old(FinishBatch(run.View(), k, work.nextKey, work.isLast).1))
  {
    failRun := work.Panicked?;
    if work.Finished? {
      FinishKeepsInv(run.View(), k, work.nextKey, work.isLast);
      failRun := run.FinishBatchLocked(k, work.nextKey, work.isLast);
    }
    var released := reservation.Release();
  }
}
