/** Reservations of received batches: matching charges in the client's and the process's
    budget, passed from the reader through the batch channel to a worker or the drain. */
module BatchReservations {
  import opened MapSums
  import opened ByteBudgets

  const CLIENT_BATCH_BUDGET: int := 32 * 1024 * 1024
  const PROCESS_BATCH_BUDGET: int := 256 * 1024 * 1024
  const BATCH_CHANNEL_CAPACITY: nat := 256

  /** Which budget turned a reservation down. */
  datatype Scope = NoScope | ClientScope | ProcessScope

  datatype Reserved = Reserved(ok: bool, scope: Scope, invariantError: bool)

  /** Charges both budgets, or leaves both as they were; the error is an ownership error of a
      budget, never mere exhaustion. */
  method TryReserveBatchScoped(client: ByteBudget, process: ByteBudget, weight: Int64) returns (r: Reserved)
    requires client != process && Sound(client.limit, client.used) && Sound(process.limit, process.used)
    modifies client, process
    ensures r.ok <==> old(TryOutcome(client.limit, client.used, weight)).Granted?
                      && old(TryOutcome(process.limit, process.used, weight)).Granted?
    ensures client.used == old(client.used) + (if r.ok then weight else 0)
    ensures process.used == old(process.used) + (if r.ok then weight else 0)
    ensures r.scope == if r.ok then NoScope
                       else if old(TryOutcome(client.limit, client.used, weight)).Granted? then ProcessScope else ClientScope
    ensures r.invariantError <==>
      (!Admissible(client.limit, weight) || (r.scope == ProcessScope && !Admissible(process.limit, weight)))
    ensures Sound(client.limit, client.used) && Sound(process.limit, process.used)
    ensures client.limit == old(client.limit) && process.limit == old(process.limit)
  {
    var first := client.TryAcquire(weight);
    if first != Granted {
      return Reserved(false, ClientScope, first == Invariant);
    }
    var second := process.TryAcquire(weight);
    if second != Granted {
      var rolledBack := client.Release(weight);
      return Reserved(false, ProcessScope, second == Invariant || !rolledBack);
    }
    return Reserved(true, NoScope, false);
  }

  class BatchReservation {
    const client: ByteBudget
    const process: ByteBudget
    const weight: Int64
    var released: bool

    constructor (client: ByteBudget, process: ByteBudget, weight: Int64)
      ensures this.client == client && this.process == process && this.weight == weight && !released
    {
      this.client, this.process, this.weight, released := client, process, weight, false;
    }

    /** Only the first call gives anything back. */
    method Release() returns (ok: bool)
      requires client != process
      modifies this, client, process
      ensures released
      ensures old(released) ==> !ok && client.used == old(client.used) && process.used == old(process.used)
      ensures !old(released) && 0 < weight <= old(client.used) && weight <= old(process.used)
              && old(Sound(client.limit, client.used)) && old(Sound(process.limit, process.used)) ==>
              ok && client.used == old(client.used) - weight && process.used == old(process.used) - weight
      ensures client.limit == old(client.limit) && process.limit == old(process.limit)
    {
      if released {
        return false;
      }
      released := true;
      var clientOk := client.Release(weight);
      var processOk := process.Release(weight);
      return clientOk && processOk;
    }
  }

  // ---- Any number of reservations in flight ------------------------------------------------

  /** Where a reservation is: half made, rolling back, with the reader, in the channel, with a
      worker, or on its way out with one or both charges still to be returned. */
  datatype Stage = HalfMade | RollingBack | Produced | Queued | Working | Leaving | LeftClient

  datatype Ticket = Ticket(weight: int, stage: Stage)

  datatype Batches = Batches(
    clientUsed: int,
    processUsed: int,
    others: int,             // the share of other clients in the process budget
    tickets: map<nat, Ticket>,
    channel: seq<nat>)

  datatype BatchStep =
    | AcquireClient(id: nat, weight: int)
    | AcquireProcess(id: nat)
    | RollBack(id: nat)
    | Enqueue(id: nat)
    | Refuse(id: nat)          // channel full or run cancelled
    | TakeJob
    | FinishJob(id: nat)       // processed, dropped as old, or panicked
    | Drain                    // Close empties the channel
    | ReturnClient(id: nat)
    | ReturnProcess(id: nat)
    | OtherClient(delta: int)  // another client acquires or releases

  predicate At(b: Batches, id: nat, stage: Stage) {
    id in b.tickets && b.tickets[id].stage == stage
  }

  function Move(b: Batches, id: nat, stage: Stage): Batches
    requires id in b.tickets
  {
    b.(tickets := b.tickets[id := b.tickets[id].(stage := stage)])
  }

  /** A budget's answer to a release, as its used count. */
  function Released(limit: int, used: int, n: int): int {
    if Sound(limit, used) && 0 < n <= used then used - n else used
  }

  function BatchNext(b: Batches, step: BatchStep): Batches {
    match step
    case AcquireClient(id, weight) =>
      if id in b.tickets || !TryOutcome(CLIENT_BATCH_BUDGET, b.clientUsed, weight).Granted? then b
      else b.(clientUsed := b.clientUsed + weight, tickets := b.tickets[id := Ticket(weight, HalfMade)])
    case AcquireProcess(id) =>
      if !At(b, id, HalfMade) then b
      else if !TryOutcome(PROCESS_BATCH_BUDGET, b.processUsed, b.tickets[id].weight).Granted? then Move(b, id, RollingBack)
      else Move(b, id, Produced).(processUsed := b.processUsed + b.tickets[id].weight)
    case RollBack(id) =>
      if !At(b, id, RollingBack) then b
      else b.(clientUsed := Released(CLIENT_BATCH_BUDGET, b.clientUsed, b.tickets[id].weight), tickets := b.tickets - {id})
    case Enqueue(id) =>
      if !At(b, id, Produced) || |b.channel| >= BATCH_CHANNEL_CAPACITY then b
      else Move(b, id, Queued).(channel := b.channel + [id])
    case Refuse(id) => if At(b, id, Produced) then Move(b, id, Leaving) else b
    case TakeJob => if b.channel == [] then b else PopTo(b, Working)
    case FinishJob(id) => if At(b, id, Working) then Move(b, id, Leaving) else b
    case Drain => if b.channel == [] then b else PopTo(b, Leaving)
    case ReturnClient(id) =>
      if !At(b, id, Leaving) then b
      else Move(b, id, LeftClient).(clientUsed := Released(CLIENT_BATCH_BUDGET, b.clientUsed, b.tickets[id].weight))
    case ReturnProcess(id) =>
      if !At(b, id, LeftClient) then b
      else b.(processUsed := Released(PROCESS_BATCH_BUDGET, b.processUsed, b.tickets[id].weight), tickets := b.tickets - {id})
    case OtherClient(delta) =>
      if b.others + delta < 0 || b.processUsed + delta > PROCESS_BATCH_BUDGET then b
      else b.(processUsed := b.processUsed + delta, others := b.others + delta)
  }

  function PopTo(b: Batches, stage: Stage): Batches
    requires b.channel != []
  {
    if b.channel[0] in b.tickets then Move(b, b.channel[0], stage).(channel := b.channel[1..])
    else b.(channel := b.channel[1..])
  }

  function BatchRun(b: Batches, steps: seq<BatchStep>): Batches
    decreases |steps|
  {
    if steps == [] then b else BatchRun(BatchNext(b, steps[0]), steps[1..])
  }

  predicate HoldsClient(s: Stage) { !s.LeftClient? }

  predicate HoldsProcess(s: Stage) { !s.HalfMade? && !s.RollingBack? }

  ghost function ClientCharges(tickets: map<nat, Ticket>): map<nat, int> {
    map id | id in tickets :: if HoldsClient(tickets[id].stage) then tickets[id].weight else 0
  }

  ghost function ProcessCharges(tickets: map<nat, Ticket>): map<nat, int> {
    map id | id in tickets :: if HoldsProcess(tickets[id].stage) then tickets[id].weight else 0
  }

  /** Both budgets are used exactly as the outstanding reservations say. */
  ghost predicate ChargesMatch(b: Batches) {
    && b.clientUsed == Sum(ClientCharges(b.tickets)) <= CLIENT_BATCH_BUDGET
    && b.processUsed == b.others + Sum(ProcessCharges(b.tickets)) <= PROCESS_BATCH_BUDGET
    && b.others >= 0
    && (forall id :: id in b.tickets ==> b.tickets[id].weight > 0)
  }

  /** The channel holds each queued reservation once and nothing else. */
  ghost predicate ChannelExact(b: Batches) {
    && |b.channel| <= BATCH_CHANNEL_CAPACITY
    && (forall i, j :: 0 <= i < j < |b.channel| ==> b.channel[i] != b.channel[j])
    && (forall id :: id in b.channel <==> At(b, id, Queued))
  }

  lemma ChargesAfter(tickets: map<nat, Ticket>, id: nat, t: Ticket)
    ensures Sum(ClientCharges(tickets[id := t])) == Sum(ClientCharges(tickets))
      + (if HoldsClient(t.stage) then t.weight else 0) - (if id in tickets then ClientCharges(tickets)[id] else 0)
    ensures Sum(ProcessCharges(tickets[id := t])) == Sum(ProcessCharges(tickets))
      + (if HoldsProcess(t.stage) then t.weight else 0) - (if id in tickets then ProcessCharges(tickets)[id] else 0)
  {
    var c, p := if HoldsClient(t.stage) then t.weight else 0, if HoldsProcess(t.stage) then t.weight else 0;
    assert ClientCharges(tickets[id := t]) == ClientCharges(tickets)[id := c];
    assert ProcessCharges(tickets[id := t]) == ProcessCharges(tickets)[id := p];
    SumUpdate(ClientCharges(tickets), id, c);
    SumUpdate(ProcessCharges(tickets), id, p);
  }

  lemma ChargesWithout(tickets: map<nat, Ticket>, id: nat)
    requires id in tickets
    ensures Sum(ClientCharges(tickets)) == ClientCharges(tickets)[id] + Sum(ClientCharges(tickets - {id}))
    ensures Sum(ProcessCharges(tickets)) == ProcessCharges(tickets)[id] + Sum(ProcessCharges(tickets - {id}))
  {
    assert ClientCharges(tickets) - {id} == ClientCharges(tickets - {id});
    assert ProcessCharges(tickets) - {id} == ProcessCharges(tickets - {id});
    SumRemove(ClientCharges(tickets), id);
    SumRemove(ProcessCharges(tickets), id);
  }

  /** No charge exceeds the usage it is part of, so no release is ever refused. */
  lemma ChargesFit(b: Batches, id: nat)
    requires ChargesMatch(b) && id in b.tickets
    ensures HoldsClient(b.tickets[id].stage) ==> 0 < b.tickets[id].weight <= b.clientUsed
    ensures HoldsProcess(b.tickets[id].stage) ==> 0 < b.tickets[id].weight <= b.processUsed
    ensures Sound(CLIENT_BATCH_BUDGET, b.clientUsed) && Sound(PROCESS_BATCH_BUDGET, b.processUsed)
  {
    SumBoundsEntry(ClientCharges(b.tickets), id);
    SumBoundsEntry(ProcessCharges(b.tickets), id);
    SumAtLeast(ClientCharges(b.tickets), 0);
    SumAtLeast(ProcessCharges(b.tickets), 0);
  }

  function ClientShare(t: Ticket): int { if HoldsClient(t.stage) then t.weight else 0 }

  function ProcessShare(t: Ticket): int { if HoldsProcess(t.stage) then t.weight else 0 }

  /** A ticket changes stage and the budgets follow. */
  lemma MoveKeepsCharges(b: Batches, id: nat, stage: Stage, b': Batches)
    requires ChargesMatch(b) && id in b.tickets
    requires b'.tickets == Move(b, id, stage).tickets && b'.others == b.others
    requires b'.clientUsed == b.clientUsed + ClientShare(b'.tickets[id]) - ClientShare(b.tickets[id]) <= CLIENT_BATCH_BUDGET
    requires b'.processUsed == b.processUsed + ProcessShare(b'.tickets[id]) - ProcessShare(b.tickets[id]) <= PROCESS_BATCH_BUDGET
    ensures ChargesMatch(b')
  {
    ChargesAfter(b.tickets, id, b.tickets[id].(stage := stage));
  }

  lemma FirstChargeKeepsCharges(b: Batches, id: nat, weight: int)
    requires ChargesMatch(b)
    ensures ChargesMatch(BatchNext(b, AcquireClient(id, weight)))
  {
    ChargesAfter(b.tickets, id, Ticket(weight, HalfMade));
  }

  lemma SecondChargeKeepsCharges(b: Batches, id: nat)
    requires ChargesMatch(b) && At(b, id, HalfMade)
    ensures ChargesMatch(BatchNext(b, AcquireProcess(id)))
  {
    var b' := BatchNext(b, AcquireProcess(id));
    MoveKeepsCharges(b, id, b'.tickets[id].stage, b');
  }

  lemma RollBackKeepsCharges(b: Batches, id: nat)
    requires ChargesMatch(b) && At(b, id, RollingBack)
    ensures ChargesMatch(BatchNext(b, RollBack(id)))
  {
    ChargesFit(b, id);
    ChargesWithout(b.tickets, id);
  }

  lemma ReturnClientKeepsCharges(b: Batches, id: nat)
    requires ChargesMatch(b) && At(b, id, Leaving)
    ensures ChargesMatch(BatchNext(b, ReturnClient(id)))
  {
    ChargesFit(b, id);
    MoveKeepsCharges(b, id, LeftClient, BatchNext(b, ReturnClient(id)));
  }

  lemma ReturnProcessKeepsCharges(b: Batches, id: nat)
    requires ChargesMatch(b) && At(b, id, LeftClient)
    ensures ChargesMatch(BatchNext(b, ReturnProcess(id)))
  {
    ChargesFit(b, id);
    ChargesWithout(b.tickets, id);
  }

  lemma PopKeepsCharges(b: Batches, stage: Stage)
    requires ChargesMatch(b) && ChannelExact(b) && b.channel != [] && (stage.Working? || stage.Leaving?)
    ensures ChargesMatch(PopTo(b, stage))
  {
    assert b.channel[0] in b.channel;
    MoveKeepsCharges(b, b.channel[0], stage, PopTo(b, stage));
  }

  lemma StepKeepsCharges(b: Batches, step: BatchStep)
    requires ChargesMatch(b) && ChannelExact(b)
    ensures ChargesMatch(BatchNext(b, step))
  {
    var b' := BatchNext(b, step);
    if b' != b {
      match step
      case AcquireClient(id, weight) => FirstChargeKeepsCharges(b, id, weight);
      case AcquireProcess(id) => SecondChargeKeepsCharges(b, id);
      case RollBack(id) => RollBackKeepsCharges(b, id);
      case ReturnClient(id) => ReturnClientKeepsCharges(b, id);
      case ReturnProcess(id) => ReturnProcessKeepsCharges(b, id);
      case TakeJob => PopKeepsCharges(b, Working);
      case Drain => PopKeepsCharges(b, Leaving);
      case OtherClient(delta) =>
      case _ => MoveKeepsCharges(b, step.id, b'.tickets[step.id].stage, b');
    }
  }

  lemma PopKeepsChannel(b: Batches, stage: Stage)
    requires ChannelExact(b) && b.channel != [] && !stage.Queued?
    ensures ChannelExact(PopTo(b, stage))
  {
    var b' := PopTo(b, stage);
    assert b.channel[0] in b.channel;
    assert forall id :: id in b'.channel <==> id in b.channel && id != b.channel[0];
  }

  lemma PushKeepsChannel(b: Batches, id: nat)
    requires ChannelExact(b) && At(b, id, Produced) && |b.channel| < BATCH_CHANNEL_CAPACITY
    ensures ChannelExact(BatchNext(b, Enqueue(id)))
  {
    assert id !in b.channel;
  }

  /** A ticket that is not queued changes into, or appears as, one that is not queued. */
  lemma OthersKeepChannel(b: Batches, b': Batches, id: nat)
    requires ChannelExact(b) && b'.channel == b.channel
    requires !At(b, id, Queued) && !At(b', id, Queued)
    requires forall x :: x != id ==> (At(b', x, Queued) <==> At(b, x, Queued))
    ensures ChannelExact(b')
  {
  }

  lemma StepKeepsChannel(b: Batches, step: BatchStep)
    requires ChannelExact(b)
    ensures ChannelExact(BatchNext(b, step))
  {
    var b' := BatchNext(b, step);
    match step
    case TakeJob => if b.channel != [] { PopKeepsChannel(b, Working); }
    case Drain => if b.channel != [] { PopKeepsChannel(b, Leaving); }
    case OtherClient(delta) =>
    case Enqueue(id) => if b' != b { PushKeepsChannel(b, id); }
    case _ => if b' != b { OthersKeepChannel(b, b', step.id); }
  }

  lemma {:induction false} BatchRunKeepsInv(b: Batches, steps: seq<BatchStep>)
    requires ChargesMatch(b) && ChannelExact(b)
    ensures ChargesMatch(BatchRun(b, steps)) && ChannelExact(BatchRun(b, steps))
    decreases |steps|
  {
    if steps != [] {
      StepKeepsCharges(b, steps[0]);
      StepKeepsChannel(b, steps[0]);
      BatchRunKeepsInv(BatchNext(b, steps[0]), steps[1..]);
    }
  }

  /** Both budgets equal the outstanding reservations, every charge still to be returned is
      covered by its budget so that its one release is accepted, and a client whose
      reservations have all left uses nothing. */
  ghost predicate Accounted(b: Batches) {
    && b.clientUsed == Sum(ClientCharges(b.tickets)) && 0 <= b.clientUsed <= CLIENT_BATCH_BUDGET
    && b.processUsed == b.others + Sum(ProcessCharges(b.tickets)) <= PROCESS_BATCH_BUDGET
    && (forall id :: id in b.tickets ==>
          && (HoldsClient(b.tickets[id].stage) ==> 0 < b.tickets[id].weight <= b.clientUsed)
          && (HoldsProcess(b.tickets[id].stage) ==> 0 < b.tickets[id].weight <= b.processUsed))
    && (b.tickets == map[] ==> b.clientUsed == 0 && b.processUsed == b.others && b.channel == [])
  }

  lemma InvariantAccounts(b: Batches)
    requires ChargesMatch(b) && ChannelExact(b)
    ensures Accounted(b)
  {
    AllChargesFit(b);
    if b.tickets == map[] {
      EmptyHoldsNothing(b);
    }
  }

  /** In every state reached from a fresh client, whatever the other clients hold, by any
      interleaving of any reservations. */
  lemma {:induction false} BatchChargesAreConserved(others: nat, steps: seq<BatchStep>)
    requires others <= PROCESS_BATCH_BUDGET
    ensures Accounted(BatchRun(Batches(0, others, others, map[], []), steps))
  {
    var b := Batches(0, others, others, map[], []);
    EmptyHoldsNothing(b);
    BatchRunKeepsInv(b, steps);
    InvariantAccounts(BatchRun(b, steps));
  }

  lemma EmptyHoldsNothing(b: Batches)
    requires b.tickets == map[]
    ensures Sum(ClientCharges(b.tickets)) == 0 && Sum(ProcessCharges(b.tickets)) == 0
    ensures ChannelExact(b) ==> b.channel == []
  {
    assert ClientCharges(b.tickets) == map[] && ProcessCharges(b.tickets) == map[];
    if b.channel != [] {
      assert b.channel[0] in b.channel;
    }
  }

  lemma AllChargesFit(b: Batches)
    requires ChargesMatch(b)
    ensures b.clientUsed >= 0
    ensures forall id :: id in b.tickets ==>
      && (HoldsClient(b.tickets[id].stage) ==> 0 < b.tickets[id].weight <= b.clientUsed)
      && (HoldsProcess(b.tickets[id].stage) ==> 0 < b.tickets[id].weight <= b.processUsed)
  {
    SumAtLeast(ClientCharges(b.tickets), 0);
    forall id | id in b.tickets
      ensures HoldsClient(b.tickets[id].stage) ==> 0 < b.tickets[id].weight <= b.clientUsed
      ensures HoldsProcess(b.tickets[id].stage) ==> 0 < b.tickets[id].weight <= b.processUsed
    {
      ChargesFit(b, id);
    }
  }
}
