/** How often each reservation was charged and given back, counted on the budgets themselves. */
module BatchLedger {
  import opened ByteBudgets
  import opened BatchReservations

  /** How often a step of one reservation raised and lowered the usage of each budget. */
  datatype Tally = Tally(clientUp: nat, clientDown: nat, processUp: nat, processDown: nat)

  const NONE: Tally := Tally(0, 0, 0, 0)

  /** `tallies` has an entry for every reservation ever begun; names are not used again. */
  datatype Ledger = Ledger(b: Batches, tallies: map<nat, Tally>)

  function Counted(t: Tally, b: Batches, b': Batches): Tally {
    Tally(t.clientUp + (if b'.clientUsed > b.clientUsed then 1 else 0),
          t.clientDown + (if b'.clientUsed < b.clientUsed then 1 else 0),
          t.processUp + (if b'.processUsed > b.processUsed then 1 else 0),
          t.processDown + (if b'.processUsed < b.processUsed then 1 else 0))
  }

  predicate Moves(step: BatchStep) {
    step.AcquireClient? || step.AcquireProcess? || step.RollBack? || step.ReturnClient? || step.ReturnProcess?
  }

  function LedgerNext(l: Ledger, step: BatchStep): Ledger {
    var b' := BatchNext(l.b, step);
    if b' == l.b || (step.AcquireClient? && step.id in l.tallies) then l
    else if Moves(step) then
      var t := if step.id in l.tallies then l.tallies[step.id] else NONE;
      Ledger(b', l.tallies[step.id := Counted(t, l.b, b')])
    else l.(b := b')
  }

  function LedgerRun(l: Ledger, steps: seq<BatchStep>): Ledger
    decreases |steps|
  {
    if steps == [] then l else LedgerRun(LedgerNext(l, steps[0]), steps[1..])
  }

  predicate TallyOk(b: Batches, id: nat, t: Tally) {
    if id !in b.tickets then t == Tally(1, 1, 0, 0) || t == Tally(1, 1, 1, 1)
    else if HoldsProcess(b.tickets[id].stage) then t == Tally(1, if HoldsClient(b.tickets[id].stage) then 0 else 1, 1, 0)
    else t == Tally(1, 0, 0, 0)
  }

  ghost predicate LedgerInv(l: Ledger) {
    && ChargesMatch(l.b) && ChannelExact(l.b) && l.b.tickets.Keys <= l.tallies.Keys
    && (forall id :: id in l.tallies ==> TallyOk(l.b, id, l.tallies[id]))
  }

  /** A step of one reservation leaves the others where they are. */
  lemma OthersUntouched(b: Batches, step: BatchStep, id: nat)
    requires Moves(step) && id != step.id
    ensures var b' := BatchNext(b, step);
      (id in b'.tickets <==> id in b.tickets) && (id in b.tickets ==> b'.tickets[id] == b.tickets[id])
  {
  }

  /** The steps of one reservation move exactly the usage that its stage says it holds. */
  lemma OwnTally(b: Batches, step: BatchStep, t: Tally)
    requires ChargesMatch(b) && Moves(step) && BatchNext(b, step) != b
    requires if step.AcquireClient? then step.id !in b.tickets && t == NONE else step.id in b.tickets && TallyOk(b, step.id, t)
    ensures TallyOk(BatchNext(b, step), step.id, Counted(t, b, BatchNext(b, step)))
  {
    if !step.AcquireClient? {
      ChargesFit(b, step.id);
    }
  }

  /** Passing a job on keeps its charges. */
  lemma QuietTally(b: Batches, step: BatchStep, id: nat, t: Tally)
    requires ChannelExact(b) && !Moves(step) && TallyOk(b, id, t)
    ensures TallyOk(BatchNext(b, step), id, t)
  {
    if (step.TakeJob? || step.Drain?) && b.channel != [] {
      assert b.channel[0] in b.channel;
    }
  }

  lemma StepKeepsLedger(l: Ledger, step: BatchStep)
    requires LedgerInv(l)
    ensures LedgerInv(LedgerNext(l, step))
  {
    var l' := LedgerNext(l, step);
    if l' != l {
      StepKeepsCharges(l.b, step);
      StepKeepsChannel(l.b, step);
      forall id | id in l'.tallies
        ensures TallyOk(l'.b, id, l'.tallies[id])
      {
        if !Moves(step) {
          QuietTally(l.b, step, id, l.tallies[id]);
        } else if id == step.id {
          OwnTally(l.b, step, if id in l.tallies then l.tallies[id] else NONE);
        } else {
          OthersUntouched(l.b, step, id);
        }
      }
    }
  }

  lemma {:induction false} RunKeepsLedger(l: Ledger, steps: seq<BatchStep>)
    requires LedgerInv(l)
    ensures LedgerInv(LedgerRun(l, steps))
    decreases |steps|
  {
    if steps != [] {
      StepKeepsLedger(l, steps[0]);
      RunKeepsLedger(LedgerNext(l, steps[0]), steps[1..]);
    }
  }

  /** Over every interleaving of producers, channel, workers and drain: a reservation is charged
      to the client once and given back at most once, and once it has left, on whatever path,
      it was given back to the client exactly once and to the process exactly as often as it was
      charged there, which is never more than once. */
  lemma ReleasedExactlyOnce(others: nat, steps: seq<BatchStep>, id: nat)
    requires others <= PROCESS_BATCH_BUDGET
    requires id in LedgerRun(Ledger(Batches(0, others, others, map[], []), map[]), steps).tallies
    ensures var l := LedgerRun(Ledger(Batches(0, others, others, map[], []), map[]), steps);
      var t := l.tallies[id];
      && t.clientUp == 1 && t.clientDown <= 1 && t.processDown <= t.processUp <= 1
      && (id !in l.b.tickets ==> t.clientDown == 1 && t.processDown == t.processUp)
      && (id in l.b.tickets ==> t.clientDown == (if HoldsClient(l.b.tickets[id].stage) then 0 else 1) && t.processDown == 0)
  {
    var l := Ledger(Batches(0, others, others, map[], []), map[]);
    EmptyHoldsNothing(l.b);
    RunKeepsLedger(l, steps);
    assert TallyOk(LedgerRun(l, steps).b, id, LedgerRun(l, steps).tallies[id]);
  }

  // ---- After the drain ------------------------------------------------------------------------

  /** Nothing is in the channel and nobody is left to put anything into it. */
  ghost predicate Drained(b: Batches) {
    && b.channel == []
    && (forall id :: id in b.tickets ==>
          b.tickets[id].stage.Working? || b.tickets[id].stage.Leaving? || b.tickets[id].stage.LeftClient?)
  }

  lemma StepKeepsDrained(b: Batches, step: BatchStep)
    requires Drained(b) && !step.AcquireClient?
    ensures Drained(BatchNext(b, step)) && BatchNext(b, step).tickets.Keys <= b.tickets.Keys
  {
  }

  /** Once nobody produces any more and the channel is empty it stays empty, and the budgets carry
      exactly what the workers still have to give back. */
  lemma {:induction false} DrainedStaysDrained(b: Batches, steps: seq<BatchStep>)
    requires Drained(b) && ChargesMatch(b) && ChannelExact(b)
    requires forall n :: 0 <= n < |steps| ==> !steps[n].AcquireClient?
    ensures Drained(BatchRun(b, steps)) && Accounted(BatchRun(b, steps))
    ensures BatchRun(b, steps).tickets.Keys <= b.tickets.Keys
    decreases |steps|
  {
    InvariantAccounts(b);
    if steps != [] {
      StepKeepsCharges(b, steps[0]);
      StepKeepsChannel(b, steps[0]);
      StepKeepsDrained(b, steps[0]);
      DrainedStaysDrained(BatchNext(b, steps[0]), steps[1..]);
    }
  }
}
