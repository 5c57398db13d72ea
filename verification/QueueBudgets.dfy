/** Any number of connections share the process-wide queue budget. A rollback and a
    finalization give their share back to it in a later, separate step. */
module QueueBudgets {
  import opened MapSums
  import opened ByteBudgets
  import opened QueueScheduler
  import opened QueueSystem

  datatype World = World(
    runs: map<nat, Sys>,
    processUsed: int,
    transit: map<nat, int>)  // process-wide releases decided and not yet performed

  datatype WorldStep =
    | Dial(id: nat)
    | RunStep(id: nat, step: Step, ticket: nat)
    | Settle(ticket: nat)

  const NOTHING: World := World(map[], 0, map[])

  /** A step of one connection as the shared budget sees it: what it takes and what it owes. */
  datatype Effect = Effect(y: Sys, charge: int, refund: int)

  ghost function Act(y: Sys, step: Step, processUsed: int): Effect {
    if step.Notice? && !y.finalized then
      var n := StartQueue(y.s, step.j, processUsed);
      Effect(NoticeStep(y, step.j, processUsed), n.charge, n.refund)
    else if step.Finalize? && FinalizeStep(y) != y then
      Effect(FinalizeStep(y), 0, Tracked(y.s))
    else
      Effect(Next(y, step), 0, 0)
  }

  ghost function WorldNext(w: World, step: WorldStep): World {
    match step
    case Dial(id) => if id in w.runs then w else w.(runs := w.runs[id := INIT])
    case RunStep(id, s, ticket) =>
      if id !in w.runs || ticket in w.transit then w
      else
        Charged(w, id, Act(w.runs[id], s, w.processUsed), ticket)
    case Settle(ticket) =>
      if ticket !in w.transit || !ReleaseAccepted(w, ticket) then w
      else w.(processUsed := w.processUsed - w.transit[ticket], transit := w.transit - {ticket})
  }

  function Charged(w: World, id: nat, e: Effect, ticket: nat): World {
    World(w.runs[id := e.y], w.processUsed + e.charge,
          if e.refund > 0 then w.transit[ticket := e.refund] else w.transit)
  }

  /** The process budget's own test of a release. */
  predicate ReleaseAccepted(w: World, ticket: nat)
    requires ticket in w.transit
  {
    Sound(PROCESS_QUEUE_BUDGET, w.processUsed) && 0 < w.transit[ticket] <= w.processUsed
  }

  ghost function WorldRun(w: World, steps: seq<WorldStep>): World
    decreases |steps|
  {
    if steps == [] then w else WorldRun(WorldNext(w, steps[0]), steps[1..])
  }

  ghost function Shares(runs: map<nat, Sys>): map<nat, int> {
    map id | id in runs :: runs[id].s.used
  }

  ghost predicate Conserved(w: World) {
    w.processUsed == Sum(Shares(w.runs)) + Sum(w.transit)
  }

  ghost predicate Balanced(w: World) {
    && Conserved(w)
    && 0 <= w.processUsed <= PROCESS_QUEUE_BUDGET
    && (forall ticket :: ticket in w.transit ==> w.transit[ticket] > 0)
  }

  ghost predicate RunsOk(runs: map<nat, Sys>) {
    forall id :: id in runs ==> SysInv(runs[id])
  }

  ghost predicate WorldInv(w: World) {
    Balanced(w) && RunsOk(w.runs)
  }

  lemma RunsStayOk(runs: map<nat, Sys>, id: nat, y: Sys)
    requires RunsOk(runs) && SysInv(y)
    ensures RunsOk(runs[id := y])
  {
  }

  lemma UsedIsPositive(y: Sys)
    requires SchedInv(y.s)
    ensures y.s.used >= 0
  {
    SumAtLeast(Weights(y.s.queues), 0);
  }

  lemma FinishKeepsUsed(s: Sched, k: QueueKey, nextKey: nat, isLast: bool)
    ensures FinishBatch(s, k, nextKey, isLast).0.used == s.used
  {
    if k in s.queues {
      PromoteKeepsUsed(Finished(s, k, nextKey, isLast));
    }
  }

  /** Only a NOTICE and a finalization move the connection's usage. */
  lemma QuietKeepsUsed(y: Sys, step: Step)
    requires !step.Notice? && !step.Finalize?
    ensures Next(y, step).s.used == y.s.used
  {
    if step.Complete? {
      FinishKeepsUsed(y.s, step.k, step.nextKey, step.isLast);
    }
  }

  /** The step of the connection behind an act. */
  function Stepped(step: Step, processUsed: int): Step {
    if step.Notice? then Notice(step.j, processUsed) else step
  }

  lemma ActIsStep(y: Sys, step: Step, processUsed: int)
    ensures Act(y, step, processUsed).y == Next(y, Stepped(step, processUsed))
  {
  }

  lemma ActKeepsInv(y: Sys, step: Step, processUsed: int)
    requires SysInv(y)
    ensures SysInv(Act(y, step, processUsed).y)
  {
    ActIsStep(y, step, processUsed);
    StepKeepsInv(y, Stepped(step, processUsed));
  }

  lemma ActBalances(y: Sys, step: Step, processUsed: int)
    requires SchedInv(y.s) && 0 <= processUsed <= PROCESS_QUEUE_BUDGET
    ensures var e := Act(y, step, processUsed);
      && e.y.s.used == y.s.used + e.charge - e.refund
      && 0 <= e.charge <= PROCESS_QUEUE_BUDGET - processUsed && e.refund >= 0
  {
    UsedIsPositive(y);
    if step.Notice? {
      NoticeKeepsInv(y.s, step.j, processUsed);
    } else if step.Finalize? {
      FinalizedIsEmpty(y.s);
    } else {
      QuietKeepsUsed(y, step);
    }
  }

  lemma {:induction false} PromoteKeepsUsed(s: Sched)
    ensures PromoteDeferred(s).0.used == s.used
    decreases |s.deferred|
  {
    if s.active < MAX_ACTIVE_QUEUES && s.deferred != [] {
      PromoteKeepsUsed(s.(deferred := s.deferred[1..]));
    }
  }

  lemma BalancedStepConserves(w: World, id: nat, e: Effect, ticket: nat)
    requires Conserved(w) && id in w.runs && ticket !in w.transit && e.refund >= 0
    requires e.y.s.used == w.runs[id].s.used + e.charge - e.refund
    ensures Conserved(Charged(w, id, e, ticket))
  {
    assert Shares(w.runs[id := e.y]) == Shares(w.runs)[id := e.y.s.used];
    SumUpdate(Shares(w.runs), id, e.y.s.used);
    SumUpdate(w.transit, ticket, e.refund);
  }

  lemma DialKeepsBalance(w: World, id: nat)
    requires Balanced(w)
    ensures Balanced(WorldNext(w, Dial(id)))
  {
    if id !in w.runs {
      assert Shares(w.runs[id := INIT]) == Shares(w.runs)[id := 0];
      SumUpdate(Shares(w.runs), id, 0);
    }
  }

  lemma ActKeepsBalance(w: World, id: nat, e: Effect, ticket: nat)
    requires Balanced(w) && id in w.runs && ticket !in w.transit
    requires e.y.s.used == w.runs[id].s.used + e.charge - e.refund
    requires 0 <= e.charge <= PROCESS_QUEUE_BUDGET - w.processUsed && e.refund >= 0
    ensures Balanced(Charged(w, id, e, ticket))
  {
    BalancedStepConserves(w, id, e, ticket);
  }

  lemma SettleKeepsBalance(w: World, ticket: nat)
    requires Balanced(w)
    ensures Balanced(WorldNext(w, Settle(ticket)))
  {
    if ticket in w.transit {
      SumRemove(w.transit, ticket);
    }
  }

  lemma StepKeepsBalance(w: World, step: WorldStep)
    requires Balanced(w)
    requires step.RunStep? && step.id in w.runs ==> SchedInv(w.runs[step.id].s)
    ensures Balanced(WorldNext(w, step))
  {
    match step
    case Dial(id) => DialKeepsBalance(w, id);
    case RunStep(id, s, ticket) =>
      if id in w.runs && ticket !in w.transit {
        ActBalances(w.runs[id], s, w.processUsed);
        ActKeepsBalance(w, id, Act(w.runs[id], s, w.processUsed), ticket);
      }
    case Settle(ticket) => SettleKeepsBalance(w, ticket);
  }

  lemma StepKeepsRunsOk(w: World, step: WorldStep)
    requires RunsOk(w.runs)
    ensures RunsOk(WorldNext(w, step).runs)
  {
    match step
    case Dial(id) =>
      EmptyIsSound();
      RunsStayOk(w.runs, id, INIT);
    case RunStep(id, s, ticket) =>
      if id in w.runs && ticket !in w.transit {
        ActKeepsInv(w.runs[id], s, w.processUsed);
        RunsStayOk(w.runs, id, Act(w.runs[id], s, w.processUsed).y);
      }
    case Settle(ticket) =>
  }

  lemma {:induction false} WorldRunKeepsInv(w: World, steps: seq<WorldStep>)
    requires WorldInv(w)
    ensures WorldInv(WorldRun(w, steps))
    decreases |steps|
  {
    if steps != [] {
      StepKeepsBalance(w, steps[0]);
      StepKeepsRunsOk(w, steps[0]);
      WorldRunKeepsInv(WorldNext(w, steps[0]), steps[1..]);
    }
  }

  /** Over any run of any number of connections: the process-wide usage is exactly what the
      connections hold plus what is on its way back, each connection holds exactly the weight
      of its queues, finalization hands back that weight and leaves nothing, no release is ever
      refused, and once every connection is finalized and settled nothing is used. */
  lemma QueueBudgetIsConserved(steps: seq<WorldStep>)
    ensures var w := WorldRun(NOTHING, steps);
      && w.processUsed == Sum(Shares(w.runs)) + Sum(w.transit)
      && 0 <= w.processUsed <= PROCESS_QUEUE_BUDGET
      && (forall id :: id in w.runs ==>
            w.runs[id].s.used == Tracked(w.runs[id].s) && Finalized(w.runs[id].s).used == 0)
      && (forall ticket :: ticket in w.transit ==> ReleaseAccepted(w, ticket))
      && ((forall id :: id in w.runs ==> w.runs[id].finalized) && w.transit == map[] ==> w.processUsed == 0)
  {
    assert Shares(map[]) == map[];
    WorldRunKeepsInv(NOTHING, steps);
    var w := WorldRun(NOTHING, steps);
    forall id | id in w.runs
      ensures w.runs[id].s.used >= 0
    {
      UsedIsPositive(w.runs[id]);
    }
    SumAtLeast(Shares(w.runs), 0);
    forall ticket | ticket in w.transit
      ensures ReleaseAccepted(w, ticket)
    {
      SumBoundsEntry(w.transit, ticket);
    }
    forall id | id in w.runs
      ensures Finalized(w.runs[id].s).used == 0 && (w.runs[id].finalized ==> w.runs[id].s.used == 0)
    {
      FinalizedIsEmpty(w.runs[id].s);
      assert w.runs[id].finalized ==> Weights(w.runs[id].s.queues) == map[];
    }
    if (forall id :: id in w.runs ==> w.runs[id].finalized) && w.transit == map[] {
      ZeroShares(Shares(w.runs));
    }
  }

  lemma {:induction false} ZeroShares(m: map<nat, int>)
    requires forall id :: id in m ==> m[id] == 0
    ensures Sum(m) == 0
    decreases |m|
  {
    if m != map[] {
      var id :| id in m;
      SumRemove(m, id);
      ZeroShares(m - {id});
    }
  }
}
