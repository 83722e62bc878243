/** Why not every node can be in the middle of a streak once all claims are paid for: when as many streaks have
    ended as levels were claimed, some node has a zero attempt counter. */
module RestingNode {
  import opened Basics
  import opened Schedules
  import opened Jobs
  import opened RowLedger
  import opened Cluster
  import opened AttemptBudget

  /** What executions can be created for: distinct targets claimed, excess levels crossed by late retries,
      and replayed executions. */
  function Levels(s: State): nat {
    |Targets(s.origin, s.ops)| + Excess(s.origin, s.ops) + s.replays
  }

  predicate Rested(s: State) { exists n :: 0 <= n < |s.nodes| && s.nodes[n].counter == 0 }

  predicate RestInv(s: State) { Levels(s) > 0 && s.ended >= Levels(s) ==> Rested(s) }

  /** Streaks that ended, attempts still running and executions still pending never outnumber the levels. */
  lemma EndedBounded(cfg: Config, s: State)
    requires BudgetInv(cfg, s)
    ensures var m := MaxAttempts(cfg);
            s.ended + Count(s.flight, m, PendingStage) + Count(s.flight, m, LowStage) + Count(s.flight, m, HighStage)
            <= Levels(s)
    ensures s.started <= Levels(s) + s.requested
  {
    WinsBoundedByTargets(s.origin, s.ops);
  }

  lemma LevelsGrow(s: State, s': State)
    requires s'.origin == s.origin && s'.replays >= s.replays
    requires s'.ops == s.ops || (|s'.ops| == |s.ops| + 1 && s'.ops == s.ops + [s'.ops[|s.ops|]])
    ensures Levels(s') >= Levels(s)
  {
    if s'.ops != s.ops {
      LedgerSnoc(s.origin, s.ops, s'.ops[|s.ops|]);
      SubsetCard(Targets(s.origin, s.ops), Targets(s.origin, s'.ops));
    }
  }

  /** Steps that end no streak and touch no counter. */
  lemma RestKept(cfg: Config, s: State, s': State)
    requires BudgetInv(cfg, s) && RestInv(s)
    requires s'.ended == s.ended && |s'.nodes| == |s.nodes| && Levels(s') >= Levels(s)
    requires forall n :: 0 <= n < |s.nodes| ==> s'.nodes[n].counter == s.nodes[n].counter
    ensures RestInv(s')
  {
    EndedBounded(cfg, s);
    if Levels(s') > 0 && s'.ended >= Levels(s') {
      var n :| 0 <= n < |s.nodes| && s.nodes[n].counter == 0;
      assert s'.nodes[n].counter == 0;
    }
  }

  /** As long as an execution is pending or running, some level is not paid for. */
  lemma BusyKept(cfg: Config, s: State, s': State, id: nat)
    requires BudgetInv(cfg, s) && id in s.flight && (s.flight[id].phase.Pending? || s.flight[id].phase.Running?)
    requires s'.ended == s.ended && Levels(s') >= Levels(s)
    ensures RestInv(s')
  {
    EndedBounded(cfg, s);
    var m := MaxAttempts(cfg);
    var stage := StageOf(m, s.flight[id]);
    assert id in InStage(s.flight, m, stage);
    SubsetCard({id}, InStage(s.flight, m, stage));
  }

  lemma ZeroRests(s: State, n: nat)
    requires n < |s.nodes| && s.nodes[n].counter == 0
    ensures RestInv(s)
  {
  }

  lemma FinishKeepsRest(cfg: Config, s: State, id: nat, failed: bool, retryAt: Time)
    requires BudgetInv(cfg, s) && Enabled(cfg, s, Finish(id, failed, retryAt))
    ensures RestInv(Finished(cfg, s, id, failed, retryAt))
  {
    var s' := Finished(cfg, s, id, failed, retryAt);
    if AsksRetry(failed, s.flight[id].phase.attempt, MaxAttempts(cfg)) {
      BusyKept(cfg, s, s', id);
    } else {
      ZeroRests(s', s.flight[id].node);
    }
  }

  /** What a step that is no part of an execution does to the ledger. */
  predicate Calm(s: State, s': State) {
    && s'.ended == s.ended && s'.origin == s.origin && s'.replays >= s.replays && |s'.nodes| == |s.nodes|
    && (s'.ops == s.ops || (|s'.ops| == |s.ops| + 1 && s'.ops == s.ops + [s'.ops[|s.ops|]]))
    && forall n :: 0 <= n < |s.nodes| ==> s'.nodes[n].counter == s.nodes[n].counter
  }

  lemma CalmKeepsRest(cfg: Config, s: State, s': State)
    requires BudgetInv(cfg, s) && RestInv(s) && Calm(s, s')
    ensures RestInv(s')
  {
    LevelsGrow(s, s');
    RestKept(cfg, s, s');
  }

  lemma DispatchIsCalm(cfg: Config, s: State, n: nat, call: CallResult)
    requires Enabled(cfg, s, Dispatch(n, call))
    ensures Calm(s, Dispatched(cfg, s, n, call))
  {
  }

  lemma StepIsCalm(cfg: Config, s: State, step: Step)
    requires Enabled(cfg, s, step) && !step.Start? && !step.Finish? && !step.Crash?
    ensures Calm(s, Apply(cfg, s, step))
  {
    match step {
      case Dispatch(n, call) => DispatchIsCalm(cfg, s, n, call);
      case _ =>
    }
  }

  lemma StepKeepsRest(cfg: Config, s: State, step: Step)
    requires BudgetInv(cfg, s) && RestInv(s) && Enabled(cfg, s, step)
    ensures RestInv(Apply(cfg, s, step))
  {
    match step {
      case Start(id) => BusyKept(cfg, s, Started(cfg, s, id), id);
      case Finish(id, failed, retryAt) => FinishKeepsRest(cfg, s, id, failed, retryAt);
      case Crash(n) => ZeroRests(Crashed(s, n), n);
      case _ =>
        StepIsCalm(cfg, s, step);
        CalmKeepsRest(cfg, s, Apply(cfg, s, step));
    }
  }

  lemma {:induction false} RunKeepsRest(cfg: Config, s: State, steps: seq<Step>, rule: Rule)
    requires Initial(s) && Legal(cfg, s, steps, rule)
    ensures RestInv(Reach(cfg, s, steps))
  {
    if steps != [] {
      var before, last := steps[..|steps| - 1], steps[|steps| - 1];
      RunKeepsRest(cfg, s, before, rule);
      RunKeepsBudget(cfg, s, before, rule);
      StepKeepsRest(cfg, Reach(cfg, s, before), last);
    }
  }

  /** A resting node leaves the potential of the others only. */
  lemma {:induction false} RestedPotential(nodes: seq<Node>, n: nat, budget: int)
    requires n < |nodes| && nodes[n].counter == 0 && budget >= 1
    ensures Potential(nodes, budget) <= (budget - 1) * (|nodes| - 1)
  {
    var last := |nodes| - 1;
    if n < last {
      RestedPotential(nodes[..last], n, budget);
      assert (budget - 1) * (|nodes| - 1) == (budget - 1) * (|nodes| - 2) + (budget - 1);
    } else {
      PotentialBounded(nodes[..last], budget);
    }
  }

  lemma {:induction false} NoTargetsNoWins(row: Time, ops: seq<RowOp>)
    requires |Targets(row, ops)| == 0
    ensures WinCount(row, ops) == 0
  {
    if ops != [] { NoTargetsNoWins(row, ops[..|ops| - 1]); }
  }
}
