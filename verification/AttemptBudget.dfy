/** The attempt budget of a cluster: what started attempts, retries and ended streaks cost one another in
    every interleaving. */
module AttemptBudget {
  import opened Basics
  import opened Schedules
  import opened Jobs
  import opened RowLedger
  import opened Cluster

  // ----- Counting executions by stage ----------------------------------------------------------

  /** Running executions are split by whether their attempt is below the budget. */
  datatype Stage = PendingStage | LowStage | HighStage | RetryStage | RecordStage

  function StageOf(max: int, e: Exec): Stage {
    match e.phase
    case Pending => PendingStage
    case Running(attempt) => if attempt < max then LowStage else HighStage
    case Retrying(_, _) => RetryStage
    case Recording(_, _) => RecordStage
  }

  function InStage(flight: map<nat, Exec>, max: int, stage: Stage): set<nat> {
    set id | id in flight && StageOf(max, flight[id]) == stage
  }

  function Count(flight: map<nat, Exec>, max: int, stage: Stage): nat {
    |InStage(flight, max, stage)|
  }

  lemma CountPut(flight: map<nat, Exec>, id: nat, e: Exec, max: int, stage: Stage)
    ensures Count(flight[id := e], max, stage) ==
            Count(flight, max, stage)
            - Ind(id in flight && StageOf(max, flight[id]) == stage) + Ind(StageOf(max, e) == stage)
  {
    var prior, now := InStage(flight, max, stage), InStage(flight[id := e], max, stage);
    assert now == prior - {id} + if StageOf(max, e) == stage then {id} else {};
  }

  lemma CountRemove(flight: map<nat, Exec>, id: nat, max: int, stage: Stage)
    requires id in flight
    ensures Count(flight - {id}, max, stage) ==
            Count(flight, max, stage) - Ind(StageOf(max, flight[id]) == stage)
  {
    assert InStage(flight - {id}, max, stage) == InStage(flight, max, stage) - {id};
  }

  lemma CountElsewhere(flight: map<nat, Exec>, n: nat, max: int, stage: Stage)
    ensures Count(Elsewhere(flight, n), max, stage) <= Count(flight, max, stage)
  {
    SubsetCard(InStage(Elsewhere(flight, n), max, stage), InStage(flight, max, stage));
  }

  // ----- The attempt potential -----------------------------------------------------------------

  /** Attempts below the budget that the current counters account for. */
  function Potential(nodes: seq<Node>, budget: int): int {
    if nodes == [] then 0
    else Potential(nodes[..|nodes| - 1], budget) + Min(nodes[|nodes| - 1].counter, budget - 1)
  }

  lemma {:induction false} PotentialSet(nodes: seq<Node>, n: nat, node: Node, budget: int)
    requires n < |nodes|
    ensures Potential(nodes[n := node], budget) ==
            Potential(nodes, budget) - Min(nodes[n].counter, budget - 1) + Min(node.counter, budget - 1)
  {
    var last := |nodes| - 1;
    if n < last {
      PotentialSet(nodes[..last], n, node, budget);
      assert nodes[n := node][..last] == nodes[..last][n := node];
    } else {
      assert nodes[n := node][..last] == nodes[..last];
    }
  }

  lemma {:induction false} PotentialBounded(nodes: seq<Node>, budget: int)
    requires budget >= 1
    ensures 0 <= Potential(nodes, budget) <= (budget - 1) * |nodes|
  {
    if nodes != [] {
      PotentialBounded(nodes[..|nodes| - 1], budget);
      assert (budget - 1) * |nodes| == (budget - 1) * (|nodes| - 1) + (budget - 1);
    }
  }

  // ----- The invariant -------------------------------------------------------------------------

  function MaxAttempts(cfg: Config): int { cfg.opts.retry.maxAttempts }

  /** Every started attempt comes from a created execution, every created execution from a won claim
      or a replay. */
  predicate Sourced(cfg: Config, s: State) {
    && s.started + Count(s.flight, MaxAttempts(cfg), PendingStage) <= s.launched + s.replays
    && s.launched <= WinCount(s.origin, s.ops)
  }

  /** Every retry request and every end of a streak uses up one started attempt. */
  predicate Judged(cfg: Config, s: State) {
    var m := MaxAttempts(cfg);
    && s.requested + s.ended + Count(s.flight, m, LowStage) + Count(s.flight, m, HighStage) <= s.started
    && s.requested + Count(s.flight, m, LowStage) <= s.low
    && PullCount(s.origin, s.ops) + Count(s.flight, m, RetryStage) <= s.requested
  }

  /** Attempts below the budget are paid for by forgotten counters and by the counters of today. */
  predicate Paid(cfg: Config, s: State) {
    var b := Budget(MaxAttempts(cfg));
    s.low <= (b - 1) * (s.ended + s.crashes) + Potential(s.nodes, b)
  }

  predicate BudgetInv(cfg: Config, s: State) {
    Sourced(cfg, s) && Judged(cfg, s) && Paid(cfg, s)
  }

  lemma InitialBudget(cfg: Config, s: State)
    requires Initial(s)
    ensures BudgetInv(cfg, s)
  {
    var m := MaxAttempts(cfg);
    forall stage: Stage ensures Count(s.flight, m, stage) == 0 { assert InStage(s.flight, m, stage) == {}; }
    PotentialBounded(s.nodes, Budget(m));
  }

  lemma ModeKeepsPotential(cfg: Config, s: State, n: nat, node: Node)
    requires n < |s.nodes| && node.counter == s.nodes[n].counter
    ensures Potential(s.nodes[n := node], Budget(MaxAttempts(cfg))) == Potential(s.nodes, Budget(MaxAttempts(cfg)))
  {
    PotentialSet(s.nodes, n, node, Budget(MaxAttempts(cfg)));
  }

  /** Creating an execution with a fresh id. */
  lemma SpawnCounts(cfg: Config, s: State, n: nat, fire: Time)
    requires s.nextId !in s.flight
    ensures forall stage: Stage ::
              Count(Spawn(s, n, fire).flight, MaxAttempts(cfg), stage) ==
              Count(s.flight, MaxAttempts(cfg), stage) + Ind(stage == PendingStage)
  {
    forall stage: Stage
      ensures Count(Spawn(s, n, fire).flight, MaxAttempts(cfg), stage) ==
              Count(s.flight, MaxAttempts(cfg), stage) + Ind(stage == PendingStage)
    {
      CountPut(s.flight, s.nextId, Exec(n, fire, Pending), MaxAttempts(cfg), stage);
    }
  }

  /** Ids in flight were all handed out before. */
  predicate FreshIds(s: State) { forall id :: id in s.flight ==> id < s.nextId }

  lemma FreshKept(s: State, s': State)
    requires FreshIds(s)
    requires s'.flight.Keys <= s.flight.Keys + {s.nextId} && s'.nextId >= s.nextId
    requires s.nextId in s'.flight ==> s'.nextId > s.nextId
    ensures FreshIds(s')
  {
    forall id | id in s'.flight ensures id < s'.nextId {
      assert id in s'.flight.Keys;
    }
  }

  lemma StepFresh(cfg: Config, s: State, step: Step)
    requires FreshIds(s) && Enabled(cfg, s, step)
    ensures FreshIds(Apply(cfg, s, step))
  {
    match step {
      case Dispatch(n, call) => DispatchFresh(cfg, s, n, call);
      case ReplayNext(n) => FreshKept(s, NextReplayed(s, n));
      case Start(id) => FreshKept(s, Started(cfg, s, id));
      case Finish(id, failed, retryAt) => FreshKept(s, Finished(cfg, s, id, failed, retryAt));
      case WriteRetry(id, ok) => FreshKept(s, WroteRetry(s, id, ok));
      case Record(id, ok) => FreshKept(s, Recorded(s, id, ok));
      case Crash(n) => FreshKept(s, Crashed(s, n));
      case _ => FreshKept(s, Apply(cfg, s, step));
    }
  }

  lemma DispatchFresh(cfg: Config, s: State, n: nat, call: CallResult)
    requires FreshIds(s) && Enabled(cfg, s, Dispatch(n, call))
    ensures FreshIds(Dispatched(cfg, s, n, call))
  {
    FreshKept(s, Dispatched(cfg, s, n, call));
  }

  /** The invariant does not look at modes, sessions, the lock or the clock. */
  lemma QuietKeepsBudget(cfg: Config, s: State, s': State)
    requires BudgetInv(cfg, s)
    requires s' == s.(clock := s'.clock, nodes := s'.nodes, lock := s'.lock, nextSession := s'.nextSession)
    requires Potential(s'.nodes, Budget(MaxAttempts(cfg))) == Potential(s.nodes, Budget(MaxAttempts(cfg)))
    ensures BudgetInv(cfg, s')
  {
  }

  lemma QuietStepKeepsBudget(cfg: Config, s: State, step: Step)
    requires BudgetInv(cfg, s) && Enabled(cfg, s, step)
    requires step.Fetch? || step.FallbackDone? || step.Renew? || step.Release? || step.ConnectionLost?
    ensures BudgetInv(cfg, Apply(cfg, s, step))
  {
    var n, s' := step.node, Apply(cfg, s, step);
    assert s'.nodes == s.nodes[n := s'.nodes[n]];
    ModeKeepsPotential(cfg, s, n, s'.nodes[n]);
    QuietKeepsBudget(cfg, s, s');
  }

  /** A storage call that creates no execution. */
  lemma CallKeepsBudget(cfg: Config, s: State, op: RowOp)
    requires BudgetInv(cfg, s) && op.Claim?
    ensures BudgetInv(cfg, Call(s, op))
  {
    WinsSnoc(s.origin, s.ops, op);
  }

  lemma ModeKeepsBudget(cfg: Config, s: State, n: nat, mode: Mode)
    requires BudgetInv(cfg, s) && n < |s.nodes|
    ensures BudgetInv(cfg, SetMode(s, n, mode))
  {
    ModeKeepsPotential(cfg, s, n, s.nodes[n].(mode := mode));
    QuietKeepsBudget(cfg, s, SetMode(s, n, mode));
  }

  lemma ClaimedKeepsBudget(cfg: Config, s: State, n: nat, v: Time)
    requires BudgetInv(cfg, s) && n < |s.nodes|
    ensures BudgetInv(cfg, Claimed(s, n, v))
  {
    CallKeepsBudget(cfg, s, Claim(v));
    ModeKeepsBudget(cfg, Call(s, Claim(v)), n, Idle);
  }

  lemma LaunchedKeepsBudget(cfg: Config, s: State, n: nat, fire: Time, v: Time)
    requires BudgetInv(cfg, s) && FreshIds(s) && Wins(s.Row(), Claim(v)) && n < |s.nodes|
    ensures BudgetInv(cfg, Launched(s, n, fire, v))
  {
    WinsSnoc(s.origin, s.ops, Claim(v));
    SpawnCounts(cfg, s, n, fire);
    ModeKeepsPotential(cfg, s, n, s.nodes[n].(mode := Idle));
  }

  lemma SpawnReplayKeepsBudget(cfg: Config, s: State, n: nat, fire: Time, replayed: seq<Time>, mode: Mode)
    requires BudgetInv(cfg, s) && FreshIds(s) && n < |s.nodes|
    ensures BudgetInv(cfg, SetMode(Spawn(s, n, fire), n, mode).(replays := s.replays + 1, replayed := replayed))
  {
    SpawnCounts(cfg, s, n, fire);
    ModeKeepsPotential(cfg, s, n, s.nodes[n].(mode := mode));
  }

  lemma DispatchKeepsBudget(cfg: Config, s: State, n: nat, call: CallResult)
    requires BudgetInv(cfg, s) && FreshIds(s) && Enabled(cfg, s, Dispatch(n, call))
    ensures BudgetInv(cfg, Dispatched(cfg, s, n, call))
  {
    var mode := s.nodes[n].mode;
    match Decide(cfg, s.nodes[n]) {
      case Ignore =>
        ModeKeepsBudget(cfg, s, n, Idle);
      case Advance(v) =>
        if call.NoEffect? { ModeKeepsBudget(cfg, s, n, Idle); } else { ClaimedKeepsBudget(cfg, s, n, v); }
      case Launch(v) =>
        if call.NoEffect? {
          ModeKeepsBudget(cfg, s, n, Idle);
        } else if call.Answered? && Wins(s.Row(), Claim(v)) {
          LaunchedKeepsBudget(cfg, s, n, mode.fire, v);
        } else {
          ClaimedKeepsBudget(cfg, s, n, v);
        }
      case Replay(_) =>
        var todo := Fires(cfg.sched, mode.fire, mode.now, MAX_CATCHUP_INSTANTS);
        if todo == [] {
          SpawnReplayKeepsBudget(cfg, s, n, mode.fire, s.replayed, Fallback(s.nextId));
        } else {
          ModeKeepsBudget(cfg, s, n, Replaying(mode.now, todo, None));
        }
    }
  }

  lemma StartKeepsBudget(cfg: Config, s: State, id: nat)
    requires BudgetInv(cfg, s) && Enabled(cfg, s, Start(id))
    ensures BudgetInv(cfg, Started(cfg, s, id))
  {
    var s' := Started(cfg, s, id);
    var n := s.flight[id].node;
    forall stage: Stage { CountPut(s.flight, id, s'.flight[id], MaxAttempts(cfg), stage); }
    PotentialSet(s.nodes, n, s'.nodes[n], Budget(MaxAttempts(cfg)));
  }

  lemma RetryKeepsBudget(cfg: Config, s: State, id: nat, retryAt: Time)
    requires BudgetInv(cfg, s) && id in s.flight && s.flight[id].phase.Running?
    requires s.flight[id].phase.attempt < MaxAttempts(cfg)
    ensures BudgetInv(cfg, SetPhase(s, id, Retrying(s.flight[id].phase.attempt, retryAt)).(requested := s.requested + 1))
  {
    var e := s.flight[id].(phase := Retrying(s.flight[id].phase.attempt, retryAt));
    forall stage: Stage { CountPut(s.flight, id, e, MaxAttempts(cfg), stage); }
  }

  lemma EndKeepsBudget(cfg: Config, s: State, id: nat, outcome: Outcome)
    requires BudgetInv(cfg, s) && id in s.flight && s.flight[id].phase.Running? && s.flight[id].node < |s.nodes|
    ensures var n := s.flight[id].node;
            BudgetInv(cfg, SetPhase(SetNode(s, n, s.nodes[n].(counter := 0)), id,
                                    Recording(s.flight[id].phase.attempt, outcome)).(ended := s.ended + 1))
  {
    var n, b := s.flight[id].node, Budget(MaxAttempts(cfg));
    var e := s.flight[id].(phase := Recording(s.flight[id].phase.attempt, outcome));
    forall stage: Stage { CountPut(s.flight, id, e, MaxAttempts(cfg), stage); }
    PotentialSet(s.nodes, n, s.nodes[n].(counter := 0), b);
    OneMore(b - 1, s.ended + s.crashes);
    assert s.ended + 1 + s.crashes == s.ended + s.crashes + 1;
  }

  lemma OneMore(a: int, x: int)
    ensures a * (x + 1) == a * x + a
  {
  }

  lemma FinishKeepsBudget(cfg: Config, s: State, id: nat, failed: bool, retryAt: Time)
    requires BudgetInv(cfg, s) && Enabled(cfg, s, Finish(id, failed, retryAt))
    ensures BudgetInv(cfg, Finished(cfg, s, id, failed, retryAt))
  {
    var attempt := s.flight[id].phase.attempt;
    if AsksRetry(failed, attempt, MaxAttempts(cfg)) {
      RetryKeepsBudget(cfg, s, id, retryAt);
    } else {
      EndKeepsBudget(cfg, s, id, OutcomeOf(failed, attempt, MaxAttempts(cfg)));
    }
  }

  lemma WriteKeepsBudget(cfg: Config, s: State, id: nat, ok: bool)
    requires BudgetInv(cfg, s) && Enabled(cfg, s, WriteRetry(id, ok))
    ensures BudgetInv(cfg, WroteRetry(s, id, ok))
  {
    var s' := WroteRetry(s, id, ok);
    forall stage: Stage { CountPut(s.flight, id, s'.flight[id], MaxAttempts(cfg), stage); }
    WinsSnoc(s.origin, s.ops, Retry(s.flight[id].phase.at));
  }

  lemma RecordKeepsBudget(cfg: Config, s: State, id: nat, ok: bool)
    requires BudgetInv(cfg, s) && Enabled(cfg, s, Record(id, ok))
    ensures BudgetInv(cfg, Recorded(s, id, ok))
  {
    forall stage: Stage { CountRemove(s.flight, id, MaxAttempts(cfg), stage); }
  }

  lemma CrashKeepsBudget(cfg: Config, s: State, n: nat)
    requires BudgetInv(cfg, s) && n < |s.nodes|
    ensures BudgetInv(cfg, Crashed(s, n))
  {
    var b := Budget(MaxAttempts(cfg));
    forall stage: Stage { CountElsewhere(s.flight, n, MaxAttempts(cfg), stage); }
    PotentialSet(s.nodes, n, Crashed(s, n).nodes[n], b);
    OneMore(b - 1, s.ended + s.crashes);
    assert s.ended + (s.crashes + 1) == s.ended + s.crashes + 1;
  }

  lemma ReplayNextKeepsBudget(cfg: Config, s: State, n: nat)
    requires BudgetInv(cfg, s) && FreshIds(s) && Enabled(cfg, s, ReplayNext(n))
    ensures BudgetInv(cfg, NextReplayed(s, n))
  {
    var s', fire := NextReplayed(s, n), s.nodes[n].mode.todo[0];
    SpawnReplayKeepsBudget(cfg, s, n, fire, s'.replayed, s'.nodes[n].mode);
  }

  lemma ReplayDoneKeepsBudget(cfg: Config, s: State, n: nat, ok: bool)
    requires BudgetInv(cfg, s) && Enabled(cfg, s, ReplayDone(n, ok))
    ensures BudgetInv(cfg, ReplayEnded(cfg, s, n, ok))
  {
    var now := s.nodes[n].mode.now;
    ModeKeepsBudget(cfg, s, n, Idle);
    var idle := SetMode(s, n, Idle).(swept := s.swept + [now]);
    SweptKeepsBudget(cfg, SetMode(s, n, Idle), idle.swept);
    if cfg.sched.Next(now).Some? { CallKeepsBudget(cfg, idle, Claim(cfg.sched.Next(now).value)); }
  }

  lemma SweptKeepsBudget(cfg: Config, s: State, swept: seq<Time>)
    requires BudgetInv(cfg, s)
    ensures BudgetInv(cfg, s.(swept := swept))
  {
  }

  lemma ExecutionStepKeepsBudget(cfg: Config, s: State, step: Step)
    requires BudgetInv(cfg, s) && Enabled(cfg, s, step)
    requires step.Start? || step.Finish? || step.WriteRetry? || step.Record? || step.Crash?
    ensures BudgetInv(cfg, Apply(cfg, s, step))
  {
    match step {
      case Start(id) => StartKeepsBudget(cfg, s, id);
      case Finish(id, failed, retryAt) => FinishKeepsBudget(cfg, s, id, failed, retryAt);
      case WriteRetry(id, ok) => WriteKeepsBudget(cfg, s, id, ok);
      case Record(id, ok) => RecordKeepsBudget(cfg, s, id, ok);
      case Crash(n) => CrashKeepsBudget(cfg, s, n);
    }
  }

  lemma StepKeepsBudget(cfg: Config, s: State, step: Step)
    requires BudgetInv(cfg, s) && FreshIds(s) && Enabled(cfg, s, step)
    ensures BudgetInv(cfg, Apply(cfg, s, step))
  {
    match step {
      case Dispatch(n, call) => DispatchKeepsBudget(cfg, s, n, call);
      case ReplayNext(n) => ReplayNextKeepsBudget(cfg, s, n);
      case ReplayDone(n, ok) => ReplayDoneKeepsBudget(cfg, s, n, ok);
      case Elapse(_) => QuietKeepsBudget(cfg, s, Apply(cfg, s, step));
      case SessionEnds(_) => QuietKeepsBudget(cfg, s, Apply(cfg, s, step));
      case GrantLost(_) => QuietKeepsBudget(cfg, s, Apply(cfg, s, step));
      case Start(_) => ExecutionStepKeepsBudget(cfg, s, step);
      case Finish(_, _, _) => ExecutionStepKeepsBudget(cfg, s, step);
      case WriteRetry(_, _) => ExecutionStepKeepsBudget(cfg, s, step);
      case Record(_, _) => ExecutionStepKeepsBudget(cfg, s, step);
      case Crash(_) => ExecutionStepKeepsBudget(cfg, s, step);
      case _ => QuietStepKeepsBudget(cfg, s, step);
    }
  }

  lemma {:induction false} RunKeepsBudget(cfg: Config, s: State, steps: seq<Step>, rule: Rule)
    requires Initial(s) && Legal(cfg, s, steps, rule)
    ensures BudgetInv(cfg, Reach(cfg, s, steps)) && FreshIds(Reach(cfg, s, steps))
  {
    if steps == [] {
      InitialBudget(cfg, s);
    } else {
      var before, last := steps[..|steps| - 1], steps[|steps| - 1];
      RunKeepsBudget(cfg, s, before, rule);
      StepKeepsBudget(cfg, Reach(cfg, s, before), last);
      StepFresh(cfg, Reach(cfg, s, before), last);
    }
  }
}
