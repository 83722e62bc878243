/** How many executions a cluster can start: the attempt budget against the claim ledger. */
module ExecutionBound {
  import opened Basics
  import opened Schedules
  import opened Jobs
  import opened RowLedger
  import opened Cluster
  import opened AttemptBudget
  import opened RestingNode

  // ----- Main results --------------------------------------------------------------------------

  /** However executions overlap, crash or are killed, the retries requested number at most budget - 1
      for each node, each ended streak and each crash. */
  lemma RetryBudget(cfg: Config, s: State, steps: seq<Step>, rule: Rule)
    requires Initial(s) && Legal(cfg, s, steps, rule)
    ensures var e, b := Reach(cfg, s, steps), Budget(MaxAttempts(cfg));
            e.requested <= (b - 1) * (|e.nodes| + e.ended + e.crashes)
  {
    RunKeepsBudget(cfg, s, steps, rule);
    RequestsBounded(cfg, Reach(cfg, s, steps));
  }

  lemma RequestsBounded(cfg: Config, s: State)
    requires BudgetInv(cfg, s)
    ensures var b := Budget(MaxAttempts(cfg)); s.requested <= (b - 1) * (|s.nodes| + s.ended + s.crashes)
  {
    var b := Budget(MaxAttempts(cfg));
    PotentialBounded(s.nodes, b);
    Distribute(b - 1, |s.nodes|, s.ended + s.crashes);
    assert |s.nodes| + (s.ended + s.crashes) == |s.nodes| + s.ended + s.crashes;
    assert s.requested <= s.low;
  }

  lemma Distribute(a: int, x: int, y: int)
    ensures a * (x + y) == a * x + a * y
  {
  }

  /** b * g + (b - 1) * (N - 1 + C) for the attempt budget b, g > 0 levels, N nodes and C crashes; nothing
      starts without a level. */
  function StartLimit(cfg: Config, s: State, g: int): int {
    var b := Budget(MaxAttempts(cfg));
    if g <= 0 then 0 else b * g + (b - 1) * (|s.nodes| - 1 + s.crashes)
  }

  lemma StartLimitMonotone(cfg: Config, s: State, g: int, h: int)
    requires g <= h
    ensures StartLimit(cfg, s, g) <= StartLimit(cfg, s, h)
  {
    var b := Budget(MaxAttempts(cfg));
    if 0 < g {
      MulMonotone(b, g, h);
    } else if 0 < h {
      MulMonotone(b, 1, h);
      MulMonotone(b - 1, -1, |s.nodes| - 1 + s.crashes);
    }
  }

  /** Executions started, against the distinct targets claimed, the excess levels and the replays. */
  ghost predicate WithinTargetsAndReplays(cfg: Config, s: State) {
    s.started <= StartLimit(cfg, s, Levels(s))
  }

  /** The executions a state has started, bounded by the levels claimed, the nodes and the crashes. */
  lemma StartsBounded(cfg: Config, s: State)
    requires BudgetInv(cfg, s) && RestInv(s)
    ensures WithinTargetsAndReplays(cfg, s)
  {
    if Levels(s) == 0 {
      NoTargetsNoWins(s.origin, s.ops);
    } else if s.ended < Levels(s) {
      UnpaidStarts(cfg, s);
    } else {
      PaidStarts(cfg, s);
    }
  }

  /** Some level has not ended a streak yet. */
  lemma UnpaidStarts(cfg: Config, s: State)
    requires BudgetInv(cfg, s) && s.ended < Levels(s)
    ensures WithinTargetsAndReplays(cfg, s)
  {
    EndedBounded(cfg, s);
    RequestsBounded(cfg, s);
    Trade(Budget(MaxAttempts(cfg)), Levels(s), s.started, s.requested, |s.nodes| + s.ended + s.crashes, |s.nodes|, s.crashes);
  }

  /** All levels have ended their streaks; then some node rests. */
  lemma PaidStarts(cfg: Config, s: State)
    requires BudgetInv(cfg, s) && Rested(s) && Levels(s) > 0
    ensures WithinTargetsAndReplays(cfg, s)
  {
    var b := Budget(MaxAttempts(cfg));
    var n :| 0 <= n < |s.nodes| && s.nodes[n].counter == 0;
    EndedBounded(cfg, s);
    RestedPotential(s.nodes, n, b);
    Distribute(b - 1, s.ended + s.crashes, |s.nodes| - 1);
    Trade(b, Levels(s), s.started, s.requested, s.ended + s.crashes + (|s.nodes| - 1), |s.nodes|, s.crashes);
  }

  /** If starts are at most g plus the retries, and retries cost budget - 1 for each of at most g + n - 1 + c
      causes, then the starts are at most b * g + (b - 1) * (n - 1 + c). */
  lemma Trade(b: int, g: int, started: int, requested: int, causes: int, n: int, c: int)
    requires b >= 1 && started <= g + requested
    requires requested <= (b - 1) * causes && causes <= g + n - 1 + c
    ensures started <= b * g + (b - 1) * (n - 1 + c)
  {
    MulMonotone(b - 1, causes, g + n - 1 + c);
    Distribute(b - 1, g, n - 1 + c);
    assert g + n - 1 + c == g + (n - 1 + c);
    assert b * g == (b - 1) * g + g;
  }

  lemma MulMonotone(a: int, x: int, y: int)
    requires a >= 0 && x <= y
    ensures a * x <= a * y
  {
    MulSub(y, x, a);
    if x < y && a > 0 { MulAtLeast(y - x, a); }
  }

  /** Only the RunAll policy replays. */
  predicate NoReplay(s: State) {
    && s.replays == 0
    && forall n :: 0 <= n < |s.nodes| ==> !s.nodes[n].mode.Replaying? && !s.nodes[n].mode.Fallback?
  }

  lemma NoReplayKept(s: State, s': State, n: nat)
    requires NoReplay(s) && n < |s.nodes| && s'.replays == s.replays
    requires |s'.nodes| == |s.nodes| && s'.nodes == s.nodes[n := s'.nodes[n]]
    requires !s'.nodes[n].mode.Replaying? && !s'.nodes[n].mode.Fallback?
    ensures NoReplay(s')
  {
  }

  lemma StepKeepsNoReplay(cfg: Config, s: State, step: Step)
    requires NoReplay(s) && Enabled(cfg, s, step) && cfg.opts.missedFire != RunAll
    ensures NoReplay(Apply(cfg, s, step))
  {
    match step {
      case Dispatch(n, call) => DispatchKeepsNoReplay(cfg, s, n, call);
      case Fetch(n, now) => NoReplayKept(s, Apply(cfg, s, step), n);
      case Renew(n) => NoReplayKept(s, Renewed(s, n), n);
      case Release(n, ok) => NoReplayKept(s, Released(s, n, ok), n);
      case Crash(n) => NoReplayKept(s, Crashed(s, n), n);
      case ConnectionLost(n) => NoReplayKept(s, Apply(cfg, s, step), n);
      case Start(id) => NoReplayKept(s, Started(cfg, s, id), s.flight[id].node);
      case Finish(id, failed, retryAt) => NoReplayKept(s, Finished(cfg, s, id, failed, retryAt), s.flight[id].node);
      case ReplayNext(_) =>
      case ReplayDone(_, _) =>
      case FallbackDone(_) =>
      case _ => assert Apply(cfg, s, step).nodes == s.nodes;
    }
  }

  lemma DispatchKeepsNoReplay(cfg: Config, s: State, n: nat, call: CallResult)
    requires NoReplay(s) && Enabled(cfg, s, Dispatch(n, call)) && cfg.opts.missedFire != RunAll
    ensures NoReplay(Dispatched(cfg, s, n, call))
  {
    assert !Decide(cfg, s.nodes[n]).Replay?;
    NoReplayKept(s, Dispatched(cfg, s, n, call), n);
  }

  lemma {:induction false} RunKeepsNoReplay(cfg: Config, s: State, steps: seq<Step>, rule: Rule)
    requires Initial(s) && Legal(cfg, s, steps, rule) && cfg.opts.missedFire != RunAll
    ensures NoReplay(Reach(cfg, s, steps))
  {
    if steps != [] {
      var before, last := steps[..|steps| - 1], steps[|steps| - 1];
      RunKeepsNoReplay(cfg, s, before, rule);
      StepKeepsNoReplay(cfg, Reach(cfg, s, before), last);
    }
  }

  // ----- A shared clock and a grid -------------------------------------------------------------

  /** A clock reading since the start. */
  predicate Reading(s: State, now: Time) { s.start <= now <= s.clock }

  ghost predicate Readings(s: State) {
    && s.start <= s.clock
    && (forall n :: 0 <= n < |s.nodes| && s.nodes[n].mode.Fetched? ==> Reading(s, s.nodes[n].mode.now))
    && (forall n :: 0 <= n < |s.nodes| && s.nodes[n].mode.Replaying? ==> Reading(s, s.nodes[n].mode.now))
  }

  /** The targets claimed are upcoming fires of the time since the start, and no retry has crossed more
      than one of them. */
  ghost predicate OnTime(cfg: Config, s: State) {
    && Targets(s.origin, s.ops) <= GapEnds(cfg.sched, s.start, s.clock)
    && Excess(s.origin, s.ops) == 0
  }

  ghost predicate ClockInv(cfg: Config, s: State) { Readings(s) && OnTime(cfg, s) }

  /** A retry that lands on time crosses at most the one target that is upcoming. */
  lemma OnTimeRetryCrossesOne(cfg: Config, s: State, at: Time)
    requires Grid(cfg.sched) && OnTime(cfg, s) && s.clock <= at
    ensures |Within(Targets(s.origin, s.ops), at, s.Row())| <= 1
  {
    var crossed := Within(Targets(s.origin, s.ops), at, s.Row());
    forall v | v in crossed ensures cfg.sched.Next(s.clock) == Some(v) {
      var now :| s.start <= now <= s.clock && cfg.sched.Next(now) == Some(v);
    }
    if v :| v in crossed { SubsetCard(crossed, {v}); }
  }

  lemma GapEndsGrow(sched: Schedule, lo: Time, hi: Time, more: Time)
    requires hi <= more
    ensures GapEnds(sched, lo, hi) <= GapEnds(sched, lo, more)
  {
  }

  /** A claim whose target is the next fire after an instant since the start. */
  lemma ClaimKeepsOnTime(cfg: Config, s: State, s': State, now: Time)
    requires OnTime(cfg, s) && Reading(s, now) && cfg.sched.Next(now).Some?
    requires s'.ops == s.ops + [Claim(cfg.sched.Next(now).value)]
    requires s'.start == s.start && s'.clock == s.clock && s'.origin == s.origin
    ensures OnTime(cfg, s')
  {
    LedgerSnoc(s.origin, s.ops, Claim(cfg.sched.Next(now).value));
  }

  lemma DispatchKeepsOnTime(cfg: Config, s: State, s': State, n: nat)
    requires Readings(s) && OnTime(cfg, s) && n < |s.nodes| && s.nodes[n].mode.Fetched? && n < |s'.nodes|
    requires DispatchEffect(cfg, s, s', n) && s'.start == s.start && s'.origin == s.origin
    ensures OnTime(cfg, s')
  {
    if s'.ops != s.ops { ClaimKeepsOnTime(cfg, s, s', s.nodes[n].mode.now); }
  }

  lemma ReplayDoneKeepsOnTime(cfg: Config, s: State, n: nat, ok: bool)
    requires Readings(s) && OnTime(cfg, s) && Enabled(cfg, s, ReplayDone(n, ok))
    ensures OnTime(cfg, ReplayEnded(cfg, s, n, ok))
  {
    var s' := ReplayEnded(cfg, s, n, ok);
    if s'.ops != s.ops { ClaimKeepsOnTime(cfg, s, s', s.nodes[n].mode.now); }
  }

  lemma WriteKeepsOnTime(cfg: Config, s: State, id: nat, ok: bool)
    requires Grid(cfg.sched) && OnTime(cfg, s) && Enabled(cfg, s, WriteRetry(id, ok))
    requires SharedClock(cfg, s, WriteRetry(id, ok))
    ensures OnTime(cfg, WroteRetry(s, id, ok))
  {
    var at := s.flight[id].phase.at;
    OnTimeRetryCrossesOne(cfg, s, at);
    LedgerSnoc(s.origin, s.ops, Retry(at));
  }

  lemma StepKeepsOnTime(cfg: Config, s: State, step: Step)
    requires Grid(cfg.sched) && Readings(s) && OnTime(cfg, s) && Enabled(cfg, s, step) && SharedClock(cfg, s, step)
    ensures OnTime(cfg, Apply(cfg, s, step))
  {
    match step {
      case Dispatch(n, call) =>
        DispatchHasEffect(cfg, s, n, call);
        DispatchKeepsOnTime(cfg, s, Apply(cfg, s, step), n);
      case ReplayDone(n, ok) => ReplayDoneKeepsOnTime(cfg, s, n, ok);
      case WriteRetry(id, ok) => WriteKeepsOnTime(cfg, s, id, ok);
      case Elapse(to) => GapEndsGrow(cfg.sched, s.start, s.clock, to);
      case _ =>
    }
  }

  lemma StepKeepsReadings(cfg: Config, s: State, step: Step)
    requires Readings(s) && Enabled(cfg, s, step) && SharedClock(cfg, s, step)
    ensures Readings(Apply(cfg, s, step))
  {
    if Background(step) {
      BackgroundKeepsNodes(cfg, s, step);
      SameModesKeepReadings(s, Apply(cfg, s, step));
    } else if step.Dispatch? {
      DispatchHasEffect(cfg, s, step.node, step.call);
      DispatchKeepsReadings(cfg, s, Apply(cfg, s, step), step.node);
    } else {
      NodeStepKeepsReadings(cfg, s, step);
    }
  }

  lemma SameModesKeepReadings(s: State, s': State)
    requires Readings(s) && |s'.nodes| == |s.nodes| && s'.start == s.start && s'.clock >= s.clock
    requires forall n :: 0 <= n < |s.nodes| ==> s'.nodes[n].mode == s.nodes[n].mode
    ensures Readings(s')
  {
  }

  lemma DispatchKeepsReadings(cfg: Config, s: State, s': State, n: nat)
    requires Readings(s) && n < |s.nodes| && s.nodes[n].mode.Fetched? && n < |s'.nodes|
    requires DispatchEffect(cfg, s, s', n) && s'.start == s.start
    ensures Readings(s')
  {
  }

  lemma ReadingsKept(s: State, s': State, n: nat)
    requires Readings(s) && n < |s.nodes| && s'.start == s.start && s'.clock == s.clock
    requires |s'.nodes| == |s.nodes| && s'.nodes == s.nodes[n := s'.nodes[n]]
    requires s'.nodes[n].mode.Fetched? ==> Reading(s, s'.nodes[n].mode.now)
    requires s'.nodes[n].mode.Replaying? ==> Reading(s, s'.nodes[n].mode.now)
    ensures Readings(s')
  {
  }

  lemma NodeStepKeepsReadings(cfg: Config, s: State, step: Step)
    requires Readings(s) && Enabled(cfg, s, step) && SharedClock(cfg, s, step)
    requires !Background(step) && !step.Dispatch?
    ensures Readings(Apply(cfg, s, step))
  {
    match step {
      case Renew(n) => ReadingsKept(s, Renewed(s, n), n);
      case Release(n, ok) => ReadingsKept(s, Released(s, n, ok), n);
      case Crash(n) => ReadingsKept(s, Crashed(s, n), n);
      case ReplayNext(n) => ReadingsKept(s, NextReplayed(s, n), n);
      case ReplayDone(n, ok) => ReadingsKept(s, ReplayEnded(cfg, s, n, ok), n);
      case Fetch(n, _) => ReadingsKept(s, Apply(cfg, s, step), n);
      case FallbackDone(n) => ReadingsKept(s, Apply(cfg, s, step), n);
      case ConnectionLost(n) => ReadingsKept(s, Apply(cfg, s, step), n);
      case _ =>
    }
  }

  lemma {:induction false} RunKeepsClock(cfg: Config, s: State, steps: seq<Step>)
    requires Grid(cfg.sched) && Initial(s) && Legal(cfg, s, steps, SharedClock)
    ensures ClockInv(cfg, Reach(cfg, s, steps))
  {
    if steps != [] {
      var before, last := steps[..|steps| - 1], steps[|steps| - 1];
      RunKeepsClock(cfg, s, before);
      StepKeepsReadings(cfg, Reach(cfg, s, before), last);
      StepKeepsOnTime(cfg, Reach(cfg, s, before), last);
    }
  }

  /** The cluster-wide bound for any schedule and any clocks: with budget b, T distinct targets claimed,
      X excess levels crossed by late retries, N nodes and C crashes, at most
      b * (T + X) + (b - 1) * (N - 1 + C) executions start under the RunOnce and Skip policies. */
  lemma ExecutionBoundAnyClock(cfg: Config, s: State, steps: seq<Step>, rule: Rule)
    requires Initial(s) && Legal(cfg, s, steps, rule) && cfg.opts.missedFire != RunAll
    ensures WithinTargets(cfg, Reach(cfg, s, steps))
  {
    RunKeepsLaunches(cfg, s, steps, rule);
    LaunchesBounded(cfg, Reach(cfg, s, steps));
  }

  /** The bound for every policy: replayed executions pay for themselves like claims. */
  lemma ExecutionBoundAnyPolicy(cfg: Config, s: State, steps: seq<Step>, rule: Rule)
    requires Initial(s) && Legal(cfg, s, steps, rule)
    ensures WithinTargetsAndReplays(cfg, Reach(cfg, s, steps))
  {
    RunKeepsBudget(cfg, s, steps, rule);
    RunKeepsRest(cfg, s, steps, rule);
    StartsBounded(cfg, Reach(cfg, s, steps));
  }

  ghost predicate LaunchInv(cfg: Config, s: State) { BudgetInv(cfg, s) && RestInv(s) && NoReplay(s) }

  lemma RunKeepsLaunches(cfg: Config, s: State, steps: seq<Step>, rule: Rule)
    requires Initial(s) && Legal(cfg, s, steps, rule) && cfg.opts.missedFire != RunAll
    ensures LaunchInv(cfg, Reach(cfg, s, steps))
  {
    RunKeepsBudget(cfg, s, steps, rule);
    RunKeepsRest(cfg, s, steps, rule);
    RunKeepsNoReplay(cfg, s, steps, rule);
  }

  /** Executions started, against the distinct targets claimed and the excess levels. */
  ghost predicate WithinTargets(cfg: Config, s: State) {
    s.started <= StartLimit(cfg, s, |Targets(s.origin, s.ops)| + Excess(s.origin, s.ops))
  }

  lemma LaunchesBounded(cfg: Config, s: State)
    requires LaunchInv(cfg, s)
    ensures WithinTargets(cfg, s)
  {
    StartsBounded(cfg, s);
  }

  lemma LaunchesBoundedByGaps(cfg: Config, s: State)
    requires LaunchInv(cfg, s) && ClockInv(cfg, s)
    ensures s.started <= StartLimit(cfg, s, |GapEnds(cfg.sched, s.start, s.clock)|)
  {
    var ts, gaps := Targets(s.origin, s.ops), GapEnds(cfg.sched, s.start, s.clock);
    LaunchesBounded(cfg, s);
    SubsetCard(ts, gaps);
    StartLimitMonotone(cfg, s, |ts| + Excess(s.origin, s.ops), |gaps|);
  }

  /** For a grid schedule and a shared clock, over G inter-fire gaps: at most b * G + (b - 1) * (N - 1 + C). */
  lemma ExecutionBound(cfg: Config, s: State, steps: seq<Step>)
    requires Grid(cfg.sched) && cfg.opts.missedFire != RunAll
    requires Initial(s) && Legal(cfg, s, steps, SharedClock)
    ensures var e := Reach(cfg, s, steps);
            e.started <= StartLimit(cfg, e, |GapEnds(cfg.sched, e.start, e.clock)|)
  {
    RunKeepsLaunches(cfg, s, steps, SharedClock);
    RunKeepsClock(cfg, s, steps);
    LaunchesBoundedByGaps(cfg, Reach(cfg, s, steps));
  }

  lemma {:induction false} NoPullsNoExcess(row: Time, ops: seq<RowOp>)
    requires PullCount(row, ops) == 0
    ensures Excess(row, ops) == 0 && RetryFree(row, ops)
  {
    if ops != [] {
      var before := ops[..|ops| - 1];
      NoPullsNoExcess(row, before);
      forall k | 0 <= k < |ops| ensures !Pulls(FoundBy(row, ops, k), ops[k]) {
        if k < |before| {
          assert ops[..k] == before[..k] && ops[k] == before[k];
          assert !Pulls(FoundBy(row, before, k), before[k]);
        }
      }
    }
  }

  /** A job without retries is executed at most once for each distinct target, under any clocks, stale
      snapshots and crashes; and claims that won have distinct targets. */
  lemma OncePerTargetWithoutRetries(cfg: Config, s: State, steps: seq<Step>, rule: Rule)
    requires Initial(s) && Legal(cfg, s, steps, rule) && cfg.opts.missedFire != RunAll
    requires MaxAttempts(cfg) <= 1
    ensures var e := Reach(cfg, s, steps);
            e.started <= |Targets(e.origin, e.ops)| && RetryFree(e.origin, e.ops)
  {
    RunKeepsLaunches(cfg, s, steps, rule);
    OncePerTarget(cfg, Reach(cfg, s, steps));
  }

  lemma OncePerTarget(cfg: Config, s: State)
    requires LaunchInv(cfg, s) && MaxAttempts(cfg) <= 1
    ensures s.started <= |Targets(s.origin, s.ops)| && RetryFree(s.origin, s.ops)
  {
    RetriesNeedBudget(cfg, s);
    NoPullsNoExcess(s.origin, s.ops);
    LaunchesBounded(cfg, s);
    UnitLimit(cfg, s, |Targets(s.origin, s.ops)|);
  }

  lemma UnitLimit(cfg: Config, s: State, g: nat)
    requires MaxAttempts(cfg) <= 1
    ensures StartLimit(cfg, s, g) == g
  {
  }

  lemma RetriesNeedBudget(cfg: Config, s: State)
    requires BudgetInv(cfg, s) && MaxAttempts(cfg) <= 1
    ensures PullCount(s.origin, s.ops) == 0
  {
    RequestsBounded(cfg, s);
  }

  /** The bound in numbers for a job that fires at the multiples of a period (shifted by an offset). */
  lemma PeriodicExecutionBound(cfg: Config, s: State, steps: seq<Step>, period: int, offset: int)
    requires period > 0 && cfg.sched == Periodic(period, offset) && cfg.opts.missedFire != RunAll
    requires Initial(s) && Legal(cfg, s, steps, SharedClock)
    ensures var e := Reach(cfg, s, steps);
            e.started <= StartLimit(cfg, e, Block(e.clock, period, offset) - Block(e.start, period, offset) + 1)
  {
    PeriodicIsGrid(period, offset);
    ExecutionBound(cfg, s, steps);
    RunKeepsClock(cfg, s, steps);
    var e := Reach(cfg, s, steps);
    PeriodicGaps(period, offset, e.start, e.clock);
  }
}
