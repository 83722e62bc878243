/** The execution bound for RunAll jobs in numbers: the replayed instants are distinct fires of the time covered. */
module ReplayBound {
  import opened Basics
  import opened Schedules
  import opened Jobs
  import opened RowLedger
  import opened Cluster
  import opened Scripts
  import opened AttemptBudget
  import opened RestingNode
  import opened ExecutionBound
  import opened Conservation
  import opened Replays
  import opened Coverage

  // ----- Replay executions are instants or fallbacks -------------------------------------------

  /** The execution of a missed window without an instant. */
  function Fallbacks(cfg: Config, s: State, step: Step): nat {
    Ind(Decides(s, step) && Decide(cfg, s.nodes[step.node]).Replay?
        && var mode := s.nodes[step.node].mode; Fires(cfg.sched, mode.fire, mode.now, MAX_CATCHUP_INSTANTS) == [])
  }

  lemma {:induction false} TotalsAdd(cfg: Config, s: State, steps: seq<Step>)
    ensures Total(cfg, s, steps, Replayed) == Total(cfg, s, steps, ReplaysInstant) + Total(cfg, s, steps, Fallbacks)
  {
    if steps != [] {
      var before, last := steps[..|steps| - 1], steps[|steps| - 1];
      TotalsAdd(cfg, s, before);
      var m := Reach(cfg, s, before);
      assert Replayed(cfg, m, last) == ReplaysInstant(cfg, m, last) + Fallbacks(cfg, m, last);
    }
  }

  /** In every run: replay executions == replayed instants + empty windows. */
  lemma ReplaysSplit(cfg: Config, s: State, steps: seq<Step>, rule: Rule)
    requires Initial(s) && Legal(cfg, s, steps, rule)
    ensures var e := Reach(cfg, s, steps); e.replays == |e.replayed| + Total(cfg, s, steps, Fallbacks)
  {
    LedgerCountsSteps(cfg, s, steps, rule);
    TotalsAdd(cfg, s, steps);
  }

  // ----- Replayed instants are fires of the time covered ---------------------------------------

  /** Before this instant nothing is due. */
  function Floor(s: State): Time { Min(s.origin, s.start) }

  /** A fire of the time between the floor and `hi`. */
  ghost predicate FireUpTo(cfg: Config, s: State, t: Time, hi: Time) { IsFire(cfg.sched, t) && Floor(s) < t < hi }

  ghost predicate ModeOk(cfg: Config, s: State, n: nat)
    requires n < |s.nodes|
  {
    match s.nodes[n].mode
    case Fetched(now, fire) => s.start <= now <= s.clock && Floor(s) <= fire
    case Replaying(now, todo, _) =>
      s.start <= now <= s.clock && forall i :: 0 <= i < |todo| ==> FireUpTo(cfg, s, todo[i], now)
    case _ => true
  }

  ghost predicate RowOk(s: State) { s.start <= s.clock && Floor(s) <= s.Row() }

  ghost predicate DoneOk(cfg: Config, s: State) {
    forall i :: 0 <= i < |s.replayed| ==> FireUpTo(cfg, s, s.replayed[i], s.clock)
  }

  ghost predicate FiresInv(cfg: Config, s: State) {
    RowOk(s) && DoneOk(cfg, s) && forall n :: 0 <= n < |s.nodes| ==> ModeOk(cfg, s, n)
  }

  /** One node changes its mode; the clock and what was replayed stay. */
  lemma ModeKept(cfg: Config, s: State, s': State, n: nat)
    requires FiresInv(cfg, s) && n < |s.nodes| && |s'.nodes| == |s.nodes|
    requires forall m :: 0 <= m < |s.nodes| && m != n ==> s'.nodes[m].mode == s.nodes[m].mode
    requires ModeOk(cfg, s', n) && RowOk(s') && s'.replayed == s.replayed
    requires s'.clock == s.clock && s'.start == s.start && s'.origin == s.origin
    ensures FiresInv(cfg, s')
  {
    forall m | 0 <= m < |s'.nodes| ensures ModeOk(cfg, s', m) {
      if m != n { assert ModeOk(cfg, s, m); }
    }
    forall i | 0 <= i < |s'.replayed| ensures FireUpTo(cfg, s', s'.replayed[i], s'.clock) {
      assert FireUpTo(cfg, s, s.replayed[i], s.clock);
    }
  }

  /** All modes stay, and the clock may move on. */
  lemma BackgroundKeepsFires(cfg: Config, s: State, step: Step)
    requires FiresInv(cfg, s) && Enabled(cfg, s, step) && Background(step) && SharedClock(cfg, s, step)
    ensures FiresInv(cfg, Apply(cfg, s, step))
  {
    var s' := Apply(cfg, s, step);
    BackgroundKeepsNodes(cfg, s, step);
    BackgroundKeepsRow(cfg, s, step);
    forall m | 0 <= m < |s'.nodes| ensures ModeOk(cfg, s', m) {
      assert ModeOk(cfg, s, m) && s'.nodes[m].mode == s.nodes[m].mode;
      if s.nodes[m].mode.Replaying? {
        var todo, now := s.nodes[m].mode.todo, s.nodes[m].mode.now;
        forall i | 0 <= i < |todo| ensures FireUpTo(cfg, s', todo[i], now) {
          assert FireUpTo(cfg, s, todo[i], now);
        }
      }
    }
    forall i | 0 <= i < |s'.replayed| ensures FireUpTo(cfg, s', s'.replayed[i], s'.clock) {
      assert FireUpTo(cfg, s, s.replayed[i], s.clock);
    }
  }

  lemma BackgroundKeepsRow(cfg: Config, s: State, step: Step)
    requires RowOk(s) && Enabled(cfg, s, step) && Background(step) && SharedClock(cfg, s, step)
    ensures var s' := Apply(cfg, s, step); RowOk(s') && s'.replayed == s.replayed && s'.clock >= s.clock
  {
    if step.WriteRetry? {
      WriteKeepsRow(s, step.id, step.ok);
    } else {
      BackgroundKeepsOps(cfg, s, step);
    }
  }

  lemma WriteKeepsRow(s: State, id: nat, ok: bool)
    requires RowOk(s) && id in s.flight && s.flight[id].phase.Retrying? && s.clock <= s.flight[id].phase.at
    ensures var s' := WroteRetry(s, id, ok); RowOk(s') && s'.replayed == s.replayed && s'.clock == s.clock
  {
    AfterSnoc(s.origin, s.ops, Retry(s.flight[id].phase.at));
  }

  lemma BackgroundKeepsOps(cfg: Config, s: State, step: Step)
    requires Enabled(cfg, s, step) && Background(step) && !step.WriteRetry?
    ensures var s' := Apply(cfg, s, step); s'.ops == s.ops && s'.replayed == s.replayed && s'.clock >= s.clock
  {
  }

  /** A replay begins with fires of its window. */
  lemma TodoOk(cfg: Config, s: State, n: nat) returns (todo: seq<Time>)
    requires Grid(cfg.sched) && Exhaustive(cfg.sched) && FiresInv(cfg, s) && n < |s.nodes| && s.nodes[n].mode.Fetched?
    ensures todo == Fires(cfg.sched, s.nodes[n].mode.fire, s.nodes[n].mode.now, MAX_CATCHUP_INSTANTS)
    ensures forall i :: 0 <= i < |todo| ==> FireUpTo(cfg, s, todo[i], s.nodes[n].mode.now)
  {
    var mode := s.nodes[n].mode;
    todo := Fires(cfg.sched, mode.fire, mode.now, MAX_CATCHUP_INSTANTS);
    assert ModeOk(cfg, s, n);
    forall i | 0 <= i < |todo| ensures FireUpTo(cfg, s, todo[i], mode.now) {
      assert todo[i] in todo;
      FiresAreAllFires(cfg.sched, mode.fire, mode.now, MAX_CATCHUP_INSTANTS, todo[i]);
    }
  }

  lemma DispatchMode(cfg: Config, s: State, s': State, n: nat)
    requires n < |s.nodes| && s.nodes[n].mode.Fetched? && n < |s'.nodes| && DispatchEffect(cfg, s, s', n)
    ensures !s'.nodes[n].mode.Fetched?
    ensures var mode := s.nodes[n].mode;
            s'.nodes[n].mode.Replaying? ==>
              s'.nodes[n].mode == Mode.Replaying(mode.now, Fires(cfg.sched, mode.fire, mode.now, MAX_CATCHUP_INSTANTS), None)
  {
  }

  /** A replay that begins with these instants is in order. */
  lemma BeginsOk(cfg: Config, s: State, s': State, n: nat, now: Time, todo: seq<Time>)
    requires n < |s'.nodes| && s.start <= now <= s.clock && !s'.nodes[n].mode.Fetched?
    requires s'.nodes[n].mode.Replaying? ==> s'.nodes[n].mode == Mode.Replaying(now, todo, None)
    requires forall i :: 0 <= i < |todo| ==> FireUpTo(cfg, s, todo[i], now)
    requires s'.clock == s.clock && s'.start == s.start && s'.origin == s.origin
    ensures ModeOk(cfg, s', n)
  {
    if s'.nodes[n].mode.Replaying? {
      forall i | 0 <= i < |todo| ensures FireUpTo(cfg, s', todo[i], now) {
        assert FireUpTo(cfg, s, todo[i], now);
      }
    }
  }

  lemma DispatchRow(cfg: Config, s: State, s': State, n: nat)
    requires RowOk(s) && n < |s.nodes| && s.nodes[n].mode.Fetched? && n < |s'.nodes| && DispatchEffect(cfg, s, s', n)
    requires s'.start == s.start && s'.origin == s.origin
    ensures RowOk(s') && s'.replayed == s.replayed && s'.clock == s.clock && |s'.nodes| == |s.nodes|
    ensures forall m :: 0 <= m < |s.nodes| && m != n ==> s'.nodes[m].mode == s.nodes[m].mode
  {
    var now := s.nodes[n].mode.now;
    if s'.ops != s.ops { AfterSnoc(s.origin, s.ops, Claim(cfg.sched.Next(now).value)); }
  }

  lemma DispatchKeepsFires(cfg: Config, s: State, s': State, n: nat)
    requires Grid(cfg.sched) && Exhaustive(cfg.sched) && FiresInv(cfg, s) && n < |s.nodes| && s.nodes[n].mode.Fetched?
    requires n < |s'.nodes| && DispatchEffect(cfg, s, s', n) && s'.start == s.start && s'.origin == s.origin
    ensures FiresInv(cfg, s')
  {
    var now := s.nodes[n].mode.now;
    assert ModeOk(cfg, s, n);
    DispatchRow(cfg, s, s', n);
    var todo := TodoOk(cfg, s, n);
    DispatchMode(cfg, s, s', n);
    BeginsOk(cfg, s, s', n, now, todo);
    ModeKept(cfg, s, s', n);
  }

  lemma NextKeepsFires(cfg: Config, s: State, n: nat)
    requires FiresInv(cfg, s) && Enabled(cfg, s, ReplayNext(n))
    ensures FiresInv(cfg, NextReplayed(s, n))
  {
    var s', mode := NextReplayed(s, n), s.nodes[n].mode;
    assert ModeOk(cfg, s, n) && FireUpTo(cfg, s, mode.todo[0], mode.now);
    forall i | 0 <= i < |mode.todo[1..]| ensures FireUpTo(cfg, s', mode.todo[1..][i], mode.now) {
      assert FireUpTo(cfg, s, mode.todo[i + 1], mode.now);
    }
    ModeKept(cfg, s, s'.(replayed := s.replayed), n);
    forall m | 0 <= m < |s'.nodes| ensures ModeOk(cfg, s', m) { assert ModeOk(cfg, s'.(replayed := s.replayed), m); }
    forall i | 0 <= i < |s'.replayed| ensures FireUpTo(cfg, s', s'.replayed[i], s'.clock) {
      if i < |s.replayed| { assert FireUpTo(cfg, s, s.replayed[i], s.clock); }
    }
  }

  /** Steps of a node between replays. */
  predicate Plain(step: Step) {
    step.Fetch? || step.FallbackDone? || step.Renew? || step.Release? || step.Crash? || step.ConnectionLost?
    || step.ReplayDone?
  }

  /** The node fetches the row, waits, has stopped, or does what it did before. */
  predicate PlainMode(s: State, s': State, n: nat)
    requires n < |s.nodes| == |s'.nodes|
  {
    var mode := s'.nodes[n].mode;
    mode == s.nodes[n].mode || mode.Idle? || mode.Stopped? || (mode.Fetched? && mode.fire == s.Row())
  }

  lemma PlainStep(cfg: Config, s: State, step: Step)
    requires RowOk(s) && Enabled(cfg, s, step) && Plain(step)
    ensures var s' := Apply(cfg, s, step);
            && PlainMode(s, s', step.node) && s'.replayed == s.replayed && s'.clock == s.clock && RowOk(s')
            && forall m :: 0 <= m < |s.nodes| && m != step.node ==> s'.nodes[m].mode == s.nodes[m].mode
  {
    if step.ReplayDone? && Apply(cfg, s, step).ops != s.ops {
      AfterSnoc(s.origin, s.ops, Claim(cfg.sched.Next(s.nodes[step.node].mode.now).value));
    }
  }

  lemma FetchReads(cfg: Config, s: State, step: Step)
    requires Enabled(cfg, s, step) && Plain(step) && SharedClock(cfg, s, step)
    ensures var mode := Apply(cfg, s, step).nodes[step.node].mode;
            mode.Fetched? && mode != s.nodes[step.node].mode ==> s.start <= mode.now <= s.clock
  {
  }

  lemma NodeStepKeepsFires(cfg: Config, s: State, step: Step)
    requires FiresInv(cfg, s) && Enabled(cfg, s, step) && SharedClock(cfg, s, step) && Plain(step)
    ensures FiresInv(cfg, Apply(cfg, s, step))
  {
    PlainStep(cfg, s, step);
    FetchReads(cfg, s, step);
    PlainKeepsFires(cfg, s, Apply(cfg, s, step), step.node);
  }

  lemma PlainKeepsFires(cfg: Config, s: State, s': State, n: nat)
    requires FiresInv(cfg, s) && n < |s.nodes| == |s'.nodes| && PlainMode(s, s', n) && RowOk(s')
    requires forall m :: 0 <= m < |s.nodes| && m != n ==> s'.nodes[m].mode == s.nodes[m].mode
    requires s'.replayed == s.replayed && s'.clock == s.clock && s'.start == s.start && s'.origin == s.origin
    requires s'.nodes[n].mode.Fetched? && s'.nodes[n].mode != s.nodes[n].mode ==> s.start <= s'.nodes[n].mode.now <= s.clock
    ensures FiresInv(cfg, s')
  {
    assert ModeOk(cfg, s, n);
    SameModeOk(cfg, s, s', n);
    ModeKept(cfg, s, s', n);
  }

  lemma SameModeOk(cfg: Config, s: State, s': State, n: nat)
    requires n < |s.nodes| && n < |s'.nodes| && ModeOk(cfg, s, n)
    requires s'.clock == s.clock && s'.start == s.start && s'.origin == s.origin
    ensures s'.nodes[n].mode == s.nodes[n].mode ==> ModeOk(cfg, s', n)
  {
    if s'.nodes[n].mode == s.nodes[n].mode && s.nodes[n].mode.Replaying? {
      var todo, now := s.nodes[n].mode.todo, s.nodes[n].mode.now;
      forall i | 0 <= i < |todo| ensures FireUpTo(cfg, s', todo[i], now) { assert FireUpTo(cfg, s, todo[i], now); }
    }
  }

  lemma StepKeepsFires(cfg: Config, s: State, step: Step)
    requires Grid(cfg.sched) && Exhaustive(cfg.sched)
    requires FiresInv(cfg, s) && Enabled(cfg, s, step) && SharedClock(cfg, s, step)
    ensures FiresInv(cfg, Apply(cfg, s, step))
  {
    if Background(step) {
      BackgroundKeepsFires(cfg, s, step);
    } else if step.Dispatch? {
      DispatchHasEffect(cfg, s, step.node, step.call);
      DispatchKeepsFires(cfg, s, Apply(cfg, s, step), step.node);
    } else if step.ReplayNext? {
      NextKeepsFires(cfg, s, step.node);
    } else {
      NodeStepKeepsFires(cfg, s, step);
    }
  }

  lemma {:induction false} RunKeepsFires(cfg: Config, s: State, steps: seq<Step>)
    requires Grid(cfg.sched) && Exhaustive(cfg.sched) && Initial(s) && Legal(cfg, s, steps, SharedClock)
    ensures FiresInv(cfg, Reach(cfg, s, steps))
  {
    if steps != [] {
      var before, last := steps[..|steps| - 1], steps[|steps| - 1];
      RunKeepsFires(cfg, s, before);
      StepKeepsFires(cfg, Reach(cfg, s, before), last);
    }
  }

  // ----- The bound -----------------------------------------------------------------------------

  /** One clock, and all conditions under which no instant is replayed twice. */
  predicate SteadyClock(cfg: Config, s: State, step: Step) { Steady(cfg, s, step) && SharedClock(cfg, s, step) }

  /** No more instants are replayed than the schedule has fires between the row's first fire and the clock. */
  lemma ReplayedBounded(cfg: Config, s: State, steps: seq<Step>)
    requires Grid(cfg.sched) && Exhaustive(cfg.sched) && Initial(s) && Legal(cfg, s, steps, SteadyClock)
    ensures var e := Reach(cfg, s, steps);
            |e.replayed| <= |FiresBetween(cfg.sched, Floor(e), e.clock)|
  {
    RuleWeakens(cfg, s, steps, SteadyClock, Steady);
    RuleWeakens(cfg, s, steps, SteadyClock, SharedClock);
    NoInstantReplayedTwice(cfg, s, steps);
    RunKeepsFires(cfg, s, steps);
    DistinctFires(cfg, Reach(cfg, s, steps));
  }

  lemma DistinctFires(cfg: Config, s: State)
    requires Ascending(s.replayed) && DoneOk(cfg, s)
    ensures |s.replayed| <= |FiresBetween(cfg.sched, Floor(s), s.clock)|
  {
    AscendingCard(s.replayed);
    forall t | t in s.replayed ensures t in FiresBetween(cfg.sched, Floor(s), s.clock) {
      var i :| 0 <= i < |s.replayed| && s.replayed[i] == t;
      assert FireUpTo(cfg, s, s.replayed[i], s.clock);
    }
    SubsetCard((set t | t in s.replayed), FiresBetween(cfg.sched, Floor(s), s.clock));
  }

  /** Every policy, RunAll included, with one clock and a grid: G inter-fire gaps touched, F fires between the row's first
      fire and the clock, E missed windows without an instant: at most b * (G + F + E) + (b - 1) * (N - 1 + C) starts. */
  lemma ExecutionBoundRunAll(cfg: Config, s: State, steps: seq<Step>)
    requires Grid(cfg.sched) && Exhaustive(cfg.sched) && Initial(s) && Legal(cfg, s, steps, SteadyClock)
    ensures var e := Reach(cfg, s, steps);
            e.started <= StartLimit(cfg, e, |GapEnds(cfg.sched, e.start, e.clock)|
                                            + |FiresBetween(cfg.sched, Floor(e), e.clock)|
                                            + Total(cfg, s, steps, Fallbacks))
  {
    RuleWeakens(cfg, s, steps, SteadyClock, SharedClock);
    ExecutionBoundAnyPolicy(cfg, s, steps, SteadyClock);
    RunKeepsClock(cfg, s, steps);
    ReplaysSplit(cfg, s, steps, SteadyClock);
    ReplayedBounded(cfg, s, steps);
    LevelsBounded(cfg, Reach(cfg, s, steps), Total(cfg, s, steps, Fallbacks));
  }

  lemma LevelsBounded(cfg: Config, s: State, empty: nat)
    requires ClockInv(cfg, s) && WithinTargetsAndReplays(cfg, s)
    requires s.replays == |s.replayed| + empty && |s.replayed| <= |FiresBetween(cfg.sched, Floor(s), s.clock)|
    ensures s.started <= StartLimit(cfg, s, |GapEnds(cfg.sched, s.start, s.clock)|
                                            + |FiresBetween(cfg.sched, Floor(s), s.clock)| + empty)
  {
    var ts, gaps := Targets(s.origin, s.ops), GapEnds(cfg.sched, s.start, s.clock);
    SubsetCard(ts, gaps);
    StartLimitMonotone(cfg, s, Levels(s), |gaps| + |FiresBetween(cfg.sched, Floor(s), s.clock)| + empty);
  }
}
