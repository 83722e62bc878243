/** The execution bound is attained, and what a crash really costs: runs in which every node fails up to the last
    attempt of its budget, crashes included. */
module Sharpness {
  import opened Basics
  import opened Schedules
  import opened Jobs
  import opened Backoff
  import opened RowLedger
  import opened Cluster
  import opened Scripts
  import opened AttemptBudget
  import opened ExecutionBound

  // ----- One attempt ---------------------------------------------------------------------------

  /** Any node may execute the job when it is due. */
  predicate Open(cfg: Config) {
    !cfg.opts.leaderOnly && cfg.opts.missedFire != RunAll && cfg.tick >= 0
  }

  /** Nothing is in flight, all nodes wait, and the row is due now. */
  ghost predicate Due(cfg: Config, s: State) {
    && s.flight == map[] && s.start <= s.clock && s.Row() == s.clock
    && (forall n :: 0 <= n < |s.nodes| ==> s.nodes[n].mode.Idle?)
    && Grid(cfg.sched) && cfg.sched.Next(s.clock).Some?
  }

  /** The current gap has room for `r` more retries with the backoff `d`. */
  predicate Room(cfg: Config, s: State, d: nat, r: int) {
    r >= 0 && cfg.sched.Next(s.clock).Some? && s.clock + d * r < cfg.sched.Next(s.clock).value
  }

  /** The clock has stayed in the gap. */
  predicate SameGap(cfg: Config, s: State, s': State) {
    s'.start == s.start && s.clock <= s'.clock && cfg.sched.Next(s'.clock) == cfg.sched.Next(s.clock)
  }

  /** `k` attempts later; only the counter of node `n`, the row and the clock have changed otherwise. */
  ghost predicate Later(cfg: Config, s: State, s': State, n: nat, counter: nat, k: nat)
    requires n < |s.nodes|
  {
    && s'.nodes == s.nodes[n := s.nodes[n].(counter := counter)]
    && s'.flight == s.flight && SameGap(cfg, s, s') && s'.origin == s.origin
    && s'.started == s.started + k && s'.crashes == s.crashes
  }

  lemma Attempt(cfg: Config, s: State, n: nat, failed: bool, at: Time) returns (steps: seq<Step>, s': State)
    requires Open(cfg) && Due(cfg, s) && n < |s.nodes| && s.clock <= at < cfg.sched.Next(s.clock).value
    ensures Path(cfg, s, steps, SharedClock, s')
    ensures var asks := AsksRetry(failed, s.nodes[n].counter + 1, MaxAttempts(cfg));
            && Later(cfg, s, s', n, NextCounter(s.nodes[n].counter, failed, MaxAttempts(cfg)), 1)
            && s'.clock == s.clock && s'.Row() == if asks then at else cfg.sched.Next(s.clock).value
  {
    var v, x := cfg.sched.Next(s.clock).value, s.nextId;
    var launch := LaunchSteps(cfg, s, n, s.clock, v, SharedClock);
    var mid := AfterLaunch(s, n, v);
    var execute;
    execute, s' := ExecutionSteps(cfg, mid, n, x, failed, at, SharedClock);
    steps := launch + execute;
    PathOn(cfg, s, launch, SharedClock, mid, execute, s');
    AfterSnoc(s.origin, s.ops, Claim(v));
    AfterSnoc(s.origin, mid.ops, Retry(at));
    assert s'.flight == map[];
  }

  /** A failed attempt below the budget, and the wait for its retry. */
  lemma FailAndWait(cfg: Config, s: State, n: nat, d: nat, r: int) returns (steps: seq<Step>, s': State)
    requires Open(cfg) && Due(cfg, s) && n < |s.nodes| && s.nodes[n].counter + 1 < MaxAttempts(cfg)
    requires r > 0 && Room(cfg, s, d, r)
    ensures Path(cfg, s, steps, SharedClock, s') && Due(cfg, s') && Room(cfg, s', d, r - 1)
    ensures Later(cfg, s, s', n, s.nodes[n].counter + 1, 1)
  {
    var at := s.clock + d;
    OneMore(d, r - 1);
    assert at + d * (r - 1) < cfg.sched.Next(s.clock).value;
    RoomForOne(d, r - 1);
    var attempt, mid := Attempt(cfg, s, n, true, at);
    s' := mid.(clock := at);
    PathSnoc(cfg, s, attempt, SharedClock, mid, Elapse(at), s');
    steps := attempt + [Elapse(at)];
    assert cfg.sched.Next(at) == cfg.sched.Next(s.clock);
  }

  lemma RoomForOne(d: nat, r: nat)
    ensures d * r >= 0
  {
  }

  /** A streak that fails `k` times below the budget; the row is due again after each of them. */
  lemma {:induction false} FailTimes(cfg: Config, s: State, n: nat, d: nat, r: int, k: nat)
    returns (steps: seq<Step>, s': State)
    requires Open(cfg) && Due(cfg, s) && n < |s.nodes| && s.nodes[n].counter == 0
    requires k <= Budget(MaxAttempts(cfg)) - 1 && k <= r && Room(cfg, s, d, r)
    ensures Path(cfg, s, steps, SharedClock, s') && Later(cfg, s, s', n, k, k) && Due(cfg, s') && Room(cfg, s', d, r - k)
  {
    if k == 0 {
      steps, s' := [], s;
    } else {
      var before, m := FailTimes(cfg, s, n, d, r, k - 1);
      var last;
      last, s' := FailAndWait(cfg, m, n, d, r - (k - 1));
      steps := before + last;
      PathOn(cfg, s, before, SharedClock, m, last, s');
    }
  }

  /** A whole streak, up to the dead letter; the row is then at the next fire. */
  lemma WholeStreak(cfg: Config, s: State, n: nat, d: nat) returns (steps: seq<Step>, s': State)
    requires Open(cfg) && Due(cfg, s) && n < |s.nodes| && s.nodes[n].counter == 0
    requires Room(cfg, s, d, Budget(MaxAttempts(cfg)) - 1)
    ensures Path(cfg, s, steps, SharedClock, s') && Later(cfg, s, s', n, 0, Budget(MaxAttempts(cfg)))
    ensures s'.Row() == cfg.sched.Next(s'.clock).value
  {
    var b := Budget(MaxAttempts(cfg));
    var before, m := FailTimes(cfg, s, n, d, b - 1, b - 1);
    var last;
    last, s' := Attempt(cfg, m, n, true, m.clock);
    steps := before + last;
    PathOn(cfg, s, before, SharedClock, m, last, s');
  }

  // ----- Crashes and other nodes ---------------------------------------------------------------

  /** Node 0 and the nodes from `from` on are not in a streak. */
  predicate Counters(s: State, from: nat) {
    forall n :: 0 <= n < |s.nodes| && (n == 0 || n >= from) ==> s.nodes[n].counter == 0
  }

  /** Still in the same gap, with `k` more attempts and `c` more crashes, and room for `r` more retries. */
  ghost predicate Burnt(cfg: Config, s: State, s': State, k: int, c: nat, d: nat, r: int) {
    && Due(cfg, s') && |s'.nodes| == |s.nodes| && SameGap(cfg, s, s') && Room(cfg, s', d, r)
    && s'.started == s.started + k && s'.crashes == s.crashes + c
  }

  lemma CrashIdle(cfg: Config, s: State, n: nat, d: nat, r: int) returns (s': State)
    requires Due(cfg, s) && n < |s.nodes| && Room(cfg, s, d, r)
    ensures Path(cfg, s, [Crash(n)], SharedClock, s') && Burnt(cfg, s, s', 0, 1, d, r)
    ensures s'.nodes == s.nodes[n := Node(0, Idle, None, false)]
  {
    s' := Crashed(s, n);
    PathStep(cfg, s, Crash(n), SharedClock);
    assert Elsewhere(s.flight, n) == map[];
  }

  /** Node 0 fails up to its last attempt and crashes. */
  lemma CrashOnce(cfg: Config, s: State, d: nat, r: int) returns (steps: seq<Step>, s': State)
    requires Open(cfg) && Due(cfg, s) && |s.nodes| > 0 && Counters(s, 1)
    requires r >= Budget(MaxAttempts(cfg)) - 1 && Room(cfg, s, d, r)
    ensures Path(cfg, s, steps, SharedClock, s') && Counters(s', 1)
    ensures var k := Budget(MaxAttempts(cfg)) - 1; Burnt(cfg, s, s', k, 1, d, r - k)
  {
    var k := Budget(MaxAttempts(cfg)) - 1;
    var fails, m := FailTimes(cfg, s, 0, d, r, k);
    s' := CrashIdle(cfg, m, 0, d, r - k);
    PathOn(cfg, s, fails, SharedClock, m, [Crash(0)], s');
    steps := fails + [Crash(0)];
  }

  lemma {:induction false} CrashTimes(cfg: Config, s: State, c: nat, d: nat, r: int) returns (steps: seq<Step>, s': State)
    requires Open(cfg) && Due(cfg, s) && |s.nodes| > 0 && Counters(s, 1)
    requires r >= (Budget(MaxAttempts(cfg)) - 1) * c && Room(cfg, s, d, r)
    ensures Path(cfg, s, steps, SharedClock, s') && Counters(s', 1)
    ensures var k := (Budget(MaxAttempts(cfg)) - 1) * c; Burnt(cfg, s, s', k, c, d, r - k)
  {
    if c == 0 {
      steps, s' := [], s;
    } else {
      var k := Budget(MaxAttempts(cfg)) - 1;
      OneMore(k, c - 1);
      var before, m := CrashTimes(cfg, s, c - 1, d, r);
      var last;
      last, s' := CrashOnce(cfg, m, d, r - k * (c - 1));
      PathOn(cfg, s, before, SharedClock, m, last, s');
      steps := before + last;
      BurntOn(cfg, s, m, s', k * (c - 1), c - 1, k, 1, d, r);
    }
  }

  lemma BurntOn(cfg: Config, s: State, m: State, s': State, k: int, c: nat, k': int, c': nat, d: nat, r: int)
    requires Burnt(cfg, s, m, k, c, d, r - k) && Burnt(cfg, m, s', k', c', d, r - k - k')
    ensures Burnt(cfg, s, s', k + k', c + c', d, r - (k + k'))
  {
  }

  /** Nodes 1 to `k` fail up to their last attempt. */
  lemma {:induction false} OthersFail(cfg: Config, s: State, k: nat, d: nat, r: int) returns (steps: seq<Step>, s': State)
    requires Open(cfg) && Due(cfg, s) && k < |s.nodes| && Counters(s, 1)
    requires r >= (Budget(MaxAttempts(cfg)) - 1) * k && Room(cfg, s, d, r)
    ensures Path(cfg, s, steps, SharedClock, s') && Counters(s', k + 1)
    ensures var f := (Budget(MaxAttempts(cfg)) - 1) * k; Burnt(cfg, s, s', f, 0, d, r - f)
  {
    if k == 0 {
      steps, s' := [], s;
    } else {
      var b := Budget(MaxAttempts(cfg)) - 1;
      OneMore(b, k - 1);
      var before, m := OthersFail(cfg, s, k - 1, d, r);
      var last;
      last, s' := FailTimes(cfg, m, k, d, r - b * (k - 1), b);
      steps := before + last;
      PathOn(cfg, s, before, SharedClock, m, last, s');
      BurntOn(cfg, s, m, s', b * (k - 1), 0, b, 0, d, r);
    }
  }

  // ----- Gap after gap -------------------------------------------------------------------------

  /** At the next fire one more gap is touched. */
  lemma GapsGrow(sched: Schedule, lo: Time, hi: Time)
    requires Grid(sched) && lo <= hi && sched.Next(hi).Some? && sched.Next(sched.Next(hi).value).Some?
    ensures |GapEnds(sched, lo, sched.Next(hi).value)| == |GapEnds(sched, lo, hi)| + 1
  {
    var v := sched.Next(hi).value;
    var w := sched.Next(v).value;
    forall x | x in GapEnds(sched, lo, hi) ensures x <= v {
      var a :| lo <= a <= hi && sched.Next(a) == Some(x);
    }
    forall x ensures x in GapEnds(sched, lo, v) <==> x in GapEnds(sched, lo, hi) || x == w {
      if x in GapEnds(sched, lo, v) {
        var a :| lo <= a <= v && sched.Next(a) == Some(x);
        if hi < a < v { assert sched.Next(a) == sched.Next(hi); }
      }
    }
    assert GapEnds(sched, lo, v) == GapEnds(sched, lo, hi) + {w};
  }

  lemma OneGap(sched: Schedule, t: Time)
    requires sched.Next(t).Some?
    ensures |GapEnds(sched, t, t)| == 1
  {
    assert GapEnds(sched, t, t) == {sched.Next(t).value};
  }

  /** The inter-fire gaps that the clock has touched. */
  ghost function Gaps(cfg: Config, s: State): nat { |GapEnds(cfg.sched, s.start, s.clock)| }

  /** Inside a gap the number of gaps touched does not change. */
  lemma GapsStay(cfg: Config, s: State, s': State)
    requires Grid(cfg.sched) && s.start <= s.clock && cfg.sched.Next(s.clock).Some? && SameGap(cfg, s, s')
    ensures Gaps(cfg, s') == Gaps(cfg, s)
  {
    forall v ensures v in GapEnds(cfg.sched, s.start, s'.clock) <==> v in GapEnds(cfg.sched, s.start, s.clock) {
      if v in GapEnds(cfg.sched, s.start, s'.clock) {
        var a :| s.start <= a <= s'.clock && cfg.sched.Next(a) == Some(v);
        if a > s.clock { assert cfg.sched.Next(a) == cfg.sched.Next(s.clock); }
      }
    }
    assert GapEnds(cfg.sched, s.start, s'.clock) == GapEnds(cfg.sched, s.start, s.clock);
  }

  /** Node 0 has worked off one whole streak in each gap so far. */
  ghost predicate WorkedOff(cfg: Config, s: State, s': State, k: int) {
    && s'.flight == map[] && s'.clock >= s.clock && s'.start == s.start && |s'.nodes| == |s.nodes|
    && (forall n :: 0 <= n < |s'.nodes| ==> s'.nodes[n].mode.Idle?)
    && |s'.nodes| > 0 && s'.nodes[0].counter == 0
    && s'.started == s.started + k && s'.crashes == s.crashes
    && cfg.sched.Next(s'.clock) == Some(s'.Row())
  }

  lemma ToNextGap(cfg: Config, s: State) returns (s': State)
    requires Grid(cfg.sched) && s.flight == map[] && s.start <= s.clock
    requires forall n :: 0 <= n < |s.nodes| ==> s.nodes[n].mode.Idle?
    requires cfg.sched.Next(s.clock) == Some(s.Row()) && cfg.sched.Next(s.Row()).Some?
    ensures Path(cfg, s, [Elapse(s.Row())], SharedClock, s') && s' == s.(clock := s.Row())
    ensures Due(cfg, s') && Gaps(cfg, s') == Gaps(cfg, s) + 1 && IsFire(cfg.sched, s'.clock)
  {
    s' := s.(clock := s.Row());
    PathStep(cfg, s, Elapse(s.Row()), SharedClock);
    GapsGrow(cfg.sched, s.start, s.clock);
    NextIsFire(cfg.sched, s.clock);
  }

  /** Every fire is followed by another one, far enough away for a streak's retries with the backoff `d`. */
  ghost predicate Roomy(cfg: Config, d: nat) {
    forall a :: IsFire(cfg.sched, a) ==>
      cfg.sched.Next(a).Some? && a + d * (Budget(MaxAttempts(cfg)) - 1) < cfg.sched.Next(a).value
  }

  lemma {:induction false} StreakInEachGap(cfg: Config, s: State, g: nat, d: nat) returns (steps: seq<Step>, s': State)
    requires Open(cfg) && Due(cfg, s) && |s.nodes| > 0 && s.nodes[0].counter == 0 && g > 0
    requires Room(cfg, s, d, Budget(MaxAttempts(cfg)) - 1) && (g == 1 || Roomy(cfg, d))
    ensures Path(cfg, s, steps, SharedClock, s') && WorkedOff(cfg, s, s', Budget(MaxAttempts(cfg)) * g)
    ensures Gaps(cfg, s') == Gaps(cfg, s) + g - 1
  {
    if g == 1 {
      steps, s' := WholeStreak(cfg, s, 0, d);
      GapsStay(cfg, s, s');
    } else {
      var before, m := StreakInEachGap(cfg, s, g - 1, d);
      var last;
      last, s' := OneMoreGap(cfg, m, d);
      PathOn(cfg, s, before, SharedClock, m, last, s');
      steps := before + last;
      OneMore(Budget(MaxAttempts(cfg)), g - 1);
    }
  }

  lemma OneMoreGap(cfg: Config, s: State, d: nat) returns (steps: seq<Step>, s': State)
    requires Open(cfg) && Grid(cfg.sched) && Roomy(cfg, d) && WorkedOff(cfg, s, s, 0) && s.start <= s.clock
    ensures Path(cfg, s, steps, SharedClock, s') && WorkedOff(cfg, s, s', Budget(MaxAttempts(cfg)))
    ensures Gaps(cfg, s') == Gaps(cfg, s) + 1
  {
    NextIsFire(cfg.sched, s.clock);
    var t := ToNextGap(cfg, s);
    var last;
    last, s' := WholeStreak(cfg, t, 0, d);
    GapsStay(cfg, t, s');
    PathOn(cfg, s, [Elapse(s.Row())], SharedClock, t, last, s');
    steps := [Elapse(s.Row())] + last;
  }

  // ----- The bound is attained -----------------------------------------------------------------

  lemma FreshIsDue(cfg: Config, t: Time, n: nat)
    requires Grid(cfg.sched) && cfg.sched.Next(t).Some?
    ensures var s := Fresh(t, n); Initial(s) && Due(cfg, s) && Counters(s, 1) && |s.nodes| == n && Gaps(cfg, s) == 1
  {
    OneGap(cfg.sched, t);
  }

  /** The retries of the first gap. */
  function FirstGapRetries(cfg: Config, n: nat, c: nat): int { (Budget(MaxAttempts(cfg)) - 1) * (n + c) }

  /** The first gap: `c` crashes, and all nodes but one in the middle of a streak. */
  lemma UseUpBudgets(cfg: Config, s: State, c: nat, d: nat) returns (steps: seq<Step>, s': State)
    requires Open(cfg) && Due(cfg, s) && |s.nodes| > 0 && Counters(s, 1)
    requires Room(cfg, s, d, FirstGapRetries(cfg, |s.nodes|, c))
    ensures Path(cfg, s, steps, SharedClock, s') && |s'.nodes| > 0 && s'.nodes[0].counter == 0
    ensures var b := Budget(MaxAttempts(cfg)) - 1; Burnt(cfg, s, s', b * (|s.nodes| - 1 + c), c, d, b)
  {
    var b, r := Budget(MaxAttempts(cfg)) - 1, FirstGapRetries(cfg, |s.nodes|, c);
    RetriesSplit(b, |s.nodes| - 1, c);
    assert |s.nodes| + c == |s.nodes| - 1 + c + 1;
    var crashes, m := CrashTimes(cfg, s, c, d, r);
    var others;
    others, s' := OthersFail(cfg, m, |s.nodes| - 1, d, r - b * c);
    PathOn(cfg, s, crashes, SharedClock, m, others, s');
    steps := crashes + others;
    BurntOn(cfg, s, m, s', b * c, c, b * (|s.nodes| - 1), 0, d, r);
  }

  lemma RetriesSplit(b: nat, n: nat, c: nat)
    ensures b * (n + c + 1) == b * c + b * n + b && b * (n + c) == b * c + b * n
    ensures b * c >= 0 && b * n >= 0
  {
  }

  /** As many starts as the bound allows for these nodes, crashes and gaps. */
  ghost predicate AtLimit(cfg: Config, e: State, n: nat, c: nat, g: nat) {
    |e.nodes| == n && e.crashes == c && Gaps(cfg, e) == g && e.started == StartLimit(cfg, e, g)
  }

  lemma Total(cfg: Config, s: State, m: State, e: State, c: nat, g: nat, d: nat)
    requires g > 0 && s.started == s.crashes == 0 && Gaps(cfg, s) == 1 && Gaps(cfg, m) == Gaps(cfg, s)
    requires var b := Budget(MaxAttempts(cfg)) - 1; Burnt(cfg, s, m, b * (|s.nodes| - 1 + c), c, d, b)
    requires WorkedOff(cfg, m, e, Budget(MaxAttempts(cfg)) * g) && Gaps(cfg, e) == Gaps(cfg, m) + g - 1
    ensures AtLimit(cfg, e, |s.nodes|, c, g)
  {
  }

  lemma LimitRun(cfg: Config, s: State, c: nat, g: nat, d: nat) returns (steps: seq<Step>, e: State)
    requires Open(cfg) && Due(cfg, s) && |s.nodes| > 0 && Counters(s, 1) && g > 0
    requires Room(cfg, s, d, FirstGapRetries(cfg, |s.nodes|, c)) && (g == 1 || Roomy(cfg, d))
    requires s.started == s.crashes == 0 && Gaps(cfg, s) == 1
    ensures Path(cfg, s, steps, SharedClock, e) && AtLimit(cfg, e, |s.nodes|, c, g)
  {
    var before, m := UseUpBudgets(cfg, s, c, d);
    GapsStay(cfg, s, m);
    var streaks;
    streaks, e := StreakInEachGap(cfg, m, g, d);
    PathOn(cfg, s, before, SharedClock, m, streaks, e);
    steps := before + streaks;
    Total(cfg, s, m, e, c, g, d);
  }

  /** For every budget, every number of nodes, crashes and gaps, and every backoff `d` for whose retries the gaps have
      room, the bound of `ExecutionBound` is attained by a run in which every retry waits for `d`. */
  lemma BoundAttained(cfg: Config, t: Time, n: nat, c: nat, g: nat, d: nat) returns (steps: seq<Step>)
    requires Open(cfg) && Grid(cfg.sched) && n > 0 && g > 0
    requires Room(cfg, Fresh(t, n), d, FirstGapRetries(cfg, n, c)) && (g == 1 || Roomy(cfg, d))
    ensures Initial(Fresh(t, n)) && Legal(cfg, Fresh(t, n), steps, SharedClock)
    ensures AtLimit(cfg, Reach(cfg, Fresh(t, n), steps), n, c, g)
  {
    var e;
    FreshIsDue(cfg, t, n);
    steps, e := LimitRun(cfg, Fresh(t, n), c, g, d);
  }

  // ----- What a crash costs --------------------------------------------------------------------

  /** At most one start more for each crash than the same cluster could start without crashes. */
  ghost predicate OneExtraPerCrash(cfg: Config, s: State) {
    s.started <= StartLimit(cfg, s.(crashes := 0), Gaps(cfg, s)) + s.crashes
  }

  lemma SmallBudgetsPayOne(cfg: Config, s: State, steps: seq<Step>)
    requires Grid(cfg.sched) && cfg.opts.missedFire != RunAll && MaxAttempts(cfg) <= 2
    requires Initial(s) && Legal(cfg, s, steps, SharedClock)
    ensures OneExtraPerCrash(cfg, Reach(cfg, s, steps))
  {
    ExecutionBound.ExecutionBound(cfg, s, steps);
    SmallLimit(cfg, Reach(cfg, s, steps), Gaps(cfg, Reach(cfg, s, steps)));
  }

  lemma SmallLimit(cfg: Config, s: State, g: nat)
    requires MaxAttempts(cfg) <= 2
    ensures StartLimit(cfg, s, g) <= StartLimit(cfg, s.(crashes := 0), g) + s.crashes
  {
    var b := Budget(MaxAttempts(cfg));
    if b == 1 {
      assert (b - 1) * (|s.nodes| - 1 + s.crashes) == 0;
    } else {
      assert b == 2;
    }
  }

  /** A crash causes at most one extra execution in every run exactly for budgets of at most two attempts. */
  lemma OneExtraIff(cfg: Config, t: Time)
    requires Grid(cfg.sched) && Open(cfg) && cfg.sched.Next(t).Some?
    ensures (forall s, steps :: Initial(s) && Legal(cfg, s, steps, SharedClock) ==>
               OneExtraPerCrash(cfg, Reach(cfg, s, steps)))
            <==> MaxAttempts(cfg) <= 2
  {
    if MaxAttempts(cfg) <= 2 {
      forall s, steps | Initial(s) && Legal(cfg, s, steps, SharedClock)
        ensures OneExtraPerCrash(cfg, Reach(cfg, s, steps))
      {
        SmallBudgetsPayOne(cfg, s, steps);
      }
    } else {
      var steps := BoundAttained(cfg, t, 1, 1, 1, 0);
      assert !OneExtraPerCrash(cfg, Reach(cfg, Fresh(t, 1), steps));
    }
  }

  /** One node, one crash, one gap and a budget of three: attempts 1 and 2 fail, the node crashes, and attempts 1, 2 and 3
      follow. Every retry waits for 1.2 seconds, a delay that the default policy may choose after a first and after a
      second failure. */
  lemma CrashForgetsStreak(cfg: Config) returns (steps: seq<Step>)
    requires Open(cfg) && cfg.sched == Periodic(60 * SECOND, 0) && MaxAttempts(cfg) == 3
    ensures Initial(Fresh(0, 1)) && Legal(cfg, Fresh(0, 1), steps, SharedClock)
    ensures var e := Reach(cfg, Fresh(0, 1), steps);
            |e.nodes| == 1 && e.crashes == 1 && Gaps(cfg, e) == 1 && e.started == 5
  {
    PeriodicIsGrid(60 * SECOND, 0);
    NextEndsBlock(0, 60 * SECOND, 0);
    Quotient(0, 0, 60 * SECOND);
    steps := BoundAttained(cfg, 0, 1, 1, 1, 1_200_000_000);
  }

  /** The default policy allows that delay. */
  lemma DefaultDelay(p: RetryPolicy)
    requires p.initialBackoff == SECOND && p.maxBackoff == 300 * SECOND && p.multiplier == 2.0
    ensures Jitter(1.2) && ComputeBackoff(p, 1, 1.2) == 1_200_000_000
    ensures Jitter(0.6) && ComputeBackoff(p, 2, 0.6) == 1_200_000_000
  {
    BaseIsCapped(p, 1);
    BaseIsCapped(p, 2);
    assert Pow(2.0, 0) == 1.0 && Pow(2.0, 1) == 2.0;
  }
}
