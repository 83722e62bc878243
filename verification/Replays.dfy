/** RunAll: the leader replays a missed window before claiming, and still no instant is replayed twice. */
module Replays {
  import opened Basics
  import opened Schedules
  import opened Jobs
  import opened RowLedger
  import opened Cluster
  import opened LeaderElection

  /** What a run must keep to for no instant to be replayed twice. */
  datatype Condition =
    | LeaderConfigured   // a leader lock is configured at all
    | ConnectionKept     // no live node loses its leader connection
    | ClockNotAhead      // a tick's clock reading is not in the future
    | RetryOnTime        // a retry reaches the row no later than the instant it asks for
    | NoCrashInReplay    // no process dies in the middle of a replay
    | FinalClaimDone     // the claim that ends a replay neither fails nor is refused for a busy advisory lock

  predicate Meets(c: Condition, cfg: Config, s: State, step: Step) {
    match c
    case LeaderConfigured => cfg.hasLeader
    case ConnectionKept => !step.ConnectionLost?
    case ClockNotAhead => step.Fetch? ==> step.now <= s.clock
    case RetryOnTime =>
      step.WriteRetry? && step.id in s.flight && s.flight[step.id].phase.Retrying? ==> s.clock <= s.flight[step.id].phase.at
    case NoCrashInReplay => step.Crash? && step.node < |s.nodes| ==> !s.nodes[step.node].mode.Replaying?
    case FinalClaimDone => step.ReplayDone? ==> step.ok
  }

  /** The runs considered: all conditions are met. */
  predicate Steady(cfg: Config, s: State, step: Step) {
    && Meets(LeaderConfigured, cfg, s, step) && Meets(ConnectionKept, cfg, s, step)
    && Meets(ClockNotAhead, cfg, s, step) && Meets(RetryOnTime, cfg, s, step)
    && Meets(NoCrashInReplay, cfg, s, step) && Meets(FinalClaimDone, cfg, s, step)
  }

  /** All conditions but one are met. */
  function Except(c: Condition): Rule {
    (cfg: Config, s: State, step: Step) =>
      && (c == LeaderConfigured || Meets(LeaderConfigured, cfg, s, step))
      && (c == ConnectionKept || Meets(ConnectionKept, cfg, s, step))
      && (c == ClockNotAhead || Meets(ClockNotAhead, cfg, s, step))
      && (c == RetryOnTime || Meets(RetryOnTime, cfg, s, step))
      && (c == NoCrashInReplay || Meets(NoCrashInReplay, cfg, s, step))
      && (c == FinalClaimDone || Meets(FinalClaimDone, cfg, s, step))
  }

  /** `t` lies above every replayed instant and not below the end of any finished replay. */
  ghost predicate Beyond(s: State, t: Time) {
    && (forall x :: x in s.replayed ==> x < t)
    && (forall w :: w in s.swept ==> w <= t)
  }

  /** A replay in progress: its node is the leader, and what is left lies beyond all that was done. */
  ghost predicate ReplayOk(cfg: Config, s: State, n: nat)
    requires n < |s.nodes| && s.nodes[n].mode.Replaying?
  {
    var mode := s.nodes[n].mode;
    && Holds(s, n)
    && mode.now <= s.clock && Beyond(s, mode.now)
    && cfg.sched.Next(mode.now).Some?
    && Ascending(mode.todo)
    && forall t :: t in mode.todo ==> t < mode.now && Beyond(s, t) && forall w :: w in s.swept ==> w < t
  }

  ghost predicate FetchOk(s: State, n: nat)
    requires n < |s.nodes| && s.nodes[n].mode.Fetched?
  {
    s.nodes[n].mode.now <= s.clock && (Holds(s, n) ==> Beyond(s, s.nodes[n].mode.fire))
  }

  ghost predicate SomeReplay(s: State) {
    exists n :: 0 <= n < |s.nodes| && s.nodes[n].mode.Replaying?
  }

  ghost predicate ReplayInv(cfg: Config, s: State) {
    && SessionsInv(s) && NoneLost(s)
    && Ascending(s.replayed)
    && Beyond(s, s.clock)
    && (forall n :: 0 <= n < |s.nodes| && s.nodes[n].mode.Replaying? ==> ReplayOk(cfg, s, n))
    && (forall n :: 0 <= n < |s.nodes| && s.nodes[n].mode.Fetched? ==> FetchOk(s, n))
    && (!SomeReplay(s) ==> Beyond(s, s.Row()))
  }

  /** The parts of the state the invariant is about. */
  ghost predicate SameHistory(s: State, s': State) {
    s'.replayed == s.replayed && s'.swept == s.swept && s'.clock >= s.clock
  }

  lemma OnlyOneHolds(s: State, m: nat, n: nat)
    requires SessionsInv(s) && NoneLost(s) && m < |s.nodes| && n < |s.nodes|
    requires Holds(s, m) && Holds(s, n)
    ensures m == n
  {
    assert Owns(s, m) && Owns(s, n);
  }

  lemma SessionsKept(cfg: Config, s: State, step: Step)
    requires SessionsInv(s) && NoneLost(s) && Enabled(cfg, s, step) && !step.ConnectionLost?
    ensures SessionsInv(Apply(cfg, s, step)) && NoneLost(Apply(cfg, s, step))
  {
    StepKeepsSessions(cfg, s, step);
    StepKeepsNoneLost(cfg, s, step);
  }

  /** Steps that neither touch the row nor the modes, nor take leadership away. */
  lemma PassiveStep(cfg: Config, s: State, step: Step)
    requires ReplayInv(cfg, s) && Enabled(cfg, s, step) && Background(step) && !step.WriteRetry?
    ensures ReplayInv(cfg, Apply(cfg, s, step))
  {
    SessionsKept(cfg, s, step);
    BackgroundKeepsNodes(cfg, s, step);
    Frame(cfg, s, Apply(cfg, s, step));
  }

  /** The invariant survives when modes and leadership stay and the row does not sink below what
      `Beyond` needs. */
  lemma Frame(cfg: Config, s: State, s': State)
    requires ReplayInv(cfg, s) && SessionsInv(s') && NoneLost(s') && SameHistory(s, s') && |s'.nodes| == |s.nodes|
    requires forall n :: 0 <= n < |s.nodes| ==> s'.nodes[n].mode == s.nodes[n].mode && (Holds(s', n) <==> Holds(s, n))
    requires s'.Row() >= s.Row() || s'.Row() >= s.clock
    ensures ReplayInv(cfg, s')
  {
    forall n | 0 <= n < |s'.nodes| && s'.nodes[n].mode.Replaying?
      ensures ReplayOk(cfg, s', n)
    {
      assert ReplayOk(cfg, s, n);
    }
    forall n | 0 <= n < |s'.nodes| && s'.nodes[n].mode.Fetched?
      ensures FetchOk(s', n)
    {
      assert FetchOk(s, n);
    }
    if SomeReplay(s) {
      var n :| 0 <= n < |s.nodes| && s.nodes[n].mode.Replaying?;
      assert s'.nodes[n].mode.Replaying?;
    }
  }

  /** One node that is not replaying changes mode or leadership; the others keep theirs. */
  lemma OneNode(cfg: Config, s: State, s': State, n: nat)
    requires ReplayInv(cfg, s) && SessionsInv(s') && NoneLost(s') && SameHistory(s, s')
    requires n < |s.nodes| && !s.nodes[n].mode.Replaying? && |s'.nodes| == |s.nodes|
    requires forall m :: 0 <= m < |s.nodes| && m != n ==>
               s'.nodes[m].mode == s.nodes[m].mode && (Holds(s', m) <==> Holds(s, m))
    requires s'.nodes[n].mode.Replaying? ==> ReplayOk(cfg, s', n)
    requires s'.nodes[n].mode.Fetched? ==> FetchOk(s', n)
    requires s'.Row() >= s.Row()
    ensures ReplayInv(cfg, s')
  {
    forall m | 0 <= m < |s'.nodes| && s'.nodes[m].mode.Replaying?
      ensures ReplayOk(cfg, s', m)
    {
      if m != n { assert ReplayOk(cfg, s, m); }
    }
    forall m | 0 <= m < |s'.nodes| && s'.nodes[m].mode.Fetched?
      ensures FetchOk(s', m)
    {
      if m != n { assert FetchOk(s, m); }
    }
    if SomeReplay(s) {
      var m :| 0 <= m < |s.nodes| && s.nodes[m].mode.Replaying?;
      assert s'.nodes[m].mode.Replaying?;
    }
  }

  lemma OnlyTheHolderReplays(cfg: Config, s: State, n: nat)
    requires ReplayInv(cfg, s) && n < |s.nodes| && Holds(s, n)
    ensures forall m :: 0 <= m < |s.nodes| && s.nodes[m].mode.Replaying? ==> m == n
  {
    forall m | 0 <= m < |s.nodes| && s.nodes[m].mode.Replaying?
      ensures m == n
    {
      assert ReplayOk(cfg, s, m);
      OnlyOneHolds(s, m, n);
    }
  }

  lemma FetchKeeps(cfg: Config, s: State, n: nat, now: Time)
    requires ReplayInv(cfg, s) && Enabled(cfg, s, Fetch(n, now)) && now <= s.clock
    ensures ReplayInv(cfg, Apply(cfg, s, Fetch(n, now)))
  {
    var s' := Apply(cfg, s, Fetch(n, now));
    SessionsKept(cfg, s, Fetch(n, now));
    if Holds(s, n) { OnlyTheHolderReplays(cfg, s, n); }
    OneNode(cfg, s, s', n);
  }

  lemma QuietNode(cfg: Config, s: State, step: Step)
    requires ReplayInv(cfg, s) && Enabled(cfg, s, step)
    requires step.FallbackDone? || step.Renew? || step.Release?
             || (step.Crash? && !s.nodes[step.node].mode.Replaying?)
    ensures ReplayInv(cfg, Apply(cfg, s, step))
  {
    SessionsKept(cfg, s, step);
    OneNode(cfg, s, Apply(cfg, s, step), step.node);
  }

  lemma WriteKeeps(cfg: Config, s: State, id: nat, ok: bool)
    requires ReplayInv(cfg, s) && Enabled(cfg, s, WriteRetry(id, ok)) && s.clock <= s.flight[id].phase.at
    ensures ReplayInv(cfg, WroteRetry(s, id, ok))
  {
    SessionsKept(cfg, s, WriteRetry(id, ok));
    AfterSnoc(s.origin, s.ops, Retry(s.flight[id].phase.at));
    Frame(cfg, s, WroteRetry(s, id, ok));
  }

  /** A replay begins only on the leader, whose snapshot nothing has overtaken. */
  lemma BeginOk(cfg: Config, s: State, s': State, n: nat)
    requires Advancing(cfg.sched) && cfg.hasLeader && ReplayInv(cfg, s) && n < |s.nodes| && s.nodes[n].mode.Fetched?
    requires Decide(cfg, s.nodes[n]).Replay? && SameHistory(s, s')
    requires var mode := s.nodes[n].mode;
             var todo := Fires(cfg.sched, mode.fire, mode.now, MAX_CATCHUP_INSTANTS);
             && todo != []
             && s'.nodes == s.nodes[n := s.nodes[n].(mode := Mode.Replaying(mode.now, todo, None))]
    ensures ReplayOk(cfg, s', n)
  {
    var mode := s.nodes[n].mode;
    FiresAscend(cfg.sched, mode.fire, mode.now, MAX_CATCHUP_INSTANTS);
    assert FetchOk(s, n) && Holds(s, n);
    var todo := s'.nodes[n].mode.todo;
    assert mode.fire < todo[0] < mode.now;
  }

  lemma DispatchKeeps(cfg: Config, s: State, n: nat, call: CallResult)
    requires Advancing(cfg.sched) && cfg.hasLeader
    requires ReplayInv(cfg, s) && Enabled(cfg, s, Dispatch(n, call))
    ensures ReplayInv(cfg, Apply(cfg, s, Dispatch(n, call)))
  {
    SessionsKept(cfg, s, Dispatch(n, call));
    DispatchHasEffect(cfg, s, n, call);
    DispatchedKeeps(cfg, s, Apply(cfg, s, Dispatch(n, call)), n);
  }

  lemma DispatchedKeeps(cfg: Config, s: State, s': State, n: nat)
    requires Advancing(cfg.sched) && cfg.hasLeader && ReplayInv(cfg, s) && n < |s.nodes| && s.nodes[n].mode.Fetched?
    requires SessionsInv(s') && NoneLost(s') && |s'.nodes| == |s.nodes| && s'.origin == s.origin
    requires DispatchEffect(cfg, s, s', n)
    ensures ReplayInv(cfg, s')
  {
    if s'.nodes[n].mode.Replaying? { BeginOk(cfg, s, s', n); }
    if s'.ops != s.ops { AfterSnoc(s.origin, s.ops, s'.ops[|s.ops|]); }
    OneNode(cfg, s, s', n);
  }

  /** While one node replays no other node is the leader or replays. */
  lemma Solo(cfg: Config, s: State, n: nat)
    requires ReplayInv(cfg, s) && n < |s.nodes| && s.nodes[n].mode.Replaying?
    ensures forall m :: 0 <= m < |s.nodes| && m != n ==> !Holds(s, m) && !s.nodes[m].mode.Replaying?
  {
    assert ReplayOk(cfg, s, n);
    forall m | 0 <= m < |s.nodes| && m != n
      ensures !Holds(s, m) && !s.nodes[m].mode.Replaying?
    {
      if Holds(s, m) { OnlyOneHolds(s, m, n); }
      assert s.nodes[m].mode.Replaying? ==> ReplayOk(cfg, s, m);
    }
  }

  lemma AscendingSnoc(ts: seq<Time>, x: Time)
    requires Ascending(ts) && forall t :: t in ts ==> t < x
    ensures Ascending(ts + [x])
  {
    forall i, j | 0 <= i < j < |ts + [x]|
      ensures (ts + [x])[i] < (ts + [x])[j]
    {
      assert ts[i] in ts;
    }
  }

  /** The next instant lies beyond all that was done and below the rest. */
  lemma HeadOfTodo(todo: seq<Time>)
    requires Ascending(todo) && todo != []
    ensures todo[0] in todo && Ascending(todo[1..])
    ensures forall t :: t in todo[1..] ==> todo[0] < t && t in todo
  {
  }

  lemma NextReplayOk(cfg: Config, s: State, n: nat)
    requires ReplayInv(cfg, s) && Enabled(cfg, s, ReplayNext(n))
    ensures ReplayOk(cfg, NextReplayed(s, n), n)
    ensures Ascending(NextReplayed(s, n).replayed) && Beyond(NextReplayed(s, n), s.clock)
  {
    var todo := s.nodes[n].mode.todo;
    assert ReplayOk(cfg, s, n);
    HeadOfTodo(todo);
    AscendingSnoc(s.replayed, todo[0]);
  }

  lemma NextKeeps(cfg: Config, s: State, n: nat)
    requires ReplayInv(cfg, s) && Enabled(cfg, s, ReplayNext(n))
    ensures ReplayInv(cfg, NextReplayed(s, n))
  {
    var s' := NextReplayed(s, n);
    SessionsKept(cfg, s, ReplayNext(n));
    NextReplayOk(cfg, s, n);
    Solo(cfg, s, n);
    forall m | 0 <= m < |s'.nodes| && s'.nodes[m].mode.Fetched?
      ensures FetchOk(s', m)
    {
      assert FetchOk(s, m) && !Holds(s, m);
    }
    assert s'.nodes[n].mode.Replaying?;
  }

  lemma EndKeeps(cfg: Config, s: State, n: nat)
    requires Advancing(cfg.sched)
    requires ReplayInv(cfg, s) && Enabled(cfg, s, ReplayDone(n, true))
    ensures ReplayInv(cfg, ReplayEnded(cfg, s, n, true))
  {
    var s', now := ReplayEnded(cfg, s, n, true), s.nodes[n].mode.now;
    SessionsKept(cfg, s, ReplayDone(n, true));
    Solo(cfg, s, n);
    assert ReplayOk(cfg, s, n);
    AfterSnoc(s.origin, s.ops, Claim(cfg.sched.Next(now).value));
    assert s'.Row() > now;
    forall m | 0 <= m < |s'.nodes| && s'.nodes[m].mode.Fetched?
      ensures FetchOk(s', m)
    {
      assert FetchOk(s, m) && !Holds(s, m);
    }
  }

  lemma NodeStepKeepsReplay(cfg: Config, s: State, step: Step)
    requires Advancing(cfg.sched) && cfg.hasLeader && ReplayInv(cfg, s) && Enabled(cfg, s, step)
    requires step.FallbackDone? || step.Renew? || step.Release? || step.Crash? || step.ReplayNext? || step.ReplayDone?
    requires Meets(NoCrashInReplay, cfg, s, step) && Meets(FinalClaimDone, cfg, s, step)
    ensures ReplayInv(cfg, Apply(cfg, s, step))
  {
    match step {
      case ReplayNext(n) => NextKeeps(cfg, s, n);
      case ReplayDone(n, _) => EndKeeps(cfg, s, n);
      case _ => QuietNode(cfg, s, step);
    }
  }

  lemma TickStepKeepsReplay(cfg: Config, s: State, step: Step)
    requires Advancing(cfg.sched) && cfg.hasLeader && ReplayInv(cfg, s) && Enabled(cfg, s, step)
    requires step.Fetch? || step.Dispatch? || step.WriteRetry?
    requires Meets(ClockNotAhead, cfg, s, step) && Meets(RetryOnTime, cfg, s, step)
    ensures ReplayInv(cfg, Apply(cfg, s, step))
  {
    match step {
      case Fetch(n, now) => FetchKeeps(cfg, s, n, now);
      case Dispatch(n, call) => DispatchKeeps(cfg, s, n, call);
      case WriteRetry(id, ok) => WriteKeeps(cfg, s, id, ok);
    }
  }

  lemma StepKeepsReplay(cfg: Config, s: State, step: Step)
    requires Advancing(cfg.sched) && ReplayInv(cfg, s) && Enabled(cfg, s, step) && Steady(cfg, s, step)
    ensures ReplayInv(cfg, Apply(cfg, s, step))
  {
    if step.Fetch? || step.Dispatch? || step.WriteRetry? {
      TickStepKeepsReplay(cfg, s, step);
    } else if Background(step) {
      PassiveStep(cfg, s, step);
    } else {
      NodeStepKeepsReplay(cfg, s, step);
    }
  }

  lemma {:induction false} RunKeepsReplay(cfg: Config, s: State, steps: seq<Step>)
    requires Advancing(cfg.sched)
    requires Initial(s) && Legal(cfg, s, steps, Steady)
    ensures ReplayInv(cfg, Reach(cfg, s, steps))
  {
    if steps != [] {
      var before, last := steps[..|steps| - 1], steps[|steps| - 1];
      RunKeepsReplay(cfg, s, before);
      StepKeepsReplay(cfg, Reach(cfg, s, before), last);
    }
  }

  /** The instants replayed by all nodes together strictly increase: none is replayed twice, although
      the row is claimed only after the replay. */
  lemma NoInstantReplayedTwice(cfg: Config, s: State, steps: seq<Step>)
    requires Advancing(cfg.sched)
    requires Initial(s) && Legal(cfg, s, steps, Steady)
    ensures Ascending(Reach(cfg, s, steps).replayed)
  {
    RunKeepsReplay(cfg, s, steps);
  }

  /** What is replayed after a replay of (fire, now) has ended lies beyond `now`: instants the cap cut
      off that window are never made up for. */
  lemma {:induction false} SweptWindowIsFinal(cfg: Config, s: State, steps: seq<Step>, i: nat)
    requires Advancing(cfg.sched) && i <= |steps|
    requires Initial(s) && Legal(cfg, s, steps, Steady)
    ensures var mid, e := Reach(cfg, s, steps[..i]), Reach(cfg, s, steps);
            && mid.replayed <= e.replayed && mid.swept <= e.swept
            && forall k, w :: |mid.replayed| <= k < |e.replayed| && w in mid.swept ==> w < e.replayed[k]
  {
    if i == |steps| {
      assert steps[..i] == steps;
    } else {
      var before, last := steps[..|steps| - 1], steps[|steps| - 1];
      assert before[..i] == steps[..i];
      SweptWindowIsFinal(cfg, s, before, i);
      RunKeepsReplay(cfg, s, before);
      ReplayedBeyondSwept(cfg, Reach(cfg, s, before), last);
      NewOnesBeyond(Reach(cfg, s, steps[..i]), Reach(cfg, s, before), Reach(cfg, s, steps));
    }
  }

  /** `e` adds to `b` at most one replayed instant, and that one lies beyond the finished replays. */
  ghost predicate OneMoreBeyond(b: State, e: State) {
    && b.swept <= e.swept
    && (e.replayed == b.replayed
        || (|e.replayed| == |b.replayed| + 1 && b.replayed <= e.replayed
            && forall w :: w in b.swept ==> w < e.replayed[|b.replayed|]))
  }

  lemma NewOnesBeyond(mid: State, b: State, e: State)
    requires mid.replayed <= b.replayed && mid.swept <= b.swept && OneMoreBeyond(b, e)
    requires forall k, w :: |mid.replayed| <= k < |b.replayed| && w in mid.swept ==> w < b.replayed[k]
    ensures mid.replayed <= e.replayed && mid.swept <= e.swept
    ensures forall k, w :: |mid.replayed| <= k < |e.replayed| && w in mid.swept ==> w < e.replayed[k]
  {
    forall k, w | |mid.replayed| <= k < |e.replayed| && w in mid.swept
      ensures w < e.replayed[k]
    {
      assert w in b.swept;
      if k < |b.replayed| { assert e.replayed[k] == b.replayed[k]; }
    }
  }

  lemma ReplayedBeyondSwept(cfg: Config, s: State, step: Step)
    requires ReplayInv(cfg, s) && Enabled(cfg, s, step)
    ensures OneMoreBeyond(s, Apply(cfg, s, step))
  {
    if step.ReplayNext? {
      assert ReplayOk(cfg, s, step.node);
      HeadOfTodo(s.nodes[step.node].mode.todo);
    } else if step.Dispatch? {
      DispatchHasEffect(cfg, s, step.node, step.call);
    }
  }

  // ----- Exact coverage of one replay ----------------------------------------------------------

  /** A fire of the missed window that the cap leaves out. */
  predicate CutOff(s: Schedule, fire: Time, now: Time, v: Time) {
    var ts := Fires(s, fire, now, MAX_CATCHUP_INSTANTS);
    s.Next(v - 1) == Some(v) && v < now && |ts| == MAX_CATCHUP_INSTANTS && ts[|ts| - 1] < v
  }

  /** The fires from the row's fire up to the next claim target split into the fire itself (not replayed),
      the replayed instants, those the cap cuts off, and `now` if it is a fire. */
  lemma WindowSplits(s: Schedule, fire: Time, now: Time, v: Time)
    requires Grid(s) && Exhaustive(s) && IsFire(s, fire) && fire < now && s.Next(now).Some?
    ensures var ts := Fires(s, fire, now, MAX_CATCHUP_INSTANTS);
            && (IsFire(s, v) && fire <= v < s.Next(now).value <==>
                v == fire || v in ts || CutOff(s, fire, now, v) || (v == now && IsFire(s, now)))
            && (v in ts ==> v != fire && v != now && !CutOff(s, fire, now, v))
            && (CutOff(s, fire, now, v) ==> v != fire && v != now)
  {
    var ts := Fires(s, fire, now, MAX_CATCHUP_INSTANTS);
    FiresAreAllFires(s, fire, now, MAX_CATCHUP_INSTANTS, v);
    FiresAscend(s, fire, now, MAX_CATCHUP_INSTANTS);
    FiresConsecutive(s, fire, now, MAX_CATCHUP_INSTANTS);
    if IsFire(s, v) && v > now { NextIsLeast(s, now, v); }
    if |ts| == MAX_CATCHUP_INSTANTS { assert fire < ts[|ts| - 1]; }
  }

  /** An instant of a finished replay's window that was not replayed by then never will be: in particular
      the instants the cap cut off. */
  lemma MissedStaysMissed(cfg: Config, s: State, steps: seq<Step>, i: nat, now: Time, v: Time)
    requires Advancing(cfg.sched) && i <= |steps|
    requires Initial(s) && Legal(cfg, s, steps, Steady)
    requires now in Reach(cfg, s, steps[..i]).swept && v <= now && v !in Reach(cfg, s, steps[..i]).replayed
    ensures v !in Reach(cfg, s, steps).replayed
  {
    SweptWindowIsFinal(cfg, s, steps, i);
    var mid, e := Reach(cfg, s, steps[..i]), Reach(cfg, s, steps);
    forall k | 0 <= k < |e.replayed| ensures e.replayed[k] != v {
      if k < |mid.replayed| { assert e.replayed[k] == mid.replayed[k]; }
    }
  }
}
