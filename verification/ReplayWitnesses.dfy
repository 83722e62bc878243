/** Each condition under which no instant is replayed twice is needed: without it, and with all the others, there is
    a run in which an instant is replayed again. */
module ReplayWitnesses {
  import opened Basics
  import opened Schedules
  import opened Jobs
  import opened RowLedger
  import opened Cluster
  import opened Scripts
  import opened AttemptBudget
  import opened Replays
  import opened Coverage

  predicate Repeats(ts: seq<Time>) { exists i, j :: 0 <= i < j < |ts| && ts[i] == ts[j] }

  lemma RepeatsSnoc(ts: seq<Time>, more: seq<Time>, t: Time)
    requires t in more
    ensures Repeats(ts + more + [t])
  {
    var i :| 0 <= i < |more| && more[i] == t;
    var all := ts + more + [t];
    assert all[|ts| + i] == all[|ts + more|];
  }

  // ----- One replay ----------------------------------------------------------------------------

  function Missed(cfg: Config, s: State, now: Time): seq<Time> {
    Fires(cfg.sched, s.Row(), now, MAX_CATCHUP_INSTANTS)
  }

  /** A tick of the waiting node at `now` would replay at least one instant. */
  predicate Overdue(cfg: Config, s: State, n: nat, now: Time) {
    && cfg.opts.missedFire == RunAll && cfg.sched.Next(now).Some?
    && n < |s.nodes| && s.nodes[n].mode.Idle? && (cfg.hasLeader ==> s.nodes[n].session.Some?)
    && s.Row() <= now && s.Row() + 3 * cfg.tick < now && Missed(cfg, s, now) != []
  }

  function Begun(cfg: Config, s: State, n: nat, now: Time): State
    requires n < |s.nodes|
  {
    SetMode(s, n, Replaying(now, Missed(cfg, s, now), None))
  }

  /** The run may leave out the leader only if that is the condition it breaks. */
  predicate Led(cfg: Config, c: Condition) { cfg.hasLeader || c == LeaderConfigured }

  lemma BeginReplay(cfg: Config, s: State, n: nat, now: Time, c: Condition) returns (steps: seq<Step>)
    requires Led(cfg, c) && Overdue(cfg, s, n, now) && (now <= s.clock || c == ClockNotAhead)
    ensures Path(cfg, s, steps, Except(c), Begun(cfg, s, n, now))
  {
    var mid := SetMode(s, n, Fetched(now, s.Row()));
    PathStep(cfg, s, Fetch(n, now), Except(c));
    assert Begun(cfg, s, n, now).nodes == mid.nodes[n := Begun(cfg, s, n, now).nodes[n]];
    PathSnoc(cfg, s, [Fetch(n, now)], Except(c), mid, Dispatch(n, Answered), Begun(cfg, s, n, now));
    steps := [Fetch(n, now)] + [Dispatch(n, Answered)];
  }

  /** The first instant is replayed; the row has not moved. */
  lemma ReplayFirst(cfg: Config, s: State, n: nat, now: Time, c: Condition) returns (steps: seq<Step>, s': State)
    requires Led(cfg, c) && Overdue(cfg, s, n, now) && (now <= s.clock || c == ClockNotAhead)
    ensures Path(cfg, s, steps, Except(c), s') && s' == NextReplayed(Begun(cfg, s, n, now), n)
    ensures s'.replayed == s.replayed + [Missed(cfg, s, now)[0]]
  {
    var before := BeginReplay(cfg, s, n, now, c);
    s' := NextReplayed(Begun(cfg, s, n, now), n);
    PathSnoc(cfg, s, before, Except(c), Begun(cfg, s, n, now), ReplayNext(n), s');
    steps := before + [ReplayNext(n)];
  }

  /** Nothing but the ledger, the counter of node `n`, its mode and the replayed instants has changed. */
  predicate SameRest(s: State, s': State, n: nat) {
    && n < |s.nodes| && |s'.nodes| == |s.nodes|
    && s'.nodes == s.nodes[n := s.nodes[n].(counter := s'.nodes[n].counter, mode := s'.nodes[n].mode)]
    && s'.flight == s.flight && s'.clock == s.clock && s'.origin == s.origin
    && s'.lock == s.lock && s'.nextSession == s.nextSession
  }

  lemma ExceptAllows(cfg: Config, c: Condition, clock: Time, n: nat, x: nat, failed: bool, at: Time)
    requires Led(cfg, c) && (clock <= at || c == RetryOnTime)
    ensures Allows(cfg, Except(c), clock, n, x, failed, at)
  {
  }

  /** Every handler of the replay succeeds, so the row does not move. */
  lemma ReplayOne(cfg: Config, s: State, n: nat, c: Condition) returns (steps: seq<Step>, s': State)
    requires Led(cfg, c) && Enabled(cfg, s, ReplayNext(n)) && FreshIds(s)
    ensures Path(cfg, s, steps, Except(c), s') && SameRest(s, s', n) && FreshIds(s') && s'.Row() == s.Row()
    ensures s'.nodes[n].mode.Replaying? && s'.nodes[n].mode.now == s.nodes[n].mode.now
    ensures s'.nodes[n].mode.todo == s.nodes[n].mode.todo[1..] && Done(s', s'.nodes[n].mode.current)
    ensures s'.replayed == s.replayed + [s.nodes[n].mode.todo[0]] && s'.swept == s.swept
  {
    var mid := NextReplayed(s, n);
    PathStep(cfg, s, ReplayNext(n), Except(c));
    ExceptAllows(cfg, c, s.clock, n, s.nextId, false, s.clock);
    var rest;
    rest, s' := ExecutionSteps(cfg, mid, n, s.nextId, false, s.clock, Except(c));
    PathOn(cfg, s, [ReplayNext(n)], Except(c), mid, rest, s');
    steps := [ReplayNext(n)] + rest;
    assert s'.flight == s.flight;
  }

  lemma {:induction false} ReplayAll(cfg: Config, s: State, n: nat, c: Condition) returns (steps: seq<Step>, s': State)
    requires Led(cfg, c) && n < |s.nodes| && s.nodes[n].mode.Replaying? && Done(s, s.nodes[n].mode.current) && FreshIds(s)
    ensures Path(cfg, s, steps, Except(c), s') && SameRest(s, s', n) && FreshIds(s') && s'.Row() == s.Row()
    ensures s'.nodes[n].mode.Replaying? && s'.nodes[n].mode.now == s.nodes[n].mode.now
    ensures s'.nodes[n].mode.todo == [] && Done(s', s'.nodes[n].mode.current)
    ensures s'.replayed == s.replayed + s.nodes[n].mode.todo && s'.swept == s.swept
    decreases |s.nodes[n].mode.todo|
  {
    if s.nodes[n].mode.todo == [] {
      return [], s;
    }
    var first, mid := ReplayOne(cfg, s, n, c);
    var rest;
    rest, s' := ReplayAll(cfg, mid, n, c);
    PathOn(cfg, s, first, Except(c), mid, rest, s');
    steps := first + rest;
  }

  /** A whole replay. If its final claim is done the row is at the next fire or above, otherwise it has not moved. */
  lemma WholeReplay(cfg: Config, s: State, n: nat, now: Time, c: Condition, ok: bool) returns (steps: seq<Step>, s': State)
    requires Led(cfg, c) && Overdue(cfg, s, n, now) && FreshIds(s)
    requires (now <= s.clock || c == ClockNotAhead) && (ok || c == FinalClaimDone)
    ensures Path(cfg, s, steps, Except(c), s') && SameRest(s, s', n) && FreshIds(s') && s'.nodes[n].mode.Idle?
    ensures s'.replayed == s.replayed + Missed(cfg, s, now) && s'.swept == s.swept + [now]
    ensures s'.Row() == if ok then Max(s.Row(), cfg.sched.Next(now).value) else s.Row()
  {
    var before := BeginReplay(cfg, s, n, now, c);
    var replays, mid := ReplayAll(cfg, Begun(cfg, s, n, now), n, c);
    s' := EndReplay(cfg, mid, n, c, ok);
    PathOn(cfg, s, before, Except(c), Begun(cfg, s, n, now), replays, mid);
    PathOn(cfg, s, before + replays, Except(c), mid, [ReplayDone(n, ok)], s');
    steps := before + replays + [ReplayDone(n, ok)];
  }

  lemma EndReplay(cfg: Config, s: State, n: nat, c: Condition, ok: bool) returns (s': State)
    requires Led(cfg, c) && Enabled(cfg, s, ReplayDone(n, ok)) && FreshIds(s) && (ok || c == FinalClaimDone)
    requires cfg.sched.Next(s.nodes[n].mode.now).Some?
    ensures Path(cfg, s, [ReplayDone(n, ok)], Except(c), s') && SameRest(s, s', n) && FreshIds(s') && s'.nodes[n].mode.Idle?
    ensures s'.replayed == s.replayed && s'.swept == s.swept + [s.nodes[n].mode.now]
    ensures s'.Row() == if ok then Max(s.Row(), cfg.sched.Next(s.nodes[n].mode.now).value) else s.Row()
  {
    s' := ReplayEnded(cfg, s, n, ok);
    PathStep(cfg, s, ReplayDone(n, ok), Except(c));
    AfterSnoc(s.origin, s.ops, Claim(cfg.sched.Next(s.nodes[n].mode.now).value));
  }

  // ----- The runs ------------------------------------------------------------------------------

  /** A fresh cluster whose row is overdue at `now`. */
  predicate Outage(cfg: Config, s: State, now: Time) {
    && Initial(s) && cfg.opts.missedFire == RunAll && cfg.sched.Next(now).Some?
    && s.clock <= now && s.Row() <= now && s.Row() + 3 * cfg.tick < now && Missed(cfg, s, now) != []
  }

  /** The clock reaches `now` and a node becomes the leader, if there is one to be. */
  lemma ClockMoves(cfg: Config, s: State, now: Time, c: Condition) returns (s': State)
    requires Led(cfg, c) && s.clock <= now
    ensures Path(cfg, s, [Elapse(now)], Except(c), s') && s' == s.(clock := now)
  {
    s' := s.(clock := now);
    PathStep(cfg, s, Elapse(now), Except(c));
  }

  lemma Leads(cfg: Config, s: State, n: nat, c: Condition) returns (s': State)
    requires cfg.hasLeader && n < |s.nodes| && s.nodes[n] == Node(0, Idle, None, false) && s.lock.None?
    ensures Path(cfg, s, [Renew(n)], Except(c), s') && s' == Renewed(s, n)
  {
    s' := Renewed(s, n);
    PathStep(cfg, s, Renew(n), Except(c));
  }

  /** Node 0 leads at `now`. */
  lemma LeaderAt(cfg: Config, s: State, now: Time, c: Condition) returns (steps: seq<Step>, s': State)
    requires cfg.hasLeader && Outage(cfg, s, now) && |s.nodes| > 0
    ensures Path(cfg, s, steps, Except(c), s') && Overdue(cfg, s', 0, now) && s'.clock == now
    ensures s' == Renewed(s.(clock := now), 0) && FreshIds(s')
  {
    var mid := ClockMoves(cfg, s, now, c);
    s' := Leads(cfg, mid, 0, c);
    PathOn(cfg, s, [Elapse(now)], Except(c), mid, [Renew(0)], s');
    steps := [Elapse(now)] + [Renew(0)];
  }

  /** A refused or failed final claim: the next tick of the same leader replays the same instants. */
  lemma FinalClaimNeeded(cfg: Config, s: State, now: Time) returns (steps: seq<Step>)
    requires cfg.hasLeader && Outage(cfg, s, now) && |s.nodes| > 0
    ensures Legal(cfg, s, steps, Except(FinalClaimDone)) && Repeats(Reach(cfg, s, steps).replayed)
  {
    var c := FinalClaimDone;
    var a, m := LeaderAt(cfg, s, now, c);
    var b, t := WholeReplay(cfg, m, 0, now, c, false);
    var d, e := ReplayFirst(cfg, t, 0, now, c);
    PathOn(cfg, s, a, Except(c), m, b, t);
    PathOn(cfg, s, a + b, Except(c), t, d, e);
    steps := a + b + d;
    RepeatsSnoc(s.replayed, Missed(cfg, s, now), Missed(cfg, s, now)[0]);
  }

  /** What makes node 1 repeat the instant that node 0 has just replayed: it finds the row where it was. */
  lemma SecondReplays(cfg: Config, s: State, steps: seq<Step>, m: State, t: Time, now: Time, c: Condition)
    returns (more: seq<Step>)
    requires Path(cfg, s, steps, Except(c), m) && Led(cfg, c) && Overdue(cfg, m, 1, now) && now <= m.clock
    requires m.replayed == [t] && t == Missed(cfg, m, now)[0]
    ensures Legal(cfg, s, more, Except(c)) && Repeats(Reach(cfg, s, more).replayed)
  {
    var last, e := ReplayFirst(cfg, m, 1, now, c);
    PathOn(cfg, s, steps, Except(c), m, last, e);
    more := steps + last;
    assert e.replayed[0] == e.replayed[1];
  }

  /** Node 0 of two replays the first missed instant. */
  lemma FirstReplays(cfg: Config, s: State, now: Time, c: Condition) returns (steps: seq<Step>, s': State)
    requires cfg.hasLeader && Outage(cfg, s, now) && |s.nodes| == 2
    ensures Path(cfg, s, steps, Except(c), s')
    ensures |s'.nodes| == 2 && s'.nodes[1] == Node(0, Idle, None, false) && s'.clock == now && s'.Row() == s.Row()
    ensures s'.replayed == [Missed(cfg, s, now)[0]] && s'.lock.Some? && s'.nodes[0].session == s'.lock
  {
    var a, m := LeaderAt(cfg, s, now, c);
    var b;
    b, s' := ReplayFirst(cfg, m, 0, now, c);
    PathOn(cfg, s, a, Except(c), m, b, s');
    steps := a + b;
  }

  /** Node 1 leads once the lock is free again. */
  lemma Successor(cfg: Config, s: State, steps: seq<Step>, m: State, row: Time, t: Time, now: Time, c: Condition)
    returns (more: seq<Step>)
    requires Path(cfg, s, steps, Except(c), m) && cfg.hasLeader && Outage(cfg, s, now) && row == s.Row()
    requires |m.nodes| == 2 && m.nodes[1] == Node(0, Idle, None, false) && m.lock.None? && m.clock == now && m.Row() == row
    requires m.replayed == [t] && t == Missed(cfg, s, now)[0]
    ensures Legal(cfg, s, more, Except(c)) && Repeats(Reach(cfg, s, more).replayed)
  {
    var led := Leads(cfg, m, 1, c);
    PathOn(cfg, s, steps, Except(c), m, [Renew(1)], led);
    more := SecondReplays(cfg, s, steps + [Renew(1)], led, t, now, c);
  }

  /** Node 0 dies and the server ends its session. */
  lemma DieAndFree(cfg: Config, m: State) returns (steps: seq<Step>, s': State)
    requires cfg.hasLeader && |m.nodes| == 2 && m.lock.Some? && m.nodes[1].session.None?
    ensures Path(cfg, m, steps, Except(NoCrashInReplay), s')
    ensures s' == Crashed(m, 0).(lock := None)
  {
    var dead := Crashed(m, 0);
    PathStep(cfg, m, Crash(0), Except(NoCrashInReplay));
    s' := dead.(lock := None);
    PathSnoc(cfg, m, [Crash(0)], Except(NoCrashInReplay), dead, SessionEnds(m.lock.value), s');
    steps := [Crash(0)] + [SessionEnds(m.lock.value)];
  }

  /** A crash in the middle of a replay: the next leader finds the row where it was. */
  lemma NoCrashNeeded(cfg: Config, s: State, now: Time) returns (steps: seq<Step>)
    requires cfg.hasLeader && Outage(cfg, s, now) && |s.nodes| == 2
    ensures Legal(cfg, s, steps, Except(NoCrashInReplay)) && Repeats(Reach(cfg, s, steps).replayed)
  {
    var c := NoCrashInReplay;
    var a, m := FirstReplays(cfg, s, now, c);
    var b, free := DieAndFree(cfg, m);
    PathOn(cfg, s, a, Except(c), m, b, free);
    steps := Successor(cfg, s, a + b, free, s.Row(), Missed(cfg, s, now)[0], now, c);
  }

  /** A dropped leader connection: the server grants the lock to the next node while the first one still replays. */
  lemma ConnectionNeeded(cfg: Config, s: State, now: Time) returns (steps: seq<Step>)
    requires cfg.hasLeader && Outage(cfg, s, now) && |s.nodes| == 2
    ensures Legal(cfg, s, steps, Except(ConnectionKept)) && Repeats(Reach(cfg, s, steps).replayed)
  {
    var c := ConnectionKept;
    var a, m := FirstReplays(cfg, s, now, c);
    var lost := Apply(cfg, m, ConnectionLost(0));
    PathSnoc(cfg, s, a, Except(c), m, ConnectionLost(0), lost);
    steps := Successor(cfg, s, a + [ConnectionLost(0)], lost, s.Row(), Missed(cfg, s, now)[0], now, c);
  }

  /** No leader configured: every node replays. */
  lemma LeaderNeeded(cfg: Config, s: State, now: Time) returns (steps: seq<Step>)
    requires !cfg.hasLeader && Outage(cfg, s, now) && |s.nodes| == 2
    ensures Legal(cfg, s, steps, Except(LeaderConfigured)) && Repeats(Reach(cfg, s, steps).replayed)
  {
    var c := LeaderConfigured;
    var m := ClockMoves(cfg, s, now, c);
    var a, t := ReplayFirst(cfg, m, 0, now, c);
    PathOn(cfg, s, [Elapse(now)], Except(c), m, a, t);
    steps := SecondReplays(cfg, s, [Elapse(now)] + a, t, Missed(cfg, s, now)[0], now, c);
  }

  // ----- A retry below the replayed instants ---------------------------------------------------

  /** A job that is due when the cluster starts, and whose next fire but one is missed at `now`. */
  predicate RetriedOutage(cfg: Config, s: State, now: Time) {
    && Initial(s) && s.Row() == s.clock && |s.nodes| > 0 && cfg.hasLeader && cfg.tick >= 0
    && cfg.opts.missedFire == RunAll && cfg.opts.retry.maxAttempts >= 2
    && cfg.sched.Next(s.clock).Some? && cfg.sched.Next(now).Some?
    && var v := cfg.sched.Next(s.clock).value;
       s.clock < v && v + 3 * cfg.tick < now && v < cfg.sched.Next(now).value
       && Fires(cfg.sched, v, now, MAX_CATCHUP_INSTANTS) != []
  }

  /** Node 0 leads and launches the job. */
  lemma LeadAndLaunch(cfg: Config, s: State, now: Time, c: Condition) returns (steps: seq<Step>, s': State)
    requires RetriedOutage(cfg, s, now)
    ensures Path(cfg, s, steps, Except(c), s')
    ensures s' == AfterLaunch(Renewed(s, 0), 0, cfg.sched.Next(s.clock).value)
  {
    var v := cfg.sched.Next(s.clock).value;
    var led := Leads(cfg, s, 0, c);
    var a := LaunchSteps(cfg, led, 0, s.clock, v, Except(c));
    s' := AfterLaunch(led, 0, v);
    PathOn(cfg, s, [Renew(0)], Except(c), led, a, s');
    steps := [Renew(0)] + a;
  }

  /** The retry of execution `x` for the instant `v` is not written yet. */
  predicate Held(s: State, x: nat, v: Time) {
    && |s.nodes| > 0 && s.nodes[0].mode.Idle? && s.nodes[0].session.Some?
    && s.Row() == v && s.replayed == [] && FreshIds(s)
    && x in s.flight && s.flight[x].phase.Retrying? && s.flight[x].phase.at == v
  }

  /** Then its handler fails. */
  lemma FailAndHold(cfg: Config, s: State, now: Time, c: Condition) returns (steps: seq<Step>, s': State)
    requires RetriedOutage(cfg, s, now)
    ensures Path(cfg, s, steps, Except(c), s') && s'.clock == s.clock
    ensures Held(s', s.nextId, cfg.sched.Next(s.clock).value)
  {
    var v, x := cfg.sched.Next(s.clock).value, s.nextId;
    var a, mid := LeadAndLaunch(cfg, s, now, c);
    ExceptAllows(cfg, c, s.clock, 0, x, true, v);
    s' := StartAndFinish(cfg, mid, 0, x, true, v, Except(c));
    PathOn(cfg, s, a, Except(c), mid, [Start(x), Finish(x, true, v)], s');
    steps := a + [Start(x), Finish(x, true, v)];
    AfterSnoc(s.origin, s.ops, Claim(v));
  }

  /** The replay of the instants after `v` is over, the retry for `v` is written, and they are replayed again. */
  lemma ReplayRetryReplay(cfg: Config, s: State, x: nat, v: Time, now: Time, c: Condition) returns (steps: seq<Step>, s': State)
    requires Led(cfg, c) && Overdue(cfg, s, 0, now) && FreshIds(s) && s.Row() == v && cfg.sched.Next(now).value > v
    requires x in s.flight && s.flight[x].phase.Retrying? && s.flight[x].phase.at == v
    requires (now <= s.clock || c == ClockNotAhead) && (s.clock <= v || c == RetryOnTime) && c != FinalClaimDone
    ensures Path(cfg, s, steps, Except(c), s') && Repeats(s'.replayed)
  {
    var a, m := WholeReplay(cfg, s, 0, now, c, true);
    var back := WroteRetry(m, x, true);
    PathSnoc(cfg, s, a, Except(c), m, WriteRetry(x, true), back);
    AfterSnoc(m.origin, m.ops, Retry(v));
    var b;
    b, s' := ReplayFirst(cfg, back, 0, now, c);
    PathOn(cfg, s, a + [WriteRetry(x, true)], Except(c), back, b, s');
    steps := a + [WriteRetry(x, true)] + b;
    RepeatsSnoc(s.replayed, Missed(cfg, s, now), Missed(cfg, s, now)[0]);
  }

  /** A retry that is written late pulls the row below instants that were replayed in the meantime. */
  lemma RetryOnTimeNeeded(cfg: Config, s: State, now: Time) returns (steps: seq<Step>)
    requires RetriedOutage(cfg, s, now) && s.clock <= now
    ensures Legal(cfg, s, steps, Except(RetryOnTime)) && Repeats(Reach(cfg, s, steps).replayed)
  {
    var c := RetryOnTime;
    var a, m := FailAndHold(cfg, s, now, c);
    var t := ClockMoves(cfg, m, now, c);
    var b, e := ReplayRetryReplay(cfg, t, s.nextId, cfg.sched.Next(s.clock).value, now, c);
    PathOn(cfg, s, a, Except(c), m, [Elapse(now)], t);
    PathOn(cfg, s, a + [Elapse(now)], Except(c), t, b, e);
    steps := a + [Elapse(now)] + b;
  }

  /** A node whose clock is ahead replays instants of the future; a retry that is on time pulls the row below. */
  lemma ClockNeeded(cfg: Config, s: State, now: Time) returns (steps: seq<Step>)
    requires RetriedOutage(cfg, s, now)
    ensures Legal(cfg, s, steps, Except(ClockNotAhead)) && Repeats(Reach(cfg, s, steps).replayed)
  {
    var c := ClockNotAhead;
    var a, m := FailAndHold(cfg, s, now, c);
    var b, e := ReplayRetryReplay(cfg, m, s.nextId, cfg.sched.Next(s.clock).value, now, c);
    PathOn(cfg, s, a, Except(c), m, b, e);
    steps := a + b;
  }

  // ----- Instants the cap cuts off -------------------------------------------------------------

  /** What was missed when the replay of this window ended stays missed in every steady continuation. */
  lemma LostForGood(cfg: Config, s: State, steps: seq<Step>, more: seq<Step>, now: Time, v: Time)
    requires Advancing(cfg.sched) && Initial(s) && Legal(cfg, s, steps + more, Steady)
    requires now in Reach(cfg, s, steps).swept && v <= now && v !in Reach(cfg, s, steps).replayed
    ensures v !in Reach(cfg, s, steps + more).replayed
  {
    assert (steps + more)[..|steps|] == steps;
    MissedStaysMissed(cfg, s, steps + more, |steps|, now, v);
  }

  /** The leader of a job that fires every second is back after an hour: it replays the first 256 seconds. */
  lemma HourReplayed(cfg: Config, s: State) returns (steps: seq<Step>, e: State)
    requires cfg.hasLeader && cfg.opts.missedFire == RunAll && cfg.sched == Periodic(SECOND, 0)
    requires cfg.tick == SECOND && s == Fresh(0, 1)
    ensures Path(cfg, s, steps, Steady, e) && 3600 * SECOND in e.swept
    ensures 256 * SECOND in e.replayed && 257 * SECOND !in e.replayed
  {
    var now, c := 3600 * SECOND, LeaderConfigured;
    HourOfSeconds();
    var a, m := LeaderAt(cfg, s, now, c);
    var b;
    b, e := WholeReplay(cfg, m, 0, now, c, true);
    PathOn(cfg, s, a, Except(c), m, b, e);
    steps := a + b;
    RuleWeakens(cfg, s, steps, Except(c), Steady);
  }

  /** The documented case: after an outage of an hour the 257th second is a missed fire, and it is replayed neither on
      the first tick nor on any later one. */
  lemma HourIsNotMadeUpFor(cfg: Config) returns (steps: seq<Step>)
    requires cfg.hasLeader && cfg.opts.missedFire == RunAll && cfg.sched == Periodic(SECOND, 0) && cfg.tick == SECOND
    ensures Initial(Fresh(0, 1)) && Legal(cfg, Fresh(0, 1), steps, Steady)
    ensures IsFire(cfg.sched, 257 * SECOND) && 256 * SECOND in Reach(cfg, Fresh(0, 1), steps).replayed
    ensures forall more :: Legal(cfg, Fresh(0, 1), steps + more, Steady) ==>
              257 * SECOND !in Reach(cfg, Fresh(0, 1), steps + more).replayed
  {
    var s, e := Fresh(0, 1), Fresh(0, 1);
    steps, e := HourReplayed(cfg, s);
    HourOfSeconds();
    PeriodicIsGrid(SECOND, 0);
    forall more | Legal(cfg, s, steps + more, Steady)
      ensures 257 * SECOND !in Reach(cfg, s, steps + more).replayed
    {
      LostForGood(cfg, s, steps, more, 3600 * SECOND, 257 * SECOND);
    }
  }

  /** The conditions on the runs above can be met. */
  lemma OutagesExist(cfg: Config)
    requires cfg.hasLeader && cfg.opts.missedFire == RunAll && cfg.opts.retry.maxAttempts >= 2
    requires cfg.sched == Periodic(SECOND, 0) && cfg.tick == SECOND
    ensures Outage(cfg, Fresh(0, 2), 3600 * SECOND) && RetriedOutage(cfg, Fresh(0, 2), 3600 * SECOND)
  {
    SecondIsFire(0);
    SecondIsFire(3600);
    NextEndsBlock(0, SECOND, 0);
    NextEndsBlock(3600 * SECOND, SECOND, 0);
    NextEndsBlock(SECOND, SECOND, 0);
    SecondIsFire(1);
  }
}
