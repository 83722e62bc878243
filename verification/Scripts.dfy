/** Runs of the protocol in pieces: paths that can be joined, a launch, and one execution from its start to its
    record. */
module Scripts {
  import opened Basics
  import opened Schedules
  import opened Jobs
  import opened RowLedger
  import opened Cluster

  /** The steps lead from one state to another, each within the rule. */
  predicate Path(cfg: Config, s: State, steps: seq<Step>, rule: Rule, s': State) {
    Legal(cfg, s, steps, rule) && Reach(cfg, s, steps) == s'
  }

  lemma PathStep(cfg: Config, s: State, step: Step, rule: Rule)
    requires Enabled(cfg, s, step) && rule(cfg, s, step)
    ensures Path(cfg, s, [step], rule, Apply(cfg, s, step))
  {
    RunSnoc(cfg, s, [], step, rule);
    assert [] + [step] == [step];
  }

  lemma PathSnoc(cfg: Config, s: State, steps: seq<Step>, rule: Rule, m: State, step: Step, s': State)
    requires Path(cfg, s, steps, rule, m) && Enabled(cfg, m, step) && rule(cfg, m, step) && s' == Apply(cfg, m, step)
    ensures Path(cfg, s, steps + [step], rule, s')
  {
    RunSnoc(cfg, s, steps, step, rule);
  }

  lemma {:induction false} PathOn(cfg: Config, s: State, a: seq<Step>, rule: Rule, m: State, b: seq<Step>, s': State)
    requires Path(cfg, s, a, rule, m) && Path(cfg, m, b, rule, s')
    ensures Path(cfg, s, a + b, rule, s')
  {
    if b == [] {
      assert a + b == a;
    } else {
      var before, last := b[..|b| - 1], b[|b| - 1];
      var t := Reach(cfg, m, before);
      PathOn(cfg, s, a, rule, m, before, t);
      PathSnoc(cfg, s, a + before, rule, t, last, s');
      assert a + before + [last] == a + b;
    }
  }

  /** A run within a rule is one within any weaker rule. */
  lemma {:induction false} RuleWeakens(cfg: Config, s: State, steps: seq<Step>, strong: Rule, weak: Rule)
    requires Legal(cfg, s, steps, strong)
    requires forall e, step :: strong(cfg, e, step) ==> weak(cfg, e, step)
    ensures Legal(cfg, s, steps, weak)
  {
    if steps != [] { RuleWeakens(cfg, s, steps[..|steps| - 1], strong, weak); }
  }

  // ----- One execution -------------------------------------------------------------------------

  predicate Awaits(s: State, n: nat, x: nat) {
    n < |s.nodes| && x in s.flight && s.flight[x].phase.Pending? && s.flight[x].node == n
  }

  /** Execution `x` is in flight on node `n`. */
  predicate Flies(s: State, n: nat, x: nat) { x in s.flight && s.flight[x].node == n }

  /** The rule lets execution `x` of node `n` run through, with a retry for `at` if it asks for one. */
  ghost predicate Allows(cfg: Config, rule: Rule, clock: Time, n: nat, x: nat, failed: bool, at: Time) {
    && (forall s: State :: Flies(s, n, x) ==>
          rule(cfg, s, Start(x)) && rule(cfg, s, Finish(x, failed, at)) && rule(cfg, s, Record(x, true)))
    && forall s: State :: Flies(s, n, x) && s.clock == clock && s.flight[x].phase.Retrying? && s.flight[x].phase.at == at ==>
         rule(cfg, s, WriteRetry(x, true))
  }

  /** Execution `x` on node `n` is over: counter, row and records have moved on, nothing else. */
  predicate Settled(cfg: Config, s: State, s': State, n: nat, x: nat, failed: bool, at: Time)
    requires n < |s.nodes|
  {
    var c, max := s.nodes[n].counter, cfg.opts.retry.maxAttempts;
    s' == s.(nodes := s.nodes[n := s.nodes[n].(counter := NextCounter(c, failed, max))],
             ops := if AsksRetry(failed, c + 1, max) then s.ops + [Retry(at)] else s.ops,
             flight := s.flight - {x}, recorded := s.recorded + 1,
             started := s.started + 1, low := s'.low, requested := s'.requested, ended := s'.ended)
  }

  /** Execution `x` is judged; its retry or its record is still to be written. */
  predicate JudgedTo(cfg: Config, s: State, s': State, n: nat, x: nat, failed: bool, at: Time)
    requires n < |s.nodes| && x in s.flight
  {
    var c, max := s.nodes[n].counter, cfg.opts.retry.maxAttempts;
    var phase := if AsksRetry(failed, c + 1, max) then Retrying(c + 1, at) else Recording(c + 1, OutcomeOf(failed, c + 1, max));
    s' == s.(nodes := s.nodes[n := s.nodes[n].(counter := NextCounter(c, failed, max))],
             flight := s.flight[x := s.flight[x].(phase := phase)],
             started := s.started + 1, low := s'.low, requested := s'.requested, ended := s'.ended)
  }

  lemma StartAndFinish(cfg: Config, s: State, n: nat, x: nat, failed: bool, at: Time, rule: Rule) returns (s': State)
    requires Awaits(s, n, x) && Allows(cfg, rule, s.clock, n, x, failed, at)
    ensures Path(cfg, s, [Start(x), Finish(x, failed, at)], rule, s') && JudgedTo(cfg, s, s', n, x, failed, at)
  {
    var mid := Started(cfg, s, x);
    s' := Finished(cfg, mid, x, failed, at);
    PathStep(cfg, s, Start(x), rule);
    PathSnoc(cfg, s, [Start(x)], rule, mid, Finish(x, failed, at), s');
    assert [Start(x)] + [Finish(x, failed, at)] == [Start(x), Finish(x, failed, at)];
    FinishedForm(cfg, s, n, x, failed, at);
  }

  lemma FinishedForm(cfg: Config, s: State, n: nat, x: nat, failed: bool, at: Time)
    requires Awaits(s, n, x)
    ensures JudgedTo(cfg, s, Finished(cfg, Started(cfg, s, x), x, failed, at), n, x, failed, at)
  {
    var s' := Finished(cfg, Started(cfg, s, x), x, failed, at);
    assert s'.flight == s.flight[x := s'.flight[x]];
    assert s'.nodes == s.nodes[n := s'.nodes[n]];
  }

  lemma WriteAndRecord(cfg: Config, s: State, n: nat, x: nat, at: Time, rule: Rule) returns (steps: seq<Step>, s': State)
    requires Flies(s, n, x) && Allows(cfg, rule, s.clock, n, x, true, at)
    requires s.flight[x].phase.Retrying? && s.flight[x].phase.at == at
    ensures Path(cfg, s, steps, rule, s')
    ensures s' == s.(ops := s.ops + [Retry(at)], flight := s.flight - {x}, recorded := s.recorded + 1)
  {
    var mid := WroteRetry(s, x, true);
    s' := Recorded(mid, x, true);
    PathStep(cfg, s, WriteRetry(x, true), rule);
    PathSnoc(cfg, s, [WriteRetry(x, true)], rule, mid, Record(x, true), s');
    steps := [WriteRetry(x, true)] + [Record(x, true)];
    assert s'.flight == s.flight - {x};
  }

  lemma RecordOnly(cfg: Config, s: State, n: nat, x: nat, failed: bool, at: Time, rule: Rule) returns (s': State)
    requires Flies(s, n, x) && s.flight[x].phase.Recording? && Allows(cfg, rule, s.clock, n, x, failed, at)
    ensures Path(cfg, s, [Record(x, true)], rule, s')
    ensures s' == s.(flight := s.flight - {x}, recorded := s.recorded + 1)
  {
    s' := Recorded(s, x, true);
    PathStep(cfg, s, Record(x, true), rule);
  }

  lemma ExecutionSteps(cfg: Config, s: State, n: nat, x: nat, failed: bool, at: Time, rule: Rule)
    returns (steps: seq<Step>, s': State)
    requires Awaits(s, n, x) && Allows(cfg, rule, s.clock, n, x, failed, at)
    ensures Path(cfg, s, steps, rule, s') && Settled(cfg, s, s', n, x, failed, at)
  {
    var rest: seq<Step>;
    var judged := StartAndFinish(cfg, s, n, x, failed, at, rule);
    rest, s' := WriteUp(cfg, s, judged, n, x, failed, at, rule);
    steps := [Start(x), Finish(x, failed, at)] + rest;
    PathOn(cfg, s, [Start(x), Finish(x, failed, at)], rule, judged, rest, s');
  }

  lemma WriteUp(cfg: Config, s: State, judged: State, n: nat, x: nat, failed: bool, at: Time, rule: Rule)
    returns (steps: seq<Step>, s': State)
    requires Awaits(s, n, x) && Allows(cfg, rule, s.clock, n, x, failed, at) && JudgedTo(cfg, s, judged, n, x, failed, at)
    ensures Path(cfg, judged, steps, rule, s') && Settled(cfg, s, s', n, x, failed, at)
  {
    if judged.flight[x].phase.Retrying? {
      steps, s' := WriteAndRecord(cfg, judged, n, x, at, rule);
    } else {
      s' := RecordOnly(cfg, judged, n, x, failed, at, rule);
      steps := [Record(x, true)];
    }
    assert judged.flight - {x} == s.flight - {x};
  }

  // ----- One half of it ------------------------------------------------------------------------

  predicate RunsAs(s: State, n: nat, x: nat, attempt: nat) {
    n < |s.nodes| && Flies(s, n, x) && s.flight[x].phase == Running(attempt)
  }

  /** A running execution is over. */
  predicate Over(cfg: Config, s: State, s': State, n: nat, x: nat, attempt: nat, failed: bool, at: Time)
    requires n < |s.nodes|
  {
    var asks := AsksRetry(failed, attempt, cfg.opts.retry.maxAttempts);
    s' == s.(nodes := if asks then s.nodes else s.nodes[n := s.nodes[n].(counter := 0)],
             ops := if asks then s.ops + [Retry(at)] else s.ops,
             flight := s.flight - {x}, recorded := s.recorded + 1, requested := s'.requested, ended := s'.ended)
  }

  lemma FinishSteps(cfg: Config, s: State, n: nat, x: nat, attempt: nat, failed: bool, at: Time, rule: Rule)
    returns (steps: seq<Step>, s': State)
    requires RunsAs(s, n, x, attempt) && Allows(cfg, rule, s.clock, n, x, failed, at)
    ensures Path(cfg, s, steps, rule, s') && Over(cfg, s, s', n, x, attempt, failed, at)
  {
    var judged, rest := Finished(cfg, s, x, failed, at), [];
    PathStep(cfg, s, Finish(x, failed, at), rule);
    if AsksRetry(failed, attempt, cfg.opts.retry.maxAttempts) {
      var written, done := WriteAndRecord(cfg, judged, n, x, at, rule);
      rest, s' := written, done;
    } else {
      s' := RecordOnly(cfg, judged, n, x, failed, at, rule);
      rest := [Record(x, true)];
    }
    steps := [Finish(x, failed, at)] + rest;
    PathOn(cfg, s, [Finish(x, failed, at)], rule, judged, rest, s');
    assert judged.flight - {x} == s.flight - {x};
  }

  // ----- A tick that launches ------------------------------------------------------------------

  /** A node in the select loop for which the row is due at `now` and would be launched. */
  predicate CanLaunch(cfg: Config, s: State, n: nat, now: Time, v: Time) {
    && n < |s.nodes| && s.nodes[n].mode.Idle? && s.Row() <= now && s.Row() < v
    && Classify(cfg.opts, Leadership(cfg, s.nodes[n]), cfg.tick, s.Row(), now, cfg.sched.Next(now)) == Launch(v)
  }

  /** A goroutine for the row's fire is in flight; the row is at the target. */
  function AfterLaunch(s: State, n: nat, v: Time): State {
    s.(ops := s.ops + [Claim(v)], flight := s.flight[s.nextId := Exec(n, s.Row(), Pending)],
       nextId := s.nextId + 1, launched := s.launched + 1)
  }

  lemma LaunchSteps(cfg: Config, s: State, n: nat, now: Time, v: Time, rule: Rule) returns (steps: seq<Step>)
    requires CanLaunch(cfg, s, n, now, v) && rule(cfg, s, Fetch(n, now))
    requires rule(cfg, SetMode(s, n, Fetched(now, s.Row())), Dispatch(n, Answered))
    ensures Path(cfg, s, steps, rule, AfterLaunch(s, n, v))
  {
    var mid := SetMode(s, n, Fetched(now, s.Row()));
    PathStep(cfg, s, Fetch(n, now), rule);
    assert AfterLaunch(s, n, v).nodes == s.nodes[n := s.nodes[n].(mode := Idle)];
    PathSnoc(cfg, s, [Fetch(n, now)], rule, mid, Dispatch(n, Answered), AfterLaunch(s, n, v));
    steps := [Fetch(n, now)] + [Dispatch(n, Answered)];
  }

  /** A fresh cluster of `n` nodes around a row that is due at `t`. */
  function Fresh(t: Time, n: nat): State {
    State(t, t, t, [], seq(n, _ => Node(0, Idle, None, false)), map[], 0, None, 0,
          0, 0, 0, 0, 0, 0, 0, 0, 0, 0, [], [])
  }
}
