/** Nothing executed is forgotten: created executions are in flight, recorded, or accounted as lost. */
module Conservation {
  import opened Basics
  import opened Schedules
  import opened Jobs
  import opened RowLedger
  import opened Cluster
  import opened AttemptBudget

  predicate Conserved(s: State) {
    s.recorded + s.unrecorded + s.killed + |s.flight.Keys| == s.launched + s.replays
  }

  lemma SpawnKeys(s: State, n: nat, fire: Time)
    requires FreshIds(s)
    ensures |Spawn(s, n, fire).flight.Keys| == |s.flight.Keys| + 1
  {
    assert Spawn(s, n, fire).flight.Keys == s.flight.Keys + {s.nextId};
  }

  lemma PutKeys(flight: map<nat, Exec>, id: nat, e: Exec)
    requires id in flight
    ensures flight[id := e].Keys == flight.Keys
  {
  }

  lemma CrashConserves(s: State, n: nat)
    requires Conserved(s) && n < |s.nodes|
    ensures Conserved(Crashed(s, n))
  {
    var rest := Elsewhere(s.flight, n);
    assert s.flight.Keys == rest.Keys + (s.flight.Keys - rest.Keys);
  }

  lemma RecordConserves(s: State, id: nat, ok: bool)
    requires Conserved(s) && id in s.flight
    ensures Conserved(Recorded(s, id, ok))
  {
    assert s.flight.Keys == (s.flight - {id}).Keys + {id};
  }

  lemma DispatchConserves(cfg: Config, s: State, n: nat, call: CallResult)
    requires Conserved(s) && FreshIds(s) && Enabled(cfg, s, Dispatch(n, call))
    ensures Conserved(Dispatched(cfg, s, n, call))
  {
    SpawnKeys(s, n, s.nodes[n].mode.fire);
  }

  lemma StepConserves(cfg: Config, s: State, step: Step)
    requires Conserved(s) && FreshIds(s) && Enabled(cfg, s, step)
    ensures Conserved(Apply(cfg, s, step))
  {
    match step {
      case Dispatch(n, call) => DispatchConserves(cfg, s, n, call);
      case ReplayNext(n) => SpawnKeys(s, n, s.nodes[n].mode.todo[0]);
      case Start(id) => PutKeys(s.flight, id, Apply(cfg, s, step).flight[id]);
      case Finish(id, _, _) => PutKeys(s.flight, id, Apply(cfg, s, step).flight[id]);
      case WriteRetry(id, _) => PutKeys(s.flight, id, Apply(cfg, s, step).flight[id]);
      case Record(id, ok) => RecordConserves(s, id, ok);
      case Crash(n) => CrashConserves(s, n);
      case _ =>
    }
  }

  /** In every run: records + records lost to storage errors + executions killed by crashes +
      executions in flight = won claims that execute + replayed executions. */
  lemma {:induction false} ExecutionsConserved(cfg: Config, s: State, steps: seq<Step>, rule: Rule)
    requires Initial(s) && Legal(cfg, s, steps, rule)
    ensures Conserved(Reach(cfg, s, steps))
  {
    if steps != [] {
      var before, last := steps[..|steps| - 1], steps[|steps| - 1];
      ExecutionsConserved(cfg, s, before, rule);
      RunKeepsBudget(cfg, s, before, rule);
      StepConserves(cfg, Reach(cfg, s, before), last);
    }
  }

  /** No crash, and every record is stored. */
  predicate Faultless(cfg: Config, s: State, step: Step) {
    !step.Crash? && (step.Record? ==> step.ok)
  }

  lemma StepFaultless(cfg: Config, s: State, step: Step)
    requires Enabled(cfg, s, step) && Faultless(cfg, s, step)
    ensures Apply(cfg, s, step).unrecorded == s.unrecorded && Apply(cfg, s, step).killed == s.killed
  {
  }

  lemma {:induction false} FaultlessRuns(cfg: Config, s: State, steps: seq<Step>)
    requires Initial(s) && Legal(cfg, s, steps, Faultless)
    ensures Reach(cfg, s, steps).unrecorded == Reach(cfg, s, steps).killed == 0
  {
    if steps != [] {
      var before, last := steps[..|steps| - 1], steps[|steps| - 1];
      FaultlessRuns(cfg, s, before);
      StepFaultless(cfg, Reach(cfg, s, before), last);
    }
  }

  /** Without faults the records trail the executions created by exactly those in flight; once a drain
      has found nothing in flight, they are equal. */
  lemma RecordsMatchExecutions(cfg: Config, s: State, steps: seq<Step>)
    requires Initial(s) && Legal(cfg, s, steps, Faultless)
    ensures var e := Reach(cfg, s, steps);
            && e.recorded + |e.flight.Keys| == e.launched + e.replays
            && (e.flight == map[] ==> e.recorded == e.launched + e.replays)
  {
    ExecutionsConserved(cfg, s, steps, Faultless);
    FaultlessRuns(cfg, s, steps);
  }

  // ----- The ledger counts the run -------------------------------------------------------------

  type Weight = (Config, State, Step) -> nat

  /** The sum of the weights of the steps, each in the state it is taken in. */
  function Total(cfg: Config, s: State, steps: seq<Step>, weight: Weight): nat {
    if steps == [] then 0
    else
      var before, last := steps[..|steps| - 1], steps[|steps| - 1];
      Total(cfg, s, before, weight) + weight(cfg, Reach(cfg, s, before), last)
  }

  function Starts(cfg: Config, s: State, step: Step): nat { Ind(step.Start?) }

  function Finishes(cfg: Config, s: State, step: Step): nat { Ind(step.Finish?) }

  function Crashes(cfg: Config, s: State, step: Step): nat { Ind(step.Crash?) }

  function Records(cfg: Config, s: State, step: Step): nat { Ind(step.Record? && step.ok) }

  function LostRecords(cfg: Config, s: State, step: Step): nat { Ind(step.Record? && !step.ok) }

  function ReplaysInstant(cfg: Config, s: State, step: Step): nat { Ind(step.ReplayNext?) }

  /** A node decides about the row it has fetched. */
  predicate Decides(s: State, step: Step) {
    step.Dispatch? && step.node < |s.nodes| && s.nodes[step.node].mode.Fetched?
  }

  /** A claim that is won and answered for a row to be launched. */
  function Launches(cfg: Config, s: State, step: Step): nat {
    Ind(Decides(s, step) && step.call.Answered?
        && Decide(cfg, s.nodes[step.node]).Launch? && s.Row() < Decide(cfg, s.nodes[step.node]).target)
  }

  /** A replayed instant, or the execution of a missed window without one. */
  function Replayed(cfg: Config, s: State, step: Step): nat {
    Ind(step.ReplayNext?
        || (Decides(s, step) && Decide(cfg, s.nodes[step.node]).Replay?
            && var mode := s.nodes[step.node].mode; Fires(cfg.sched, mode.fire, mode.now, MAX_CATCHUP_INSTANTS) == []))
  }

  /** The executions that a crash ends. */
  function Kills(cfg: Config, s: State, step: Step): nat {
    if step.Crash? then |set id | id in s.flight && s.flight[id].node == step.node| else 0
  }

  /** The counters that the results speak of are counts of the steps of the run: attempts started, handler
      results judged (each asks for a retry or ends a streak), crashes, records written and lost, executions
      launched, replayed and killed, and replayed instants. */
  lemma {:induction false} LedgerCountsSteps(cfg: Config, s: State, steps: seq<Step>, rule: Rule)
    requires Initial(s) && Legal(cfg, s, steps, rule)
    ensures var e := Reach(cfg, s, steps);
            && e.started == Total(cfg, s, steps, Starts)
            && e.requested + e.ended == Total(cfg, s, steps, Finishes)
            && e.crashes == Total(cfg, s, steps, Crashes)
            && e.recorded == Total(cfg, s, steps, Records)
            && e.unrecorded == Total(cfg, s, steps, LostRecords)
            && e.launched == Total(cfg, s, steps, Launches)
            && e.replays == Total(cfg, s, steps, Replayed)
            && e.killed == Total(cfg, s, steps, Kills)
            && |e.replayed| == Total(cfg, s, steps, ReplaysInstant)
  {
    if steps != [] {
      var before, last := steps[..|steps| - 1], steps[|steps| - 1];
      LedgerCountsSteps(cfg, s, before, rule);
      StepCounts(cfg, Reach(cfg, s, before), last);
    }
  }

  /** How a step moves the counters. */
  predicate Moves(cfg: Config, s: State, step: Step, s': State) {
    && s'.started == s.started + Starts(cfg, s, step)
    && s'.requested + s'.ended == s.requested + s.ended + Finishes(cfg, s, step)
    && s'.crashes == s.crashes + Crashes(cfg, s, step)
    && s'.recorded == s.recorded + Records(cfg, s, step)
    && s'.unrecorded == s.unrecorded + LostRecords(cfg, s, step)
    && s'.launched == s.launched + Launches(cfg, s, step)
    && s'.replays == s.replays + Replayed(cfg, s, step)
    && s'.killed == s.killed + Kills(cfg, s, step)
    && |s'.replayed| == |s.replayed| + ReplaysInstant(cfg, s, step)
  }

  lemma StepCounts(cfg: Config, s: State, step: Step)
    requires Enabled(cfg, s, step)
    ensures Moves(cfg, s, step, Apply(cfg, s, step))
  {
    match step {
      case Dispatch(n, call) => DispatchCounts(cfg, s, n, call);
      case Start(id) => assert Moves(cfg, s, step, Started(cfg, s, id));
      case Finish(id, failed, retryAt) => assert Moves(cfg, s, step, Finished(cfg, s, id, failed, retryAt));
      case Crash(n) => CrashCounts(cfg, s, n);
      case ReplayNext(n) => assert Moves(cfg, s, step, NextReplayed(s, n));
      case _ =>
    }
  }

  lemma DispatchCounts(cfg: Config, s: State, n: nat, call: CallResult)
    requires Enabled(cfg, s, Dispatch(n, call))
    ensures Moves(cfg, s, Dispatch(n, call), Dispatched(cfg, s, n, call))
  {
  }

  lemma CrashCounts(cfg: Config, s: State, n: nat)
    requires n < |s.nodes|
    ensures Moves(cfg, s, Crash(n), Crashed(s, n))
  {
    assert s.flight.Keys - Elsewhere(s.flight, n).Keys == set id | id in s.flight && s.flight[id].node == n;
  }

  // ----- Records and starts --------------------------------------------------------------------

  /** Every record, and every execution on its way to one, has been judged. */
  predicate RecordInv(cfg: Config, s: State) {
    s.recorded + s.unrecorded + Count(s.flight, MaxAttempts(cfg), RetryStage) + Count(s.flight, MaxAttempts(cfg), RecordStage)
    <= s.requested + s.ended
  }

  lemma PutKeepsRecords(cfg: Config, s: State, s': State, id: nat)
    requires RecordInv(cfg, s) && id in s.flight && id in s'.flight && s'.flight == s.flight[id := s'.flight[id]]
    requires s'.recorded == s.recorded && s'.unrecorded == s.unrecorded
    requires var m := MaxAttempts(cfg);
             var now, was := StageOf(m, s'.flight[id]), StageOf(m, s.flight[id]);
             Ind(now == RetryStage || now == RecordStage) - Ind(was == RetryStage || was == RecordStage)
             <= s'.requested + s'.ended - s.requested - s.ended
    ensures RecordInv(cfg, s')
  {
    var m := MaxAttempts(cfg);
    CountPut(s.flight, id, s'.flight[id], m, RetryStage);
    CountPut(s.flight, id, s'.flight[id], m, RecordStage);
  }

  /** New executions are pending. */
  lemma SpawnKeepsRecords(cfg: Config, s: State, s': State, n: nat, fire: Time)
    requires RecordInv(cfg, s) && s.nextId !in s.flight
    requires s'.flight == s.flight || s'.flight == s.flight[s.nextId := Exec(n, fire, Pending)]
    requires s'.recorded == s.recorded && s'.unrecorded == s.unrecorded
    requires s'.requested == s.requested && s'.ended == s.ended
    ensures RecordInv(cfg, s')
  {
    var m := MaxAttempts(cfg);
    CountPut(s.flight, s.nextId, Exec(n, fire, Pending), m, RetryStage);
    CountPut(s.flight, s.nextId, Exec(n, fire, Pending), m, RecordStage);
  }

  lemma DispatchKeepsRecords(cfg: Config, s: State, n: nat, call: CallResult)
    requires RecordInv(cfg, s) && FreshIds(s) && Enabled(cfg, s, Dispatch(n, call))
    ensures RecordInv(cfg, Dispatched(cfg, s, n, call))
  {
    SpawnKeepsRecords(cfg, s, Dispatched(cfg, s, n, call), n, s.nodes[n].mode.fire);
  }

  lemma LeaveKeepsRecords(cfg: Config, s: State, step: Step)
    requires RecordInv(cfg, s) && Enabled(cfg, s, step) && (step.Record? || step.Crash?)
    ensures RecordInv(cfg, Apply(cfg, s, step))
  {
    var m := MaxAttempts(cfg);
    match step {
      case Record(id, _) =>
        CountRemove(s.flight, id, m, RetryStage);
        CountRemove(s.flight, id, m, RecordStage);
      case Crash(n) =>
        CountElsewhere(s.flight, n, m, RetryStage);
        CountElsewhere(s.flight, n, m, RecordStage);
    }
  }

  lemma StepKeepsRecords(cfg: Config, s: State, step: Step)
    requires RecordInv(cfg, s) && FreshIds(s) && Enabled(cfg, s, step)
    ensures RecordInv(cfg, Apply(cfg, s, step))
  {
    match step {
      case Dispatch(n, call) => DispatchKeepsRecords(cfg, s, n, call);
      case ReplayNext(n) => SpawnKeepsRecords(cfg, s, NextReplayed(s, n), n, s.nodes[n].mode.todo[0]);
      case Start(id) => PutKeepsRecords(cfg, s, Started(cfg, s, id), id);
      case Finish(id, failed, retryAt) => PutKeepsRecords(cfg, s, Finished(cfg, s, id, failed, retryAt), id);
      case WriteRetry(id, ok) => PutKeepsRecords(cfg, s, WroteRetry(s, id, ok), id);
      case Record(_, _) => LeaveKeepsRecords(cfg, s, step);
      case Crash(_) => LeaveKeepsRecords(cfg, s, step);
      case _ =>
    }
  }

  lemma {:induction false} RunKeepsRecords(cfg: Config, s: State, steps: seq<Step>, rule: Rule)
    requires Initial(s) && Legal(cfg, s, steps, rule)
    ensures RecordInv(cfg, Reach(cfg, s, steps))
  {
    if steps == [] {
      InitialBudget(cfg, s);
      assert InStage(s.flight, MaxAttempts(cfg), RetryStage) == {} && InStage(s.flight, MaxAttempts(cfg), RecordStage) == {};
    } else {
      var before, last := steps[..|steps| - 1], steps[|steps| - 1];
      RunKeepsRecords(cfg, s, before, rule);
      RunKeepsBudget(cfg, s, before, rule);
      StepKeepsRecords(cfg, Reach(cfg, s, before), last);
    }
  }

  /** No more runs are recorded than attempts were started. */
  lemma RecordsNeedStarts(cfg: Config, s: State, steps: seq<Step>, rule: Rule)
    requires Initial(s) && Legal(cfg, s, steps, rule)
    ensures Reach(cfg, s, steps).recorded <= Reach(cfg, s, steps).started
  {
    RunKeepsRecords(cfg, s, steps, rule);
    RunKeepsBudget(cfg, s, steps, rule);
  }
}
