/** The dispatch protocol of a cluster, seen from one job row.

    Every node is a single-threaded loop (fetch, dispatch, synchronous replays, leader renewal)
    plus concurrently running handlers. A run is any interleaving of the labelled steps below; the
    labels carry what the model does not determine: clock readings, handler results, retry instants,
    storage errors, crashes. The row changes only through the two calls of `RowLedger`. */
module Cluster {
  import opened Basics
  import opened Schedules
  import opened Jobs
  import opened RowLedger

  /** What all nodes agree on. `hasLeader` says whether a leader lock is configured. */
  datatype Config = Config(sched: Schedule, opts: JobOptions, tick: int, hasLeader: bool)

  datatype Phase =
    | Pending                                        // goroutine created, attempt not yet counted
    | Running(attempt: nat)
    | Retrying(attempt: nat, at: Time)               // failed below the budget, retry not yet stored
    | Recording(attempt: nat, outcome: Outcome)      // judged, record not yet stored

  datatype Exec = Exec(node: nat, fire: Time, phase: Phase)

  datatype Mode =
    | Idle                                                              // waiting in the select loop
    | Fetched(now: Time, fire: Time)                                    // in a tick, row not yet handled
    | Replaying(now: Time, todo: seq<Time>, current: Option<nat>)       // in runAllMissed
    | Fallback(only: nat)                                               // empty window: one execution
    | Stopped                                                           // loop ended, lock released

  /** `session` is the pinned leader connection (the node believes it is the leader while it has one);
      `lost` says that the server has dropped that session behind the node's back. */
  datatype Node = Node(counter: nat, mode: Mode, session: Option<nat>, lost: bool)

  /** `ops` is the history of storage calls on the row; the counters after it are the ledger:
      executions created by claims and by replays, attempts started (and those below the budget),
      retries requested, streaks ended, crashes, runs recorded or lost to a storage error, executions
      killed by a crash, instants replayed, and the clock readings of finished replays. */
  datatype State = State(
    start: Time, clock: Time, origin: Time, ops: seq<RowOp>,
    nodes: seq<Node>, flight: map<nat, Exec>, nextId: nat,
    lock: Option<nat>, nextSession: nat,
    launched: nat, replays: nat, started: nat, low: nat, requested: nat, ended: nat,
    crashes: nat, recorded: nat, unrecorded: nat, killed: nat,
    replayed: seq<Time>, swept: seq<Time>)
  {
    function Row(): Time { After(origin, ops) }
  }

  /** How a claim call ends: it is carried out and answered; it is not carried out, because it failed or
      because the advisory lock was busy; or it is carried out and the answer is lost. */
  datatype CallResult = Answered | NoEffect | AnswerLost

  /** A flag `ok` says that the call has its effect in the database; where the code does the same whatever the
      answer is, a lost answer is `ok`. */
  datatype Step =
    | Elapse(to: Time)
    | Fetch(node: nat, now: Time)
    | Dispatch(node: nat, call: CallResult)
    | Start(id: nat)
    | Finish(id: nat, failed: bool, retryAt: Time)
    | WriteRetry(id: nat, ok: bool)
    | Record(id: nat, ok: bool)
    | ReplayNext(node: nat)
    | ReplayDone(node: nat, ok: bool)        // not ok: the final claim failed or met a busy lock
    | FallbackDone(node: nat)
    | Renew(node: nat)
    | GrantLost(node: nat)                   // the lock is granted, but the node does not learn of it
    | Release(node: nat, ok: bool)           // ok: the unlock call reached the server
    | Crash(node: nat)                       // the process dies and restarts
    | SessionEnds(session: nat)              // the server notices a dead connection
    | ConnectionLost(node: nat)              // the server drops a live node's pinned session

  function Leadership(cfg: Config, node: Node): Option<bool> {
    if cfg.hasLeader then Some(node.session.Some?) else None
  }

  function Decide(cfg: Config, node: Node): Decision
    requires node.mode.Fetched?
  {
    Classify(cfg.opts, Leadership(cfg, node), cfg.tick, node.mode.fire, node.mode.now,
             cfg.sched.Next(node.mode.now))
  }

  /** The replayed execution, if any, is over. */
  predicate Done(s: State, current: Option<nat>) {
    current.None? || current.value !in s.flight
  }

  predicate Enabled(cfg: Config, s: State, step: Step) {
    match step
    case Elapse(to) => to >= s.clock
    case Fetch(n, now) => n < |s.nodes| && s.nodes[n].mode.Idle? && s.Row() <= now
    case Dispatch(n, _) => n < |s.nodes| && s.nodes[n].mode.Fetched?
    case Start(id) => id in s.flight && s.flight[id].phase.Pending? && s.flight[id].node < |s.nodes|
    case Finish(id, _, _) => id in s.flight && s.flight[id].phase.Running? && s.flight[id].node < |s.nodes|
    case WriteRetry(id, _) => id in s.flight && s.flight[id].phase.Retrying?
    case Record(id, _) => id in s.flight && s.flight[id].phase.Recording?
    case ReplayNext(n) =>
      && n < |s.nodes| && s.nodes[n].mode.Replaying?
      && Done(s, s.nodes[n].mode.current) && s.nodes[n].mode.todo != []
    case ReplayDone(n, _) =>
      && n < |s.nodes| && s.nodes[n].mode.Replaying?
      && Done(s, s.nodes[n].mode.current) && s.nodes[n].mode.todo == []
    case FallbackDone(n) => n < |s.nodes| && s.nodes[n].mode.Fallback? && s.nodes[n].mode.only !in s.flight
    case Renew(n) => cfg.hasLeader && n < |s.nodes| && s.nodes[n].mode.Idle?
    case GrantLost(n) =>
      cfg.hasLeader && n < |s.nodes| && s.nodes[n].mode.Idle? && s.nodes[n].session.None? && s.lock.None?
    case Release(n, _) => n < |s.nodes| && s.nodes[n].mode.Idle?
    case Crash(n) => n < |s.nodes|
    case SessionEnds(x) => s.lock == Some(x) && forall n | 0 <= n < |s.nodes| :: s.nodes[n].session != Some(x)
    case ConnectionLost(n) => n < |s.nodes| && s.nodes[n].session.Some?
  }

  // ----- Effects -------------------------------------------------------------------------------

  function Call(s: State, op: RowOp): State { s.(ops := s.ops + [op]) }

  function SetNode(s: State, n: nat, node: Node): State
    requires n < |s.nodes|
  {
    s.(nodes := s.nodes[n := node])
  }

  function SetMode(s: State, n: nat, mode: Mode): State
    requires n < |s.nodes|
  {
    SetNode(s, n, s.nodes[n].(mode := mode))
  }

  function SetPhase(s: State, id: nat, phase: Phase): State
    requires id in s.flight
  {
    s.(flight := s.flight[id := s.flight[id].(phase := phase)])
  }

  /** A new execution on node `n`. */
  function Spawn(s: State, n: nat, fire: Time): State {
    s.(flight := s.flight[s.nextId := Exec(n, fire, Pending)], nextId := s.nextId + 1)
  }

  /** The row is claimed (or was ahead already) and nothing is executed. */
  function Claimed(s: State, n: nat, v: Time): State
    requires n < |s.nodes|
  {
    SetMode(Call(s, Claim(v)), n, Idle)
  }

  /** The claim was won: the handler runs concurrently. */
  function Launched(s: State, n: nat, fire: Time, v: Time): State
    requires n < |s.nodes|
  {
    SetMode(Spawn(Call(s, Claim(v)), n, fire), n, Idle).(launched := s.launched + 1)
  }

  /** The missed window holds no instant: one synchronous execution, no claim. */
  function FellBack(s: State, n: nat, fire: Time): State
    requires n < |s.nodes|
  {
    SetMode(Spawn(s, n, fire), n, Fallback(s.nextId)).(replays := s.replays + 1)
  }

  function Dispatched(cfg: Config, s: State, n: nat, call: CallResult): State
    requires n < |s.nodes| && s.nodes[n].mode.Fetched?
  {
    var mode := s.nodes[n].mode;
    match Decide(cfg, s.nodes[n])
    case Ignore => SetMode(s, n, Idle)
    case Advance(v) => if call.NoEffect? then SetMode(s, n, Idle) else Claimed(s, n, v)
    case Launch(v) =>
      if call.NoEffect? then SetMode(s, n, Idle)
      else if call.Answered? && Wins(s.Row(), Claim(v)) then Launched(s, n, mode.fire, v)
      else Claimed(s, n, v)
    case Replay(_) =>
      var todo := Fires(cfg.sched, mode.fire, mode.now, MAX_CATCHUP_INSTANTS);
      if todo == [] then FellBack(s, n, mode.fire)
      else SetMode(s, n, Replaying(mode.now, todo, None))
  }

  function Started(cfg: Config, s: State, id: nat): State
    requires id in s.flight && s.flight[id].node < |s.nodes|
  {
    var n := s.flight[id].node;
    var attempt := s.nodes[n].counter + 1;
    SetPhase(SetNode(s, n, s.nodes[n].(counter := attempt)), id, Running(attempt))
      .(started := s.started + 1,
        low := s.low + if attempt < cfg.opts.retry.maxAttempts then 1 else 0)
  }

  function Finished(cfg: Config, s: State, id: nat, failed: bool, retryAt: Time): State
    requires id in s.flight && s.flight[id].phase.Running? && s.flight[id].node < |s.nodes|
  {
    var n, attempt, max := s.flight[id].node, s.flight[id].phase.attempt, cfg.opts.retry.maxAttempts;
    if AsksRetry(failed, attempt, max) then
      SetPhase(s, id, Retrying(attempt, retryAt)).(requested := s.requested + 1)
    else
      SetPhase(SetNode(s, n, s.nodes[n].(counter := 0)), id, Recording(attempt, OutcomeOf(failed, attempt, max)))
        .(ended := s.ended + 1)
  }

  function WroteRetry(s: State, id: nat, ok: bool): State
    requires id in s.flight && s.flight[id].phase.Retrying?
  {
    var s' := SetPhase(s, id, Recording(s.flight[id].phase.attempt, Failed));
    if ok then Call(s', Retry(s.flight[id].phase.at)) else s'
  }

  function Recorded(s: State, id: nat, ok: bool): State {
    var s' := s.(flight := s.flight - {id});
    if ok then s'.(recorded := s.recorded + 1) else s'.(unrecorded := s.unrecorded + 1)
  }

  function NextReplayed(s: State, n: nat): State
    requires n < |s.nodes| && s.nodes[n].mode.Replaying? && s.nodes[n].mode.todo != []
  {
    var mode := s.nodes[n].mode;
    SetMode(Spawn(s, n, mode.todo[0]), n, Replaying(mode.now, mode.todo[1..], Some(s.nextId)))
      .(replays := s.replays + 1, replayed := s.replayed + [mode.todo[0]])
  }

  function ReplayEnded(cfg: Config, s: State, n: nat, ok: bool): State
    requires n < |s.nodes| && s.nodes[n].mode.Replaying?
  {
    var now := s.nodes[n].mode.now;
    var s' := SetMode(s, n, Idle).(swept := s.swept + [now]);
    match cfg.sched.Next(now)
    case None => s'
    case Some(v) => if ok then Call(s', Claim(v)) else s'
  }

  function Renewed(s: State, n: nat): State
    requires n < |s.nodes|
  {
    if s.nodes[n].session.Some? || s.lock.Some? then s
    else SetNode(s, n, s.nodes[n].(session := Some(s.nextSession), lost := false))
           .(lock := Some(s.nextSession), nextSession := s.nextSession + 1)
  }

  function Released(s: State, n: nat, ok: bool): State
    requires n < |s.nodes|
  {
    SetNode(s, n, s.nodes[n].(mode := Stopped, session := None, lost := false))
      .(lock := if ok && s.nodes[n].session.Some? && s.lock == s.nodes[n].session then None else s.lock)
  }

  /** The executions that do not run on node `n`. */
  function Elsewhere(flight: map<nat, Exec>, n: nat): map<nat, Exec> {
    map id | id in flight && flight[id].node != n :: flight[id]
  }

  /** A crash forgets the attempt counter and the executions of the node; the lock stays with the
      dead session until the server ends it. This is also how a stopped process is started again, so
      `crashes` counts restarts as well. */
  function Crashed(s: State, n: nat): State
    requires n < |s.nodes|
  {
    var rest := Elsewhere(s.flight, n);
    SetNode(s, n, Node(0, Idle, None, false))
      .(flight := rest, crashes := s.crashes + 1, killed := s.killed + |s.flight.Keys - rest.Keys|)
  }

  function Apply(cfg: Config, s: State, step: Step): (s': State)
    requires Enabled(cfg, s, step)
    ensures |s'.nodes| == |s.nodes| && s'.start == s.start && s'.origin == s.origin
  {
    match step
    case Elapse(to) => s.(clock := to)
    case Fetch(n, now) => SetMode(s, n, Fetched(now, s.Row()))
    case Dispatch(n, call) => Dispatched(cfg, s, n, call)
    case Start(id) => Started(cfg, s, id)
    case Finish(id, failed, retryAt) => Finished(cfg, s, id, failed, retryAt)
    case WriteRetry(id, ok) => WroteRetry(s, id, ok)
    case Record(id, ok) => Recorded(s, id, ok)
    case ReplayNext(n) => NextReplayed(s, n)
    case ReplayDone(n, ok) => ReplayEnded(cfg, s, n, ok)
    case FallbackDone(n) => SetMode(s, n, Idle)
    case Renew(n) => Renewed(s, n)
    case GrantLost(_) => s.(lock := Some(s.nextSession), nextSession := s.nextSession + 1)
    case Release(n, ok) => Released(s, n, ok)
    case Crash(n) => Crashed(s, n)
    case SessionEnds(_) => s.(lock := None)
    case ConnectionLost(n) =>
      SetNode(s, n, s.nodes[n].(lost := true)).(lock := if s.lock == s.nodes[n].session then None else s.lock)
  }

  /** Steps of executions and of the environment; they leave every node's mode and session alone. */
  predicate Background(step: Step) {
    step.Elapse? || step.Start? || step.Finish? || step.WriteRetry? || step.Record? || step.SessionEnds?
    || step.GrantLost?
  }

  lemma BackgroundKeepsNodes(cfg: Config, s: State, step: Step)
    requires Enabled(cfg, s, step) && Background(step)
    ensures var s' := Apply(cfg, s, step);
            forall n :: 0 <= n < |s.nodes| ==> s'.nodes[n] == s.nodes[n].(counter := s'.nodes[n].counter)
  {
  }

  /** What a dispatch does: its own node leaves the tick or begins to replay, at most one claim for the
      first fire after the tick's clock reading is made, and at most one execution is created. */
  ghost predicate DispatchEffect(cfg: Config, s: State, s': State, n: nat)
    requires n < |s.nodes| && s.nodes[n].mode.Fetched? && n < |s'.nodes|
  {
    var mode := s.nodes[n].mode;
    && s'.clock == s.clock && s'.replayed == s.replayed && s'.swept == s.swept
    && s'.lock == s.lock && s'.nextSession == s.nextSession
    && s'.nodes == s.nodes[n := s.nodes[n].(mode := s'.nodes[n].mode)]
    && (s'.ops == s.ops
        || (cfg.sched.Next(mode.now).Some? && s'.ops == s.ops + [Claim(cfg.sched.Next(mode.now).value)]))
    && (s'.nodes[n].mode == Idle
        || (Decide(cfg, s.nodes[n]).Replay? && s'.ops == s.ops
            && var todo := Fires(cfg.sched, mode.fire, mode.now, MAX_CATCHUP_INSTANTS);
               s'.nodes[n].mode == if todo == [] then Fallback(s.nextId) else Replaying(mode.now, todo, None)))
  }

  lemma DispatchHasEffect(cfg: Config, s: State, n: nat, call: CallResult)
    requires Enabled(cfg, s, Dispatch(n, call))
    ensures DispatchEffect(cfg, s, Dispatched(cfg, s, n, call), n)
  {
  }

  /** The three ways in which a claim call ends. Without effect nothing changes but the mode. With effect the row is raised
      to the target; the execution is created only if the claim was won, launches, and the node hears of it. */
  lemma CallOutcomes(cfg: Config, s: State, n: nat, call: CallResult, v: Time)
    requires Enabled(cfg, s, Dispatch(n, call)) && Decide(cfg, s.nodes[n]) in {Launch(v), Advance(v)}
    ensures var s', launches := Apply(cfg, s, Dispatch(n, call)), Decide(cfg, s.nodes[n]).Launch?;
            && s'.nodes[n] == s.nodes[n].(mode := Idle) && s'.replays == s.replays
            && s'.Row() == (if call.NoEffect? then s.Row() else Max(s.Row(), v))
            && if launches && call.Answered? && s.Row() < v then
                 s'.launched == s.launched + 1 && s'.flight == s.flight[s.nextId := Exec(n, s.nodes[n].mode.fire, Pending)]
               else s'.launched == s.launched && s'.flight == s.flight
  {
    AfterSnoc(s.origin, s.ops, Claim(v));
  }

  // ----- Runs ----------------------------------------------------------------------------------

  /** A cluster of freshly started nodes around an existing row. */
  predicate Initial(s: State) {
    && s.start == s.clock && s.ops == [] && s.flight == map[] && s.lock.None?
    && (forall n | 0 <= n < |s.nodes| :: s.nodes[n] == Node(0, Idle, None, false))
    && s.launched == s.replays == s.started == s.low == s.requested == s.ended == 0
    && s.crashes == s.recorded == s.unrecorded == s.killed == 0
    && s.replayed == s.swept == []
  }

  /** The state after the steps; a step that is not enabled changes nothing. */
  function Reach(cfg: Config, s: State, steps: seq<Step>): State {
    if steps == [] then s
    else
      var before, last := Reach(cfg, s, steps[..|steps| - 1]), steps[|steps| - 1];
      if Enabled(cfg, before, last) then Apply(cfg, before, last) else before
  }

  /** A restriction on runs: which steps are considered in which states. */
  type Rule = (Config, State, Step) -> bool

  /** `steps` can be taken from `s` in order, each within the rule. */
  predicate Legal(cfg: Config, s: State, steps: seq<Step>, rule: Rule) {
    steps == [] ||
    var before, last := steps[..|steps| - 1], steps[|steps| - 1];
    && Legal(cfg, s, before, rule)
    && Enabled(cfg, Reach(cfg, s, before), last)
    && rule(cfg, Reach(cfg, s, before), last)
  }

  lemma RunSnoc(cfg: Config, s: State, steps: seq<Step>, step: Step, rule: Rule)
    requires Legal(cfg, s, steps, rule)
    requires Enabled(cfg, Reach(cfg, s, steps), step) && rule(cfg, Reach(cfg, s, steps), step)
    ensures Legal(cfg, s, steps + [step], rule)
    ensures Reach(cfg, s, steps + [step]) == Apply(cfg, Reach(cfg, s, steps), step)
  {
    assert (steps + [step])[..|steps|] == steps;
  }

  predicate AnyStep(cfg: Config, s: State, step: Step) { true }

  /** One clock for all nodes: a tick reads it after the run began and before it fetches, and a retry
      reaches the row no later than the instant it asks for. */
  predicate SharedClock(cfg: Config, s: State, step: Step) {
    && (step.Fetch? ==> s.start <= step.now <= s.clock)
    && (step.WriteRetry? && step.id in s.flight && s.flight[step.id].phase.Retrying? ==>
          s.clock <= s.flight[step.id].phase.at)
  }
}
