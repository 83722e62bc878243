/** The dispatcher object takes the steps of the cluster protocol: what a tick or a returning handler does to
    one job is a run of that node in the protocol, so the results about all runs apply to it. */
module Simulation {
  import opened Basics
  import opened Schedules
  import opened Jobs
  import opened RowLedger
  import opened Storage
  import opened Persistence
  import opened Execution
  import opened Cluster
  import opened Scripts
  import opened AttemptBudget
  import opened TickProgress
  import D = Dispatching

  /** One job seen from one dispatcher: node `n` of the protocol with settings `e`. If `strict`, all readings are of
      one clock that stands at `clock`. */
  datatype Subject = Subject(cfg: Config, n: nat, e: D.Setting, id: string, name: string, strict: bool, clock: Time)
  {
    function Runner(): Runner { Execution.Runner(e.nodeID, cfg.opts.retry) }

    function Rule(): Rule {
      (cfg: Config, s: State, step: Step) =>
        Smooth(cfg, s, step) && ActsFor(s, step, n) && (strict ==> OnClock(s, step, clock))
    }
  }

  /** Steps of dispatchers and handlers whose storage calls succeed. */
  predicate Smooth(cfg: Config, s: State, step: Step) {
    match step
    case Fetch(_, _) => true
    case Dispatch(_, call) => call.Answered?
    case Start(_) => true
    case Finish(_, _, _) => true
    case WriteRetry(_, ok) => ok
    case Record(_, ok) => ok
    case ReplayNext(_) => true
    case ReplayDone(_, ok) => ok
    case FallbackDone(_) => true
    case _ => false
  }

  /** The step is one of node `n`, of one of its handlers, or of the environment. */
  predicate ActsFor(s: State, step: Step, n: nat) {
    match step
    case Elapse(_) => true
    case SessionEnds(_) => true
    case Start(id) => Flies(s, n, id)
    case Finish(id, _, _) => Flies(s, n, id)
    case WriteRetry(id, _) => Flies(s, n, id)
    case Record(id, _) => Flies(s, n, id)
    case _ => step.node == n
  }

  /** A tick reads the clock no later than it stands, and a retry is written no later than it asks for. */
  predicate OnClock(s: State, step: Step, clock: Time) {
    && (step.Fetch? ==> s.start <= step.now <= clock)
    && (step.WriteRetry? && step.id in s.flight && s.flight[step.id].phase.Retrying? ==>
          clock <= s.flight[step.id].phase.at)
  }

  /** The retry that this reply may lead to is not for an instant before the clock, if that matters. */
  ghost predicate Timely(j: Subject, reply: Reply) {
    j.strict ==> forall attempt: nat :: RetryAt(j.Runner(), attempt, reply) >= j.clock
  }

  ghost predicate AllTimely(j: Subject, replies: nat -> Reply) { forall i: nat :: Timely(j, replies(i)) }

  // ----- Paths ---------------------------------------------------------------------------------

  predicate Leads(j: Subject, s: State, steps: seq<Step>, s': State) {
    Path(j.cfg, s, steps, j.Rule(), s')
  }

  lemma Permitted(j: Subject, s: State, step: Step)
    requires Smooth(j.cfg, s, step) && ActsFor(s, step, j.n) && (j.strict ==> OnClock(s, step, j.clock))
    ensures j.Rule()(j.cfg, s, step)
  {
  }

  lemma ExecutionAllowed(j: Subject, clock: Time, x: nat, failed: bool, at: Time)
    requires j.strict ==> at >= j.clock
    ensures Allows(j.cfg, j.Rule(), clock, j.n, x, failed, at)
  {
    forall s: State | Flies(s, j.n, x)
      ensures j.Rule()(j.cfg, s, Start(x)) && j.Rule()(j.cfg, s, Finish(x, failed, at)) && j.Rule()(j.cfg, s, Record(x, true))
    {
      Permitted(j, s, Start(x));
      Permitted(j, s, Finish(x, failed, at));
      Permitted(j, s, Record(x, true));
    }
    forall s: State | Flies(s, j.n, x) && s.clock == clock && s.flight[x].phase.Retrying? && s.flight[x].phase.at == at
      ensures j.Rule()(j.cfg, s, WriteRetry(x, true))
    {
      Permitted(j, s, WriteRetry(x, true));
    }
  }

  // ----- The simulation relation ---------------------------------------------------------------

  /** The persisted row and the registry agree with the configuration of the protocol. */
  ghost predicate Describes(j: Subject, row: MemJob) {
    && j.name in j.e.registry && j.cfg.opts == j.e.registry[j.name].options && j.cfg.tick == j.e.tick >= 0
    && Load(j.e.lib, row.kind, row.schedule) == Ok(j.cfg.sched)
  }

  /** The state of the protocol shows the job's row, this node's attempt counter and its leadership. */
  ghost predicate Sim(j: Subject, s: State, w: World) {
    && j.n < |s.nodes| && FreshIds(s)
    && RowsOk(w.rows) && HasId(w.rows, j.id, j.name) && Describes(j, w.rows[j.name])
    && s.Row() == w.rows[j.name].next
    && s.nodes[j.n].counter == Counter(w.attempts, j.id)
    && Leadership(j.cfg, s.nodes[j.n]) == j.e.leader
  }

  function RecordsOf(runs: seq<RunRecord>, id: string): nat {
    if runs == [] then 0 else RecordsOf(runs[..|runs| - 1], id) + Ind(runs[|runs| - 1].jobID == id)
  }

  function LaunchesFor(launches: seq<D.Launch>, id: string): nat {
    if launches == [] then 0
    else LaunchesFor(launches[..|launches| - 1], id) + Ind(launches[|launches| - 1].due.id == id)
  }

  /** The protocol's ledger grows with the job's records and goroutines. */
  predicate Accounts(j: Subject, s: State, s': State, w: World, w': World, launches: seq<D.Launch>) {
    && s'.recorded - s.recorded == RecordsOf(w'.runs, j.id) - RecordsOf(w.runs, j.id)
    && s'.launched - s.launched == LaunchesFor(launches, j.id)
  }

  lemma RecordsSnoc(runs: seq<RunRecord>, run: RunRecord, id: string)
    ensures RecordsOf(runs + [run], id) == RecordsOf(runs, id) + Ind(run.jobID == id)
  {
    assert (runs + [run])[..|runs|] == runs;
  }

  /** A call on the job's row, in the table and in the protocol. */
  lemma CallShows(j: Subject, rows: Rows, op: RowOp)
    requires RowsOk(rows) && HasId(rows, j.id, j.name)
    ensures var after := CallRows(rows, j.id, op);
            && RowsOk(after) && HasId(after, j.id, j.name)
            && after[j.name] == rows[j.name].(next := ApplyOp(rows[j.name].next, op))
  {
    NamedIs(rows, j.id, j.name);
    CallKeepsKeys(rows, j.id, op);
  }

  lemma SettledShows(j: Subject, s: State, s': State, w: World, dj: DueJob, x: nat, reply: Reply)
    requires Sim(j, s, w) && dj.id == j.id && x in s.flight
    requires Settled(j.cfg, s, s', j.n, x, reply.failure.Some?, RetryAt(j.Runner(), Counter(w.attempts, j.id) + 1, reply))
    ensures Sim(j, s', Executed(w, j.Runner(), dj, reply))
  {
    var at := RetryAt(j.Runner(), Counter(w.attempts, j.id) + 1, reply);
    ExecutedEffect(w, j.Runner(), dj, reply);
    CallShows(j, w.rows, Retry(at));
    AfterSnoc(s.origin, s.ops, Retry(at));
    FreshKept(s, s');
  }

  /** A synchronous execution is a run of the protocol: start, finish, retry if asked for, record. */
  lemma ExecutionIsRun(j: Subject, s: State, w: World, dj: DueJob, x: nat, reply: Reply)
    returns (steps: seq<Step>, s': State)
    requires Sim(j, s, w) && dj.id == j.id && Awaits(s, j.n, x) && Timely(j, reply)
    ensures var w' := Executed(w, j.Runner(), dj, reply);
            && Leads(j, s, steps, s') && Sim(j, s', w') && Accounts(j, s, s', w, w', [])
    ensures s'.flight == s.flight - {x} && s'.nextId == s.nextId
    ensures s'.nodes == s.nodes[j.n := s.nodes[j.n].(counter := s'.nodes[j.n].counter)]
  {
    var attempt := Counter(w.attempts, j.id) + 1;
    var failed, at := reply.failure.Some?, RetryAt(j.Runner(), attempt, reply);
    ExecutionAllowed(j, s.clock, x, failed, at);
    steps, s' := ExecutionSteps(j.cfg, s, j.n, x, failed, at, j.Rule());
    SettledShows(j, s, s', w, dj, x, reply);
    ExecutedEffect(w, j.Runner(), dj, reply);
    RecordsSnoc(w.runs, RecordOf(j.Runner(), dj, attempt, reply), j.id);
  }

  /** A handler that begins is the start of its execution. */
  lemma StartIsRun(j: Subject, s: State, w: World, x: nat) returns (s': State)
    requires Sim(j, s, w) && Awaits(s, j.n, x)
    ensures Leads(j, s, [Start(x)], s') && Sim(j, s', Counted(w, j.id)) && s'.nextId == s.nextId
    ensures RunsAs(s', j.n, x, Counter(w.attempts, j.id) + 1) && s'.flight == s.flight[x := s'.flight[x]]
    ensures s'.nodes == s.nodes[j.n := s.nodes[j.n].(counter := s'.nodes[j.n].counter)] && s'.recorded == s.recorded
  {
    s' := Started(j.cfg, s, x);
    Permitted(j, s, Start(x));
    PathStep(j.cfg, s, Start(x), j.Rule());
    FreshKept(s, s');
  }

  lemma OverShows(j: Subject, s: State, s': State, w: World, dj: DueJob, x: nat, attempt: Ordinal, reply: Reply)
    requires Sim(j, s, w) && dj.id == j.id && x in s.flight
    requires Over(j.cfg, s, s', j.n, x, attempt, reply.failure.Some?, RetryAt(j.Runner(), attempt, reply))
    ensures Sim(j, s', Concluded(w, j.Runner(), dj, attempt, reply))
  {
    var at := RetryAt(j.Runner(), attempt, reply);
    CallShows(j, w.rows, Retry(at));
    AfterSnoc(s.origin, s.ops, Retry(at));
    FreshKept(s, s');
  }

  /** A handler that returns is the rest of its execution: finish, retry if asked for, record. */
  lemma ReturnIsRun(j: Subject, s: State, w: World, dj: DueJob, x: nat, attempt: Ordinal, reply: Reply)
    returns (steps: seq<Step>, s': State)
    requires Sim(j, s, w) && dj.id == j.id && RunsAs(s, j.n, x, attempt) && Timely(j, reply)
    ensures var w' := Concluded(w, j.Runner(), dj, attempt, reply);
            && Leads(j, s, steps, s') && Sim(j, s', w') && Accounts(j, s, s', w, w', [])
    ensures s'.flight == s.flight - {x} && s'.nextId == s.nextId
    ensures s'.nodes == s.nodes[j.n := s.nodes[j.n].(counter := s'.nodes[j.n].counter)]
  {
    var failed, at := reply.failure.Some?, RetryAt(j.Runner(), attempt, reply);
    ExecutionAllowed(j, s.clock, x, failed, at);
    steps, s' := FinishSteps(j.cfg, s, j.n, x, attempt, failed, at, j.Rule());
    OverShows(j, s, s', w, dj, x, attempt, reply);
    OneRecord(j, w, dj, attempt, reply);
    OverNodes(j.cfg, s, s', j.n, x, attempt, failed, at);
  }

  lemma OverNodes(cfg: Config, s: State, s': State, n: nat, x: nat, attempt: nat, failed: bool, at: Time)
    requires n < |s.nodes| && Over(cfg, s, s', n, x, attempt, failed, at)
    ensures s'.flight == s.flight - {x} && s'.nextId == s.nextId && s'.launched == s.launched
    ensures s'.recorded == s.recorded + 1
    ensures |s'.nodes| == |s.nodes| && s'.nodes == s.nodes[n := s.nodes[n].(counter := s'.nodes[n].counter)]
  {
  }

  lemma OneRecord(j: Subject, w: World, dj: DueJob, attempt: Ordinal, reply: Reply)
    requires dj.id == j.id
    ensures RecordsOf(Concluded(w, j.Runner(), dj, attempt, reply).runs, j.id) == RecordsOf(w.runs, j.id) + 1
  {
    RecordsSnoc(w.runs, RecordOf(j.Runner(), dj, attempt, reply), j.id);
  }

  predicate IsIdle(s: State, n: nat) { n < |s.nodes| && s.nodes[n].mode.Idle? }

  // ----- One due row ---------------------------------------------------------------------------

  /** The due job is a snapshot of the job's row, which the node has just fetched. */
  ghost predicate Snapshot(j: Subject, s: State, dj: DueJob, now: Time) {
    && dj.id == j.id && dj.name == j.name && Load(j.e.lib, dj.kind, dj.expr) == Ok(j.cfg.sched)
    && j.n < |s.nodes| && s.nodes[j.n].mode == Fetched(now, dj.fire)
  }

  lemma DecisionsAgree(j: Subject, s: State, w: World, dj: DueJob, now: Time)
    requires Sim(j, s, w) && Snapshot(j, s, dj, now)
    ensures D.DecisionFor(j.e, dj, now) == Decide(j.cfg, s.nodes[j.n])
  {
  }

  /** The node has dealt with the row: it is idle again, and the executions it launched are in flight. */
  ghost predicate Dealt(j: Subject, s: State, s': State, w: World, w': World, dj: DueJob, launches: seq<D.Launch>) {
    && Sim(j, s', w') && Accounts(j, s, s', w, w', launches) && IsIdle(s', j.n)
    && s'.nextId >= s.nextId
    && s'.flight == if launches == [] then s.flight else s.flight[s.nextId := Exec(j.n, dj.fire, Pending)]
  }

  lemma OneLaunch(launch: D.Launch, id: string)
    requires launch.due.id == id
    ensures LaunchesFor([launch], id) == 1
  {
    assert [launch][..0] == [];
  }

  /** A claim, with or without an execution to launch. */
  lemma ClaimShows(j: Subject, s: State, w: World, dj: DueJob, v: Time, launches: seq<D.Launch>, s': State)
    requires Sim(j, s, w) && dj.id == j.id
    requires launches == [] || (|launches| == 1 && launches[0].due == dj)
    requires s' == if launches == [] then Claimed(s, j.n, v) else Launched(s, j.n, dj.fire, v)
    ensures Dealt(j, s, s', w, w.(rows := CallRows(w.rows, dj.id, Claim(v))), dj, launches)
  {
    CallShows(j, w.rows, Claim(v));
    AfterSnoc(s.origin, s.ops, Claim(v));
    FreshKept(s, s');
    if launches != [] {
      assert launches == [launches[0]];
      OneLaunch(launches[0], j.id);
    }
  }

  lemma PlainDispatchShows(j: Subject, s: State, w: World, dj: DueJob, now: Time, replies: nat -> Reply)
    requires Sim(j, s, w) && Snapshot(j, s, dj, now) && !Decide(j.cfg, s.nodes[j.n]).Replay?
    ensures Dealt(j, s, Dispatched(j.cfg, s, j.n, Answered), w, D.HandledOne(j.e, w, dj, now, replies), dj,
                  D.LaunchesOf(j.e, w.rows, dj, now))
  {
    DecisionsAgree(j, s, w, dj, now);
    NamedIs(w.rows, j.id, j.name);
    var launches, s' := D.LaunchesOf(j.e, w.rows, dj, now), Dispatched(j.cfg, s, j.n, Answered);
    match Decide(j.cfg, s.nodes[j.n]) {
      case Ignore => FreshKept(s, s');
      case Advance(v) => ClaimShows(j, s, w, dj, v, launches, s');
      case Launch(v) => ClaimShows(j, s, w, dj, v, launches, s');
      case Replay(_) => assert false;
    }
  }

  // ----- Replays -------------------------------------------------------------------------------

  /** The node is in a replay, with these instants left and nothing to wait for. */
  ghost predicate InReplay(j: Subject, s: State, now: Time, todo: seq<Time>) {
    && j.n < |s.nodes| && s.nodes[j.n].mode.Replaying? && s.nodes[j.n].mode.now == now && s.nodes[j.n].mode.todo == todo
    && Done(s, s.nodes[j.n].mode.current)
  }

  /** What a stretch of synchronous executions leaves behind. */
  ghost predicate Executes(j: Subject, s: State, s': State, w: World, w': World) {
    Sim(j, s', w') && Accounts(j, s, s', w, w', []) && s'.flight == s.flight && s'.nextId >= s.nextId
  }

  /** Creating an execution does not concern the object's state. */
  lemma SpawnShows(j: Subject, s: State, w: World, fire: Time, s': State)
    requires Sim(j, s, w)
    requires |s'.nodes| == |s.nodes| && s'.nodes[j.n] == s.nodes[j.n].(mode := s'.nodes[j.n].mode)
    requires s'.ops == s.ops && s'.origin == s.origin
    requires s'.flight == s.flight[s.nextId := Exec(j.n, fire, Pending)] && s'.nextId == s.nextId + 1
    ensures Sim(j, s', w) && Awaits(s', j.n, s.nextId)
  {
    FreshKept(s, s');
  }

  lemma ReplayOne(j: Subject, s: State, w: World, dj: DueJob, now: Time, todo: seq<Time>, reply: Reply)
    returns (steps: seq<Step>, s': State)
    requires Sim(j, s, w) && dj.id == j.id && todo != [] && InReplay(j, s, now, todo)
    requires Timely(j, reply)
    ensures Leads(j, s, steps, s') && InReplay(j, s', now, todo[1..])
    ensures Executes(j, s, s', w, Executed(w, j.Runner(), dj.(fire := todo[0]), reply))
  {
    var mid := NextReplayed(s, j.n);
    Permitted(j, s, ReplayNext(j.n));
    PathSnoc(j.cfg, s, [], j.Rule(), s, ReplayNext(j.n), mid);
    SpawnShows(j, s, w, todo[0], mid);
    var rest;
    rest, s' := ExecutionIsRun(j, mid, w, dj.(fire := todo[0]), s.nextId, reply);
    steps := [ReplayNext(j.n)] + rest;
    assert [] + [ReplayNext(j.n)] == [ReplayNext(j.n)];
    PathOn(j.cfg, s, [ReplayNext(j.n)], j.Rule(), mid, rest, s');
    assert s'.flight == s.flight;
  }

  lemma {:induction false} ReplayMany(j: Subject, s: State, w: World, dj: DueJob, now: Time, instants: seq<Time>,
                                      replies: nat -> Reply, k: nat)
    returns (steps: seq<Step>, s': State)
    requires Sim(j, s, w) && dj.id == j.id && k <= |instants| && InReplay(j, s, now, instants)
    requires AllTimely(j, replies)
    ensures Leads(j, s, steps, s') && InReplay(j, s', now, instants[k..])
    ensures Executes(j, s, s', w, ReplayedUpTo(w, j.Runner(), dj, instants, replies, k))
  {
    if k == 0 {
      steps, s' := [], s;
      assert instants[0..] == instants;
    } else {
      var before, mid := ReplayMany(j, s, w, dj, now, instants, replies, k - 1);
      var last;
      var done := ReplayedUpTo(w, j.Runner(), dj, instants, replies, k - 1);
      last, s' := ReplayOne(j, mid, done, dj, now, instants[k - 1..], replies(k - 1));
      steps := before + last;
      PathOn(j.cfg, s, before, j.Rule(), mid, last, s');
      assert instants[k - 1..][1..] == instants[k..];
    }
  }

  lemma ReplayEndShows(j: Subject, s: State, w: World, dj: DueJob, now: Time, v: Time)
    requires Sim(j, s, w) && dj.id == j.id && InReplay(j, s, now, []) && j.cfg.sched.Next(now) == Some(v)
    ensures var s' := ReplayEnded(j.cfg, s, j.n, true);
            Executes(j, s, s', w, w.(rows := CallRows(w.rows, dj.id, Claim(v)))) && IsIdle(s', j.n)
  {
    CallShows(j, w.rows, Claim(v));
    AfterSnoc(s.origin, s.ops, Claim(v));
    FreshKept(s, ReplayEnded(j.cfg, s, j.n, true));
  }

  /** A replay of a window that holds an instant. */
  lemma WindowIsRun(j: Subject, s: State, w: World, dj: DueJob, now: Time, replies: nat -> Reply)
    returns (steps: seq<Step>, s': State)
    requires Sim(j, s, w) && dj.id == j.id && j.cfg.sched.Next(now).Some? && AllTimely(j, replies)
    requires var instants := Instants(Some(j.cfg.sched), dj.fire, now, MAX_CATCHUP_INSTANTS);
             instants != [] && InReplay(j, s, now, instants)
    ensures Leads(j, s, steps, s') && IsIdle(s', j.n)
    ensures Executes(j, s, s', w, ReplayedAll(w, j.Runner(), dj, j.cfg.sched, now, replies))
  {
    var instants := Instants(Some(j.cfg.sched), dj.fire, now, MAX_CATCHUP_INSTANTS);
    var before, mid := ReplayMany(j, s, w, dj, now, instants, replies, |instants|);
    var done := ReplayedUpTo(w, j.Runner(), dj, instants, replies, |instants|);
    s' := ReplayEnded(j.cfg, mid, j.n, true);
    steps := before + [ReplayDone(j.n, true)];
    Permitted(j, mid, ReplayDone(j.n, true));
    PathSnoc(j.cfg, s, before, j.Rule(), mid, ReplayDone(j.n, true), s');
    ReplayEndShows(j, mid, done, dj, now, j.cfg.sched.Next(now).value);
  }

  /** The one execution of a window without an instant. */
  lemma FallbackIsRun(j: Subject, s: State, w: World, dj: DueJob, reply: Reply) returns (steps: seq<Step>, s': State)
    requires Sim(j, s, w) && dj.id == j.id && Timely(j, reply)
    ensures Leads(j, FellBack(s, j.n, dj.fire), steps, s') && IsIdle(s', j.n)
    ensures Executes(j, s, s', w, Executed(w, j.Runner(), dj, reply))
  {
    var begun := FellBack(s, j.n, dj.fire);
    SpawnShows(j, s, w, dj.fire, begun);
    var before, mid := ExecutionIsRun(j, begun, w, dj, s.nextId, reply);
    s' := SetMode(mid, j.n, Idle);
    steps := before + [FallbackDone(j.n)];
    Permitted(j, mid, FallbackDone(j.n));
    PathSnoc(j.cfg, begun, before, j.Rule(), mid, FallbackDone(j.n), s');
    FreshKept(mid, s');
    assert s'.flight == s.flight;
  }

  lemma ReplayIsRun(j: Subject, s: State, w: World, dj: DueJob, now: Time, replies: nat -> Reply)
    returns (steps: seq<Step>, s': State)
    requires Sim(j, s, w) && Snapshot(j, s, dj, now) && Decide(j.cfg, s.nodes[j.n]).Replay? && AllTimely(j, replies)
    ensures Leads(j, Dispatched(j.cfg, s, j.n, Answered), steps, s') && IsIdle(s', j.n)
    ensures Executes(j, s, s', w, ReplayedAll(w, j.Runner(), dj, j.cfg.sched, now, replies))
  {
    var instants := Instants(Some(j.cfg.sched), dj.fire, now, MAX_CATCHUP_INSTANTS);
    var begun := Dispatched(j.cfg, s, j.n, Answered);
    ReplayBegins(j, s, w, dj, now, begun);
    if instants == [] {
      steps, s' := FallbackIsRun(j, s, w, dj, replies(0));
    } else {
      steps, s' := WindowIsRun(j, begun, w, dj, now, replies);
    }
  }

  /** How the protocol begins a replay. */
  lemma ReplayBegins(j: Subject, s: State, w: World, dj: DueJob, now: Time, begun: State)
    requires Sim(j, s, w) && Snapshot(j, s, dj, now) && Decide(j.cfg, s.nodes[j.n]).Replay?
    requires begun == Dispatched(j.cfg, s, j.n, Answered)
    ensures j.cfg.sched.Next(now).Some?
    ensures var instants := Instants(Some(j.cfg.sched), dj.fire, now, MAX_CATCHUP_INSTANTS);
            if instants == [] then begun == FellBack(s, j.n, dj.fire)
            else begun == SetMode(s, j.n, Replaying(now, instants, None)) && Sim(j, begun, w) && InReplay(j, begun, now, instants)
  {
    FreshKept(s, begun);
  }

  /** What maybeDispatch does with the job's row is a run of the protocol. */
  lemma DispatchIsRun(j: Subject, s: State, w: World, dj: DueJob, now: Time, replies: nat -> Reply)
    returns (steps: seq<Step>, s': State)
    requires Sim(j, s, w) && Snapshot(j, s, dj, now) && AllTimely(j, replies)
    ensures Leads(j, s, steps, s')
    ensures Dealt(j, s, s', w, D.HandledOne(j.e, w, dj, now, replies), dj, D.LaunchesOf(j.e, w.rows, dj, now))
  {
    var begun := Dispatched(j.cfg, s, j.n, Answered);
    Permitted(j, s, Dispatch(j.n, Answered));
    PathSnoc(j.cfg, s, [], j.Rule(), s, Dispatch(j.n, Answered), begun);
    steps := [Dispatch(j.n, Answered)];
    assert [] + [Dispatch(j.n, Answered)] == steps;
    DecisionsAgree(j, s, w, dj, now);
    if Decide(j.cfg, s.nodes[j.n]).Replay? {
      var rest;
      rest, s' := ReplayIsRun(j, s, w, dj, now, replies);
      PathOn(j.cfg, s, steps, j.Rule(), begun, rest, s');
      steps := steps + rest;
    } else {
      s' := begun;
      PlainDispatchShows(j, s, w, dj, now, replies);
    }
  }

  // ----- A whole tick --------------------------------------------------------------------------

  /** What the handling of another job's row leaves alone. */
  ghost predicate Untouched(j: Subject, w: World, w': World) {
    && Counter(w'.attempts, j.id) == Counter(w.attempts, j.id)
    && RecordsOf(w'.runs, j.id) == RecordsOf(w.runs, j.id)
  }

  lemma OtherExecution(j: Subject, w: World, r: Runner, dj: DueJob, reply: Reply)
    requires dj.id != j.id
    ensures Untouched(j, w, Executed(w, r, dj, reply))
  {
    ExecutedEffect(w, r, dj, reply);
    RecordsSnoc(w.runs, RecordOf(r, dj, Counter(w.attempts, dj.id) + 1, reply), j.id);
  }

  lemma {:induction false} OtherReplay(j: Subject, w: World, r: Runner, dj: DueJob, instants: seq<Time>,
                                       replies: nat -> Reply, k: nat)
    requires dj.id != j.id && k <= |instants|
    ensures Untouched(j, w, ReplayedUpTo(w, r, dj, instants, replies, k))
  {
    if k > 0 {
      OtherReplay(j, w, r, dj, instants, replies, k - 1);
      var before := ReplayedUpTo(w, r, dj, instants, replies, k - 1);
      OtherExecution(j, before, r, dj.(fire := instants[k - 1]), replies(k - 1));
    }
  }

  lemma OtherRow(j: Subject, w: World, dj: DueJob, now: Time, replies: nat -> Reply)
    requires dj.id != j.id
    ensures Untouched(j, w, D.HandledOne(j.e, w, dj, now, replies))
    ensures LaunchesFor(D.LaunchesOf(j.e, w.rows, dj, now), j.id) == 0
  {
    if D.DecisionFor(j.e, dj, now).Replay? {
      var sched := Load(j.e.lib, dj.kind, dj.expr).value;
      var r, instants := Execution.Runner(j.e.nodeID, j.e.registry[dj.name].options.retry),
                         Instants(Some(sched), dj.fire, now, MAX_CATCHUP_INSTANTS);
      OtherReplay(j, w, r, dj, instants, replies, |instants|);
      OtherExecution(j, w, r, dj, replies(0));
    }
  }

  lemma OtherRowShows(j: Subject, s: State, w: World, dj: DueJob, now: Time, replies: nat -> Reply)
    requires Sim(j, s, w) && dj.id != j.id && HasId(w.rows, dj.id, dj.name)
    ensures Sim(j, s, D.HandledOne(j.e, w, dj, now, replies))
  {
    HandledRaises(j.e, w, dj, now, replies);
    OtherRow(j, w, dj, now, replies);
  }

  lemma {:induction false} LaunchesAdd(a: seq<D.Launch>, b: seq<D.Launch>, id: string)
    ensures LaunchesFor(a + b, id) == LaunchesFor(a, id) + LaunchesFor(b, id)
  {
    if b == [] {
      assert a + b == a;
    } else {
      LaunchesAdd(a, b[..|b| - 1], id);
      assert (a + b)[..|a + b| - 1] == a + b[..|b| - 1];
    }
  }

  /** The job's row is entry `p` of the fetch, or not in it if `p` is the length. */
  ghost predicate IsEntry(j: Subject, due: seq<DueJob>, p: nat) {
    && p <= |due| && (forall i :: 0 <= i < |due| && i != p ==> due[i].id != j.id)
    && (p < |due| ==> due[p].id == j.id && due[p].name == j.name
                      && Load(j.e.lib, due[p].kind, due[p].expr) == Ok(j.cfg.sched))
  }

  /** The node before or after it deals with the job's row. */
  ghost predicate AtEntry(j: Subject, s: State, due: seq<DueJob>, p: nat, k: nat, now: Time) {
    j.n < |s.nodes| && s.nodes[j.n].mode == if k <= p < |due| then Fetched(now, due[p].fire) else Idle
  }

  /** Goroutine `i` of the job waits in the protocol as execution `ids[i]`; all these are new and distinct, and
      older executions are as they were. */
  ghost predicate Grown(j: Subject, s: State, s': State, launches: seq<D.Launch>, ids: seq<nat>) {
    && |ids| == |launches| && s.nextId <= s'.nextId
    && (forall x :: x in s.flight ==> x in s'.flight && s'.flight[x] == s.flight[x])
    && (forall i :: 0 <= i < |ids| && launches[i].due.id == j.id ==>
          s.nextId <= ids[i] < s'.nextId && Awaits(s', j.n, ids[i]) && launches[i].options == j.cfg.opts
          && launches[i].attempt.None?)
    && (forall i, k :: 0 <= i < k < |ids| && launches[i].due.id == j.id && launches[k].due.id == j.id ==> ids[i] != ids[k])
  }

  lemma GrownOn(j: Subject, s: State, m: State, s': State, a: seq<D.Launch>, xs: seq<nat>, b: seq<D.Launch>, ys: seq<nat>)
    requires Grown(j, s, m, a, xs) && Grown(j, m, s', b, ys) && |s'.nodes| >= |m.nodes|
    ensures Grown(j, s, s', a + b, xs + ys)
  {
    forall i | 0 <= i < |xs + ys| && (a + b)[i].due.id == j.id
      ensures s.nextId <= (xs + ys)[i] < s'.nextId && Awaits(s', j.n, (xs + ys)[i]) && (a + b)[i].options == j.cfg.opts
              && (a + b)[i].attempt.None?
    {
      if i < |xs| {
        assert a[i].due.id == j.id && (xs + ys)[i] == xs[i];
      } else {
        assert b[i - |xs|].due.id == j.id && (xs + ys)[i] == ys[i - |xs|];
      }
    }
    forall i, k | 0 <= i < k < |xs + ys| && (a + b)[i].due.id == j.id && (a + b)[k].due.id == j.id
      ensures (xs + ys)[i] != (xs + ys)[k]
    {
      if i < |xs| { assert a[i].due.id == j.id; } else { assert b[i - |xs|].due.id == j.id; }
      if k < |xs| { assert a[k].due.id == j.id; } else { assert b[k - |xs|].due.id == j.id; }
    }
  }

  lemma DealtGrows(j: Subject, s: State, s': State, w: World, w': World, dj: DueJob, now: Time) returns (ids: seq<nat>)
    requires Sim(j, s, w) && dj.id == j.id && dj.name == j.name
    requires Dealt(j, s, s', w, w', dj, D.LaunchesOf(j.e, w.rows, dj, now))
    ensures Grown(j, s, s', D.LaunchesOf(j.e, w.rows, dj, now), ids)
  {
    ids := if D.LaunchesOf(j.e, w.rows, dj, now) == [] then [] else [s.nextId];
    assert s.nextId !in s.flight;
  }

  lemma OthersGrow(j: Subject, s: State, w: World, dj: DueJob, now: Time) returns (ids: seq<nat>)
    requires dj.id != j.id
    ensures Grown(j, s, s, D.LaunchesOf(j.e, w.rows, dj, now), ids)
  {
    ids := seq(|D.LaunchesOf(j.e, w.rows, dj, now)|, _ => 0);
  }

  lemma RowIsRun(j: Subject, s: State, w: World, due: seq<DueJob>, now: Time, replies: nat -> Reply, p: nat, i: nat)
    returns (steps: seq<Step>, s': State, ids: seq<nat>)
    requires Sim(j, s, w) && i < |due| && HasId(w.rows, due[i].id, due[i].name) && AllTimely(j, replies)
    requires IsEntry(j, due, p) && AtEntry(j, s, due, p, i, now)
    ensures Leads(j, s, steps, s') && AtEntry(j, s', due, p, i + 1, now)
    ensures var w', launches := D.HandledOne(j.e, w, due[i], now, replies), D.LaunchesOf(j.e, w.rows, due[i], now);
            Sim(j, s', w') && Accounts(j, s, s', w, w', launches) && Grown(j, s, s', launches, ids)
  {
    if i == p {
      steps, s' := DispatchIsRun(j, s, w, due[i], now, replies);
      ids := DealtGrows(j, s, s', w, D.HandledOne(j.e, w, due[i], now, replies), due[i], now);
    } else {
      steps, s' := [], s;
      OtherRow(j, w, due[i], now, replies);
      OtherRowShows(j, s, w, due[i], now, replies);
      ids := OthersGrow(j, s, w, due[i], now);
    }
  }

  /** Since `s` and `w` the first `k` rows were handled, with this outcome. */
  ghost predicate Part(j: Subject, s: State, s': State, w: World, w': World, launches: seq<D.Launch>, ids: seq<nat>,
                       due: seq<DueJob>, p: nat, k: nat, now: Time) {
    && AtEntry(j, s', due, p, k, now) && Sim(j, s', w')
    && Accounts(j, s, s', w, w', launches) && Grown(j, s, s', launches, ids)
  }

  lemma AccountsAdd(j: Subject, s: State, m: State, s': State, w: World, mid: World, w': World,
                    a: seq<D.Launch>, b: seq<D.Launch>)
    requires Accounts(j, s, m, w, mid, a) && Accounts(j, m, s', mid, w', b)
    ensures Accounts(j, s, s', w, w', a + b)
  {
    LaunchesAdd(a, b, j.id);
  }

  lemma TickRow(j: Subject, s: State, before: seq<Step>, m: State, w: World, mid: World, launches: seq<D.Launch>,
                xs: seq<nat>, due: seq<DueJob>, now: Time, replies: nat -> Reply, p: nat, i: nat)
    returns (steps: seq<Step>, s': State, ids: seq<nat>)
    requires i < |due| && HasId(mid.rows, due[i].id, due[i].name) && IsEntry(j, due, p) && AllTimely(j, replies)
    requires Leads(j, s, before, m) && Part(j, s, m, w, mid, launches, xs, due, p, i, now)
    ensures Leads(j, s, steps, s')
    ensures Part(j, s, s', w, D.HandledOne(j.e, mid, due[i], now, replies),
                 launches + D.LaunchesOf(j.e, mid.rows, due[i], now), ids, due, p, i + 1, now)
  {
    var last, ys;
    last, s', ys := RowIsRun(j, m, mid, due, now, replies, p, i);
    AccountsAdd(j, s, m, s', w, mid, D.HandledOne(j.e, mid, due[i], now, replies), launches,
                D.LaunchesOf(j.e, mid.rows, due[i], now));
    PathOn(j.cfg, s, before, j.Rule(), m, last, s');
    SameNodes(j, m, last, s');
    GrownOn(j, s, m, s', launches, xs, D.LaunchesOf(j.e, mid.rows, due[i], now), ys);
    steps := before + last;
    ids := xs + ys;
  }

  lemma {:induction false} SameNodes(j: Subject, s: State, steps: seq<Step>, s': State)
    requires Leads(j, s, steps, s')
    ensures |s'.nodes| == |s.nodes|
  {
    if steps != [] {
      var before := steps[..|steps| - 1];
      SameNodes(j, s, before, Reach(j.cfg, s, before));
    }
  }

  /** The object's states and launches inside a tick, row by row. */
  datatype Progress = Progress(w: World, launches: seq<D.Launch>)

  ghost predicate NextRow(j: Subject, due: seq<DueJob>, now: Time, replies: nat -> nat -> Reply, at: seq<Progress>, i: nat)
    requires i < |due| && |at| == |due| + 1
  {
    && HasId(at[i].w.rows, due[i].id, due[i].name)
    && at[i + 1] == Progress(D.HandledOne(j.e, at[i].w, due[i], now, replies(i)),
                             at[i].launches + D.LaunchesOf(j.e, at[i].w.rows, due[i], now))
  }

  lemma {:induction false} TickUpTo(j: Subject, s: State, due: seq<DueJob>, now: Time, replies: nat -> nat -> Reply,
                                    at: seq<Progress>, p: nat, k: nat)
    returns (steps: seq<Step>, s': State, ids: seq<nat>)
    requires k <= |due| && |at| == |due| + 1 && at[0].launches == [] && IsEntry(j, due, p)
    requires forall i :: 0 <= i < |due| ==> NextRow(j, due, now, replies, at, i)
    requires forall i: nat :: AllTimely(j, replies(i))
    requires Sim(j, s, at[0].w) && AtEntry(j, s, due, p, 0, now)
    ensures Leads(j, s, steps, s') && Part(j, s, s', at[0].w, at[k].w, at[k].launches, ids, due, p, k, now)
  {
    if k == 0 {
      return [], s, [];
    }
    var before, m, xs := TickUpTo(j, s, due, now, replies, at, p, k - 1);
    assert NextRow(j, due, now, replies, at, k - 1);
    steps, s', ids := TickRow(j, s, before, m, at[0].w, at[k - 1].w, at[k - 1].launches, xs, due, now, replies(k - 1), p, k - 1);
  }

  /** The progress of a tick, as the dispatcher's functions have it. */
  ghost function ProgressOf(j: Subject, w: World, due: seq<DueJob>, now: Time, replies: nat -> nat -> Reply): seq<Progress> {
    seq(|due| + 1, k requires 0 <= k <= |due| =>
      Progress(D.HandledUpTo(j.e, w, due, now, replies, k), D.LaunchedUpTo(j.e, w, due, now, replies, k)))
  }

  lemma ProgressGoesOn(j: Subject, w: World, due: seq<DueJob>, now: Time, replies: nat -> nat -> Reply)
    requires RowsOk(w.rows) && Matches(w.rows, due)
    ensures forall i :: 0 <= i < |due| ==> NextRow(j, due, now, replies, ProgressOf(j, w, due, now, replies), i)
  {
    forall i | 0 <= i < |due| ensures NextRow(j, due, now, replies, ProgressOf(j, w, due, now, replies), i) {
      var _ := TickTouches(j.e, w, due, now, replies, i);
      D.HandleNext(j.e, w, due, now, replies, i, D.HandledUpTo(j.e, w, due, now, replies, i));
    }
  }

  lemma FetchAndHandle(j: Subject, s: State, w: World, due: seq<DueJob>, now: Time, replies: nat -> nat -> Reply,
                       at: seq<Progress>, p: nat)
    returns (steps: seq<Step>, s': State, ids: seq<nat>)
    requires IsIdle(s, j.n) && Enabled(j.cfg, s, Fetch(j.n, now)) && (j.strict ==> s.start <= now <= j.clock)
    requires |at| == |due| + 1 && at[0] == Progress(w, []) && IsEntry(j, due, p)
    requires forall i :: 0 <= i < |due| ==> NextRow(j, due, now, replies, at, i)
    requires forall i: nat :: AllTimely(j, replies(i))
    requires var m := SetMode(s, j.n, Fetched(now, s.Row())); Sim(j, m, w) && AtEntry(j, m, due, p, 0, now)
    ensures Leads(j, s, steps, s') && Part(j, s, s', w, at[|due|].w, at[|due|].launches, ids, due, p, |due|, now)
  {
    var m := SetMode(s, j.n, Fetched(now, s.Row()));
    Permitted(j, s, Fetch(j.n, now));
    PathStep(j.cfg, s, Fetch(j.n, now), j.Rule());
    var rest;
    rest, s', ids := TickUpTo(j, m, due, now, replies, at, p, |due|);
    steps := [Fetch(j.n, now)] + rest;
    PathOn(j.cfg, s, [Fetch(j.n, now)], j.Rule(), m, rest, s');
  }

  /** A whole tick of the dispatcher object is a run of its node in the protocol: it begins with a fetch if the
      job is among the rows fetched, and leaves the job's row, the attempt counter, the goroutines launched
      and the runs recorded as the protocol has them. */
  lemma TickIsRun(j: Subject, s: State, w: World, due: seq<DueJob>, now: Time, replies: nat -> nat -> Reply)
    returns (steps: seq<Step>, s': State, ids: seq<nat>)
    requires Sim(j, s, w) && IsIdle(s, j.n) && IsFetch(w.rows, now, 64, due)
    requires (forall i: nat :: AllTimely(j, replies(i))) && (j.strict ==> s.start <= now <= j.clock)
    ensures Leads(j, s, steps, s') && IsIdle(s', j.n)
    ensures var w', launches := D.HandledUpTo(j.e, w, due, now, replies, |due|),
                                D.LaunchedUpTo(j.e, w, due, now, replies, |due|);
            Sim(j, s', w') && Accounts(j, s, s', w, w', launches) && Grown(j, s, s', launches, ids)
  {
    var at := ProgressOf(j, w, due, now, replies);
    FetchMatches(w.rows, now, 64, due);
    ProgressGoesOn(j, w, due, now, replies);
    if p :| 0 <= p < |due| && due[p].id == j.id {
      FetchShows(j, s, w, due, now, p);
      steps, s', ids := FetchAndHandle(j, s, w, due, now, replies, at, p);
    } else {
      steps, s', ids := TickUpTo(j, s, due, now, replies, at, |due|, |due|);
    }
  }

  lemma FetchShows(j: Subject, s: State, w: World, due: seq<DueJob>, now: Time, p: nat)
    requires Sim(j, s, w) && IsIdle(s, j.n) && IsFetch(w.rows, now, 64, due) && Matches(w.rows, due)
    requires p < |due| && due[p].id == j.id
    ensures Enabled(j.cfg, s, Fetch(j.n, now)) && IsEntry(j, due, p)
    ensures var m := SetMode(s, j.n, Fetched(now, s.Row()));
            Sim(j, m, w) && AtEntry(j, m, due, p, 0, now)
  {
    var all :| Listing(w.rows, now, all) && due == Take(all, Limit(64));
    assert due[p] == all[p] && all[p] in all;
    NamedIs(w.rows, j.id, j.name);
    FreshKept(s, SetMode(s, j.n, Fetched(now, s.Row())));
    forall i | 0 <= i < |due| && i != p ensures due[i].id != j.id { }
  }
}
