/** Any interleaving of the loops of N dispatchers over one table, with processes that die between two events, is for
    each job a run of the cluster machine: the execution bound holds for the records that the dispatchers leave in
    the table. */
module FleetRuns {
  import opened Basics
  import opened Schedules
  import opened Jobs
  import opened RowLedger
  import opened Storage
  import opened Persistence
  import opened Execution
  import opened Cluster
  import opened Scripts
  import opened AttemptBudget
  import opened TickProgress
  import opened Simulation
  import opened NodeRuns
  import opened ExecutionBound
  import opened Conservation
  import D = Dispatching

  /** What each dispatcher has for itself. */
  datatype Local = Local(attempts: map<string, nat>, spawned: seq<D.Launch>, leader: Option<bool>,
                         registry: map<string, Job>)

  /** The shared table and its dispatchers. */
  datatype Fleet = Fleet(rows: Rows, runs: seq<RunRecord>, nodes: seq<Local>)

  datatype FleetEvent =
    | Acts(node: nat, event: D.Event)   // an event in the loop of a dispatcher
    | Dies(node: nat)                 // its process dies and is started again

  /** The fleet as the loop of dispatcher `n` sees it. */
  function View(f: Fleet, n: nat): D.Loop
    requires n < |f.nodes|
  {
    var l := f.nodes[n];
    D.Loop(World(f.rows, f.runs, l.attempts), l.spawned, l.leader, l.registry)
  }

  function Put(f: Fleet, n: nat, b: D.Loop): Fleet
    requires n < |f.nodes|
  {
    Fleet(b.w.rows, b.w.runs, f.nodes[n := Local(b.w.attempts, b.spawned, b.leader, b.registry)])
  }

  predicate Leads(f: Fleet, n: nat)
    requires n < |f.nodes|
  {
    f.nodes[n].leader == Some(true)
  }

  predicate NobodyLeads(f: Fleet) { forall n :: 0 <= n < |f.nodes| ==> !Leads(f, n) }

  /** After a death counters and goroutines are gone, and leadership with the session. */
  function Reborn(l: Local): Local {
    Local(map[], [], if l.leader.None? then None else Some(false), l.registry)
  }

  /** One event of one dispatcher. Leadership is gained only while nobody has it. */
  ghost predicate FleetWakes(es: seq<D.Setting>, f: Fleet, event: FleetEvent, f': Fleet) {
    && event.node < |f.nodes| == |es|
    && match event
       case Acts(n, ev) =>
         && |f'.nodes| == |f.nodes| && f' == Put(f, n, View(f', n))
         && D.Wakes(es[n], View(f, n), ev, View(f', n))
         && (ev.RenewalDue? && View(f', n).leader != View(f, n).leader ==> NobodyLeads(f))
       case Dies(n) => f' == f.(nodes := f.nodes[n := Reborn(f.nodes[n])])
  }

  ghost predicate FleetStep(es: seq<D.Setting>, trace: seq<Fleet>, events: seq<FleetEvent>, i: nat)
    requires i < |events| && |trace| == |events| + 1
  {
    FleetWakes(es, trace[i], events[i], trace[i + 1])
  }

  ghost predicate IsFleetTrace(es: seq<D.Setting>, trace: seq<Fleet>, events: seq<FleetEvent>) {
    |trace| == |events| + 1 && forall i :: 0 <= i < |events| ==> FleetStep(es, trace, events, i)
  }

  // ----- The simulation relation for a fleet ---------------------------------------------------

  /** The job seen from dispatcher `n`. */
  function Member(j: Subject, es: seq<D.Setting>, n: nat): Subject
    requires n < |es|
  {
    j.(n := n, e := es[n])
  }

  ghost predicate MemberSim(j: Subject, es: seq<D.Setting>, s: State, f: Fleet, ids: seq<seq<nat>>, n: nat)
    requires n < |es| == |f.nodes| == |ids|
  {
    LoopSim(Member(j, es, n), s, View(f, n), ids[n])
  }

  ghost predicate FleetSim(j: Subject, es: seq<D.Setting>, s: State, f: Fleet, ids: seq<seq<nat>>) {
    && |es| == |f.nodes| == |s.nodes| == |ids|
    && (forall m, n :: 0 <= m < n < |es| ==> es[m].lib == es[n].lib)
    && (forall n :: 0 <= n < |es| ==> MemberSim(j, es, s, f, ids, n))
    && (NobodyLeads(f) ==> s.lock.None?)
  }

  /** The other dispatchers find the table as this event leaves it, and are as they were otherwise. */
  lemma OtherMember(j: Subject, es: seq<D.Setting>, s: State, s': State, f: Fleet, f': Fleet, ids: seq<seq<nat>>,
                    ids': seq<seq<nat>>, n: nat, m: nat)
    requires n < |es| && m < |es| && m != n && |es| == |f.nodes| == |f'.nodes| == |ids| == |ids'| == |s.nodes|
    requires es[m].lib == es[n].lib && MemberSim(j, es, s, f, ids, m)
    requires f'.nodes[m] == f.nodes[m] && ids'[m] == ids[m]
    requires Apart(s, s', n) && s'.start <= s'.clock
    requires Sim(NodeRuns.At(Member(j, es, n), View(f', n), s'), s', View(f', n).w)
    ensures MemberSim(j, es, s', f', ids', m)
  {
    var jm, a, b := Member(j, es, m), View(f, m), View(f', m);
    var here := NodeRuns.At(jm, b, s');
    assert b == a.(w := a.w.(rows := f'.rows, runs := f'.runs));
    assert Describes(NodeRuns.At(jm, a, s), f.rows[j.name]);
    assert Describes(here, f'.rows[j.name]);
    assert s'.nodes[m] == s.nodes[m];
    forall i | 0 <= i < |ids[m]| && b.spawned[i].due.id == j.id ensures Shown(jm, s', b.spawned[i], ids'[m][i]) {
      assert Shown(jm, s, a.spawned[i], ids[m][i]);
    }
  }

  // ----- One event -----------------------------------------------------------------------------

  lemma MembersKept(j: Subject, es: seq<D.Setting>, s: State, s': State, f: Fleet, f': Fleet, ids: seq<seq<nat>>,
                    ids': seq<seq<nat>>, n: nat)
    requires FleetSim(j, es, s, f, ids) && |ids'| == |ids| && n < |es| == |f'.nodes| && Apart(s, s', n) && s'.start <= s'.clock
    requires forall m :: 0 <= m < |es| && m != n ==> f'.nodes[m] == f.nodes[m] && ids'[m] == ids[m]
    requires MemberSim(j, es, s', f', ids', n)
    ensures forall m :: 0 <= m < |es| ==> MemberSim(j, es, s', f', ids', m)
  {
    forall m | 0 <= m < |es| ensures MemberSim(j, es, s', f', ids', m) {
      if m != n {
        assert MemberSim(j, es, s, f, ids, m);
        OtherMember(j, es, s, s', f, f', ids, ids', n, m);
      }
    }
  }

  /** What the machine and the fleet have in common after some events. */
  ghost predicate FleetFollows(j: Subject, es: seq<D.Setting>, f: Fleet, s: State, f': Fleet, s': State,
                               ids: seq<seq<nat>>, clock: Time, deaths: nat) {
    && FleetSim(j, es, s', f', ids) && |s'.nodes| == |s.nodes|
    && s'.recorded - s.recorded == RecordsOf(f'.runs, j.id) - RecordsOf(f.runs, j.id)
    && s'.clock == clock && s'.start == s.start && s'.crashes == s.crashes + deaths
  }

  lemma WakeRuns(j: Subject, es: seq<D.Setting>, s: State, f: Fleet, ids: seq<seq<nat>>, n: nat, event: D.Event, f': Fleet)
    returns (steps: seq<Step>, s': State, ids': seq<seq<nat>>)
    requires FleetSim(j, es, s, f, ids) && FleetWakes(es, f, Acts(n, event), f')
    requires Punctual(Member(j, es, n), s.clock, event)
    ensures Path(j.cfg, s, steps, RunRule(j.strict), s')
    ensures FleetFollows(j, es, f, s, f', s', ids', ClockAt(j.strict, s.clock, event), 0)
  {
    var jn, a, b := Member(j, es, n), View(f, n), View(f', n);
    assert MemberSim(j, es, s, f, ids, n);
    var xs;
    steps, s', xs := EventRuns(jn, s, a, ids[n], event, b);
    ids' := ids[n := xs];
    MembersKept(j, es, s, s', f, f', ids, ids', n);
    LockFollows(j, es, s, s', f, f', n, event);
  }

  /** A renewal after which a node does not lead has changed nothing. */
  lemma SameLeader(a: D.Loop, b: D.Loop)
    requires D.RenewedTo(a, b) && b.leader != Some(true)
    ensures b.leader == a.leader
  {
    match (a.leader, b.leader) {
      case (Some(x), Some(y)) => assert !y && (x ==> b == a);
      case _ =>
    }
  }

  /** If nobody leads afterwards, nobody led before, and the lock is free. */
  lemma LockFollows(j: Subject, es: seq<D.Setting>, s: State, s': State, f: Fleet, f': Fleet, n: nat, event: D.Event)
    requires FleetWakes(es, f, Acts(n, event), f') && (NobodyLeads(f) ==> s.lock.None?)
    requires View(f', n).leader == View(f, n).leader ==> s'.lock == s.lock
    ensures NobodyLeads(f') ==> s'.lock.None?
  {
    var a, b := View(f, n), View(f', n);
    assert forall m :: 0 <= m < |f.nodes| && m != n ==> f'.nodes[m] == f.nodes[m];
    if NobodyLeads(f') {
      assert !Leads(f', n);
      if event.RenewalDue? { SameLeader(a, b); }
      forall m | 0 <= m < |f.nodes| ensures !Leads(f, m) { assert !Leads(f', m); }
    }
  }

  lemma DeathSteps(j: Subject, s: State, n: nat, free: bool) returns (steps: seq<Step>, s': State)
    requires n < |s.nodes| && FreshIds(s)
    requires free ==> s.lock.Some? && forall m :: 0 <= m < |s.nodes| && m != n ==> s.nodes[m].session.None?
    ensures Path(j.cfg, s, steps, RunRule(j.strict), s')
    ensures s' == if free then Crashed(s, n).(lock := None) else Crashed(s, n)
    ensures Apart(s, s', n) && FreshIds(s')
  {
    s' := Crashed(s, n);
    steps := [Crash(n)];
    PathStep(j.cfg, s, Crash(n), RunRule(j.strict));
    StepFresh(j.cfg, s, Crash(n));
    StepIsApart(j.cfg, s, Crash(n), n);
    if free {
      var dead := s';
      s' := dead.(lock := None);
      PathSnoc(j.cfg, s, [Crash(n)], RunRule(j.strict), dead, SessionEnds(s.lock.value), s');
      steps := [Crash(n)] + [SessionEnds(s.lock.value)];
    }
  }

  lemma DeathRuns(j: Subject, es: seq<D.Setting>, s: State, f: Fleet, ids: seq<seq<nat>>, n: nat, f': Fleet)
    returns (steps: seq<Step>, s': State, ids': seq<seq<nat>>)
    requires FleetSim(j, es, s, f, ids) && FleetWakes(es, f, Dies(n), f')
    ensures Path(j.cfg, s, steps, RunRule(j.strict), s')
    ensures FleetFollows(j, es, f, s, f', s', ids', s.clock, 1)
  {
    assert MemberSim(j, es, s, f, ids, n);
    var free := s.lock.Some? && NobodyLeads(f');
    if free { NoSessions(j, es, s, f, ids, n, f'); }
    steps, s' := DeathSteps(j, s, n, free);
    ids' := ids[n := []];
    ReborneSim(j, es, s, s', f, f', ids, n);
    MembersKept(j, es, s, s', f, f', ids, ids', n);
  }

  /** If only the dead process could have led, no other session is pinned. */
  lemma NoSessions(j: Subject, es: seq<D.Setting>, s: State, f: Fleet, ids: seq<seq<nat>>, n: nat, f': Fleet)
    requires FleetSim(j, es, s, f, ids) && FleetWakes(es, f, Dies(n), f') && NobodyLeads(f') && s.lock.Some?
    ensures forall m :: 0 <= m < |s.nodes| && m != n ==> s.nodes[m].session.None?
  {
    var k :| 0 <= k < |f.nodes| && Leads(f, k);
    assert MemberSim(j, es, s, f, ids, k);
    forall m | 0 <= m < |s.nodes| && m != n ensures s.nodes[m].session.None? {
      assert MemberSim(j, es, s, f, ids, m) && !Leads(f', m);
    }
  }

  lemma ReborneSim(j: Subject, es: seq<D.Setting>, s: State, s': State, f: Fleet, f': Fleet, ids: seq<seq<nat>>, n: nat)
    requires FleetSim(j, es, s, f, ids) && FleetWakes(es, f, Dies(n), f') && FreshIds(s')
    requires s' == Crashed(s, n).(lock := s'.lock)
    ensures LoopSim(Member(j, es, n), s', View(f', n), [])
  {
    assert MemberSim(j, es, s, f, ids, n);
    var jn, b := Member(j, es, n), View(f', n);
    assert Describes(NodeRuns.At(jn, View(f, n), s), f.rows[j.name]);
    assert Describes(NodeRuns.At(jn, b, s'), f'.rows[j.name]);
    assert s'.Row() == s.Row();
  }

  // ----- Whole runs ----------------------------------------------------------------------------

  /** The reading of the last tick of any dispatcher. */
  function FleetClock(strict: bool, t: Time, events: seq<FleetEvent>, k: nat): Time
    requires k <= |events|
  {
    if k == 0 then t
    else
      var before := FleetClock(strict, t, events, k - 1);
      match events[k - 1]
      case Acts(_, event) => ClockAt(strict, before, event)
      case Dies(_) => before
  }

  function Deaths(events: seq<FleetEvent>, k: nat): nat
    requires k <= |events|
  {
    if k == 0 then 0 else Deaths(events, k - 1) + Ind(events[k - 1].Dies?)
  }

  /** Event `k` reads no earlier clock than the events before it. */
  ghost predicate InTime(j: Subject, es: seq<D.Setting>, t: Time, events: seq<FleetEvent>, k: nat)
    requires k < |events|
  {
    events[k].Acts? && events[k].node < |es| ==>
      Punctual(Member(j, es, events[k].node), FleetClock(j.strict, t, events, k), events[k].event)
  }

  ghost predicate AllInTime(j: Subject, es: seq<D.Setting>, t: Time, events: seq<FleetEvent>) {
    forall k :: 0 <= k < |events| ==> InTime(j, es, t, events, k)
  }

  lemma FleetEventRuns(j: Subject, es: seq<D.Setting>, s: State, f: Fleet, ids: seq<seq<nat>>, event: FleetEvent, f': Fleet)
    returns (steps: seq<Step>, s': State, ids': seq<seq<nat>>)
    requires FleetSim(j, es, s, f, ids) && FleetWakes(es, f, event, f')
    requires event.Acts? ==> Punctual(Member(j, es, event.node), s.clock, event.event)
    ensures Path(j.cfg, s, steps, RunRule(j.strict), s')
    ensures FleetFollows(j, es, f, s, f', s', ids', if event.Acts? then ClockAt(j.strict, s.clock, event.event) else s.clock,
                         Ind(event.Dies?))
  {
    match event {
      case Acts(n, ev) => steps, s', ids' := WakeRuns(j, es, s, f, ids, n, ev, f');
      case Dies(n) => steps, s', ids' := DeathRuns(j, es, s, f, ids, n, f');
    }
  }

  /** Every run of the fleet is a run of the machine, event by event. */
  lemma {:induction false} FleetIsRun(j: Subject, es: seq<D.Setting>, s: State, trace: seq<Fleet>, events: seq<FleetEvent>,
                                      ids: seq<seq<nat>>, k: nat)
    returns (steps: seq<Step>, s': State, ids': seq<seq<nat>>)
    requires IsFleetTrace(es, trace, events) && k <= |events|
    requires FleetSim(j, es, s, trace[0], ids) && AllInTime(j, es, s.clock, events)
    ensures Path(j.cfg, s, steps, RunRule(j.strict), s')
    ensures FleetFollows(j, es, trace[0], s, trace[k], s', ids', FleetClock(j.strict, s.clock, events, k), Deaths(events, k))
  {
    if k == 0 {
      return [], s, ids;
    }
    var before, m, xs := FleetIsRun(j, es, s, trace, events, ids, k - 1);
    assert FleetStep(es, trace, events, k - 1) && InTime(j, es, s.clock, events, k - 1);
    var last;
    last, s', ids' := FleetEventRuns(j, es, m, trace[k - 1], xs, events[k - 1], trace[k]);
    PathOn(j.cfg, s, before, RunRule(j.strict), m, last, s');
    steps := before + last;
  }

  /** The machine before a fleet starts: fresh nodes around the job's row. */
  function Before(t: Time, row: Time, n: nat): State { Fresh(t, n).(origin := row) }

  /** A fresh dispatcher that knows the job. */
  ghost predicate BeginsAt(j: Subject, es: seq<D.Setting>, f: Fleet, n: nat)
    requires n < |f.nodes| == |es| && j.name in f.rows
  {
    var l := f.nodes[n];
    && l.spawned == [] && Counter(l.attempts, j.id) == 0 && l.leader != Some(true)
    && Describes(Member(j, es, n).(e := D.Here(es[n], View(f, n))), f.rows[j.name])
    && (j.cfg.hasLeader <==> l.leader.Some?)
  }

  /** Fresh dispatchers over a table that holds the job's row. */
  ghost predicate FleetBegins(j: Subject, es: seq<D.Setting>, f: Fleet) {
    && |es| == |f.nodes| && RowsOk(f.rows) && HasId(f.rows, j.id, j.name)
    && (forall m, n :: 0 <= m < n < |es| ==> es[m].lib == es[n].lib)
    && forall n :: 0 <= n < |es| ==> BeginsAt(j, es, f, n)
  }

  lemma FleetBeginsSim(j: Subject, es: seq<D.Setting>, t: Time, f: Fleet)
    requires FleetBegins(j, es, f)
    ensures var s := Before(t, f.rows[j.name].next, |es|);
            Initial(s) && FleetSim(j, es, s, f, seq(|es|, _ => []))
  {
    var s, ids := Before(t, f.rows[j.name].next, |es|), seq(|es|, _ => []);
    forall n | 0 <= n < |es| ensures MemberSim(j, es, s, f, ids, n) {
      assert BeginsAt(j, es, f, n);
      var jn, a := Member(j, es, n), View(f, n);
      assert Describes(NodeRuns.At(jn, a, s), f.rows[j.name]);
      assert a.leader.Some? ==> !a.leader.value;
    }
  }

  /** From a fresh start every interleaving of the dispatchers' loops over the table is, for each job, a run of the
      machine that `Initial` states allow. */
  lemma FleetIsMachineRun(j: Subject, es: seq<D.Setting>, t: Time, trace: seq<Fleet>, events: seq<FleetEvent>, k: nat)
    returns (steps: seq<Step>, e: State, ids: seq<seq<nat>>)
    requires IsFleetTrace(es, trace, events) && k <= |events|
    requires FleetBegins(j, es, trace[0]) && AllInTime(j, es, t, events)
    ensures var s := Before(t, trace[0].rows[j.name].next, |es|);
            && Initial(s) && Path(j.cfg, s, steps, RunRule(j.strict), e)
            && FleetFollows(j, es, trace[0], s, trace[k], e, ids, FleetClock(j.strict, t, events, k), Deaths(events, k))
  {
    FleetBeginsSim(j, es, t, trace[0]);
    steps, e, ids := FleetIsRun(j, es, Before(t, trace[0].rows[j.name].next, |es|), trace, events,
                                seq(|es|, _ => []), k);
  }

  // ----- The execution bound for dispatcher objects --------------------------------------------

  /** Sharing one clock is what the strict rule asks for. */
  lemma {:induction false} StrictIsShared(cfg: Config, s: State, steps: seq<Step>)
    requires Legal(cfg, s, steps, RunRule(true))
    ensures Legal(cfg, s, steps, SharedClock)
  {
    if steps != [] { StrictIsShared(cfg, s, steps[..|steps| - 1]); }
  }

  lemma MachineBound(cfg: Config, s: State, steps: seq<Step>, e: State)
    requires Grid(cfg.sched) && cfg.opts.missedFire != RunAll
    requires Initial(s) && Path(cfg, s, steps, RunRule(true), e)
    ensures e.recorded <= StartLimit(cfg, e, |GapEnds(cfg.sched, e.start, e.clock)|)
  {
    StrictIsShared(cfg, s, steps);
    ExecutionBound.ExecutionBound(cfg, s, steps);
    RecordsNeedStarts(cfg, s, steps, RunRule(true));
  }

  /** M * g + (M - 1) * (n - 1 + c) for g gaps, n dispatchers and c deaths; nothing without a gap. */
  function RecordLimit(cfg: Config, g: nat, n: nat, c: nat): int {
    var b := Budget(MaxAttempts(cfg));
    if g == 0 then 0 else b * g + (b - 1) * (n - 1 + c)
  }

  /** N dispatchers over one table, C deaths, G inter-fire gaps: the runs recorded for a grid job number at most
      M * G + (M - 1) * (N - 1 + C), with overlapping handlers, other jobs, renewals and registrations. */
  lemma FleetExecutionBound(j: Subject, es: seq<D.Setting>, t: Time, trace: seq<Fleet>, events: seq<FleetEvent>, k: nat)
    requires j.strict && Grid(j.cfg.sched) && j.cfg.opts.missedFire != RunAll
    requires IsFleetTrace(es, trace, events) && k <= |events|
    requires FleetBegins(j, es, trace[0]) && AllInTime(j, es, t, events)
    ensures RecordsOf(trace[k].runs, j.id) - RecordsOf(trace[0].runs, j.id) <=
            RecordLimit(j.cfg, |GapEnds(j.cfg.sched, t, FleetClock(true, t, events, k))|, |es|, Deaths(events, k))
  {
    var steps, e, ids := FleetIsMachineRun(j, es, t, trace, events, k);
    MachineBound(j.cfg, Before(t, trace[0].rows[j.name].next, |es|), steps, e);
  }

  // ----- One dispatcher ------------------------------------------------------------------------

  function Alone(a: D.Loop): Fleet {
    Fleet(a.w.rows, a.w.runs, [Local(a.w.attempts, a.spawned, a.leader, a.registry)])
  }

  function FleetOf(trace: seq<D.Loop>): seq<Fleet> { seq(|trace|, i requires 0 <= i < |trace| => Alone(trace[i])) }

  function EventsOf(events: seq<D.Event>): seq<FleetEvent> {
    seq(|events|, i requires 0 <= i < |events| => Acts(0, events[i]))
  }

  /** A fleet of one. */
  lemma LoopIsFleet(e: D.Setting, trace: seq<D.Loop>, events: seq<D.Event>)
    requires D.IsTrace(e, trace, events)
    ensures IsFleetTrace([e], FleetOf(trace), EventsOf(events))
  {
    forall i | 0 <= i < |events| ensures FleetStep([e], FleetOf(trace), EventsOf(events), i) {
      assert D.StepAt(e, trace, events, i);
      var f, f' := Alone(trace[i]), Alone(trace[i + 1]);
      assert View(f, 0) == trace[i] && View(f', 0) == trace[i + 1];
      assert f' == Put(f, 0, View(f', 0));
      if View(f', 0).leader != View(f, 0).leader { assert !Leads(f, 0); }
    }
  }

  /** The readings and replies of one dispatcher's events. */
  ghost predicate AllPunctual(j: Subject, t: Time, events: seq<D.Event>) {
    forall k :: 0 <= k < |events| ==> Punctual(j, FleetClock(j.strict, t, EventsOf(events), k), events[k])
  }

  /** Every trace of the loop is, for each job, a run of a one-node machine. */
  lemma LoopIsMachineRun(j: Subject, t: Time, trace: seq<D.Loop>, events: seq<D.Event>, k: nat)
    returns (steps: seq<Step>, e: State, ids: seq<seq<nat>>)
    requires D.IsTrace(j.e, trace, events) && k <= |events| && j.n == 0
    requires FleetBegins(j, [j.e], Alone(trace[0])) && AllPunctual(j, t, events)
    ensures var s := Before(t, trace[0].w.rows[j.name].next, 1);
            && Initial(s) && Path(j.cfg, s, steps, RunRule(j.strict), e)
            && FleetFollows(j, [j.e], Alone(trace[0]), s, Alone(trace[k]), e, ids,
                            FleetClock(j.strict, t, EventsOf(events), k), 0)
  {
    LoopIsFleet(j.e, trace, events);
    AloneInTime(j, t, events);
    NoDeaths(events, k);
    steps, e, ids := FleetIsMachineRun(j, [j.e], t, FleetOf(trace), EventsOf(events), k);
  }

  lemma AloneInTime(j: Subject, t: Time, events: seq<D.Event>)
    requires j.n == 0 && AllPunctual(j, t, events)
    ensures AllInTime(j, [j.e], t, EventsOf(events))
  {
    forall k | 0 <= k < |events| ensures InTime(j, [j.e], t, EventsOf(events), k) {
      assert Member(j, [j.e], 0) == j;
      assert Punctual(j, FleetClock(j.strict, t, EventsOf(events), k), events[k]);
    }
  }

  lemma {:induction false} NoDeaths(events: seq<D.Event>, k: nat)
    requires k <= |events|
    ensures Deaths(EventsOf(events), k) == 0
  {
    if k > 0 { NoDeaths(events, k - 1); }
  }

  /** The dispatcher records a job at most M times in each inter-fire gap: over every trace of its loop, with other jobs,
      renewals, registrations and handlers that overlap. */
  lemma LoopExecutionBound(j: Subject, t: Time, trace: seq<D.Loop>, events: seq<D.Event>, k: nat)
    requires j.strict && Grid(j.cfg.sched) && j.cfg.opts.missedFire != RunAll && j.n == 0
    requires D.IsTrace(j.e, trace, events) && k <= |events|
    requires FleetBegins(j, [j.e], Alone(trace[0])) && AllPunctual(j, t, events)
    ensures RecordsOf(trace[k].w.runs, j.id) - RecordsOf(trace[0].w.runs, j.id) <=
            Budget(MaxAttempts(j.cfg)) * |GapEnds(j.cfg.sched, t, FleetClock(true, t, EventsOf(events), k))|
  {
    LoopIsFleet(j.e, trace, events);
    AloneInTime(j, t, events);
    NoDeaths(events, k);
    FleetExecutionBound(j, [j.e], t, FleetOf(trace), EventsOf(events), k);
    OneNodeLimit(j.cfg, |GapEnds(j.cfg.sched, t, FleetClock(true, t, EventsOf(events), k))|);
  }

  lemma OneNodeLimit(cfg: Config, g: nat)
    ensures RecordLimit(cfg, g, 1, 0) == Budget(MaxAttempts(cfg)) * g
  {
    assert (Budget(MaxAttempts(cfg)) - 1) * 0 == 0;
  }
}
