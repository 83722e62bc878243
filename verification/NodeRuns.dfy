/** What one event in the loop of one dispatcher does is, for each job, a run of its node in the cluster machine; the
    other nodes do not notice. */
module NodeRuns {
  import opened Basics
  import opened Schedules
  import opened Jobs
  import opened RowLedger
  import opened Storage
  import opened Persistence
  import opened Execution
  import opened Cluster
  import opened Scripts
  import opened AttemptBudget
  import opened TickProgress
  import opened Simulation
  import D = Dispatching

  // ----- What a smooth path leaves alone -------------------------------------------------------

  /** Clock, lock, crashes and this node's session. */
  predicate SameFrame(s: State, s': State, n: nat) {
    && s'.clock == s.clock && s'.start == s.start && s'.lock == s.lock && s'.crashes == s.crashes
    && n < |s.nodes| == |s'.nodes| && s'.nodes[n].session == s.nodes[n].session
  }

  lemma StepKeepsFrame(cfg: Config, s: State, step: Step, n: nat)
    requires Enabled(cfg, s, step) && Smooth(cfg, s, step) && n < |s.nodes|
    ensures SameFrame(s, Apply(cfg, s, step), n)
  {
    if step.Dispatch? {
      DispatchHasEffect(cfg, s, step.node, step.call);
      DispatchKeepsFrame(cfg, s, step.node, step.call, n);
    }
  }

  lemma DispatchKeepsFrame(cfg: Config, s: State, n: nat, call: CallResult, m: nat)
    requires Enabled(cfg, s, Dispatch(n, call)) && m < |s.nodes|
    ensures SameFrame(s, Dispatched(cfg, s, n, call), m)
  {
  }

  /** The other nodes and their executions are as they were. */
  ghost predicate Apart(s: State, s': State, n: nat) {
    && |s'.nodes| == |s.nodes|
    && (forall m :: 0 <= m < |s.nodes| && m != n ==> s'.nodes[m] == s.nodes[m])
    && (forall x :: x in s.flight && s.flight[x].node != n ==> x in s'.flight && s'.flight[x] == s.flight[x])
  }

  lemma DispatchIsApart(cfg: Config, s: State, n: nat, call: CallResult)
    requires Enabled(cfg, s, Dispatch(n, call)) && FreshIds(s)
    ensures Apart(s, Dispatched(cfg, s, n, call), n)
  {
  }

  lemma StepIsApart(cfg: Config, s: State, step: Step, n: nat)
    requires Enabled(cfg, s, step) && FreshIds(s) && ActsFor(s, step, n)
    ensures Apart(s, Apply(cfg, s, step), n)
  {
    match step {
      case Dispatch(m, call) => DispatchIsApart(cfg, s, m, call);
      case Start(id) => assert Apart(s, Started(cfg, s, id), n);
      case Finish(id, failed, at) => assert Apart(s, Finished(cfg, s, id, failed, at), n);
      case _ =>
    }
  }

  lemma ApartOn(s: State, m: State, s': State, n: nat)
    requires Apart(s, m, n) && Apart(m, s', n)
    ensures Apart(s, s', n)
  {
  }

  /** The rule of the runs built here: smooth steps, renewals, the clock, and deaths between two events; with one
      clock if that is asked for. */
  function RunRule(strict: bool): Rule {
    (cfg: Config, s: State, step: Step) =>
      && (Smooth(cfg, s, step) || step.Renew? || step.Elapse? || step.Crash? || step.SessionEnds?)
      && (strict ==> SharedClock(cfg, s, step))
  }

  /** A path of the simulation stays in its frame, apart from the other nodes, and keeps to the clock it stands at. */
  lemma {:induction false} LeadsToRun(j: Subject, s: State, steps: seq<Step>, s': State)
    requires Leads(j, s, steps, s') && j.n < |s.nodes| && (j.strict ==> j.clock == s.clock) && FreshIds(s)
    ensures Path(j.cfg, s, steps, RunRule(j.strict), s') && SameFrame(s, s', j.n)
    ensures Apart(s, s', j.n) && FreshIds(s')
  {
    if steps != [] {
      var before, last := steps[..|steps| - 1], steps[|steps| - 1];
      var m := Reach(j.cfg, s, before);
      LeadsToRun(j, s, before, m);
      StepKeepsFrame(j.cfg, m, last, j.n);
      StepIsApart(j.cfg, m, last, j.n);
      StepFresh(j.cfg, m, last);
      ApartOn(s, m, s', j.n);
      PathSnoc(j.cfg, s, before, RunRule(j.strict), m, last, s');
      assert before + [last] == steps;
    }
  }

  // ----- The simulation relation for a loop ----------------------------------------------------

  /** The subject with the leadership and the registry of the loop and the clock of the machine. */
  function At(j: Subject, a: D.Loop, s: State): Subject {
    j.(e := D.Here(j.e, a), clock := s.clock)
  }

  /** A goroutine of the job and its execution in the machine. */
  ghost predicate Shown(j: Subject, s: State, launch: D.Launch, x: nat) {
    && launch.options == j.cfg.opts
    && match launch.attempt
       case None => Awaits(s, j.n, x)
       case Some(attempt) => RunsAs(s, j.n, x, attempt)
  }

  /** Every goroutine of the job is in flight in the machine under its own id. */
  ghost predicate InFlight(j: Subject, s: State, spawned: seq<D.Launch>, ids: seq<nat>) {
    && |ids| == |spawned|
    && (forall i :: 0 <= i < |ids| && spawned[i].due.id == j.id ==> Shown(j, s, spawned[i], ids[i]))
    && (forall i, k :: 0 <= i < k < |ids| && spawned[i].due.id == j.id && spawned[k].due.id == j.id ==> ids[i] != ids[k])
  }

  ghost predicate LoopSim(j: Subject, s: State, a: D.Loop, ids: seq<nat>) {
    Sim(At(j, a, s), s, a.w) && IsIdle(s, j.n) && s.start <= s.clock && InFlight(j, s, a.spawned, ids)
  }

  /** The machine's ledger has grown with the job's records. */
  predicate SameRecords(j: Subject, s: State, s': State, w: World, w': World) {
    s'.recorded - s.recorded == RecordsOf(w'.runs, j.id) - RecordsOf(w.runs, j.id)
  }

  // ----- One event -----------------------------------------------------------------------------

  /** The replies of an event lead to no retry before the clock, and a tick does not read an earlier clock. */
  ghost predicate Punctual(j: Subject, clock: Time, event: D.Event) {
    j.strict ==>
      match event
      case TickerFired(now, replies) => clock <= now && forall i: nat :: AllTimely(j.(clock := now), replies(i))
      case HandlerReturned(_, reply) => Timely(j.(clock := clock), reply)
      case _ => true
  }

  lemma GrowthKeepsFlight(j: Subject, s: State, s': State, spawned: seq<D.Launch>, ids: seq<nat>,
                          launches: seq<D.Launch>, xs: seq<nat>)
    requires FreshIds(s) && InFlight(j, s, spawned, ids) && Grown(j, s, s', launches, xs) && |s'.nodes| == |s.nodes|
    ensures InFlight(j, s', spawned + launches, ids + xs)
  {
    var all, both := spawned + launches, ids + xs;
    forall i | 0 <= i < |both| && all[i].due.id == j.id
      ensures Shown(j, s', all[i], both[i])
    {
      if i < |ids| { assert Shown(j, s, spawned[i], ids[i]); } else { assert launches[i - |ids|].due.id == j.id; }
    }
    forall i, k | 0 <= i < k < |both| && all[i].due.id == j.id && all[k].due.id == j.id ensures both[i] != both[k] {
      if i < |ids| { assert Shown(j, s, spawned[i], ids[i]); } else { assert launches[i - |ids|].due.id == j.id; }
      if k < |ids| { assert Shown(j, s, spawned[k], ids[k]); } else { assert launches[k - |ids|].due.id == j.id; }
    }
  }

  /** Timeliness is a matter of the retry policy and the clock. */
  lemma TimelyAt(j: Subject, a: D.Loop, s: State, reply: Reply)
    requires Timely(j.(clock := s.clock), reply)
    ensures Timely(At(j, a, s), reply)
  {
    assert At(j, a, s).Runner() == j.(clock := s.clock).Runner();
  }

  /** The clock moves on to the reading of the tick, if all readings are of one clock. */
  lemma ClockMoves(j: Subject, s: State, a: D.Loop, ids: seq<nat>, now: Time) returns (steps: seq<Step>, s': State)
    requires LoopSim(j, s, a, ids) && (j.strict ==> s.clock <= now)
    ensures Path(j.cfg, s, steps, RunRule(j.strict), s') && LoopSim(j, s', a, ids)
    ensures s' == if j.strict then s.(clock := now) else s
  {
    if j.strict {
      steps, s' := [Elapse(now)], s.(clock := now);
      PathStep(j.cfg, s, Elapse(now), RunRule(j.strict));
    } else {
      steps, s' := [], s;
    }
  }

  lemma TickRuns(j: Subject, s: State, a: D.Loop, ids: seq<nat>, now: Time, replies: nat -> nat -> Reply)
    returns (steps: seq<Step>, s': State, ids': seq<nat>)
    requires LoopSim(j, s, a, ids) && (j.strict ==> now == s.clock)
    requires forall i: nat :: AllTimely(j.(clock := s.clock), replies(i))
    ensures var b := D.Ticked(j.e, a, now, replies);
            && Path(j.cfg, s, steps, RunRule(j.strict), s') && LoopSim(j, s', b, ids')
            && SameRecords(j, s, s', a.w, b.w) && SameFrame(s, s', j.n) && Apart(s, s', j.n)
  {
    var here, due := At(j, a, s), FetchOf(a.w.rows, now, 64);
    if !exists out :: IsFetch(a.w.rows, now, 64, out) {
      return [], s, ids;
    }
    forall i: nat ensures AllTimely(here, replies(i)) {
      assert AllTimely(j.(clock := s.clock), replies(i));
      forall k: nat ensures Timely(here, replies(i)(k)) { TimelyAt(j, a, s, replies(i)(k)); }
    }
    var xs;
    steps, s', xs := TickIsRun(here, s, a.w, due, now, replies);
    LeadsToRun(here, s, steps, s');
    TickShows(j, s, s', a, ids, now, replies, xs);
    ids' := ids + xs;
  }

  lemma TickShows(j: Subject, s: State, s': State, a: D.Loop, ids: seq<nat>, now: Time, replies: nat -> nat -> Reply, xs: seq<nat>)
    requires LoopSim(j, s, a, ids) && SameFrame(s, s', j.n) && IsIdle(s', j.n)
    requires var here, b := At(j, a, s), D.Ticked(j.e, a, now, replies);
             && Sim(here, s', b.w) && |b.spawned| >= |a.spawned|
             && var launches := b.spawned[|a.spawned|..];
                b.spawned == a.spawned + launches && Grown(here, s, s', launches, xs)
    ensures LoopSim(j, s', D.Ticked(j.e, a, now, replies), ids + xs)
  {
    var b := D.Ticked(j.e, a, now, replies);
    GrowthKeepsFlight(At(j, a, s), s, s', a.spawned, ids, b.spawned[|a.spawned|..], xs);
  }

  /** One goroutine has ended; the others are as before. */
  lemma OneLess(j: Subject, s: State, s': State, spawned: seq<D.Launch>, ids: seq<nat>, index: nat)
    requires InFlight(j, s, spawned, ids) && index < |ids| && |s'.nodes| == |s.nodes|
    requires s'.flight == if spawned[index].due.id == j.id then s.flight - {ids[index]} else s.flight
    ensures InFlight(j, s', D.Without(spawned, index), D.Without(ids, index))
  {
    var rest, xs := D.Without(spawned, index), D.Without(ids, index);
    forall i | 0 <= i < |xs| && rest[i].due.id == j.id ensures Shown(j, s', rest[i], xs[i]) {
      var k := if i < index then i else i + 1;
      assert rest[i] == spawned[k] && xs[i] == ids[k] && Shown(j, s, spawned[k], ids[k]);
      assert spawned[index].due.id == j.id ==> ids[k] != ids[index];
    }
    forall i, k | 0 <= i < k < |xs| && rest[i].due.id == j.id && rest[k].due.id == j.id ensures xs[i] != xs[k] {
      var a, b := if i < index then i else i + 1, if k < index then k else k + 1;
      assert rest[i] == spawned[a] && rest[k] == spawned[b];
    }
  }

  /** One goroutine has begun; the others are as before. */
  lemma OneRuns(j: Subject, s: State, s': State, spawned: seq<D.Launch>, ids: seq<nat>, index: nat, launch: D.Launch)
    requires InFlight(j, s, spawned, ids) && index < |ids| && |s'.nodes| == |s.nodes|
    requires launch.due == spawned[index].due
    requires if launch.due.id == j.id then s'.flight.Keys == s.flight.Keys && ids[index] in s.flight
                                           && s'.flight == s.flight[ids[index] := s'.flight[ids[index]]]
                                           && Shown(j, s', launch, ids[index])
             else s'.flight == s.flight
    ensures InFlight(j, s', spawned[index := launch], ids)
  {
    var all := spawned[index := launch];
    forall i | 0 <= i < |ids| && all[i].due.id == j.id ensures Shown(j, s', all[i], ids[i]) {
      if i != index {
        assert Shown(j, s, spawned[i], ids[i]);
        assert spawned[index].due.id == j.id ==> ids[i] != ids[index];
      }
    }
    forall i, k | 0 <= i < k < |ids| && all[i].due.id == j.id && all[k].due.id == j.id ensures ids[i] != ids[k] {
      assert spawned[i].due.id == j.id && spawned[k].due.id == j.id;
    }
  }

  lemma OtherEndShows(j: Subject, s: State, w: World, r: Runner, dj: DueJob, attempt: Ordinal, reply: Reply)
    requires Sim(j, s, w) && dj.id != j.id
    ensures Sim(j, s, Concluded(w, r, dj, attempt, reply)) && SameRecords(j, s, s, w, Concluded(w, r, dj, attempt, reply))
  {
    CallTouches(w.rows, dj.id, Retry(RetryAt(r, attempt, reply)));
    RecordsSnoc(w.runs, RecordOf(r, dj, attempt, reply), j.id);
  }

  lemma ReturnRuns(j: Subject, s: State, a: D.Loop, ids: seq<nat>, index: nat, reply: Reply)
    returns (steps: seq<Step>, s': State, ids': seq<nat>)
    requires LoopSim(j, s, a, ids) && Timely(j.(clock := s.clock), reply)
    ensures var b := D.Returned(j.e, a, index, reply);
            && Path(j.cfg, s, steps, RunRule(j.strict), s') && LoopSim(j, s', b, ids')
            && SameRecords(j, s, s', a.w, b.w) && SameFrame(s, s', j.n) && Apart(s, s', j.n)
  {
    if !D.Running(a, index) {
      return [], s, ids;
    }
    var here, launch := At(j, a, s), a.spawned[index];
    if launch.due.id == j.id {
      TimelyAt(j, a, s, reply);
      assert Shown(j, s, launch, ids[index]);
      steps, s' := ReturnIsRun(here, s, a.w, launch.due, ids[index], launch.attempt.value, reply);
      LeadsToRun(here, s, steps, s');
    } else {
      steps, s' := [], s;
      OtherEndShows(here, s, a.w, Execution.Runner(j.e.nodeID, launch.options.retry), launch.due, launch.attempt.value, reply);
    }
    ids' := D.Without(ids, index);
    OneLess(j, s, s', a.spawned, ids, index);
  }

  lemma StartRuns(j: Subject, s: State, a: D.Loop, ids: seq<nat>, index: nat) returns (steps: seq<Step>, s': State)
    requires LoopSim(j, s, a, ids)
    ensures var b := D.Started(a, index);
            && Path(j.cfg, s, steps, RunRule(j.strict), s') && LoopSim(j, s', b, ids)
            && SameRecords(j, s, s', a.w, b.w) && SameFrame(s, s', j.n) && Apart(s, s', j.n)
  {
    if !D.Waiting(a, index) {
      return [], s;
    }
    var here, launch := At(j, a, s), a.spawned[index];
    if launch.due.id == j.id {
      assert Shown(j, s, launch, ids[index]);
      s' := StartIsRun(here, s, a.w, ids[index]);
      steps := [Start(ids[index])];
      LeadsToRun(here, s, steps, s');
    } else {
      steps, s' := [], s;
    }
    OneRuns(j, s, s', a.spawned, ids, index, D.Started(a, index).spawned[index]);
  }

  /** A renewal that gains leadership takes the lock of the machine, which must be free. */
  lemma RenewalRuns(j: Subject, s: State, a: D.Loop, ids: seq<nat>, b: D.Loop) returns (steps: seq<Step>, s': State)
    requires LoopSim(j, s, a, ids) && D.RenewedTo(a, b) && (b.leader != a.leader ==> s.lock.None?)
    ensures Path(j.cfg, s, steps, RunRule(j.strict), s') && LoopSim(j, s', b, ids)
    ensures s'.clock == s.clock && s'.start == s.start && s'.crashes == s.crashes && s'.recorded == s.recorded
    ensures Apart(s, s', j.n) && (b.leader == a.leader ==> s'.lock == s.lock)
  {
    if a.leader == b.leader {
      assert a == b;
      steps, s' := [], s;
    } else {
      steps, s' := [Renew(j.n)], Renewed(s, j.n);
      PathStep(j.cfg, s, Renew(j.n), RunRule(j.strict));
      var here, there := At(j, a, s), At(j, b, s');
      assert there.e.registry == here.e.registry;
      assert Describes(there, b.w.rows[j.name]);
      assert s'.Row() == s.Row();
      assert !a.leader.value && b.leader.value;
      assert forall i :: 0 <= i < |ids| && a.spawned[i].due.id == j.id ==> Shown(j, s, a.spawned[i], ids[i]);
    }
  }

  /** What the machine and the loop have in common after an event. */
  ghost predicate Follows(j: Subject, a: D.Loop, s: State, b: D.Loop, s': State, ids: seq<nat>, clock: Time) {
    && LoopSim(j, s', b, ids) && SameRecords(j, s, s', a.w, b.w)
    && s'.clock == clock && s'.start == s.start && s'.crashes == s.crashes && Apart(s, s', j.n)
    && (b.leader == a.leader ==> s'.lock == s.lock)
  }

  /** The clock after an event: if all readings are of one clock, a tick moves it on to its own. */
  function ClockAt(strict: bool, clock: Time, event: D.Event): Time {
    if strict && event.TickerFired? then event.now else clock
  }

  lemma TickEvent(j: Subject, s: State, a: D.Loop, ids: seq<nat>, now: Time, replies: nat -> nat -> Reply)
    returns (steps: seq<Step>, s': State, ids': seq<nat>)
    requires LoopSim(j, s, a, ids) && Punctual(j, s.clock, D.TickerFired(now, replies))
    ensures Path(j.cfg, s, steps, RunRule(j.strict), s')
    ensures Follows(j, a, s, D.Ticked(j.e, a, now, replies), s', ids', if j.strict then now else s.clock)
  {
    var first, m := ClockMoves(j, s, a, ids, now);
    forall i: nat ensures AllTimely(j.(clock := m.clock), replies(i)) { }
    var rest;
    rest, s', ids' := TickRuns(j, m, a, ids, now, replies);
    PathOn(j.cfg, s, first, RunRule(j.strict), m, rest, s');
    steps := first + rest;
  }

  /** A registration adds a job and changes none. */
  lemma RegistrationShows(j: Subject, s: State, a: D.Loop, ids: seq<nat>, job: Job)
    requires LoopSim(j, s, a, ids)
    ensures LoopSim(j, s, a.(registry := D.WithJob(a.registry, job)), ids)
  {
    var b := a.(registry := D.WithJob(a.registry, job));
    assert Describes(At(j, b, s), b.w.rows[j.name]);
  }

  lemma EventRuns(j: Subject, s: State, a: D.Loop, ids: seq<nat>, event: D.Event, b: D.Loop)
    returns (steps: seq<Step>, s': State, ids': seq<nat>)
    requires LoopSim(j, s, a, ids) && D.Wakes(j.e, a, event, b) && Punctual(j, s.clock, event)
    requires event.RenewalDue? && b.leader != a.leader ==> s.lock.None?
    ensures Path(j.cfg, s, steps, RunRule(j.strict), s')
    ensures Follows(j, a, s, b, s', ids', ClockAt(j.strict, s.clock, event))
  {
    match event {
      case TickerFired(now, replies) =>
        steps, s', ids' := TickEvent(j, s, a, ids, now, replies);
      case RenewalDue(_) =>
        steps, s' := RenewalRuns(j, s, a, ids, b);
        ids' := ids;
      case HandlerStarted(index) =>
        steps, s' := StartRuns(j, s, a, ids, index);
        ids' := ids;
      case HandlerReturned(index, reply) =>
        steps, s', ids' := ReturnRuns(j, s, a, ids, index, reply);
      case JobScheduled(job) =>
        steps, s', ids' := [], s, ids;
        RegistrationShows(j, s, a, ids, job);
    }
  }
}
