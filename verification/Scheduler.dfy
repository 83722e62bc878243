/** sundial.go: the registry of a scheduler, and what Run stores before its first tick. */
module Scheduling {
  import opened Basics
  import opened Schedules
  import opened Jobs
  import opened Backoff
  import opened Sorting
  import opened Storage
  import opened MemoryStorageModule
  import opened Persistence
  import opened Leaders
  import opened Execution
  import opened Dispatching
  import opened TickProgress
  import opened Ignored

  datatype ScheduleError = EmptyJobName | NilSchedule | NilHandler | SchedulerStopped | JobNameTaken | AlreadyRunning

  /** Zero retry options stand for the defaults: 3 attempts, one second growing by 2 up to five minutes. */
  function WithDefaults(o: JobOptions): JobOptions {
    var r := o.retry;
    o.(retry := RetryPolicy(
         if r.maxAttempts == 0 then 3 else r.maxAttempts,
         if r.initialBackoff == 0 then SECOND else r.initialBackoff,
         if r.maxBackoff == 0 then 300 * SECOND else r.maxBackoff,
         if r.multiplier == 0.0 then 2.0 else r.multiplier))
  }

  /** The options of a job are those given, with the documented defaults for retry options left at zero. */
  predicate Filled(given: JobOptions, o: JobOptions) {
    && o.leaderOnly == given.leaderOnly && o.missedFire == given.missedFire
    && (if given.retry.maxAttempts != 0 then o.retry.maxAttempts == given.retry.maxAttempts else o.retry.maxAttempts == 3)
    && (if given.retry.initialBackoff != 0 then o.retry.initialBackoff == given.retry.initialBackoff
        else o.retry.initialBackoff == 1_000_000_000)
    && (if given.retry.maxBackoff != 0 then o.retry.maxBackoff == given.retry.maxBackoff
        else o.retry.maxBackoff == 300_000_000_000)
    && (if given.retry.multiplier != 0.0 then o.retry.multiplier == given.retry.multiplier else o.retry.multiplier == 2.0)
  }

  /** A job without retry options gets three attempts, of which the second waits half a second to a second and a half,
      and the third one to three seconds. */
  lemma DefaultRetries(o: JobOptions, jitter: real)
    requires o.retry == RetryPolicy(0, 0, 0, 0.0) && Jitter(jitter)
    ensures var p := WithDefaults(o).retry;
            && Budget(p.maxAttempts) == 3 && Growing(p)
            && 500_000_000 <= ComputeBackoff(p, 1, jitter) < 1_500_000_000
            && 1_000_000_000 <= ComputeBackoff(p, 2, jitter) < 3_000_000_000
  {
    var p := WithDefaults(o).retry;
    assert Pow(2.0, 0) == 1.0 && Pow(2.0, 1) == 2.0 * Pow(2.0, 0);
    assert Base(p, 1) == 1_000_000_000.0 && Base(p, 2) == 2_000_000_000.0;
  }

  predicate NameAfter(a: string, b: string) { Less(b, a) }

  lemma NameAfterIsPreorder()
    ensures Preorder(NameAfter)
  {
    forall x, y | NameAfter(x, y) ensures !NameAfter(y, x) {
      if Less(x, y) { LessTransitive(x, y, x); LessIrreflexive(x); }
    }
    forall x, y, z | !NameAfter(x, y) && !NameAfter(y, z) ensures !NameAfter(x, z) {
      LessTotal(x, y);
      LessTotal(y, z);
      if Less(x, y) && Less(y, z) { LessTransitive(x, y, z); }
      if Less(z, x) && Less(x, z) { LessTransitive(x, z, x); LessIrreflexive(x); }
    }
  }

  /** The registered names in increasing order, each once. */
  ghost predicate NameListing(names: set<string>, s: seq<string>) {
    && (forall i, j :: 0 <= i < j < |s| ==> Less(s[i], s[j]))
    && (forall n :: n in s <==> n in names)
  }

  ghost predicate JobsNamed(jobs: map<string, Job>, names: seq<string>, out: seq<Job>) {
    |out| == |names| && forall i :: 0 <= i < |out| ==> names[i] in jobs && out[i] == jobs[names[i]]
  }

  lemma SortedNames(names: set<string>, found: seq<string>, s: seq<string>)
    requires Sorted(s, NameAfter) && multiset(found) == multiset(s)
    requires multiset(found) == multiset(names)
    ensures NameListing(names, s)
  {
    forall n ensures n in s <==> n in names {
      assert n in multiset(s) <==> n in multiset(names);
    }
    forall i, j | 0 <= i < j < |s| ensures Less(s[i], s[j]) {
      LessTotal(s[i], s[j]);
      if s[i] == s[j] { TwiceInSeq(s, i, j); }
      assert !NameAfter(s[i], s[j]);
    }
  }

  /** What Run needs from the table: rows of other names stay, the job's row exists, and an existing
      row keeps its fire time. */
  ghost predicate Registered(lib: Library, before: Rows, after: Rows, j: Job, now: Time) {
    j.schedule.Next(now).Some? ==>
      && j.name in after
      && after[j.name].schedule == Text(lib, j.schedule) && after[j.name].kind == Kind(j.schedule)
      && after[j.name].next == if j.name in before then before[j.name].next else j.schedule.Next(now).value
  }

  /** A registered job survives the table: the dispatcher loads from its due row the schedule that was registered, except
      that a one-shot instant loses its fraction of a second, and nothing is due before the fire time of the row. */
  lemma RegisteredLoads(lib: Library, before: Rows, after: Rows, j: Job, now: Time, later: Time, limit: int, due: seq<DueJob>,
                        i: nat)
    requires Lawful(lib) && Constructed(lib, j.schedule) && Registered(lib, before, after, j, now)
    requires j.schedule.Next(now).Some? && IsFetch(after, later, limit, due) && i < |due| && due[i].name == j.name
    ensures Load(lib, due[i].kind, due[i].expr) ==
            Ok(if j.schedule.At? then At(j.schedule.t - j.schedule.t % SECOND) else j.schedule)
    ensures due[i].fire == (if j.name in before then before[j.name].next else j.schedule.Next(now).value) <= later
  {
    FetchIsOldest(after, later, limit, due);
    RoundTrip(lib, j.schedule);
  }

  /** A job without a future fire: its row, if there is one, stays as it is. */
  ghost predicate Untouched(before: Rows, after: Rows, j: Job, now: Time) {
    j.schedule.Next(now).None? ==>
      (j.name in after <==> j.name in before) && (j.name in before ==> after[j.name] == before[j.name])
  }

  /** Only the row of this name may differ. */
  ghost predicate SameBut(before: Rows, after: Rows, name: string) {
    && (forall n :: n in before && n != name ==> n in after && after[n] == before[n])
    && (forall n :: n in after && n != name ==> n in before)
  }

  /** A run of the loop under this lock: it begins with the cached leadership, and what its renewals make of the lock
      leads it, from the first tick on. */
  ghost predicate RunsUnder(e: Setting, lock: Lock, trace: seq<Loop>, first: Fault, now: Time, replies: nat -> nat -> Reply,
                            events: seq<Event>, grace: int, inTime: nat, order: nat -> nat, last: nat -> Reply) {
    && IsRun(e, trace, first, now, replies, events, grace, inTime, order, last)
    && trace[0].leader == lock.leader && Begins(e, trace, trace[0], lock, first, now, replies)
    && LedBy(e.nodeID, lock, trace, AllEvents(trace, first, now, replies, events, grace, inTime, order, last))
  }

  /** The lock that such a run leaves. */
  ghost function LockLeft(e: Setting, lock: Lock, trace: seq<Loop>, first: Fault, now: Time, replies: nat -> nat -> Reply,
                          events: seq<Event>, grace: int, inTime: nat, order: nat -> nat, last: nat -> Reply): Lock
    requires |trace| > |events| + 2
  {
    var all := AllEvents(trace, first, now, replies, events, grace, inTime, order, last);
    LockAt(e.nodeID, lock, all, |all|)
  }

  /** Nothing was recorded for the job, and its fire time, if it had a row, has not changed. */
  ghost predicate Passed(rows: Rows, runs: seq<RunRecord>, rows': Rows, runs': seq<RunRecord>, name: string) {
    name in rows' ==>
      NoneFor(runs, runs', rows'[name].id) && (name in rows ==> rows'[name].next == rows[name].next)
  }

  /** While another session owns the lock, a run passes over the leader-only jobs registered at its start. */
  lemma FollowersPass(e: Setting, lock: Lock, trace: seq<Loop>, events: seq<Event>, rows: Rows, name: string)
    requires IsTrace(e, trace, events) && LedBy(e.nodeID, lock, trace, events) && lock == Lock(Some(false), false)
    requires RowsOk(trace[0].w.rows) && trace[0].spawned == []
    requires name in trace[0].registry && trace[0].registry[name].options.leaderOnly
    requires name in trace[0].w.rows && name in rows ==> trace[0].w.rows[name].next == rows[name].next
    ensures Passed(rows, trace[0].w.runs, Final(trace).w.rows, Final(trace).w.runs, name)
  {
    RunKeepsTable(e, trace, events, |events|);
    if name in trace[0].w.rows {
      FollowerIgnores(e, lock, trace, events, name, trace[0].w.rows[name].id);
    }
  }

  lemma AllPassed(e: Setting, lock: Lock, trace: seq<Loop>, events: seq<Event>, rows: Rows, now: Time)
    requires IsTrace(e, trace, events) && LedBy(e.nodeID, lock, trace, events) && lock == Lock(Some(false), false)
    requires RowsOk(trace[0].w.rows) && trace[0].spawned == [] && Keyed(trace[0].registry)
    requires forall n :: n in trace[0].registry ==>
               var j := trace[0].registry[n];
               Registered(e.lib, rows, trace[0].w.rows, j, now) && Untouched(rows, trace[0].w.rows, j, now)
    ensures forall n :: n in trace[0].registry && trace[0].registry[n].options.leaderOnly ==>
              Passed(rows, trace[0].w.runs, Final(trace).w.rows, Final(trace).w.runs, n)
  {
    forall n | n in trace[0].registry && trace[0].registry[n].options.leaderOnly
      ensures Passed(rows, trace[0].w.runs, Final(trace).w.rows, Final(trace).w.runs, n)
    {
      var j := trace[0].registry[n];
      assert Registered(e.lib, rows, trace[0].w.rows, j, now) && Untouched(rows, trace[0].w.rows, j, now);
      FollowersPass(e, lock, trace, events, rows, n);
    }
  }

  class Scheduler {
    const lib: Library
    const nodeID: string
    const tick: int
    const grace: int
    const storage: MemoryStorage
    const leader: PostgresLeader?
    const registry: Registry
    var running: bool
    var stopped: bool

    /** Jobs are keyed by their own name, and no name is empty. */
    ghost predicate Valid()
      reads this, storage, registry
    {
      storage.Valid() && Keyed(registry.jobs)
    }

    constructor (lib: Library, nodeID: string, tick: int, grace: int, storage: MemoryStorage, leader: PostgresLeader?)
      requires storage.Valid()
      ensures Valid() && registry.jobs == map[] && !running && !stopped && this.storage == storage && this.leader == leader
      ensures this.lib == lib && this.nodeID == nodeID && this.tick == tick && this.grace == grace
    {
      this.lib, this.nodeID, this.tick, this.grace, this.storage, this.leader := lib, nodeID, tick, grace, storage, leader;
      registry := new Registry();
      running, stopped := false, false;
    }

    /** Registers a job unless an argument is missing, the scheduler is stopped or the name is taken. */
    method Schedule(name: string, schedule: Option<Schedule>, hasHandler: bool, options: JobOptions)
      returns (r: Result<Job, ScheduleError>)
      requires Valid()
      modifies registry
      ensures Valid()
      ensures r.Ok? <==> name != "" && schedule.Some? && hasHandler && !stopped && name !in old(registry.jobs)
      ensures r.Ok? ==> r.value == Job(name, schedule.value, WithDefaults(options)) && registry.jobs == old(registry.jobs)[name := r.value]
      ensures r.Ok? ==> Filled(options, r.value.options)
      ensures r.Err? ==> registry.jobs == old(registry.jobs)
      ensures name == "" ==> r == Err(EmptyJobName)
      ensures name != "" && schedule.None? ==> r == Err(NilSchedule)
      ensures name != "" && schedule.Some? && !hasHandler ==> r == Err(NilHandler)
      ensures name != "" && schedule.Some? && hasHandler && stopped ==> r == Err(SchedulerStopped)
      ensures name in old(registry.jobs) && schedule.Some? && hasHandler && !stopped ==> r == Err(JobNameTaken)
    {
      if name == "" {
        return Err(EmptyJobName);
      }
      if schedule.None? {
        return Err(NilSchedule);
      }
      if !hasHandler {
        return Err(NilHandler);
      }
      if stopped {
        return Err(SchedulerStopped);
      }
      if name in registry.jobs {
        return Err(JobNameTaken);
      }
      var job := Job(name, schedule.value, WithDefaults(options));
      registry.Add(job);
      return Ok(job);
    }

    method Lookup(name: string) returns (r: Option<Job>)
      ensures r.Some? <==> name in registry.jobs
      ensures r.Some? ==> r.value == registry.jobs[name]
    {
      r := if name in registry.jobs then Some(registry.jobs[name]) else None;
    }

    method Stop()
      modifies this`stopped
      ensures stopped
    {
      stopped := true;
    }

    method CollectNames() returns (names: seq<string>)
      ensures multiset(names) == multiset(registry.jobs.Keys)
    {
      names := [];
      var todo := registry.jobs.Keys;
      while todo != {}
        invariant todo <= registry.jobs.Keys
        invariant multiset(names) + multiset(todo) == multiset(registry.jobs.Keys)
      {
        var n :| n in todo;
        names := names + [n];
        todo := todo - {n};
      }
    }

    method SortedKeys() returns (a: array<string>)
      ensures fresh(a) && NameListing(registry.jobs.Keys, a[..])
    {
      var found := CollectNames();
      a := new string[|found|](i requires 0 <= i < |found| => found[i]);
      assert a[..] == found;
      NameAfterIsPreorder();
      InsertionSort(a, NameAfter);
      SortedNames(registry.jobs.Keys, found, a[..]);
    }

    /** The registered jobs in the order of their names, however the map is walked. */
    method Jobs() returns (out: seq<Job>)
      requires Valid()
      ensures exists names :: NameListing(registry.jobs.Keys, names) && JobsNamed(registry.jobs, names, out)
    {
      var a := SortedKeys();
      ghost var names := a[..];
      assert forall i :: 0 <= i < |names| ==> names[i] in names;
      out := [];
      var i := 0;
      while i < a.Length
        invariant 0 <= i <= a.Length && a[..] == names && |out| == i
        invariant JobsNamed(registry.jobs, names[..i], out)
      {
        assert a[i] == names[i] && names[..i + 1] == names[..i] + [names[i]];
        out := out + [registry.jobs[a[i]]];
        i := i + 1;
      }
      assert names[..i] == names;
    }

    /** The first part of Run: every registered job with a future fire gets a row; rows that exist keep
        their fire time. */
    method Begin(now: Time) returns (r: Result<(), ScheduleError>)
      requires Valid()
      modifies this`running, storage
      ensures Valid()
      ensures storage.runs == old(storage.runs)
      ensures old(running) ==> r == Err(AlreadyRunning) && storage.jobs == old(storage.jobs) && running
      ensures !old(running) ==> r == Ok(()) && running
      ensures r.Ok? ==> forall n :: n in registry.jobs ==> Registered(lib, old(storage.jobs), storage.jobs, registry.jobs[n], now)
      ensures r.Ok? ==> forall n :: n in registry.jobs ==> Untouched(old(storage.jobs), storage.jobs, registry.jobs[n], now)
      ensures r.Ok? ==> forall n :: n in old(storage.jobs) && n !in registry.jobs ==>
                n in storage.jobs && storage.jobs[n] == old(storage.jobs)[n]
      ensures RowsOk(old(storage.jobs)) ==> RowsOk(storage.jobs)
    {
      if running {
        return Err(AlreadyRunning);
      }
      running := true;
      ghost var before := storage.jobs;
      var todo := registry.jobs.Keys;
      while todo != {}
        invariant todo <= registry.jobs.Keys && Valid() && running && storage.runs == old(storage.runs)
        invariant RowsOk(old(storage.jobs)) ==> RowsOk(storage.jobs)
        invariant forall n :: n in registry.jobs && n !in todo ==> Registered(lib, before, storage.jobs, registry.jobs[n], now)
        invariant forall n :: n in registry.jobs && n !in todo ==> Untouched(before, storage.jobs, registry.jobs[n], now)
        invariant forall n :: n in todo || n !in registry.jobs ==> (n in before <==> n in storage.jobs)
        invariant forall n :: n in before && (n in todo || n !in registry.jobs) ==> storage.jobs[n] == before[n]
      {
        var n :| n in todo;
        ghost var rows := storage.jobs;
        RegisterOne(registry.jobs[n], now);
        todo := todo - {n};
        forall m | m in registry.jobs && m !in todo
          ensures Registered(lib, before, storage.jobs, registry.jobs[m], now) && Untouched(before, storage.jobs, registry.jobs[m], now)
        {
          if m != n { assert Registered(lib, before, rows, registry.jobs[m], now) && Untouched(before, rows, registry.jobs[m], now); }
        }
      }
      return Ok(());
    }

    method RegisterOne(j: Job, now: Time)
      requires storage.Valid()
      modifies storage
      ensures storage.Valid() && storage.runs == old(storage.runs)
      ensures Registered(lib, old(storage.jobs), storage.jobs, j, now)
      ensures Untouched(old(storage.jobs), storage.jobs, j, now)
      ensures SameBut(old(storage.jobs), storage.jobs, j.name)
      ensures RowsOk(old(storage.jobs)) ==> RowsOk(storage.jobs)
    {
      var first := j.schedule.Next(now);
      if first.Some? {
        var _ := storage.EnsureJob(Some((j.name, Text(lib, j.schedule), Kind(j.schedule))), first.value);
      }
    }

    /** The loop starts with every job registered and without a memory of attempts. */
    ghost predicate Starts(a: Loop, jobs: map<string, Job>, rows: Rows, runs: seq<RunRecord>, now: Time) {
      && a.w.runs == runs && a.w.attempts == map[] && a.spawned == [] && a.registry == jobs
      && forall n :: n in jobs ==> Registered(lib, rows, a.w.rows, jobs[n], now)
    }

    /** The constants of the node. */
    function Node(): Setting {
      Setting(lib, map[], None, tick, nodeID)
    }

    /** Registration, the dispatcher loop, and only then the release of the leader lock. A second call while
        one is in progress is refused and changes nothing.

        The loop is led by the configured leader: it begins with the cached leadership, and follows what its renewals
        make of the lock. While another session owns the lock, leader-only jobs are left alone. Afterwards the lock is
        free if this node led and its unlock arrived, or if it was free and no request of this node reached it. */
    method Run(now: Time, first: Fault, firstTick: Time, replies: nat -> nat -> Reply, events: seq<Event>, inTime: nat,
               order: nat -> nat, last: nat -> Reply, release: Fault) returns (r: Result<(), ScheduleError>)
      requires Valid() && (leader != null ==> leader.Valid())
      modifies this`running, storage, registry, leader, if leader == null then {} else {leader.server}
      ensures Valid() && (leader != null ==> leader.Valid())
      ensures old(running) ==>
                && r == Err(AlreadyRunning) && running
                && unchanged(storage) && unchanged(registry) && (leader != null ==> unchanged(leader))
      ensures !old(running) ==> r == Ok(()) && !running && (leader != null ==> !leader.held)
      ensures !old(running) ==>
                exists trace: seq<Loop> ::
                  && RunsUnder(Node(), old(LockOf(leader)), trace, first, firstTick, replies, events, grace, inTime, order, last)
                  && Starts(trace[0], old(registry.jobs), old(storage.jobs), old(storage.runs), now)
                  && Final(trace).w.rows == storage.jobs && Final(trace).w.runs == storage.runs
                  && Final(trace).registry == registry.jobs
                  && (leader != null && old(Sound(leader)) ==>
                       (leader.server.owner.None? <==>
                          || LockLeft(Node(), old(LockOf(leader)), trace, first, firstTick, replies, events, grace, inTime, order, last).free
                          || (Final(trace).leader == Some(true) && (release.NoFault? || release.AnswerLost?))))
      ensures !old(running) && RowsOk(old(storage.jobs)) && leader != null && !old(leader.held) && old(leader.server.owner).Some? ==>
                forall n :: n in old(registry.jobs) && old(registry.jobs)[n].options.leaderOnly ==>
                  Passed(old(storage.jobs), old(storage.runs), storage.jobs, storage.runs, n)
    {
      if running {
        return Err(AlreadyRunning);
      }
      ghost var lock, rows, runs, jobs := LockOf(leader), storage.jobs, storage.runs, registry.jobs;
      var _ := Begin(now);
      ghost var trace := DispatchAndRelease(first, firstTick, replies, events, inTime, order, last, release);
      if RowsOk(rows) && lock == Lock(Some(false), false) {
        AllPassed(Node(), lock, trace, AllEvents(trace, first, firstTick, replies, events, grace, inTime, order, last), rows, now);
      }
      running := false;
      return Ok(());
    }

    /** The loop on a registered table, and the release after it. */
    method DispatchAndRelease(first: Fault, firstTick: Time, replies: nat -> nat -> Reply, events: seq<Event>, inTime: nat,
                              order: nat -> nat, last: nat -> Reply, release: Fault) returns (ghost trace: seq<Loop>)
      requires Valid() && (leader != null ==> leader.Valid())
      modifies storage, registry, leader, if leader == null then {} else {leader.server}
      ensures Valid() && (leader != null ==> leader.Valid() && !leader.held)
      ensures RunsUnder(Node(), old(LockOf(leader)), trace, first, firstTick, replies, events, grace, inTime, order, last)
      ensures trace[0] == Loop(World(old(storage.jobs), old(storage.runs), map[]), [], old(LockOf(leader)).leader, old(registry.jobs))
      ensures Final(trace).w.rows == storage.jobs && Final(trace).w.runs == storage.runs && Final(trace).registry == registry.jobs
      ensures leader != null && old(Sound(leader)) ==>
                (leader.server.owner.None? <==>
                   || LockLeft(Node(), old(LockOf(leader)), trace, first, firstTick, replies, events, grace, inTime, order, last).free
                   || (Final(trace).leader == Some(true) && (release.NoFault? || release.AnswerLost?)))
    {
      trace := Dispatch(first, firstTick, replies, events, inTime, order, last);
      if leader != null {
        var _ := leader.Release(release);
      }
    }

    /** The loop. */
    method Dispatch(first: Fault, firstTick: Time, replies: nat -> nat -> Reply, events: seq<Event>, inTime: nat,
                    order: nat -> nat, last: nat -> Reply) returns (ghost trace: seq<Loop>)
      requires Valid() && (leader != null ==> leader.Valid())
      modifies storage, registry, leader, if leader == null then {} else {leader.server}
      ensures Valid() && (leader != null ==> leader.Valid())
      ensures RunsUnder(Node(), old(LockOf(leader)), trace, first, firstTick, replies, events, grace, inTime, order, last)
      ensures trace[0] == Loop(World(old(storage.jobs), old(storage.runs), map[]), [], old(LockOf(leader)).leader, old(registry.jobs))
      ensures Final(trace).w.rows == storage.jobs && Final(trace).w.runs == storage.runs
      ensures Final(trace).registry == registry.jobs && Final(trace).leader == LockOf(leader).leader
      ensures LockOf(leader) == LockLeft(Node(), old(LockOf(leader)), trace, first, firstTick, replies, events, grace, inTime, order, last)
      ensures old(Sound(leader)) ==> Sound(leader)
    {
      var d := new Dispatcher(lib, nodeID, tick, registry, storage, leader);
      ghost var before, lock := d.Now(), LockOf(leader);
      d.Run(first, firstTick, replies, events, grace, inTime, order, last);
      trace :|
        && IsRun(d.Node(), trace, first, firstTick, replies, events, grace, inTime, order, last)
        && Begins(d.Node(), trace, before, lock, first, firstTick, replies) && Final(trace) == d.Now()
        && var all := AllEvents(trace, first, firstTick, replies, events, grace, inTime, order, last);
           LedBy(nodeID, lock, trace, all) && LockOf(leader) == LockAt(nodeID, lock, all, |all|);
    }
  }
}
