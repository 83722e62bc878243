/** dispatcher.go: the dispatcher of one node as an object over the shared table. */
module Dispatching {
  import opened Basics
  import opened Schedules
  import opened Jobs
  import opened Backoff
  import opened RowLedger
  import opened Storage
  import opened MemoryStorageModule
  import opened Leaders
  import opened Persistence
  import opened Execution

  /** A handler goroutine; `attempt` is counted when it begins to run. */
  datatype Launch = Launch(due: DueJob, options: JobOptions, attempt: Option<Ordinal>)

  /** What the decisions of a tick depend on. */
  datatype Setting = Setting(lib: Library, registry: map<string, Job>, leader: Option<bool>, tick: int, nodeID: string)

  function DecisionFor(e: Setting, dj: DueJob, now: Time): Decision {
    if dj.name !in e.registry then Ignore
    else
      match ComputeNextFire(e.lib, dj.kind, dj.expr, now)
      case Err(_) => Ignore
      case Ok(next) => Classify(e.registry[dj.name].options, e.leader, e.tick, dj.fire, now, next)
  }

  /** The state after a decision on one due row has been carried out. */
  ghost function Acted(e: Setting, w: World, dj: DueJob, d: Decision, now: Time, replies: nat -> Reply): World
    requires dj.name in e.registry
  {
    match d
    case Ignore => w
    case Advance(v) => w.(rows := CallRows(w.rows, dj.id, Claim(v)))
    case Launch(v) => w.(rows := CallRows(w.rows, dj.id, Claim(v)))
    case Replay(_) =>
      match Load(e.lib, dj.kind, dj.expr)
      case Err(_) => w
      case Ok(sched) => ReplayedAll(w, Runner(e.nodeID, e.registry[dj.name].options.retry), dj, sched, now, replies)
  }

  /** The executions a decision creates: one if it launches and its claim is won. */
  ghost function Launches(rows: Rows, dj: DueJob, options: JobOptions, d: Decision): seq<Launch> {
    var name := Named(rows, dj.id);
    if d.Launch? && name.Some? && ClaimWins(rows[name.value], d.target) then [Launch.Launch(dj, options, None)] else []
  }

  ghost function HandledOne(e: Setting, w: World, dj: DueJob, now: Time, replies: nat -> Reply): World {
    if dj.name !in e.registry then w else Acted(e, w, dj, DecisionFor(e, dj, now), now, replies)
  }

  ghost function LaunchesOf(e: Setting, rows: Rows, dj: DueJob, now: Time): seq<Launch> {
    if dj.name !in e.registry then []
    else Launches(rows, dj, e.registry[dj.name].options, DecisionFor(e, dj, now))
  }

  /** A whole tick, row after row. */
  ghost function HandledUpTo(e: Setting, w: World, due: seq<DueJob>, now: Time, replies: nat -> nat -> Reply, k: nat): World
    requires k <= |due|
  {
    if k == 0 then w
    else HandledOne(e, HandledUpTo(e, w, due, now, replies, k - 1), due[k - 1], now, replies(k - 1))
  }

  ghost function LaunchedUpTo(e: Setting, w: World, due: seq<DueJob>, now: Time, replies: nat -> nat -> Reply, k: nat)
    : seq<Launch>
    requires k <= |due|
  {
    if k == 0 then []
    else LaunchedUpTo(e, w, due, now, replies, k - 1)
         + LaunchesOf(e, HandledUpTo(e, w, due, now, replies, k - 1).rows, due[k - 1], now)
  }

  /** The tick after one more row. */
  lemma HandleNext(e: Setting, w: World, due: seq<DueJob>, now: Time, replies: nat -> nat -> Reply, i: nat, mid: World)
    requires i < |due| && mid == HandledUpTo(e, w, due, now, replies, i)
    ensures HandledUpTo(e, w, due, now, replies, i + 1) == HandledOne(e, mid, due[i], now, replies(i))
    ensures LaunchedUpTo(e, w, due, now, replies, i + 1) ==
            LaunchedUpTo(e, w, due, now, replies, i) + LaunchesOf(e, mid.rows, due[i], now)
  {
  }

  /** The tick, begun in `a`, has handled `i` rows. */
  ghost predicate TickAt(e: Setting, a: Loop, due: seq<DueJob>, now: Time, replies: nat -> nat -> Reply, i: nat, b: Loop) {
    && i <= |due| && b.leader == a.leader
    && b.w == HandledUpTo(e, a.w, due, now, replies, i)
    && b.spawned == a.spawned + LaunchedUpTo(e, a.w, due, now, replies, i)
  }

  lemma TickAtNext(e: Setting, a: Loop, due: seq<DueJob>, now: Time, replies: nat -> nat -> Reply, i: nat, m: Loop, b: Loop)
    requires i < |due| && TickAt(e, a, due, now, replies, i, m) && b.leader == m.leader
    requires b.w == HandledOne(e, m.w, due[i], now, replies(i))
    requires b.spawned == m.spawned + LaunchesOf(e, m.w.rows, due[i], now)
    ensures TickAt(e, a, due, now, replies, i + 1, b)
  {
    HandleNext(e, a.w, due, now, replies, i, m.w);
  }

  /** What happens while the loop runs: the select loop wakes up, a handler goroutine begins or ends, or the program
      registers a job. Handlers begin and end in any order and overlap as they like. */
  datatype Event =
    | TickerFired(now: Time, replies: nat -> nat -> Reply)
    | RenewalDue(fault: Fault)
    | HandlerStarted(index: nat)
    | HandlerReturned(index: nat, reply: Reply)
    | JobScheduled(job: Job)

  /** The state of the loop: what executions change, the goroutines in flight, the cached leadership and the
      registry. */
  datatype Loop = Loop(w: World, spawned: seq<Launch>, leader: Option<bool>, registry: map<string, Job>)

  /** What decisions depend on in this state. */
  function Here(e: Setting, a: Loop): Setting { e.(leader := a.leader, registry := a.registry) }

  ghost function Ticked(e: Setting, a: Loop, now: Time, replies: nat -> nat -> Reply): Loop {
    var due := FetchOf(a.w.rows, now, 64);
    a.(w := HandledUpTo(Here(e, a), a.w, due, now, replies, |due|),
       spawned := a.spawned + LaunchedUpTo(Here(e, a), a.w, due, now, replies, |due|))
  }

  function Without<T>(s: seq<T>, i: nat): seq<T>
    requires i < |s|
  {
    s[..i] + s[i + 1..]
  }

  /** A goroutine that has not begun yet. */
  predicate Waiting(a: Loop, index: nat) { index < |a.spawned| && a.spawned[index].attempt.None? }

  /** A goroutine whose handler is running. */
  predicate Running(a: Loop, index: nat) { index < |a.spawned| && a.spawned[index].attempt.Some? }

  function Started(a: Loop, index: nat): Loop {
    if !Waiting(a, index) then a
    else
      var launch := a.spawned[index];
      a.(w := Counted(a.w, launch.due.id),
         spawned := a.spawned[index := launch.(attempt := Some(Counter(a.w.attempts, launch.due.id) + 1))])
  }

  ghost function Returned(e: Setting, a: Loop, index: nat, reply: Reply): Loop {
    if !Running(a, index) then a
    else
      var launch := a.spawned[index];
      a.(w := Concluded(a.w, Runner(e.nodeID, launch.options.retry), launch.due, launch.attempt.value, reply),
         spawned := Without(a.spawned, index))
  }

  /** A renewal may gain leadership and never gives it up. */
  ghost predicate RenewedTo(a: Loop, b: Loop) {
    b == a.(leader := b.leader) && (b.leader.Some? <==> a.leader.Some?) && (a.leader == Some(true) ==> b == a)
  }

  /** A registration succeeds unless the name is empty or taken. */
  function WithJob(registry: map<string, Job>, job: Job): map<string, Job> {
    if job.name == "" || job.name in registry then registry else registry[job.name := job]
  }

  ghost predicate Wakes(e: Setting, a: Loop, event: Event, b: Loop) {
    match event
    case TickerFired(now, replies) => b == Ticked(e, a, now, replies)
    case RenewalDue(_) => RenewedTo(a, b)
    case HandlerStarted(index) => b == Started(a, index)
    case HandlerReturned(index, reply) => b == Returned(e, a, index, reply)
    case JobScheduled(job) => b == a.(registry := WithJob(a.registry, job))
  }

  /** Event `i` leads from one entry of the trace to the next. */
  ghost predicate StepAt(e: Setting, trace: seq<Loop>, events: seq<Event>, i: nat)
    requires i < |events| && |trace| == |events| + 1
  {
    Wakes(e, trace[i], events[i], trace[i + 1])
  }

  /** A run of the loop: every event leads from one state to the next. */
  ghost predicate IsTrace(e: Setting, trace: seq<Loop>, events: seq<Event>) {
    |trace| == |events| + 1 && forall i :: 0 <= i < |events| ==> StepAt(e, trace, events, i)
  }

  function Final<T>(s: seq<T>): T
    requires s != []
  {
    s[|s| - 1]
  }

  lemma TraceSnoc(e: Setting, trace: seq<Loop>, events: seq<Event>, event: Event, b: Loop)
    requires IsTrace(e, trace, events) && Wakes(e, Final(trace), event, b)
    ensures IsTrace(e, trace + [b], events + [event])
  {
    forall i | 0 <= i < |events + [event]| ensures StepAt(e, trace + [b], events + [event], i) {
      if i < |events| { assert StepAt(e, trace, events, i); }
    }
  }

  /** A handler that returns leaves the goroutines in flight and one record. */
  lemma ReturnCounts(e: Setting, a: Loop, index: nat, reply: Reply)
    requires Running(a, index)
    ensures var b := Returned(e, a, index, reply);
            && |b.spawned| == |a.spawned| - 1 && |b.w.runs| == |a.w.runs| + 1 && b.leader == a.leader
  {
  }

  /** The node's cached leadership, and whether the server would grant the lock. */
  datatype Lock = Lock(leader: Option<bool>, free: bool)

  /** A renewal by a named node that does not lead yet: the free lock is granted if the request arrives, and the node
      leads if it also hears of it. */
  function Renewed(nodeID: string, lock: Lock, event: Event): Lock {
    if !event.RenewalDue? || nodeID == "" || lock.leader != Some(false) || !lock.free then lock
    else
      match event.fault
      case NoFault => Lock(Some(true), false)
      case AnswerLost => Lock(Some(false), false)
      case _ => lock
  }

  /** The lock after `k` events, if no other node asks for it or gives it up meanwhile. */
  function LockAt(nodeID: string, lock: Lock, events: seq<Event>, k: nat): Lock
    requires k <= |events|
  {
    if k == 0 then lock else Renewed(nodeID, LockAt(nodeID, lock, events, k - 1), events[k - 1])
  }

  lemma {:induction false} LockPrefix(nodeID: string, lock: Lock, events: seq<Event>, more: seq<Event>, k: nat)
    requires k <= |events|
    ensures LockAt(nodeID, lock, events + more, k) == LockAt(nodeID, lock, events, k)
  {
    if k > 0 { LockPrefix(nodeID, lock, events, more, k - 1); }
  }

  /** Leadership in the trace is what the renewals make of the lock. */
  ghost predicate LedBy(nodeID: string, lock: Lock, trace: seq<Loop>, events: seq<Event>) {
    |trace| == |events| + 1 && forall i :: 0 <= i <= |events| ==> trace[i].leader == LockAt(nodeID, lock, events, i).leader
  }

  lemma LedBySnoc(nodeID: string, lock: Lock, trace: seq<Loop>, events: seq<Event>, event: Event, b: Loop)
    requires LedBy(nodeID, lock, trace, events)
    requires b.leader == Renewed(nodeID, LockAt(nodeID, lock, events, |events|), event).leader
    ensures LedBy(nodeID, lock, trace + [b], events + [event])
    ensures LockAt(nodeID, lock, events + [event], |events| + 1) == Renewed(nodeID, LockAt(nodeID, lock, events, |events|), event)
  {
    forall i | 0 <= i <= |events| ensures LockAt(nodeID, lock, events + [event], i) == LockAt(nodeID, lock, events, i) {
      LockPrefix(nodeID, lock, events, [event], i);
    }
  }

  /** Handlers that begin and end do not change leadership. */
  lemma {:induction false} DrainLedBy(e: Setting, lock: Lock, trace: seq<Loop>, longer: seq<Loop>, events: seq<Event>,
                                        order: nat -> nat, replies: nat -> Reply, n: nat, k: nat)
    requires k <= n && trace <= longer && LedBy(e.nodeID, lock, trace, events)
    requires IsTrace(e, longer, events + Returns(order, replies, n, k))
    ensures LedBy(e.nodeID, lock, longer, events + Returns(order, replies, n, k))
    ensures LockAt(e.nodeID, lock, events + Returns(order, replies, n, k), |longer| - 1) == LockAt(e.nodeID, lock, events, |events|)
  {
    var all := events + Returns(order, replies, n, k);
    NoRenewals(order, replies, n, k);
    StaysLocked(e, lock, longer, all, |events|, |all|);
    forall i | 0 <= i <= |all| ensures longer[i].leader == LockAt(e.nodeID, lock, all, i).leader {
      LockPrefix(e.nodeID, lock, events, Returns(order, replies, n, k), Min(i, |events|));
      if i > |events| { StaysLocked(e, lock, longer, all, |events|, i); }
    }
    LockPrefix(e.nodeID, lock, events, Returns(order, replies, n, k), |events|);
  }

  lemma {:induction false} NoRenewals(order: nat -> nat, replies: nat -> Reply, n: nat, k: nat)
    requires k <= n
    ensures forall i :: 0 <= i < |Returns(order, replies, n, k)| ==>
              Returns(order, replies, n, k)[i].HandlerStarted? || Returns(order, replies, n, k)[i].HandlerReturned?
  {
    if k > 0 { NoRenewals(order, replies, n, k - 1); }
  }

  lemma {:induction false} StaysLocked(e: Setting, lock: Lock, trace: seq<Loop>, events: seq<Event>, k: nat, i: nat)
    requires IsTrace(e, trace, events) && k <= i <= |events|
    requires forall j :: k <= j < |events| ==> events[j].HandlerStarted? || events[j].HandlerReturned?
    ensures LockAt(e.nodeID, lock, events, i) == LockAt(e.nodeID, lock, events, k) && trace[i].leader == trace[k].leader
  {
    if k < i {
      StaysLocked(e, lock, trace, events, k, i - 1);
      assert StepAt(e, trace, events, i - 1);
    }
  }

  /** Of `n - i` goroutines in flight the one that returns next. */
  function Pick(order: nat -> nat, n: nat, i: nat): nat
    requires i < n
  {
    order(i) % (n - i)
  }

  /** `k` of `n` goroutines in flight return in the given order; those that wait begin first. */
  function Returns(order: nat -> nat, replies: nat -> Reply, n: nat, k: nat): seq<Event>
    requires k <= n
  {
    if k == 0 then []
    else
      var index := Pick(order, n, k - 1);
      Returns(order, replies, n, k - 1) + [HandlerStarted(index), HandlerReturned(index, replies(k - 1))]
  }

  /** The events of a whole run: the first renewal and tick, then whatever happens until the context ends, then the
      drain. */
  ghost function AllEvents(trace: seq<Loop>, first: Fault, now: Time, replies: nat -> nat -> Reply, events: seq<Event>,
                           grace: int, inTime: nat, order: nat -> nat, last: nat -> Reply): seq<Event>
    requires |trace| > |events| + 2
  {
    var n := |trace[|events| + 2].spawned|;   // in flight when the context ends
    [RenewalDue(first), TickerFired(now, replies)] + events + Returns(order, last, n, if grace <= 0 then n else Min(inTime, n))
  }

  ghost predicate IsRun(e: Setting, trace: seq<Loop>, first: Fault, now: Time, replies: nat -> nat -> Reply,
                        events: seq<Event>, grace: int, inTime: nat, order: nat -> nat, last: nat -> Reply) {
    |trace| > |events| + 2 && IsTrace(e, trace, AllEvents(trace, first, now, replies, events, grace, inTime, order, last))
  }

  /** The first thing is the renewal; the first tick already knows its result. */
  ghost predicate Begins(e: Setting, trace: seq<Loop>, before: Loop, lock: Lock, first: Fault, now: Time,
                         replies: nat -> nat -> Reply) {
    && |trace| > 2 && trace[0] == before
    && trace[1] == before.(leader := Renewed(e.nodeID, lock, RenewalDue(first)).leader)
    && trace[2] == Ticked(e, trace[1], now, replies)
  }

  lemma Opening(e: Setting, trace: seq<Loop>, lock: Lock, first: Fault, now: Time, replies: nat -> nat -> Reply)
    requires IsTrace(e, trace, [RenewalDue(first), TickerFired(now, replies)])
    requires LedBy(e.nodeID, lock, trace, [RenewalDue(first), TickerFired(now, replies)])
    ensures Begins(e, trace, trace[0], lock, first, now, replies)
  {
    var events := [RenewalDue(first), TickerFired(now, replies)];
    assert StepAt(e, trace, events, 0) && StepAt(e, trace, events, 1);
    assert LockAt(e.nodeID, lock, events, 1) == Renewed(e.nodeID, lock, events[0]);
  }

  /** The parts of a run put together. */
  lemma AsRun(e: Setting, served: seq<Loop>, trace: seq<Loop>, lock: Lock, first: Fault, now: Time,
              replies: nat -> nat -> Reply, events: seq<Event>, grace: int, inTime: nat, order: nat -> nat,
              last: nat -> Reply, early: seq<Event>, n: nat, k: nat)
    requires early == [RenewalDue(first), TickerFired(now, replies)] + events && served <= trace
    requires |served| == |early| + 1 && LedBy(e.nodeID, lock, served, early)
    requires n == |Final(served).spawned| && k == (if grace <= 0 then n else Min(inTime, n))
    requires IsTrace(e, trace, early + Returns(order, last, n, k))
    ensures IsRun(e, trace, first, now, replies, events, grace, inTime, order, last)
    ensures var all := AllEvents(trace, first, now, replies, events, grace, inTime, order, last);
            LedBy(e.nodeID, lock, trace, all) && LockAt(e.nodeID, lock, all, |all|) == LockAt(e.nodeID, lock, early, |early|)
  {
    DrainLedBy(e, lock, served, trace, early, order, last, n, k);
    assert trace[|events| + 2] == Final(served);
    assert AllEvents(trace, first, now, replies, events, grace, inTime, order, last) == early + Returns(order, last, n, k);
  }

  /** Jobs are keyed by their own name, and no name is empty. */
  predicate Keyed(jobs: map<string, Job>) { forall n :: n in jobs ==> jobs[n].name == n && n != "" }

  /** Registrations are never undone. */
  ghost predicate Extends(jobs: map<string, Job>, more: map<string, Job>) {
    forall n :: n in jobs ==> n in more && more[n] == jobs[n]
  }

  lemma {:induction false} TraceKeepsRegistry(e: Setting, trace: seq<Loop>, events: seq<Event>, k: nat)
    requires IsTrace(e, trace, events) && k <= |events|
    ensures Extends(trace[0].registry, trace[k].registry)
    ensures Keyed(trace[0].registry) ==> Keyed(trace[k].registry)
  {
    if k > 0 {
      TraceKeepsRegistry(e, trace, events, k - 1);
      assert StepAt(e, trace, events, k - 1);
    }
  }

  lemma RunKeepsRegistry(e: Setting, trace: seq<Loop>, first: Fault, now: Time, replies: nat -> nat -> Reply,
                         events: seq<Event>, grace: int, inTime: nat, order: nat -> nat, last: nat -> Reply)
    requires IsRun(e, trace, first, now, replies, events, grace, inTime, order, last)
    ensures Extends(trace[0].registry, Final(trace).registry)
    ensures Keyed(trace[0].registry) ==> Keyed(Final(trace).registry)
  {
    var all := AllEvents(trace, first, now, replies, events, grace, inTime, order, last);
    TraceKeepsRegistry(e, trace, all, |all|);
  }

  /** The jobs of a scheduler, which its dispatcher looks up by name on every dispatch. */
  class Registry {
    var jobs: map<string, Job>

    constructor ()
      ensures jobs == map[]
    {
      jobs := map[];
    }

    /** Registers a job unless its name is empty or taken. */
    method Add(job: Job)
      modifies this
      ensures jobs == WithJob(old(jobs), job)
    {
      if job.name != "" && job.name !in jobs {
        jobs := jobs[job.name := job];
      }
    }
  }

  /** The lock as a node with this leader sees it. */
  ghost function LockOf(leader: PostgresLeader?): Lock
    reads leader, if leader == null then {} else {leader.server}
  {
    Lock(if leader == null then None else Some(leader.held), leader != null && leader.server.owner.None?)
  }

  /** A node that thinks it leads owns the lock. */
  ghost predicate Sound(leader: PostgresLeader?)
    reads leader, if leader == null then {} else {leader.server}
  {
    leader != null && leader.held ==> leader.Owns()
  }

  class Dispatcher {
    const lib: Library
    const nodeID: string
    const tick: int
    const registry: Registry
    const storage: MemoryStorage
    const leader: PostgresLeader?
    var attempts: map<string, nat>
    var spawned: seq<Launch>

    ghost predicate Valid()
      reads this, storage
    {
      storage.Valid()
    }

    ghost function W(): World
      reads this, storage
    {
      World(storage.jobs, storage.runs, attempts)
    }

    function Leadership(): Option<bool>
      reads leader
    {
      if leader == null then None else Some(leader.held)
    }

    function Env(): Setting
      reads leader, registry
    {
      Setting(lib, registry.jobs, Leadership(), tick, nodeID)
    }

    constructor (lib: Library, nodeID: string, tick: int, registry: Registry, storage: MemoryStorage,
                 leader: PostgresLeader?)
      requires storage.Valid()
      ensures Valid() && this.storage == storage && this.leader == leader && this.registry == registry
      ensures this.lib == lib && this.nodeID == nodeID && this.tick == tick
      ensures attempts == map[] && spawned == []
    {
      this.lib, this.nodeID, this.tick := lib, nodeID, tick;
      this.registry, this.storage, this.leader := registry, storage, leader;
      attempts, spawned := map[], [];
    }

    method BumpAttempt(jobID: string) returns (attempt: nat)
      modifies this`attempts
      ensures attempt == Counter(old(attempts), jobID) + 1
      ensures attempts == old(attempts)[jobID := attempt]
    {
      if jobID !in attempts {
        attempts := attempts[jobID := 0];
      }
      attempt := attempts[jobID] + 1;
      attempts := attempts[jobID := attempt];
    }

    method ForgetAttempt(jobID: string)
      modifies this`attempts
      ensures attempts == old(attempts) - {jobID}
    {
      attempts := attempts - {jobID};
    }

    /** The consequences of a handler result: a failure below the budget pulls the row back, any other
        result forgets the counter. */
    method Settle(dj: DueJob, retry: RetryPolicy, attempt: Ordinal, reply: Reply) returns (outcome: Outcome)
      requires Valid()
      modifies this`attempts, storage`jobs
      ensures Valid() && outcome == OutcomeOf(reply.failure.Some?, attempt, retry.maxAttempts)
      ensures AsksRetry(reply.failure.Some?, attempt, retry.maxAttempts) ==>
                && attempts == old(attempts)
                && PulledBack(old(storage.jobs), storage.jobs, dj.id, retry, attempt, reply)
                && storage.jobs == CallRows(old(storage.jobs), dj.id, Retry(RetryAt(Runner(nodeID, retry), attempt, reply)))
      ensures !AsksRetry(reply.failure.Some?, attempt, retry.maxAttempts) ==>
                attempts == old(attempts) - {dj.id} && storage.jobs == old(storage.jobs)
    {
      RetryPullsBack(storage.jobs, Runner(nodeID, retry), dj.id, attempt, reply);
      outcome := if reply.failure.Some? then Failed else Succeeded;
      if reply.failure.Some? && attempt < retry.maxAttempts {
        var backoff := ComputeBackoff(retry, attempt, reply.jitter);
        var _ := storage.ScheduleRetry(dj.id, reply.retryClock + backoff);
      } else if reply.failure.Some? {
        outcome := DeadLetter;
        ForgetAttempt(dj.id);
      } else {
        ForgetAttempt(dj.id);
      }
    }

    /** The end of a handler attempt: judged by the attempt counted when it began, and recorded in every case. */
    method Conclude(dj: DueJob, retry: RetryPolicy, attempt: Ordinal, reply: Reply)
      requires Valid()
      modifies this`attempts, storage
      ensures Valid() && W() == Concluded(old(W()), Runner(nodeID, retry), dj, attempt, reply)
      ensures |storage.runs| == |old(storage.runs)| + 1 && old(storage.runs) <= storage.runs
      ensures Tells(storage.runs[|old(storage.runs)|], Runner(nodeID, retry), dj, attempt, reply)
    {
      var outcome := Settle(dj, retry, attempt, reply);
      var text := if reply.failure.Some? then reply.failure.value else "";
      storage.RecordRun(
        RunRecord(dj.id, dj.fire, Some(reply.startedAt), Some(reply.finishedAt), nodeID, attempt, outcome, text),
        reply.finishedAt);
    }

    /** One handler attempt on the loop's own goroutine. */
    method Execute(dj: DueJob, retry: RetryPolicy, reply: Reply)
      requires Valid()
      modifies this`attempts, storage
      ensures Valid() && W() == Executed(old(W()), Runner(nodeID, retry), dj, reply)
    {
      var attempt := BumpAttempt(dj.id);
      assert W() == Counted(old(W()), dj.id);
      Conclude(dj, retry, attempt, reply);
      ExecutedInTwo(old(W()), Runner(nodeID, retry), dj, reply);
    }

    /** Executes the instants one after the other. */
    method ReplayInstants(dj: DueJob, retry: RetryPolicy, instants: seq<Time>, replies: nat -> Reply)
      requires Valid()
      modifies this`attempts, storage
      ensures Valid()
      ensures W() == ReplayedUpTo(old(W()), Runner(nodeID, retry), dj, instants, replies, |instants|)
    {
      ghost var w, r := W(), Runner(nodeID, retry);
      var i := 0;
      while i < |instants|
        invariant 0 <= i <= |instants| && Valid()
        invariant W() == ReplayedUpTo(w, r, dj, instants, replies, i)
      {
        ReplayOneMore(w, r, dj, instants, replies, i, W());
        Execute(dj.(fire := instants[i]), retry, replies(i));
        i := i + 1;
      }
    }

    method RunAllMissed(dj: DueJob, retry: RetryPolicy, now: Time, replies: nat -> Reply)
      requires Valid()
      modifies this`attempts, storage
      ensures Valid()
      ensures match Load(lib, dj.kind, dj.expr)
              case Err(_) => W() == old(W())
              case Ok(sched) => W() == ReplayedAll(old(W()), Runner(nodeID, retry), dj, sched, now, replies)
    {
      var loaded := Load(lib, dj.kind, dj.expr);
      if loaded.Err? {
        return;
      }
      var instants := IterateSchedule(Some(loaded.value), dj.fire, now, MAX_CATCHUP_INSTANTS);
      if |instants| == 0 {
        Execute(dj, retry, replies(0));
        return;
      }
      ReplayInstants(dj, retry, instants, replies);
      var future := loaded.value.Next(now);
      if future.Some? {
        var _ := storage.ClaimJob(dj.id, future.value);
      }
    }

    /** Handles one due row: ignored, advanced, launched in a goroutine, or replayed in place. */
    method MaybeDispatch(dj: DueJob, now: Time, replies: nat -> Reply)
      requires Valid()
      modifies this, storage
      ensures Valid() && W() == HandledOne(Env(), old(W()), dj, now, replies)
      ensures spawned == old(spawned) + LaunchesOf(Env(), old(storage.jobs), dj, now)
      ensures dj.name !in registry.jobs || Load(lib, dj.kind, dj.expr).Err? || Load(lib, dj.kind, dj.expr).value.Next(now).None?
              || (registry.jobs[dj.name].options.leaderOnly && leader != null && !leader.held)
              ==> W() == old(W()) && spawned == old(spawned)
    {
      if dj.name !in registry.jobs {
        return;
      }
      var job := registry.jobs[dj.name];
      if job.options.leaderOnly && leader != null && !leader.held {
        return;
      }
      var next := ComputeNextFire(lib, dj.kind, dj.expr, now);
      if next.Err? || next.value.None? {
        return;
      }
      Act(dj, job, next.value.value, now, replies);
    }

    /** The missed-fire policy: skip, replay, or claim and launch. */
    method Act(dj: DueJob, job: Job, target: Time, now: Time, replies: nat -> Reply)
      requires Valid() && dj.name in registry.jobs && registry.jobs[dj.name] == job
      requires !(job.options.leaderOnly && leader != null && !leader.held)
      modifies this, storage
      ensures var d := Classify(job.options, old(Leadership()), tick, dj.fire, now, Some(target));
              && Valid()
              && W() == Acted(old(Env()), old(W()), dj, d, now, replies)
              && spawned == old(spawned) + Launches(old(storage.jobs), dj, job.options, d)
    {
      var missed := now - dj.fire > 3 * tick;
      if missed && job.options.missedFire == Skip {
        var _ := storage.ClaimJob(dj.id, target);
        return;
      }
      if missed && job.options.missedFire == RunAll {
        if leader != null && !leader.held {
          return;
        }
        RunAllMissed(dj, job.options.retry, now, replies);
        return;
      }
      ClaimAndLaunch(dj, job.options, target);
    }

    /** Claims the row and, if this call won, creates the goroutine that will execute it. */
    method ClaimAndLaunch(dj: DueJob, options: JobOptions, target: Time)
      requires Valid()
      modifies this`spawned, storage`jobs
      ensures Valid() && storage.jobs == CallRows(old(storage.jobs), dj.id, Claim(target))
      ensures spawned == old(spawned) +
                var name := Named(old(storage.jobs), dj.id);
                if name.Some? && ClaimWins(old(storage.jobs)[name.value], target) then [Launch.Launch(dj, options, None)] else []
    {
      var claimed := storage.ClaimJob(dj.id, target);
      if claimed.Err? || !claimed.value {
        return;
      }
      spawned := spawned + [Launch.Launch(dj, options, None)];
    }

    method HandleAll(due: seq<DueJob>, now: Time, replies: nat -> nat -> Reply)
      requires Valid()
      modifies this, storage
      ensures Valid() && W() == HandledUpTo(Env(), old(W()), due, now, replies, |due|)
      ensures spawned == old(spawned) + LaunchedUpTo(Env(), old(W()), due, now, replies, |due|)
    {
      ghost var e, before := Env(), Now();
      var i := 0;
      while i < |due|
        invariant 0 <= i <= |due| && Valid() && Env() == e
        invariant TickAt(e, before, due, now, replies, i, Now())
      {
        ghost var mid := Now();
        MaybeDispatch(due[i], now, replies(i));
        TickAtNext(e, before, due, now, replies, i, mid, Now());
        i := i + 1;
      }
    }

    /** One fetch-and-dispatch cycle. */
    method Tick(now: Time, replies: nat -> nat -> Reply) returns (due: seq<DueJob>)
      requires Valid()
      modifies this, storage
      ensures Valid() && IsFetch(old(storage.jobs), now, 64, due)
      ensures W() == HandledUpTo(Env(), old(W()), due, now, replies, |due|)
      ensures spawned == old(spawned) + LaunchedUpTo(Env(), old(W()), due, now, replies, |due|)
    {
      due := storage.FetchDue(now, 64);
      HandleAll(due, now, replies);
    }

    ghost predicate Ready()
      reads this, storage, leader, if leader == null then {} else {leader.server}
    {
      Valid() && (leader != null ==> leader.Valid())
    }

    ghost function Now(): Loop
      reads this, storage, leader, registry
    {
      Loop(W(), spawned, Leadership(), registry.jobs)
    }

    /** The constants of the node; leadership and registry are part of the state of the loop. */
    function Node(): Setting {
      Setting(lib, map[], None, tick, nodeID)
    }

    /** The handler goroutine at this position begins. */
    method HandlerStarts(index: nat)
      modifies this
      ensures Now() == Started(old(Now()), index)
    {
      if index < |spawned| && spawned[index].attempt.None? {
        var launch := spawned[index];
        var attempt := BumpAttempt(launch.due.id);
        spawned := spawned[index := launch.(attempt := Some(attempt))];
      }
    }

    /** The handler goroutine at this position ends. */
    method HandlerReturns(index: nat, reply: Reply)
      requires Valid()
      modifies this, storage
      ensures Valid() && Now() == Returned(Node(), old(Now()), index, reply)
    {
      if index < |spawned| && spawned[index].attempt.Some? {
        var launch := spawned[index];
        Conclude(launch.due, launch.options.retry, launch.attempt.value, reply);
        spawned := Without(spawned, index);
      }
    }

    /** One of the goroutines in flight runs to its end. */
    method ReturnOne(ghost trace: seq<Loop>, ghost events: seq<Event>, index: nat, reply: Reply)
      returns (ghost longer: seq<Loop>)
      requires Valid() && index < |spawned| && IsTrace(Node(), trace, events) && Final(trace) == Now()
      modifies this, storage
      ensures Valid() && IsTrace(Node(), longer, events + [HandlerStarted(index), HandlerReturned(index, reply)])
      ensures Final(longer) == Now() && trace <= longer
      ensures |spawned| == |old(spawned)| - 1 && |storage.runs| == |old(storage.runs)| + 1
    {
      HandlerStarts(index);
      ghost var mid := Now();
      TraceSnoc(Node(), trace, events, HandlerStarted(index), mid);
      HandlerReturns(index, reply);
      ReturnCounts(Node(), mid, index, reply);
      TraceSnoc(Node(), trace + [mid], events + [HandlerStarted(index)], HandlerReturned(index, reply), Now());
      longer := trace + [mid] + [Now()];
      assert events + [HandlerStarted(index)] + [HandlerReturned(index, reply)]
          == events + [HandlerStarted(index), HandlerReturned(index, reply)];
    }

    /** Waits for handlers, which return in any order: all of them when there is no grace period, otherwise those
        that return in time. */
    method Drain(ghost trace: seq<Loop>, ghost events: seq<Event>, grace: int, inTime: nat, order: nat -> nat,
                 replies: nat -> Reply)
      returns (ghost longer: seq<Loop>)
      requires Valid() && IsTrace(Node(), trace, events) && Final(trace) == Now()
      modifies this, storage
      ensures Valid()
      ensures var n := |old(spawned)|;
              var k := if grace <= 0 then n else Min(inTime, n);
              && IsTrace(Node(), longer, events + Returns(order, replies, n, k)) && trace <= longer && Final(longer) == Now()
              && |spawned| == n - k && |storage.runs| == |old(storage.runs)| + k
    {
      ghost var n := |spawned|;
      var i := 0;
      longer := trace;
      assert events + Returns(order, replies, n, 0) == events;
      while spawned != [] && (grace <= 0 || i < inTime)
        invariant Valid() && 0 <= i && i + |spawned| == n
        invariant grace > 0 ==> i <= inTime
        invariant |storage.runs| == |old(storage.runs)| + i
        invariant IsTrace(Node(), longer, events + Returns(order, replies, n, i)) && trace <= longer && Final(longer) == Now()
        decreases |spawned|
      {
        var index := order(i) % |spawned|;
        longer := ReturnOne(longer, events + Returns(order, replies, n, i), index, replies(i));
        i := i + 1;
        assert events + Returns(order, replies, n, i)
            == events + Returns(order, replies, n, i - 1) + [HandlerStarted(index), HandlerReturned(index, replies(i - 1))];
      }
    }

    /** One attempt to become or stay the leader; errors are only logged. */
    method MaybeRenewLeader(fault: Fault)
      requires Ready()
      modifies leader, if leader == null then {} else {leader.server}
      ensures Ready() && RenewedTo(old(Now()), Now())
      ensures LockOf(leader) == Renewed(nodeID, old(LockOf(leader)), RenewalDue(fault)) && (old(Sound(leader)) ==> Sound(leader))
    {
      if leader == null {
        return;
      }
      var _ := leader.TryAcquire(nodeID, fault);
    }

    method TickOnce(now: Time, replies: nat -> nat -> Reply)
      requires Valid()
      modifies this, storage
      ensures Valid() && Now() == Ticked(Node(), old(Now()), now, replies)
    {
      var due := Tick(now, replies);
      FetchCanonical(old(storage.jobs), now, 64, due, FetchOf(old(storage.jobs), now, 64));
    }

    /** One turn of the loop. */
    method Wake(event: Event)
      requires Ready()
      modifies this, storage, registry, leader, if leader == null then {} else {leader.server}
      ensures Ready() && Wakes(Node(), old(Now()), event, Now())
      ensures LockOf(leader) == Renewed(nodeID, old(LockOf(leader)), event) && (old(Sound(leader)) ==> Sound(leader))
    {
      match event {
        case TickerFired(at, replies) => TickOnce(at, replies);
        case RenewalDue(fault) => MaybeRenewLeader(fault);
        case HandlerStarted(index) => HandlerStarts(index);
        case HandlerReturned(index, reply) => HandlerReturns(index, reply);
        case JobScheduled(job) => registry.Add(job);
      }
    }

    /** The trace ends here, and its leadership follows from the lock it began with. */
    ghost predicate Traced(trace: seq<Loop>, events: seq<Event>, lock: Lock)
      reads this, storage, registry, leader, if leader == null then {} else {leader.server}
    {
      && IsTrace(Node(), trace, events) && Final(trace) == Now()
      && LedBy(nodeID, lock, trace, events) && LockOf(leader) == LockAt(nodeID, lock, events, |events|)
    }

    /** One turn of the loop, added to a trace that ends here. */
    method WakeAfter(ghost trace: seq<Loop>, ghost events: seq<Event>, event: Event, ghost lock: Lock)
      returns (ghost longer: seq<Loop>)
      requires Ready() && Traced(trace, events, lock)
      modifies this, storage, registry, leader, if leader == null then {} else {leader.server}
      ensures Ready() && Traced(longer, events + [event], lock) && longer == trace + [Now()]
      ensures old(Sound(leader)) ==> Sound(leader)
    {
      Wake(event);
      TraceSnoc(Node(), trace, events, event, Now());
      LedBySnoc(nodeID, lock, trace, events, event, Now());
      longer := trace + [Now()];
    }

    /** The select loop until the context ends. */
    method Serve(ghost trace: seq<Loop>, ghost earlier: seq<Event>, events: seq<Event>, ghost lock: Lock)
      returns (ghost longer: seq<Loop>)
      requires Ready() && Traced(trace, earlier, lock)
      modifies this, storage, registry, leader, if leader == null then {} else {leader.server}
      ensures Ready() && Traced(longer, earlier + events, lock) && trace <= longer
      ensures old(Sound(leader)) ==> Sound(leader)
    {
      var i := 0;
      longer := trace;
      assert earlier + events[..0] == earlier;
      while i < |events|
        invariant 0 <= i <= |events| && Ready()
        invariant Traced(longer, earlier + events[..i], lock) && trace <= longer
        invariant old(Sound(leader)) ==> Sound(leader)
      {
        longer := WakeAfter(longer, earlier + events[..i], events[i], lock);
        assert earlier + events[..i] + [events[i]] == earlier + events[..i + 1];
        i := i + 1;
      }
      assert events[..|events|] == events;
    }

    /** The loop: an initial renewal and tick, then whatever happens until the context ends, then the drain. */
    method Run(first: Fault, now: Time, replies: nat -> nat -> Reply, events: seq<Event>,
               grace: int, inTime: nat, order: nat -> nat, last: nat -> Reply)
      requires Ready()
      modifies this, storage, registry, leader, if leader == null then {} else {leader.server}
      ensures Ready()
      ensures exists trace: seq<Loop> ::
                && IsRun(Node(), trace, first, now, replies, events, grace, inTime, order, last)
                && Begins(Node(), trace, old(Now()), old(LockOf(leader)), first, now, replies) && Final(trace) == Now()
                && var all := AllEvents(trace, first, now, replies, events, grace, inTime, order, last);
                   LedBy(nodeID, old(LockOf(leader)), trace, all) && LockOf(leader) == LockAt(nodeID, old(LockOf(leader)), all, |all|)
      ensures grace <= 0 ==> spawned == []
      ensures Extends(old(registry.jobs), registry.jobs) && (Keyed(old(registry.jobs)) ==> Keyed(registry.jobs))
      ensures old(Sound(leader)) ==> Sound(leader)
    {
      ghost var lock, before := LockOf(leader), Now();
      ghost var opening := [RenewalDue(first), TickerFired(now, replies)];
      ghost var start := OpenLoop(first, now, replies);
      ghost var served := Serve(start, opening, events, lock);
      ghost var trace := Drain(served, opening + events, grace, inTime, order, last);
      ghost var n := |Final(served).spawned|;
      AsRun(Node(), served, trace, lock, first, now, replies, events, grace, inTime, order, last, opening + events, n,
            if grace <= 0 then n else Min(inTime, n));
      RunKeepsRegistry(Node(), trace, first, now, replies, events, grace, inTime, order, last);
    }

    /** The first renewal and the first tick. */
    method OpenLoop(first: Fault, now: Time, replies: nat -> nat -> Reply) returns (ghost trace: seq<Loop>)
      requires Ready()
      modifies this, storage, registry, leader, if leader == null then {} else {leader.server}
      ensures Ready() && Traced(trace, [RenewalDue(first), TickerFired(now, replies)], old(LockOf(leader)))
      ensures Begins(Node(), trace, old(Now()), old(LockOf(leader)), first, now, replies)
      ensures old(Sound(leader)) ==> Sound(leader)
    {
      ghost var lock := LockOf(leader);
      trace := [Now()];
      trace := WakeAfter(trace, [], RenewalDue(first), lock);
      assert [] + [RenewalDue(first)] == [RenewalDue(first)];
      trace := WakeAfter(trace, [RenewalDue(first)], TickerFired(now, replies), lock);
      assert [RenewalDue(first)] + [TickerFired(now, replies)] == [RenewalDue(first), TickerFired(now, replies)];
      Opening(Node(), trace, lock, first, now, replies);
    }
  }
}
