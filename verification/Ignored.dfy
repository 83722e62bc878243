/** The rows that a node leaves alone: those of jobs it has not registered or cannot compute a next fire for, and those
    that only the leader may touch. */
module Ignored {
  import opened Basics
  import opened Schedules
  import opened Jobs
  import opened RowLedger
  import opened Storage
  import opened Persistence
  import opened Execution
  import opened Dispatching
  import opened TickProgress
  import opened LoopRuns

  /** The job is not registered here, its expression does not load, its schedule has no next fire, or the node is a
      follower and only the leader may handle it. */
  predicate NotMine(e: Setting, dj: DueJob, now: Time) {
    || dj.name !in e.registry
    || Load(e.lib, dj.kind, dj.expr).Err?
    || Load(e.lib, dj.kind, dj.expr).value.Next(now).None?
    || (e.leader == Some(false) && LeaderMust(e, dj, now))
  }

  /** A leader-only job, or a late row whose missed fires are to be replayed. */
  predicate LeaderMust(e: Setting, dj: DueJob, now: Time)
    requires dj.name in e.registry
  {
    var o := e.registry[dj.name].options;
    o.leaderOnly || (Late(e, dj, now) && o.missedFire == RunAll)
  }

  /** Nothing has happened to the job: its row and attempt counter are as they were, and no record was added for it. */
  ghost predicate LeftAlone(w: World, w': World, name: string, id: string) {
    && HasId(w.rows, id, name) && name in w'.rows && w'.rows[name] == w.rows[name]
    && Counter(w'.attempts, id) == Counter(w.attempts, id)
    && NoneFor(w.runs, w'.runs, id)
  }

  /** Records were appended, none of them for this job. */
  predicate NoneFor(runs: seq<RunRecord>, runs': seq<RunRecord>, id: string) {
    runs <= runs' && forall i :: |runs| <= i < |runs'| ==> runs'[i].jobID != id
  }

  predicate NoLaunchFor(launches: seq<Launch>, id: string) {
    forall i :: 0 <= i < |launches| ==> launches[i].due.id != id
  }

  lemma LeftAloneTwice(w: World, m: World, w': World, name: string, id: string)
    requires LeftAlone(w, m, name, id) && LeftAlone(m, w', name, id)
    ensures LeftAlone(w, w', name, id)
  {
    forall i | |w.runs| <= i < |w'.runs| ensures w'.runs[i].jobID != id {
      if i < |m.runs| { assert m.runs[i].jobID != id; }
    }
  }

  // ----- Executions of other jobs --------------------------------------------------------------

  lemma ExecutionLeaves(w: World, r: Runner, dj: DueJob, reply: Reply, name: string, id: string)
    requires RowsOk(w.rows) && HasId(w.rows, id, name) && dj.id != id
    ensures LeftAlone(w, Executed(w, r, dj, reply), name, id) && RowsOk(Executed(w, r, dj, reply).rows)
  {
    ExecutedTouches(w, r, dj, reply);
  }

  lemma {:induction false} ReplayLeaves(w: World, r: Runner, dj: DueJob, instants: seq<Time>, replies: nat -> Reply, k: nat,
                                        name: string, id: string)
    requires RowsOk(w.rows) && HasId(w.rows, id, name) && dj.id != id && k <= |instants|
    ensures var w' := ReplayedUpTo(w, r, dj, instants, replies, k); LeftAlone(w, w', name, id) && RowsOk(w'.rows)
  {
    if k > 0 {
      var m := ReplayedUpTo(w, r, dj, instants, replies, k - 1);
      ReplayLeaves(w, r, dj, instants, replies, k - 1, name, id);
      ExecutionLeaves(m, r, dj.(fire := instants[k - 1]), replies(k - 1), name, id);
      LeftAloneTwice(w, m, Executed(m, r, dj.(fire := instants[k - 1]), replies(k - 1)), name, id);
    }
  }

  lemma CallLeaves(w: World, to: string, op: RowOp, name: string, id: string)
    requires RowsOk(w.rows) && HasId(w.rows, id, name) && to != id
    ensures LeftAlone(w, w.(rows := CallRows(w.rows, to, op)), name, id)
  {
    CallTouches(w.rows, to, op);
  }

  lemma MissedLeaves(w: World, r: Runner, dj: DueJob, sched: Schedule, now: Time, replies: nat -> Reply, name: string,
                     id: string)
    requires RowsOk(w.rows) && HasId(w.rows, id, name) && dj.id != id
    ensures LeftAlone(w, ReplayedAll(w, r, dj, sched, now, replies), name, id)
  {
    var instants := Instants(Some(sched), dj.fire, now, MAX_CATCHUP_INSTANTS);
    if instants == [] {
      ExecutionLeaves(w, r, dj, replies(0), name, id);
    } else {
      var m := ReplayedUpTo(w, r, dj, instants, replies, |instants|);
      ReplayLeaves(w, r, dj, instants, replies, |instants|, name, id);
      if sched.Next(now).Some? {
        CallLeaves(m, dj.id, Claim(sched.Next(now).value), name, id);
        LeftAloneTwice(w, m, ReplayedAll(w, r, dj, sched, now, replies), name, id);
      }
    }
  }

  // ----- One tick ------------------------------------------------------------------------------

  /** Handling a due row leaves a job alone if the row is another job's or is not this node's to handle. */
  lemma HandledLeaves(e: Setting, w: World, dj: DueJob, now: Time, replies: nat -> Reply, name: string, id: string)
    requires RowsOk(w.rows) && HasId(w.rows, id, name) && (dj.id == id ==> NotMine(e, dj, now))
    ensures LeftAlone(w, HandledOne(e, w, dj, now, replies), name, id)
    ensures NoLaunchFor(LaunchesOf(e, w.rows, dj, now), id)
  {
    var d := DecisionFor(e, dj, now);
    if dj.id != id {
      if d.Replay? {
        MissedLeaves(w, Runner(e.nodeID, e.registry[dj.name].options.retry), dj, Load(e.lib, dj.kind, dj.expr).value, now,
                     replies, name, id);
      } else if !d.Ignore? {
        CallLeaves(w, dj.id, Claim(d.target), name, id);
      }
    }
  }

  lemma {:induction false} TickLeaves(e: Setting, w: World, due: seq<DueJob>, now: Time, replies: nat -> nat -> Reply, k: nat,
                                      name: string, id: string)
    requires RowsOk(w.rows) && HasId(w.rows, id, name) && Matches(w.rows, due) && k <= |due|
    requires forall i :: 0 <= i < |due| && due[i].id == id ==> NotMine(e, due[i], now)
    ensures LeftAlone(w, HandledUpTo(e, w, due, now, replies, k), name, id)
    ensures NoLaunchFor(LaunchedUpTo(e, w, due, now, replies, k), id)
  {
    if k > 0 {
      var m := TickKeepsTable(e, w, due, now, replies, k - 1);
      TickLeaves(e, w, due, now, replies, k - 1, name, id);
      HandleNext(e, w, due, now, replies, k - 1, m);
      StepLeaves(e, w, m, due[k - 1], now, replies(k - 1), name, id, LaunchedUpTo(e, w, due, now, replies, k - 1));
    }
  }

  lemma StepLeaves(e: Setting, w: World, m: World, dj: DueJob, now: Time, replies: nat -> Reply, name: string, id: string,
                   launches: seq<Launch>)
    requires LeftAlone(w, m, name, id) && NoLaunchFor(launches, id)
    requires RowsOk(m.rows) && (dj.id == id ==> NotMine(e, dj, now))
    ensures LeftAlone(w, HandledOne(e, m, dj, now, replies), name, id)
    ensures NoLaunchFor(launches + LaunchesOf(e, m.rows, dj, now), id)
  {
    HandledLeaves(e, m, dj, now, replies, name, id);
    LeftAloneTwice(w, m, HandledOne(e, m, dj, now, replies), name, id);
  }

  lemma DueMatches(rows: Rows, now: Time, due: seq<DueJob>)
    requires RowsOk(rows) && due == FetchOf(rows, now, 64)
    ensures Matches(rows, due)
    ensures forall i :: 0 <= i < |due| ==> due[i].name in rows && due[i] == Project(rows[due[i].name]) && due[i].fire <= now
  {
    if due != [] {
      assert IsFetch(rows, now, 64, due);
      FetchMatches(rows, now, 64, due);
      var s :| Listing(rows, now, s) && due == Take(s, Limit(64));
      forall i | 0 <= i < |due|
        ensures due[i].name in rows && due[i] == Project(rows[due[i].name]) && due[i].fire <= now
      {
        assert due[i] == s[i] && s[i] in s;
      }
    }
  }

  /** A whole tick leaves a job alone whose row is not due, or is not this node's to handle: the row keeps its fire time,
      nothing is recorded and no goroutine is created for it. */
  lemma TickIgnores(e: Setting, a: Loop, now: Time, replies: nat -> nat -> Reply, name: string)
    requires RowsOk(a.w.rows) && name in a.w.rows
    requires a.w.rows[name].next > now || NotMine(Here(e, a), Project(a.w.rows[name]), now)
    ensures var b, id := Ticked(e, a, now, replies), a.w.rows[name].id;
            LeftAlone(a.w, b.w, name, id) && a.spawned <= b.spawned && NoLaunchFor(b.spawned[|a.spawned|..], id)
  {
    var due := FetchOf(a.w.rows, now, 64);
    DueMatches(a.w.rows, now, due);
    TickLeaves(Here(e, a), a.w, due, now, replies, |due|, name, a.w.rows[name].id);
  }

  // ----- Whole runs ----------------------------------------------------------------------------

  /** In this state the job is never the node's: not registered, or for the leader only while the node is none. */
  predicate Outside(a: Loop, name: string) {
    name !in a.registry || (a.leader == Some(false) && a.registry[name].options.leaderOnly)
  }

  /** The table is in order and no goroutine of the job is in flight. */
  ghost predicate Idle(a: Loop, name: string, id: string) {
    RowsOk(a.w.rows) && HasId(a.w.rows, id, name) && NoLaunchFor(a.spawned, id)
  }

  lemma TickKeepsOut(e: Setting, a: Loop, now: Time, replies: nat -> nat -> Reply, name: string, id: string)
    requires Idle(a, name, id) && Outside(a, name)
    ensures var b := Ticked(e, a, now, replies); Idle(b, name, id) && LeftAlone(a.w, b.w, name, id)
  {
    var due := FetchOf(a.w.rows, now, 64);
    DueMatches(a.w.rows, now, due);
    var _ := TickKeepsTable(Here(e, a), a.w, due, now, replies, |due|);
    TickIgnores(e, a, now, replies, name);
    var b := Ticked(e, a, now, replies);
    forall i | 0 <= i < |b.spawned| ensures b.spawned[i].due.id != id {
      if i >= |a.spawned| { assert b.spawned[|a.spawned|..][i - |a.spawned|] == b.spawned[i]; }
    }
  }

  lemma ReturnKeepsOut(e: Setting, a: Loop, index: nat, reply: Reply, name: string, id: string)
    requires Idle(a, name, id)
    ensures var b := Returned(e, a, index, reply); Idle(b, name, id) && LeftAlone(a.w, b.w, name, id)
  {
    if Running(a, index) {
      var launch := a.spawned[index];
      ConcludedEffect(a.w, Runner(e.nodeID, launch.options.retry), launch.due, launch.attempt.value, reply);
    }
  }

  lemma EventKeepsOut(e: Setting, a: Loop, event: Event, b: Loop, name: string, id: string)
    requires Wakes(e, a, event, b) && Idle(a, name, id) && Outside(a, name)
    ensures Idle(b, name, id) && LeftAlone(a.w, b.w, name, id)
  {
    match event {
      case TickerFired(now, replies) => TickKeepsOut(e, a, now, replies, name, id);
      case HandlerReturned(index, reply) => ReturnKeepsOut(e, a, index, reply, name, id);
      case _ =>
    }
  }

  /** As long as a job is not registered on the node, or is for the leader only and the node is a follower, a whole run of
      its loop leaves the job alone. */
  lemma {:induction false} RunIgnores(e: Setting, trace: seq<Loop>, events: seq<Event>, k: nat, name: string, id: string)
    requires IsTrace(e, trace, events) && k <= |events|
    requires Idle(trace[0], name, id) && forall j :: 0 <= j < k ==> Outside(trace[j], name)
    ensures Idle(trace[k], name, id) && LeftAlone(trace[0].w, trace[k].w, name, id)
  {
    if k > 0 {
      RunIgnores(e, trace, events, k - 1, name, id);
      assert StepAt(e, trace, events, k - 1);
      EventKeepsOut(e, trace[k - 1], events[k - 1], trace[k], name, id);
      LeftAloneTwice(trace[0].w, trace[k - 1].w, trace[k].w, name, id);
    }
  }

  lemma EventKeepsTable(e: Setting, a: Loop, event: Event, b: Loop)
    requires Wakes(e, a, event, b) && RowsOk(a.w.rows)
    ensures RowsOk(b.w.rows) && b.w.rows.Keys == a.w.rows.Keys
  {
    match event {
      case TickerFired(now, replies) =>
        var due := FetchOf(a.w.rows, now, 64);
        DueMatches(a.w.rows, now, due);
        var _ := TickKeepsTable(Here(e, a), a.w, due, now, replies, |due|);
      case HandlerReturned(index, reply) =>
        if Running(a, index) {
          var launch := a.spawned[index];
          ConcludedEffect(a.w, Runner(e.nodeID, launch.options.retry), launch.due, launch.attempt.value, reply);
        }
      case _ =>
    }
  }

  /** A run of the loop neither adds nor removes rows. */
  lemma {:induction false} RunKeepsTable(e: Setting, trace: seq<Loop>, events: seq<Event>, k: nat)
    requires IsTrace(e, trace, events) && k <= |events| && RowsOk(trace[0].w.rows)
    ensures RowsOk(trace[k].w.rows) && trace[k].w.rows.Keys == trace[0].w.rows.Keys
  {
    if k > 0 {
      RunKeepsTable(e, trace, events, k - 1);
      assert StepAt(e, trace, events, k - 1);
      EventKeepsTable(e, trace[k - 1], events[k - 1], trace[k]);
    }
  }

  /** While another session owns the leader lock, a run of a follower's loop leaves every leader-only job alone that is
      registered when it begins. */
  lemma FollowerIgnores(e: Setting, lock: Lock, trace: seq<Loop>, events: seq<Event>, name: string, id: string)
    requires IsTrace(e, trace, events) && LedBy(e.nodeID, lock, trace, events)
    requires lock.leader == Some(false) && !lock.free
    requires Idle(trace[0], name, id) && name in trace[0].registry && trace[0].registry[name].options.leaderOnly
    ensures LeftAlone(trace[0].w, Final(trace).w, name, id) && NoLaunchFor(Final(trace).spawned, id)
    ensures forall i :: 0 <= i < |trace| ==> trace[i].leader == Some(false)
  {
    forall i | 0 <= i <= |events| ensures trace[i].leader == Some(false) && Outside(trace[i], name) {
      LeadsIff(e.nodeID, lock, events, i);
      TraceKeepsRegistry(e, trace, events, i);
    }
    RunIgnores(e, trace, events, |events|, name, id);
  }
}
