/** Properties of every run of one dispatcher's loop, whatever happens in it. */
module LoopRuns {
  import opened Basics
  import opened Schedules
  import opened Jobs
  import opened Storage
  import opened Persistence
  import opened Leaders
  import opened Execution
  import opened Dispatching
  import opened TickProgress

  // ----- Executions created and recorded -------------------------------------------------------

  /** The synchronous executions that a due row causes: one for each missed instant, at least one. */
  function ReplayCount(e: Setting, dj: DueJob, now: Time): nat {
    if !DecisionFor(e, dj, now).Replay? then 0
    else Max(1, |Instants(Some(Load(e.lib, dj.kind, dj.expr).value), dj.fire, now, MAX_CATCHUP_INSTANTS)|)
  }

  lemma HandledCounts(e: Setting, w: World, dj: DueJob, now: Time, replies: nat -> Reply)
    ensures var runs := HandledOne(e, w, dj, now, replies).runs;
            w.runs <= runs && |runs| == |w.runs| + ReplayCount(e, dj, now)
  {
    if DecisionFor(e, dj, now).Replay? {
      var sched := Load(e.lib, dj.kind, dj.expr).value;
      ReplayedAllCounts(w, Runner(e.nodeID, e.registry[dj.name].options.retry), dj, sched, now, replies);
    }
  }

  lemma ReplayedAllCounts(w: World, r: Runner, dj: DueJob, sched: Schedule, now: Time, replies: nat -> Reply)
    ensures var runs := ReplayedAll(w, r, dj, sched, now, replies).runs;
            && w.runs <= runs
            && |runs| == |w.runs| + Max(1, |Instants(Some(sched), dj.fire, now, MAX_CATCHUP_INSTANTS)|)
  {
    var instants := Instants(Some(sched), dj.fire, now, MAX_CATCHUP_INSTANTS);
    ReplayAppends(w, r, dj, instants, replies, |instants|);
  }

  /** The instants for which a job's executions were recorded, in order. */
  function FiresOf(runs: seq<RunRecord>, id: string): seq<Time> {
    if runs == [] then []
    else Add(FiresOf(runs[..|runs| - 1], id), runs[|runs| - 1].jobID == id, [runs[|runs| - 1].fire])
  }

  function Add(ts: seq<Time>, more: bool, us: seq<Time>): seq<Time> { if more then ts + us else ts }

  lemma AddOn(ts: seq<Time>, more: bool, us: seq<Time>, vs: seq<Time>)
    ensures Add(Add(ts, more, us), more, vs) == Add(ts, more, us + vs)
  {
    assert ts + us + vs == ts + (us + vs);
  }

  lemma FiresSnoc(runs: seq<RunRecord>, run: RunRecord, id: string)
    ensures FiresOf(runs + [run], id) == Add(FiresOf(runs, id), run.jobID == id, [run.fire])
  {
    assert (runs + [run])[..|runs|] == runs;
  }

  lemma ExecutionFires(w: World, r: Runner, dj: DueJob, reply: Reply, id: string)
    ensures FiresOf(Executed(w, r, dj, reply).runs, id) == Add(FiresOf(w.runs, id), dj.id == id, [dj.fire])
  {
    ExecutedEffect(w, r, dj, reply);
    FiresSnoc(w.runs, RecordOf(r, dj, Counter(w.attempts, dj.id) + 1, reply), id);
  }

  lemma {:induction false} InstantFires(w: World, r: Runner, dj: DueJob, instants: seq<Time>, replies: nat -> Reply, k: nat,
                                        id: string) returns (w': World)
    requires k <= |instants|
    ensures w' == ReplayedUpTo(w, r, dj, instants, replies, k)
    ensures FiresOf(w'.runs, id) == Add(FiresOf(w.runs, id), dj.id == id, instants[..k])
  {
    if k == 0 {
      assert FiresOf(w.runs, id) + instants[..0] == FiresOf(w.runs, id);
      return w;
    }
    var mid := InstantFires(w, r, dj, instants, replies, k - 1, id);
    ReplayOneMore(w, r, dj, instants, replies, k - 1, mid);
    OneMoreFire(FiresOf(w.runs, id), mid, r, dj, instants, replies(k - 1), k - 1, id);
    w' := Executed(mid, r, dj.(fire := instants[k - 1]), replies(k - 1));
  }

  lemma OneMoreFire(before: seq<Time>, mid: World, r: Runner, dj: DueJob, instants: seq<Time>, reply: Reply, k: nat, id: string)
    requires k < |instants| && FiresOf(mid.runs, id) == Add(before, dj.id == id, instants[..k])
    ensures FiresOf(Executed(mid, r, dj.(fire := instants[k]), reply).runs, id) == Add(before, dj.id == id, instants[..k + 1])
  {
    AddOn(before, dj.id == id, instants[..k], [instants[k]]);
    ExecutionFires(mid, r, dj.(fire := instants[k]), reply, id);
    assert instants[..k + 1] == instants[..k] + [instants[k]];
  }

  /** The instants that a tick executes in place for a due row: those missed, or the row's own fire if there is none. */
  function ReplayFires(e: Setting, dj: DueJob, now: Time): seq<Time> {
    if !DecisionFor(e, dj, now).Replay? then []
    else
      var instants := Instants(Some(Load(e.lib, dj.kind, dj.expr).value), dj.fire, now, MAX_CATCHUP_INSTANTS);
      if instants == [] then [dj.fire] else instants
  }

  lemma HandledFires(e: Setting, w: World, dj: DueJob, now: Time, replies: nat -> Reply, id: string)
    ensures FiresOf(HandledOne(e, w, dj, now, replies).runs, id) ==
            Add(FiresOf(w.runs, id), dj.id == id, ReplayFires(e, dj, now))
  {
    assert FiresOf(w.runs, id) + [] == FiresOf(w.runs, id);
    if DecisionFor(e, dj, now).Replay? {
      var r := Runner(e.nodeID, e.registry[dj.name].options.retry);
      var instants := Instants(Some(Load(e.lib, dj.kind, dj.expr).value), dj.fire, now, MAX_CATCHUP_INSTANTS);
      ExecutionFires(w, r, dj, replies(0), id);
      var w' := InstantFires(w, r, dj, instants, replies, |instants|, id);
      assert instants[..|instants|] == instants;
    }
  }

  /** A row is late if its fire lies more than three ticks back. */
  predicate Late(e: Setting, dj: DueJob, now: Time) { dj.fire + 3 * e.tick < now }

  /** The missed-fire policies, as effects on the table, the records and the goroutines. A follower leaves rows of
      leader-only jobs, and late RunAll rows, alone. A late Skip row is raised and executed by nobody. A late RunAll
      row is executed in place for the missed instants in order, and raised; if there is none, it is executed for its
      own fire and not raised. Any other row is raised and executed once, by the node whose claim finds it below the
      target. */
  lemma PoliciesHold(e: Setting, w: World, dj: DueJob, now: Time, replies: nat -> Reply, v: Time)
    requires RowsOk(w.rows) && HasId(w.rows, dj.id, dj.name) && dj.name in e.registry
    requires ComputeNextFire(e.lib, dj.kind, dj.expr, now) == Ok(Some(v))
    ensures var o, w' := e.registry[dj.name].options, HandledOne(e, w, dj, now, replies);
            var launches := LaunchesOf(e, w.rows, dj, now);
            if e.leader == Some(false) && (o.leaderOnly || (Late(e, dj, now) && o.missedFire == RunAll)) then
              w' == w && launches == []
            else if Late(e, dj, now) && o.missedFire == Skip then
              w'.runs == w.runs && launches == [] && dj.name in w'.rows && w'.rows[dj.name].next == Max(w.rows[dj.name].next, v)
            else if Late(e, dj, now) && o.missedFire == RunAll then
              launches == [] && w.runs <= w'.runs && |w'.runs| == |w.runs| + |ReplayFires(e, dj, now)|
              && FiresOf(w'.runs, dj.id) == FiresOf(w.runs, dj.id) + ReplayFires(e, dj, now) && dj.name in w'.rows
              && (ReplayFires(e, dj, now) != [dj.fire] ==> v <= w'.rows[dj.name].next <= Max(w.rows[dj.name].next, v))
              && (ReplayFires(e, dj, now) == [dj.fire] ==> w'.rows[dj.name].next <= w.rows[dj.name].next)
            else
              w'.runs == w.runs && dj.name in w'.rows && w'.rows[dj.name].next == Max(w.rows[dj.name].next, v)
              && |launches| == (if w.rows[dj.name].next < v then 1 else 0)
              && forall i :: 0 <= i < |launches| ==> launches[i].due == dj && launches[i].options == o && launches[i].attempt.None?
  {
    HandledCounts(e, w, dj, now, replies);
    HandledFires(e, w, dj, now, replies, dj.id);
    HandledRaises(e, w, dj, now, replies);
    NamedIs(w.rows, dj.id, dj.name);
  }

  /** The executions the first `k` rows of a tick create, in goroutines or in place. */
  ghost function TickCreates(e: Setting, w: World, due: seq<DueJob>, now: Time, replies: nat -> nat -> Reply, k: nat): nat
    requires k <= |due|
  {
    if k == 0 then 0
    else TickCreates(e, w, due, now, replies, k - 1)
         + |LaunchesOf(e, HandledUpTo(e, w, due, now, replies, k - 1).rows, due[k - 1], now)|
         + ReplayCount(e, due[k - 1], now)
  }

  lemma {:induction false} TickCounts(e: Setting, w: World, due: seq<DueJob>, now: Time, replies: nat -> nat -> Reply, k: nat)
    requires k <= |due|
    ensures var runs := HandledUpTo(e, w, due, now, replies, k).runs;
            && w.runs <= runs
            && |runs| + |LaunchedUpTo(e, w, due, now, replies, k)| == |w.runs| + TickCreates(e, w, due, now, replies, k)
  {
    if k > 0 {
      TickCounts(e, w, due, now, replies, k - 1);
      var mid := HandledUpTo(e, w, due, now, replies, k - 1);
      HandleNext(e, w, due, now, replies, k - 1, mid);
      HandledCounts(e, mid, due[k - 1], now, replies(k - 1));
    }
  }

  /** The executions an event creates. */
  ghost function Creates(e: Setting, a: Loop, event: Event): nat {
    match event
    case TickerFired(now, replies) =>
      var due := FetchOf(a.w.rows, now, 64);
      TickCreates(Here(e, a), a.w, due, now, replies, |due|)
    case _ => 0
  }

  /** One event: records are only appended, leadership is not given up, and what is recorded or in flight
      afterwards is what was so before and what the event created. */
  ghost predicate Keeps(e: Setting, a: Loop, event: Event, b: Loop) {
    && a.w.runs <= b.w.runs
    && (a.leader == Some(true) ==> b.leader == Some(true))
    && |b.w.runs| + |b.spawned| == |a.w.runs| + |a.spawned| + Creates(e, a, event)
  }

  lemma TickKeeps(e: Setting, a: Loop, now: Time, replies: nat -> nat -> Reply)
    ensures Keeps(e, a, TickerFired(now, replies), Ticked(e, a, now, replies))
  {
    var due := FetchOf(a.w.rows, now, 64);
    TickCounts(Here(e, a), a.w, due, now, replies, |due|);
  }

  lemma ReturnKeeps(e: Setting, a: Loop, index: nat, reply: Reply)
    ensures Keeps(e, a, HandlerReturned(index, reply), Returned(e, a, index, reply))
  {
    if Running(a, index) { ReturnCounts(e, a, index, reply); }
  }

  lemma WakeKeeps(e: Setting, a: Loop, event: Event, b: Loop)
    requires Wakes(e, a, event, b)
    ensures Keeps(e, a, event, b)
  {
    match event {
      case TickerFired(now, replies) => TickKeeps(e, a, now, replies);
      case HandlerReturned(index, reply) => ReturnKeeps(e, a, index, reply);
      case _ =>
    }
  }

  ghost function CreatedIn(e: Setting, trace: seq<Loop>, events: seq<Event>, k: nat): nat
    requires k <= |events| && |trace| == |events| + 1
  {
    if k == 0 then 0 else CreatedIn(e, trace, events, k - 1) + Creates(e, trace[k - 1], events[k - 1])
  }

  /** Over a whole run of the loop every execution created is in flight or recorded exactly once, records are
      never changed or dropped, and leadership once gained lasts. */
  lemma {:induction false} LoopConserves(e: Setting, trace: seq<Loop>, events: seq<Event>, k: nat)
    requires IsTrace(e, trace, events) && k <= |events|
    ensures trace[0].w.runs <= trace[k].w.runs
    ensures trace[0].leader == Some(true) ==> trace[k].leader == Some(true)
    ensures |trace[k].w.runs| + |trace[k].spawned| ==
            |trace[0].w.runs| + |trace[0].spawned| + CreatedIn(e, trace, events, k)
  {
    if k > 0 {
      LoopConserves(e, trace, events, k - 1);
      assert StepAt(e, trace, events, k - 1);
      WakeKeeps(e, trace[k - 1], events[k - 1], trace[k]);
    }
  }

  // ----- Leadership ----------------------------------------------------------------------------

  /** Renewal `i` reaches the server and is heard, and no earlier one reached it. */
  predicate Grants(events: seq<Event>, i: nat) {
    i < |events| && events[i] == RenewalDue(Fault.NoFault) && Unasked(events, i)
  }

  predicate Unasked(events: seq<Event>, k: nat) {
    k <= |events| && forall i :: 0 <= i < k ==> events[i] != RenewalDue(Fault.NoFault) && events[i] != RenewalDue(Fault.AnswerLost)
  }

  predicate Granted(events: seq<Event>, k: nat) { exists i :: 0 <= i < k && Grants(events, i) }

  /** A named node that found the lock free leads after `k` events exactly if the first renewal that reached the server
      was also heard; every other node stays what it was, in particular a follower while another session owns the
      lock. */
  lemma {:induction false} LeadsIff(nodeID: string, lock: Lock, events: seq<Event>, k: nat)
    requires k <= |events|
    ensures var now := LockAt(nodeID, lock, events, k);
            if lock.leader == Some(false) && lock.free && nodeID != "" then
              now.leader == Some(Granted(events, k)) && (now.free <==> Unasked(events, k))
            else now == lock
  {
    if k > 0 {
      LeadsIff(nodeID, lock, events, k - 1);
      assert Granted(events, k) <==> Granted(events, k - 1) || Grants(events, k - 1);
    }
  }
}
