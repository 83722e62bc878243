/** What an execution leaves behind, seen from outside: the waits of a streak of failures, and the contents of every
    record that a run of the loop adds. */
module Effects {
  import opened Basics
  import opened Schedules
  import opened Jobs
  import opened Backoff
  import opened RowLedger
  import opened Storage
  import opened Persistence
  import opened Execution
  import opened Dispatching
  import opened TickProgress
  import opened LoopRuns

  // ----- The waits of a streak -----------------------------------------------------------------

  /** The row is claimed for the next regular fire. */
  ghost function Reclaimed(w: World, id: string, target: Time): World {
    w.(rows := CallRows(w.rows, id, Claim(target)))
  }

  /** `k` executions of one job, each begun by a claim of its row. */
  ghost function Rounds(w: World, r: Runner, dj: DueJob, targets: nat -> Time, replies: nat -> Reply, k: nat): World {
    if k == 0 then w
    else Executed(Reclaimed(Rounds(w, r, dj, targets, replies, k - 1), dj.id, targets(k - 1)), r, dj, replies(k - 1))
  }

  /** The time from each retry clock to the instant that the row then carries, summed up. */
  ghost function Waited(w: World, r: Runner, dj: DueJob, targets: nat -> Time, replies: nat -> Reply, k: nat): int {
    if k == 0 then 0
    else
      var rows := Rounds(w, r, dj, targets, replies, k).rows;
      if dj.name !in rows then 0
      else Waited(w, r, dj, targets, replies, k - 1) + (rows[dj.name].next - replies(k - 1).retryClock)
  }

  function JittersOf(replies: nat -> Reply, k: nat): seq<real> {
    seq(k, i requires 0 <= i < k => replies(i).jitter)
  }

  /** A failure whose regular next fire is not so near that a backoff could reach it. */
  predicate FailsFar(p: RetryPolicy, target: Time, reply: Reply) {
    reply.failure.Some? && Jitter(reply.jitter) && 2 * target >= 2 * reply.retryClock + 3 * p.maxBackoff
  }

  /** A failure below the budget puts a row that lies beyond the retry instant at that instant. */
  lemma FailureWaits(m: World, r: Runner, dj: DueJob, reply: Reply, attempt: Ordinal, w': World)
    requires RowsOk(m.rows) && HasId(m.rows, dj.id, dj.name) && w' == Executed(m, r, dj, reply)
    requires Counter(m.attempts, dj.id) == attempt - 1 && attempt < r.retry.maxAttempts && reply.failure.Some?
    requires m.rows[dj.name].next >= reply.retryClock + ComputeBackoff(r.retry, attempt, reply.jitter)
    ensures RowsOk(w'.rows) && HasId(w'.rows, dj.id, dj.name) && Counter(w'.attempts, dj.id) == attempt
    ensures w'.rows[dj.name].next == reply.retryClock + ComputeBackoff(r.retry, attempt, reply.jitter)
  {
    ExecutedTouches(m, r, dj, reply);
    NamedIs(m.rows, dj.id, dj.name);
  }

  /** One more failure: the row waits for the delay of its own attempt. */
  lemma RoundWaits(w: World, r: Runner, dj: DueJob, target: Time, reply: Reply, attempt: Ordinal)
    requires RowsOk(w.rows) && HasId(w.rows, dj.id, dj.name) && Growing(r.retry)
    requires FailsFar(r.retry, target, reply) && Counter(w.attempts, dj.id) == attempt - 1 && attempt < r.retry.maxAttempts
    ensures var w' := Executed(Reclaimed(w, dj.id, target), r, dj, reply);
            && RowsOk(w'.rows) && HasId(w'.rows, dj.id, dj.name) && Counter(w'.attempts, dj.id) == attempt
            && w'.rows[dj.name].next - reply.retryClock == ComputeBackoff(r.retry, attempt, reply.jitter)
  {
    var m := Reclaimed(w, dj.id, target);
    CallTouches(w.rows, dj.id, Claim(target));
    ClaimRaises(w.rows, dj.id, dj.name, target);
    LastDelayBounded(r.retry, attempt, reply.jitter);
    FailureWaits(m, r, dj, reply, attempt, Executed(m, r, dj, reply));
  }

  /** Over a whole streak of failures below the budget the row waits in turn for the delays of attempts 1, 2, ...: the
      sum from the retry clocks to the retry instants is the total delay of the policy, whatever the clocks are. */
  lemma {:induction false} StreakWaits(w: World, r: Runner, dj: DueJob, targets: nat -> Time, replies: nat -> Reply, k: nat)
    requires RowsOk(w.rows) && HasId(w.rows, dj.id, dj.name) && Growing(r.retry)
    requires Counter(w.attempts, dj.id) == 0 && k < Max(1, r.retry.maxAttempts)
    requires forall i :: 0 <= i < k ==> FailsFar(r.retry, targets(i), replies(i))
    ensures var w' := Rounds(w, r, dj, targets, replies, k);
            RowsOk(w'.rows) && HasId(w'.rows, dj.id, dj.name) && Counter(w'.attempts, dj.id) == k
    ensures Waited(w, r, dj, targets, replies, k) == TotalDelay(r.retry, JittersOf(replies, k))
  {
    if k > 0 {
      StreakWaits(w, r, dj, targets, replies, k - 1);
      var m := Rounds(w, r, dj, targets, replies, k - 1);
      assert FailsFar(r.retry, targets(k - 1), replies(k - 1));
      RoundWaits(m, r, dj, targets(k - 1), replies(k - 1), k);
      assert JittersOf(replies, k)[..k - 1] == JittersOf(replies, k - 1);
    }
  }

  // ----- Records -------------------------------------------------------------------------------

  /** Record `i` of a replay reports its own handler call. */
  lemma {:induction false} ReplayReports(w: World, r: Runner, dj: DueJob, instants: seq<Time>, replies: nat -> Reply, k: nat,
                                         i: nat)
    requires i < k <= |instants|
    ensures var runs := ReplayedUpTo(w, r, dj, instants, replies, k).runs;
            |runs| == |w.runs| + k && Reports(runs[|w.runs| + i], r.nodeID, replies(i))
    decreases k
  {
    var mid := ReplayedUpTo(w, r, dj, instants, replies, k - 1);
    ReplayAppends(w, r, dj, instants, replies, k - 1);
    ReplayAppends(w, r, dj, instants, replies, k);
    ExecutedEffect(mid, r, dj.(fire := instants[k - 1]), replies(k - 1));
    if i < k - 1 { ReplayReports(w, r, dj, instants, replies, k - 1, i); }
  }

  /** Record `i` that handling a due row adds reports handler call `i`. */
  lemma HandledReports(e: Setting, w: World, dj: DueJob, now: Time, replies: nat -> Reply, i: nat)
    requires i < ReplayCount(e, dj, now)
    ensures var runs := HandledOne(e, w, dj, now, replies).runs;
            |runs| == |w.runs| + ReplayCount(e, dj, now) && Reports(runs[|w.runs| + i], e.nodeID, replies(i))
  {
    HandledCounts(e, w, dj, now, replies);
    var r := Runner(e.nodeID, e.registry[dj.name].options.retry);
    var instants := Instants(Some(Load(e.lib, dj.kind, dj.expr).value), dj.fire, now, MAX_CATCHUP_INSTANTS);
    if instants == [] {
      ExecutedEffect(w, r, dj, replies(0));
    } else {
      ReplayReports(w, r, dj, instants, replies, |instants|, i);
    }
  }

  /** The record reports one of the handler calls that the tick makes in place. */
  ghost predicate TickReports(e: Setting, due: seq<DueJob>, now: Time, replies: nat -> nat -> Reply, run: RunRecord) {
    exists r: nat, q: nat :: r < |due| && q < ReplayCount(e, due[r], now) && Reports(run, e.nodeID, replies(r)(q))
  }

  lemma {:induction false} TickRecords(e: Setting, w: World, due: seq<DueJob>, now: Time, replies: nat -> nat -> Reply, k: nat)
    returns (m: World)
    requires k <= |due|
    ensures m == HandledUpTo(e, w, due, now, replies, k)
    ensures forall i :: |w.runs| <= i < |m.runs| ==> TickReports(e, due, now, replies, m.runs[i])
  {
    if k == 0 {
      return w;
    }
    var mid := TickRecords(e, w, due, now, replies, k - 1);
    HandleNext(e, w, due, now, replies, k - 1, mid);
    m := HandledOne(e, mid, due[k - 1], now, replies(k - 1));
    forall i | |w.runs| <= i < |m.runs| ensures TickReports(e, due, now, replies, m.runs[i]) {
      RowRecords(e, mid, due, now, replies, k - 1, i, m.runs);
    }
  }

  lemma RowRecords(e: Setting, mid: World, due: seq<DueJob>, now: Time, replies: nat -> nat -> Reply, r: nat, i: nat,
                   runs: seq<RunRecord>)
    requires r < |due| && runs == HandledOne(e, mid, due[r], now, replies(r)).runs && i < |runs|
    requires i < |mid.runs| ==> TickReports(e, due, now, replies, mid.runs[i])
    ensures TickReports(e, due, now, replies, runs[i])
  {
    HandledCounts(e, mid, due[r], now, replies(r));
    if i >= |mid.runs| { HandledReports(e, mid, due[r], now, replies(r), i - |mid.runs|); }
  }

  /** The record was added by this event: it tells of the attempt that ended, or reports a call made by the tick. */
  ghost predicate RecordedBy(e: Setting, a: Loop, event: Event, run: RunRecord) {
    match event
    case HandlerReturned(index, reply) =>
      && Running(a, index)
      && var launch := a.spawned[index];
         Tells(run, Runner(e.nodeID, launch.options.retry), launch.due, launch.attempt.value, reply)
    case TickerFired(now, replies) => TickReports(Here(e, a), FetchOf(a.w.rows, now, 64), now, replies, run)
    case _ => false
  }

  lemma EventRecords(e: Setting, a: Loop, event: Event, b: Loop, i: nat)
    requires Wakes(e, a, event, b) && |a.w.runs| <= i < |b.w.runs|
    ensures RecordedBy(e, a, event, b.w.runs[i])
  {
    match event {
      case TickerFired(now, replies) =>
        var due := FetchOf(a.w.rows, now, 64);
        var _ := TickRecords(Here(e, a), a.w, due, now, replies, |due|);
      case _ =>
    }
  }

  /** Over every run of the loop, each record added was added by one event of the run. It carries this node's id, the clock
      readings, the result and the error text of a handler call of that event and of no other: for a goroutine, of the
      reply with which it ended. */
  lemma {:induction false} RecordsReport(e: Setting, trace: seq<Loop>, events: seq<Event>, k: nat, i: nat) returns (j: nat)
    requires IsTrace(e, trace, events) && k <= |events| && |trace[0].w.runs| <= i < |trace[k].w.runs|
    ensures j < k && |trace[j].w.runs| <= i < |trace[j + 1].w.runs|
    ensures RecordedBy(e, trace[j], events[j], trace[k].w.runs[i])
  {
    assert StepAt(e, trace, events, k - 1);
    WakeKeeps(e, trace[k - 1], events[k - 1], trace[k]);
    if i < |trace[k - 1].w.runs| {
      j := RecordsReport(e, trace, events, k - 1, i);
    } else {
      j := k - 1;
      EventRecords(e, trace[j], events[j], trace[k], i);
    }
  }
}
