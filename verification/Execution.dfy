/** dispatcher.go, execute and runAllMissed as functions of the state they change, and the language of
    the attempts they record. */
module Execution {
  import opened Basics
  import opened Schedules
  import opened Jobs
  import opened Backoff
  import opened RowLedger
  import opened Storage
  import opened MemoryStorageModule

  /** What the model does not determine about one handler call: its clock readings, its result (`None`
      is success, a panic counts as a failure) and the jitter of the backoff. */
  datatype Reply = Reply(startedAt: Time, finishedAt: Time, failure: Option<string>, retryClock: Time, jitter: real)

  /** The state an execution changes: the table, the records and the node's attempt counters. */
  datatype World = World(rows: Rows, runs: seq<RunRecord>, attempts: map<string, nat>)

  /** Whose execution it is: the node and the job's retry policy. */
  datatype Runner = Runner(nodeID: string, retry: RetryPolicy)

  function Counter(attempts: map<string, nat>, id: string): nat {
    if id in attempts then attempts[id] else 0
  }

  function RecordOf(r: Runner, dj: DueJob, attempt: nat, reply: Reply): RunRecord {
    RunRecord(dj.id, dj.fire, Some(reply.startedAt), Some(reply.finishedAt), r.nodeID, attempt,
              OutcomeOf(reply.failure.Some?, attempt, r.retry.maxAttempts),
              if reply.failure.Some? then reply.failure.value else "")
  }

  function RetryAt(r: Runner, attempt: nat, reply: Reply): Time {
    reply.retryClock + ComputeBackoff(r.retry, attempt, reply.jitter)
  }

  /** Attempts are counted from 1. */
  type Ordinal = n: nat | n >= 1 witness 1

  /** What a record tells about one attempt, field by field. */
  predicate Tells(run: RunRecord, r: Runner, dj: DueJob, attempt: nat, reply: Reply) {
    && run.jobID == dj.id && run.fire == dj.fire && run.attempt == attempt
    && Reports(run, r.nodeID, reply)
    && (run.outcome == DeadLetter <==> reply.failure.Some? && attempt >= r.retry.maxAttempts)
  }

  /** The part of it that comes from the node and the handler call. */
  predicate Reports(run: RunRecord, nodeID: string, reply: Reply) {
    && run.nodeID == nodeID && run.startedAt == Some(reply.startedAt) && run.finishedAt == Some(reply.finishedAt)
    && (run.outcome == Succeeded <==> reply.failure.None?)
    && match reply.failure { case None => run.error == "" case Some(text) => run.error == text }
  }

  /** The exponential delay after an attempt, without jitter. */
  function Capped(p: RetryPolicy, attempt: Ordinal): real {
    RealMin(p.maxBackoff as real, p.initialBackoff as real * Pow(p.multiplier, attempt - 1))
  }

  lemma RetryWaits(r: Runner, attempt: Ordinal, reply: Reply)
    ensures RetryAt(r, attempt, reply) == reply.retryClock + Trunc(reply.jitter * Capped(r.retry, attempt))
  {
    var j, b := reply.jitter, Capped(r.retry, attempt);
    assert Base(r.retry, attempt) == b;
    assert b * j == j * b;
  }

  /** A row is pulled back to the retry clock plus jitter * min(cap, initial * multiplier^(attempt - 1)), rounded toward
      zero, unless it is earlier already; other rows and other fields stay. */
  ghost predicate PulledBack(rows: Rows, rows': Rows, id: string, p: RetryPolicy, attempt: Ordinal, reply: Reply) {
    var at := reply.retryClock + Trunc(reply.jitter * Capped(p, attempt));
    && rows'.Keys == rows.Keys
    && forall n :: n in rows ==>
         rows'[n] == if rows[n].id == id then rows[n].(next := Min(rows[n].next, at)) else rows[n]
  }

  /** The retry of an attempt pulls its row back by that much. */
  lemma RetryPullsBack(rows: Rows, r: Runner, id: string, attempt: Ordinal, reply: Reply)
    requires WellKeyed(rows)
    ensures PulledBack(rows, CallRows(rows, id, Retry(RetryAt(r, attempt, reply))), id, r.retry, attempt, reply)
  {
    var at := RetryAt(r, attempt, reply);
    RetryWaits(r, attempt, reply);
    CallKeepsKeys(rows, id, Retry(at));
    forall n | n in rows && rows[n].id == id
      ensures CallRows(rows, id, Retry(at))[n] == rows[n].(next := Min(rows[n].next, at))
    {
      NamedIs(rows, id, n);
    }
  }

  ghost function Executed(w: World, r: Runner, dj: DueJob, reply: Reply): World {
    var attempt := Counter(w.attempts, dj.id) + 1;
    var runs := w.runs + [RecordOf(r, dj, attempt, reply)];
    if AsksRetry(reply.failure.Some?, attempt, r.retry.maxAttempts) then
      World(CallRows(w.rows, dj.id, Retry(RetryAt(r, attempt, reply))), runs, w.attempts[dj.id := attempt])
    else World(w.rows, runs, w.attempts - {dj.id})
  }

  /** An execution begins: its attempt is counted. */
  function Counted(w: World, id: string): World {
    w.(attempts := w.attempts[id := Counter(w.attempts, id) + 1])
  }

  /** An execution ends: its attempt is judged and recorded. Whatever other executions of the job have done to the
      counter since it began, the budget is compared with the attempt that was counted then. */
  ghost function Concluded(w: World, r: Runner, dj: DueJob, attempt: Ordinal, reply: Reply): World {
    var runs := w.runs + [RecordOf(r, dj, attempt, reply)];
    if AsksRetry(reply.failure.Some?, attempt, r.retry.maxAttempts) then
      World(CallRows(w.rows, dj.id, Retry(RetryAt(r, attempt, reply))), runs, w.attempts)
    else World(w.rows, runs, w.attempts - {dj.id})
  }

  /** A synchronous execution is the two in one. */
  lemma ExecutedInTwo(w: World, r: Runner, dj: DueJob, reply: Reply)
    ensures Executed(w, r, dj, reply) ==
            Concluded(Counted(w, dj.id), r, dj, Counter(w.attempts, dj.id) + 1, reply)
  {
    var attempt := Counter(w.attempts, dj.id) + 1;
    assert w.attempts[dj.id := attempt] - {dj.id} == w.attempts - {dj.id};
  }

  /** Executes the first `k` instants one after the other. */
  ghost function ReplayedUpTo(w: World, r: Runner, dj: DueJob, instants: seq<Time>, replies: nat -> Reply, k: nat)
    : World
    requires k <= |instants|
  {
    if k == 0 then w
    else Executed(ReplayedUpTo(w, r, dj, instants, replies, k - 1), r, dj.(fire := instants[k - 1]), replies(k - 1))
  }

  /** The replay after one more instant. */
  lemma ReplayOneMore(w: World, r: Runner, dj: DueJob, instants: seq<Time>, replies: nat -> Reply, k: nat, mid: World)
    requires k < |instants| && mid == ReplayedUpTo(w, r, dj, instants, replies, k)
    ensures ReplayedUpTo(w, r, dj, instants, replies, k + 1) ==
            Executed(mid, r, dj.(fire := instants[k]), replies(k))
  {
  }

  /** The whole of runAllMissed. An empty window is executed once at the row's own fire time and the row
      is not advanced; otherwise the instants are executed and the row is claimed for the next fire. */
  ghost function ReplayedAll(w: World, r: Runner, dj: DueJob, sched: Schedule, now: Time, replies: nat -> Reply): World {
    var instants := Instants(Some(sched), dj.fire, now, MAX_CATCHUP_INSTANTS);
    if instants == [] then Executed(w, r, dj, replies(0))
    else
      var w' := ReplayedUpTo(w, r, dj, instants, replies, |instants|);
      if sched.Next(now).None? then w'
      else w'.(rows := CallRows(w'.rows, dj.id, Claim(sched.Next(now).value)))
  }

  // ----- Streaks -------------------------------------------------------------------------------

  datatype Attempt = Attempt(number: nat, outcome: Outcome)

  function CounterAfter(c: nat, fails: seq<bool>, max: int): nat {
    if fails == [] then c
    else NextCounter(CounterAfter(c, fails[..|fails| - 1], max), fails[|fails| - 1], max)
  }

  /** The attempts recorded by executions that follow one another on a node. */
  function Streaks(c: nat, fails: seq<bool>, max: int): seq<Attempt> {
    if fails == [] then []
    else
      var before, failed := fails[..|fails| - 1], fails[|fails| - 1];
      var number := CounterAfter(c, before, max) + 1;
      Streaks(c, before, max) + [Attempt(number, OutcomeOf(failed, number, max))]
  }

  function FailsOf(replies: nat -> Reply, k: nat): seq<bool> {
    seq(k, i requires 0 <= i < k => replies(i).failure.Some?)
  }

  /** One execution: the counter moves on, and one record is appended. */
  lemma ExecutedEffect(w: World, r: Runner, dj: DueJob, reply: Reply)
    ensures var w', c := Executed(w, r, dj, reply), Counter(w.attempts, dj.id);
            && Counter(w'.attempts, dj.id) == NextCounter(c, reply.failure.Some?, r.retry.maxAttempts)
            && w'.runs == w.runs + [RecordOf(r, dj, c + 1, reply)]
            && Tells(RecordOf(r, dj, c + 1, reply), r, dj, c + 1, reply)
  {
  }

  /** The end of an execution: one record, which tells of this attempt. An attempt that fails below the budget pulls its
      row back, and nothing else does; every other attempt ends the streak. */
  lemma ConcludedEffect(w: World, r: Runner, dj: DueJob, attempt: Ordinal, reply: Reply)
    requires WellKeyed(w.rows)
    ensures var w' := Concluded(w, r, dj, attempt, reply);
            && |w'.runs| == |w.runs| + 1 && w.runs <= w'.runs && Tells(w'.runs[|w.runs|], r, dj, attempt, reply)
            && if reply.failure.Some? && attempt < r.retry.maxAttempts then
                 PulledBack(w.rows, w'.rows, dj.id, r.retry, attempt, reply) && w'.attempts == w.attempts
               else w'.rows == w.rows && w'.attempts == w.attempts - {dj.id}
  {
    RetryPullsBack(w.rows, r, dj.id, attempt, reply);
  }

  /** The counter after a replay is the one its handler results lead to. */
  lemma {:induction false} ReplayCounter(w: World, r: Runner, dj: DueJob, instants: seq<Time>, replies: nat -> Reply,
                                         k: nat)
    requires k <= |instants|
    ensures Counter(ReplayedUpTo(w, r, dj, instants, replies, k).attempts, dj.id) ==
            CounterAfter(Counter(w.attempts, dj.id), FailsOf(replies, k), r.retry.maxAttempts)
  {
    if k > 0 {
      ReplayCounter(w, r, dj, instants, replies, k - 1);
      FailsSnoc(replies, k);
      ExecutedEffect(ReplayedUpTo(w, r, dj, instants, replies, k - 1), r, dj.(fire := instants[k - 1]), replies(k - 1));
    }
  }

  lemma FailsSnoc(replies: nat -> Reply, k: nat)
    requires k > 0
    ensures |FailsOf(replies, k)| == k && FailsOf(replies, k)[k - 1] == replies(k - 1).failure.Some?
    ensures FailsOf(replies, k)[..k - 1] == FailsOf(replies, k - 1)
  {
  }

  lemma {:induction false} ReplayAppends(w: World, r: Runner, dj: DueJob, instants: seq<Time>, replies: nat -> Reply,
                                         k: nat)
    requires k <= |instants|
    ensures var runs := ReplayedUpTo(w, r, dj, instants, replies, k).runs;
            |runs| == |w.runs| + k && w.runs <= runs
  {
    if k > 0 { ReplayAppends(w, r, dj, instants, replies, k - 1); }
  }

  /** Record `i` of a replay: its instant, and the attempt of the streak language. */
  ghost predicate RecordsAttempt(w: World, runs: seq<RunRecord>, dj: DueJob, instants: seq<Time>, log: seq<Attempt>, i: nat) {
    && i < |instants| && i < |log| && |w.runs| + i < |runs|
    && var run := runs[|w.runs| + i];
    && run.jobID == dj.id && run.fire == instants[i]
    && run.attempt == log[i].number && run.outcome == log[i].outcome
  }

  /** A replay records exactly the streak language of its handler results, one record for each instant in
      order. */
  lemma {:induction false} ReplayRecordsStreaks(w: World, r: Runner, dj: DueJob, instants: seq<Time>,
                                                replies: nat -> Reply, k: nat, i: nat)
    requires i < k <= |instants|
    ensures var log := Streaks(Counter(w.attempts, dj.id), FailsOf(replies, k), r.retry.maxAttempts);
            RecordsAttempt(w, ReplayedUpTo(w, r, dj, instants, replies, k).runs, dj, instants, log, i)
    decreases k
  {
    var c, max := Counter(w.attempts, dj.id), r.retry.maxAttempts;
    var before := ReplayedUpTo(w, r, dj, instants, replies, k - 1);
    FailsSnoc(replies, k);
    ReplayAppends(w, r, dj, instants, replies, k - 1);
    ReplayCounter(w, r, dj, instants, replies, k - 1);
    ExecutedEffect(before, r, dj.(fire := instants[k - 1]), replies(k - 1));
    StreaksLength(c, FailsOf(replies, k - 1), max);
    if i < k - 1 { ReplayRecordsStreaks(w, r, dj, instants, replies, k - 1, i); }
    LastRecord(w, before.runs, r, dj, instants, c, FailsOf(replies, k), replies(k - 1), k, i);
  }

  /** Appending the last record and the last attempt keeps the correspondence. */
  lemma LastRecord(w: World, runs: seq<RunRecord>, r: Runner, dj: DueJob, instants: seq<Time>, c: nat, fails: seq<bool>,
                   reply: Reply, k: nat, i: nat)
    requires i < k <= |instants| && |fails| == k && fails[k - 1] == reply.failure.Some?
    requires |runs| == |w.runs| + k - 1 && |Streaks(c, fails[..k - 1], r.retry.maxAttempts)| == k - 1
    requires i < k - 1 ==> RecordsAttempt(w, runs, dj, instants, Streaks(c, fails[..k - 1], r.retry.maxAttempts), i)
    ensures var number := CounterAfter(c, fails[..k - 1], r.retry.maxAttempts) + 1;
            var record := RecordOf(r, dj.(fire := instants[k - 1]), number, reply);
            RecordsAttempt(w, runs + [record], dj, instants, Streaks(c, fails, r.retry.maxAttempts), i)
  {
  }

  lemma {:induction false} StreaksLength(c: nat, fails: seq<bool>, max: int)
    ensures |Streaks(c, fails, max)| == |fails|
  {
    if fails != [] { StreaksLength(c, fails[..|fails| - 1], max); }
  }

  /** The recorded numbers count up inside a streak and restart at 1 after its end. */
  ghost predicate CountsUp(log: seq<Attempt>, i: nat)
    requires 0 < i < |log|
  {
    log[i].number == if log[i - 1].outcome == Failed then log[i - 1].number + 1 else 1
  }

  /** Inside a streak every attempt is failed and below the budget; the last one is a success or a dead
      letter, and it is a dead letter exactly when the attempt that fails is the budget's last. */
  predicate Judged(a: Attempt, failed: bool, max: int) {
    && 1 <= a.number <= Budget(max)
    && (a.outcome == Failed <==> failed && a.number < Budget(max))
    && (a.outcome == DeadLetter <==> failed && a.number == Budget(max))
    && (a.outcome == Succeeded <==> !failed)
  }

  lemma {:induction false} CounterBelowBudget(c: nat, fails: seq<bool>, max: int)
    requires c < Budget(max)
    ensures CounterAfter(c, fails, max) < Budget(max)
  {
    if fails != [] { CounterBelowBudget(c, fails[..|fails| - 1], max); }
  }

  /** The language of non-overlapping executions that start from a counter below the budget. */
  lemma {:induction false} StreakLanguage(c: nat, fails: seq<bool>, max: int, i: nat)
    requires c < Budget(max) && i < |fails|
    ensures |Streaks(c, fails, max)| == |fails|
    ensures Judged(Streaks(c, fails, max)[i], fails[i], max)
    ensures if i == 0 then Streaks(c, fails, max)[0].number == c + 1 else CountsUp(Streaks(c, fails, max), i)
  {
    var before := fails[..|fails| - 1];
    StreaksLength(c, fails, max);
    StreaksLength(c, before, max);
    var later, sooner := Streaks(c, fails, max), Streaks(c, before, max);
    if i < |before| {
      StreakLanguage(c, before, max, i);
      assert later[i] == sooner[i];
      if i > 0 { assert later[i - 1] == sooner[i - 1] && CountsUp(sooner, i); }
    } else {
      CounterBelowBudget(c, before, max);
      if i > 0 {
        LastCounter(c, before, max);
        assert later[i - 1] == sooner[i - 1];
      }
    }
  }

  /** The counter remembers the last attempt exactly if it failed below the budget. */
  lemma LastCounter(c: nat, fails: seq<bool>, max: int)
    requires c < Budget(max) && fails != []
    ensures |Streaks(c, fails, max)| == |fails|
    ensures var last := Streaks(c, fails, max)[|fails| - 1];
            CounterAfter(c, fails, max) == if last.outcome == Failed then last.number else 0
  {
    StreaksLength(c, fails, max);
    StreaksLength(c, fails[..|fails| - 1], max);
    CounterBelowBudget(c, fails[..|fails| - 1], max);
  }

  predicate AllTrue(fails: seq<bool>) { forall i :: 0 <= i < |fails| ==> fails[i] }

  /** When every execution fails, the counter runs around the budget. */
  lemma {:induction false} FailingCounter(c: nat, fails: seq<bool>, max: int)
    requires c < Budget(max) && AllTrue(fails)
    ensures CounterAfter(c, fails, max) == (c + |fails|) % Budget(max)
  {
    var b, k := Budget(max), |fails|;
    if k > 0 {
      FailingCounter(c, fails[..k - 1], max);
      RoundTheClock(c + (k - 1), b);
      assert fails[k - 1];
      assert c + |fails| == c + (k - 1) + 1;
    } else {
      Quotient(c, 0, b);
    }
  }

  lemma RoundTheClock(x: nat, b: int)
    requires b >= 1
    ensures (x + 1) % b == if x % b + 1 < b then x % b + 1 else 0
  {
    var q := x / b;
    assert x == q * b + x % b;
    if x % b + 1 < b {
      Quotient(x + 1, q, b);
    } else {
      assert (q + 1) * b == q * b + b;
      Quotient(x + 1, q + 1, b);
    }
  }

  /** In a replay of always failing instants from counter c, dead letters fall exactly at the positions i
      with (c + i + 1) divisible by the budget. */
  lemma DeadLettersWhileFailing(c: nat, fails: seq<bool>, max: int, i: nat)
    requires c < Budget(max) && AllTrue(fails) && i < |fails|
    ensures |Streaks(c, fails, max)| == |fails|
    ensures Streaks(c, fails, max)[i].outcome == DeadLetter <==> (c + i + 1) % Budget(max) == 0
  {
    StreakLanguage(c, fails, max, i);
    NumberAt(c, fails, max, i);
    FailingCounter(c, fails[..i], max);
    RoundTheClock(c + i, Budget(max));
  }

  lemma {:induction false} NumberAt(c: nat, fails: seq<bool>, max: int, i: nat)
    requires i < |fails|
    ensures |Streaks(c, fails, max)| == |fails|
    ensures Streaks(c, fails, max)[i].number == CounterAfter(c, fails[..i], max) + 1
  {
    var before := fails[..|fails| - 1];
    StreaksLength(c, fails, max);
    StreaksLength(c, before, max);
    if i < |before| {
      NumberAt(c, before, max, i);
      assert before[..i] == fails[..i];
    }
  }
}
