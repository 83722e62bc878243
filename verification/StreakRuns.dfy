/** The attempts that one dispatcher records for one job, over every run of its loop: they are played by a schedule of
    beginnings and ends, and as long as no execution of the job begins while another one runs they are the streak
    language of their results. */
module StreakRuns {
  import opened Basics
  import opened Schedules
  import opened Jobs
  import opened RowLedger
  import opened Storage
  import opened Persistence
  import opened Execution
  import opened Dispatching
  import opened TickProgress
  import opened Overlap

  /** The attempts recorded for a job, in order. */
  function AttemptsOf(runs: seq<RunRecord>, id: string): seq<Attempt> {
    if runs == [] then []
    else
      var run := runs[|runs| - 1];
      AttemptsOf(runs[..|runs| - 1], id) + if run.jobID == id then [Attempt(Max(run.attempt, 0), run.outcome)] else []
  }

  lemma AttemptsSnoc(runs: seq<RunRecord>, run: RunRecord, id: string)
    ensures AttemptsOf(runs + [run], id) ==
            AttemptsOf(runs, id) + if run.jobID == id then [Attempt(Max(run.attempt, 0), run.outcome)] else []
  {
    assert (runs + [run])[..|runs|] == runs;
  }

  // ----- Executions ----------------------------------------------------------------------------

  /** The schedule plays what has been recorded for the job since `w`, and where its counter stands. */
  ghost predicate Told(id: string, max: int, w: World, w': World, moves: seq<Move>) {
    var c := Counter(w.attempts, id);
    && AttemptsOf(w'.runs, id) == AttemptsOf(w.runs, id) + Play(max, c, moves).log
    && Counter(w'.attempts, id) == Play(max, c, moves).counter
    && Proper(moves)
  }

  /** What a stretch of synchronous executions does to the schedule: those that ran still run, and if none ran
      nothing has overlapped. */
  ghost predicate Aside(max: int, c: nat, moves: seq<Move>, moves': seq<Move>) {
    && Play(max, c, moves').running == Play(max, c, moves).running && Busy(moves') == Busy(moves)
    && (NoOverlap(moves) && (Busy(moves) == {} || moves' == moves) ==> NoOverlap(moves'))
  }

  /** One synchronous execution begins and ends. */
  lemma PairPlays(max: int, c: nat, moves: seq<Move>, x: nat, failed: bool)
    requires Proper(moves) && x !in Busy(moves)
    ensures var moves' := moves + [Begin(x)] + [End(x, failed)];
            var a, b := Play(max, c, moves), Play(max, c, moves');
            && Aside(max, c, moves, moves') && Proper(moves')
            && b.log == a.log + [Attempt(a.counter + 1, OutcomeOf(failed, a.counter + 1, max))]
            && b.counter == NextCounter(a.counter, failed, max)
  {
    PlaySnoc(max, c, moves, Begin(x));
    PlaySnoc(max, c, moves + [Begin(x)], End(x, failed));
    BusyRuns(max, c, moves);
    assert (moves + [Begin(x)])[..|moves|] == moves;
    assert (moves + [Begin(x)] + [End(x, failed)])[..|moves| + 1] == moves + [Begin(x)];
    assert Play(max, c, moves).running[x := Play(max, c, moves).counter + 1] - {x} == Play(max, c, moves).running;
    assert Busy(moves) + {x} - {x} == Busy(moves);
  }

  lemma ExecutionTold(id: string, max: int, w: World, m: World, moves: seq<Move>, r: Runner, dj: DueJob, reply: Reply, x: nat)
    returns (moves': seq<Move>)
    requires Told(id, max, w, m, moves) && x !in Busy(moves) && (dj.id == id ==> r.retry.maxAttempts == max)
    ensures Told(id, max, w, Executed(m, r, dj, reply), moves') && Aside(max, Counter(w.attempts, id), moves, moves')
    ensures dj.id != id ==> moves' == moves
  {
    var c := Counter(m.attempts, dj.id);
    ExecutedEffect(m, r, dj, reply);
    AttemptsSnoc(m.runs, RecordOf(r, dj, c + 1, reply), id);
    if dj.id == id {
      moves' := moves + [Begin(x)] + [End(x, reply.failure.Some?)];
      PairPlays(max, Counter(w.attempts, id), moves, x, reply.failure.Some?);
    } else {
      moves' := moves;
    }
  }

  /** An execution begins. */
  lemma BeginTold(id: string, max: int, w: World, m: World, moves: seq<Move>, x: nat)
    requires Told(id, max, w, m, moves) && x !in Busy(moves)
    ensures Told(id, max, w, Counted(m, id), moves + [Begin(x)])
    ensures RunningIn(max, w, id, moves + [Begin(x)]) == RunningIn(max, w, id, moves)[x := Counter(m.attempts, id) + 1]
    ensures NoOverlap(moves) && Busy(moves) == {} ==> NoOverlap(moves + [Begin(x)])
  {
    PlaySnoc(max, Counter(w.attempts, id), moves, Begin(x));
    assert (moves + [Begin(x)])[..|moves|] == moves;
  }

  /** An execution ends with the attempt that was counted for it. */
  lemma EndTold(id: string, max: int, w: World, m: World, moves: seq<Move>, r: Runner, dj: DueJob, attempt: Ordinal,
                reply: Reply, x: nat)
    requires Told(id, max, w, m, moves) && dj.id == id && r.retry.maxAttempts == max
    requires x in RunningIn(max, w, id, moves) && RunningIn(max, w, id, moves)[x] == attempt
    ensures var moves' := moves + [End(x, reply.failure.Some?)];
            && Told(id, max, w, Concluded(m, r, dj, attempt, reply), moves')
            && RunningIn(max, w, id, moves') == RunningIn(max, w, id, moves) - {x}
            && (NoOverlap(moves) ==> NoOverlap(moves'))
  {
    var move := End(x, reply.failure.Some?);
    AttemptsSnoc(m.runs, RecordOf(r, dj, attempt, reply), id);
    PlaySnoc(max, Counter(w.attempts, id), moves, move);
    assert (moves + [move])[..|moves|] == moves;
  }

  lemma OtherEndTold(id: string, max: int, w: World, m: World, moves: seq<Move>, r: Runner, dj: DueJob, attempt: Ordinal,
                     reply: Reply)
    requires Told(id, max, w, m, moves) && dj.id != id
    ensures Told(id, max, w, Concluded(m, r, dj, attempt, reply), moves)
  {
    AttemptsSnoc(m.runs, RecordOf(r, dj, attempt, reply), id);
  }

  function RunningIn(max: int, w: World, id: string, moves: seq<Move>): map<nat, nat> {
    Play(max, Counter(w.attempts, id), moves).running
  }

  lemma {:induction false} ReplayTold(id: string, max: int, w: World, m: World, moves: seq<Move>, r: Runner, dj: DueJob,
                                      instants: seq<Time>, replies: nat -> Reply, k: nat, x: nat) returns (moves': seq<Move>)
    requires k <= |instants| && Told(id, max, w, m, moves) && x !in Busy(moves) && (dj.id == id ==> r.retry.maxAttempts == max)
    ensures Told(id, max, w, ReplayedUpTo(m, r, dj, instants, replies, k), moves')
    ensures Play(max, Counter(w.attempts, id), moves').running == Play(max, Counter(w.attempts, id), moves).running
    ensures Busy(moves') == Busy(moves) && (dj.id != id ==> moves' == moves)
    ensures NoOverlap(moves) && Busy(moves) == {} ==> NoOverlap(moves')
  {
    if k == 0 {
      return moves;
    }
    var mid := ReplayedUpTo(m, r, dj, instants, replies, k - 1);
    var before := ReplayTold(id, max, w, m, moves, r, dj, instants, replies, k - 1, x);
    moves' := ExecutionTold(id, max, w, mid, before, r, dj.(fire := instants[k - 1]), replies(k - 1), x);
    ReplayOneMore(m, r, dj, instants, replies, k - 1, mid);
  }

  lemma MissedTold(id: string, max: int, w: World, m: World, moves: seq<Move>, r: Runner, dj: DueJob, sched: Schedule,
                   now: Time, replies: nat -> Reply, x: nat) returns (moves': seq<Move>)
    requires Told(id, max, w, m, moves) && x !in Busy(moves) && (dj.id == id ==> r.retry.maxAttempts == max)
    ensures Told(id, max, w, ReplayedAll(m, r, dj, sched, now, replies), moves')
    ensures Aside(max, Counter(w.attempts, id), moves, moves') && (dj.id != id ==> moves' == moves)
  {
    var instants := Instants(Some(sched), dj.fire, now, MAX_CATCHUP_INSTANTS);
    if instants == [] {
      moves' := ExecutionTold(id, max, w, m, moves, r, dj, replies(0), x);
    } else {
      moves' := ReplayTold(id, max, w, m, moves, r, dj, instants, replies, |instants|, x);
    }
  }

  // ----- Ticks ---------------------------------------------------------------------------------

  /** The registry gives the job of this name the budget `max`. */
  predicate Budgeted(registry: map<string, Job>, name: string, max: int) {
    name in registry ==> registry[name].options.retry.maxAttempts == max
  }

  /** The tick replays this row. */
  predicate Replays(e: Setting, dj: DueJob, now: Time) { DecisionFor(e, dj, now).Replay? }

  lemma RowTold(e: Setting, id: string, name: string, max: int, w: World, m: World, moves: seq<Move>, dj: DueJob,
                now: Time, replies: nat -> Reply, x: nat) returns (moves': seq<Move>)
    requires Budgeted(e.registry, name, max) && (dj.id == id ==> dj.name == name)
    requires Told(id, max, w, m, moves) && x !in Busy(moves)
    ensures Told(id, max, w, HandledOne(e, m, dj, now, replies), moves')
    ensures Aside(max, Counter(w.attempts, id), moves, moves')
    ensures dj.id != id || !Replays(e, dj, now) ==> moves' == moves
  {
    if DecisionFor(e, dj, now).Replay? {
      moves' := MissedTold(id, max, w, m, moves, Runner(e.nodeID, e.registry[dj.name].options.retry), dj,
                           Load(e.lib, dj.kind, dj.expr).value, now, replies, x);
    } else {
      moves' := moves;
    }
  }

  lemma {:induction false} TickTold(e: Setting, id: string, name: string, max: int, w: World, m: World, moves: seq<Move>,
                                    due: seq<DueJob>, now: Time, replies: nat -> nat -> Reply, k: nat, x: nat)
    returns (moves': seq<Move>)
    requires k <= |due| && Budgeted(e.registry, name, max) && forall i :: 0 <= i < |due| && due[i].id == id ==> due[i].name == name
    requires Told(id, max, w, m, moves) && x !in Busy(moves)
    ensures Told(id, max, w, HandledUpTo(e, m, due, now, replies, k), moves')
    ensures Play(max, Counter(w.attempts, id), moves').running == Play(max, Counter(w.attempts, id), moves).running
    ensures Busy(moves') == Busy(moves) && (NoOverlap(moves) && Busy(moves) == {} ==> NoOverlap(moves'))
    ensures (forall i :: 0 <= i < k && due[i].id == id ==> !Replays(e, due[i], now)) ==> moves' == moves
  {
    if k == 0 {
      return moves;
    }
    var mid := HandledUpTo(e, m, due, now, replies, k - 1);
    var before := TickTold(e, id, name, max, w, m, moves, due, now, replies, k - 1, x);
    moves' := RowTold(e, id, name, max, w, mid, before, due[k - 1], now, replies(k - 1), x);
    HandleNext(e, m, due, now, replies, k - 1, mid);
  }

  // ----- What a loop keeps ---------------------------------------------------------------------

  ghost predicate HasRow(rows: Rows, id: string, name: string) { RowsOk(rows) && HasId(rows, id, name) }

  /** Goroutines of the job run under its budget. */
  predicate LaunchBudget(launches: seq<Launch>, id: string, max: int) {
    forall i :: 0 <= i < |launches| && launches[i].due.id == id ==> launches[i].options.retry.maxAttempts == max
  }

  /** The job has a row, and every goroutine of the job runs under its budget. */
  ghost predicate OneBudget(id: string, name: string, max: int, a: Loop) {
    Budgeted(a.registry, name, max) && HasRow(a.w.rows, id, name) && LaunchBudget(a.spawned, id, max)
  }

  lemma {:induction false} TickLaunchBudget(e: Setting, w: World, due: seq<DueJob>, now: Time, replies: nat -> nat -> Reply,
                                            id: string, name: string, max: int, k: nat)
    requires k <= |due| && Budgeted(e.registry, name, max) && forall i :: 0 <= i < |due| && due[i].id == id ==> due[i].name == name
    ensures LaunchBudget(LaunchedUpTo(e, w, due, now, replies, k), id, max)
  {
    if k > 0 { TickLaunchBudget(e, w, due, now, replies, id, name, max, k - 1); }
  }

  lemma FetchNames(rows: Rows, now: Time, due: seq<DueJob>, id: string, name: string)
    requires HasRow(rows, id, name) && due == FetchOf(rows, now, 64)
    ensures Matches(rows, due) && forall i :: 0 <= i < |due| && due[i].id == id ==> due[i].name == name
  {
    if exists out :: IsFetch(rows, now, 64, out) { FetchMatches(rows, now, 64, due); }
    forall i | 0 <= i < |due| && due[i].id == id ensures due[i].name == name {
      assert HasId(rows, due[i].id, due[i].name);
    }
  }

  // ----- A loop and its schedule ---------------------------------------------------------------

  /** A running goroutine of the job. */
  predicate Ours(a: Loop, id: string, i: nat) { Running(a, i) && a.spawned[i].due.id == id }

  /** Goroutine `i` is execution `ids[i]` of the schedule, with the attempt that was counted for it. */
  ghost predicate Plays(running: map<nat, nat>, a: Loop, ids: seq<nat>, i: nat)
    requires i < |a.spawned| == |ids| && a.spawned[i].attempt.Some?
  {
    ids[i] in running && running[ids[i]] == a.spawned[i].attempt.value
  }

  /** Exactly the running goroutines of the job run in the schedule. */
  ghost predicate Shows(running: map<nat, nat>, id: string, a: Loop, ids: seq<nat>, next: nat) {
    && |ids| == |a.spawned|
    && (forall i :: 0 <= i < |ids| && Ours(a, id, i) ==> Plays(running, a, ids, i))
    && (forall i, k :: 0 <= i < k < |ids| && Ours(a, id, i) && Ours(a, id, k) ==> ids[i] != ids[k])
    && (forall x :: x in running ==> x < next && Owned(id, a, ids, x))
  }

  predicate Owned(id: string, a: Loop, ids: seq<nat>, x: nat) {
    exists i :: 0 <= i < |ids| && Ours(a, id, i) && ids[i] == x
  }

  /** The schedule shows what the loop has recorded for the job since `w`, and which of its goroutines run. */
  ghost predicate Tracks(id: string, max: int, w: World, a: Loop, moves: seq<Move>, ids: seq<nat>, next: nat) {
    Told(id, max, w, a.w, moves) && Shows(RunningIn(max, w, id, moves), id, a, ids, next)
  }

  predicate SomeRuns(a: Loop, id: string) { exists i :: 0 <= i < |a.spawned| && Ours(a, id, i) }

  lemma NextIsFree(id: string, max: int, w: World, a: Loop, moves: seq<Move>, ids: seq<nat>, next: nat)
    requires Tracks(id, max, w, a, moves, ids, next)
    ensures next !in Busy(moves) && (!SomeRuns(a, id) ==> Busy(moves) == {})
  {
    BusyRuns(max, Counter(w.attempts, id), moves);
    forall x | x in Busy(moves) ensures x < next && SomeRuns(a, id) {
      assert x in RunningIn(max, w, id, moves) && Owned(id, a, ids, x);
    }
  }

  /** The tick replays no instant of the job. */
  ghost predicate LeavesOut(e: Setting, id: string, due: seq<DueJob>, now: Time) {
    forall i :: 0 <= i < |due| && due[i].id == id ==> !Replays(e, due[i], now)
  }

  /** No execution of the job begins while another one of it runs on this node: neither a goroutine nor a replay. */
  ghost predicate Clear(e: Setting, id: string, a: Loop, event: Event) {
    SomeRuns(a, id) ==>
      match event
      case HandlerStarted(index) => Waiting(a, index) ==> a.spawned[index].due.id != id
      case TickerFired(now, _) => LeavesOut(Here(e, a), id, FetchOf(a.w.rows, now, 64), now)
      case _ => true
  }

  // ----- Goroutines that begin and end ---------------------------------------------------------

  /** Goroutines that wait do not change what runs. */
  lemma LongerShows(running: map<nat, nat>, id: string, a: Loop, b: Loop, ids: seq<nat>, ids': seq<nat>, next: nat)
    requires Shows(running, id, a, ids, next)
    requires a.spawned <= b.spawned && |ids'| == |b.spawned| && ids <= ids'
    requires forall i :: |a.spawned| <= i < |b.spawned| ==> b.spawned[i].attempt.None?
    ensures Shows(running, id, b, ids', next)
  {
    forall i | 0 <= i < |ids'| && Ours(b, id, i) ensures Plays(running, b, ids', i) {
      assert Ours(a, id, i) && Plays(running, a, ids, i);
    }
    forall i, k | 0 <= i < k < |ids'| && Ours(b, id, i) && Ours(b, id, k) ensures ids'[i] != ids'[k] {
      assert Ours(a, id, i) && Ours(a, id, k);
    }
    forall x | x in running ensures x < next && Owned(id, b, ids', x) {
      assert Owned(id, a, ids, x);
      var i :| 0 <= i < |ids| && Ours(a, id, i) && ids[i] == x;
      assert Ours(b, id, i) && ids'[i] == x;
    }
  }

  /** The goroutines of the job are as before. */
  lemma SameShows(running: map<nat, nat>, id: string, a: Loop, b: Loop, ids: seq<nat>, next: nat)
    requires Shows(running, id, a, ids, next) && |b.spawned| == |a.spawned|
    requires forall i :: 0 <= i < |a.spawned| ==> (Ours(b, id, i) <==> Ours(a, id, i))
    requires forall i :: 0 <= i < |a.spawned| && Ours(a, id, i) ==> b.spawned[i].attempt == a.spawned[i].attempt
    ensures Shows(running, id, b, ids, next + 1)
  {
    forall i | 0 <= i < |ids| && Ours(b, id, i) ensures Plays(running, b, ids, i) {
      assert Ours(a, id, i) && Plays(running, a, ids, i);
    }
    forall x | x in running ensures x < next + 1 && Owned(id, b, ids, x) {
      assert Owned(id, a, ids, x);
      var i :| 0 <= i < |ids| && Ours(a, id, i) && ids[i] == x;
      assert Ours(b, id, i);
    }
  }

  lemma BeginShows(running: map<nat, nat>, id: string, a: Loop, ids: seq<nat>, next: nat, index: nat, number: nat)
    requires Shows(running, id, a, ids, next) && Waiting(a, index) && a.spawned[index].due.id == id
    requires number == Counter(a.w.attempts, id) + 1
    ensures Shows(running[next := number], id, Started(a, index), ids[index := next], next + 1)
  {
    var b, ids', more := Started(a, index), ids[index := next], running[next := number];
    forall i | 0 <= i < |ids'| && Ours(b, id, i) ensures Plays(more, b, ids', i) {
      if i != index { assert Ours(a, id, i) && Plays(running, a, ids, i); }
    }
    forall i, k | 0 <= i < k < |ids'| && Ours(b, id, i) && Ours(b, id, k) ensures ids'[i] != ids'[k] {
      if i != index { assert Ours(a, id, i) && Plays(running, a, ids, i); }
      if k != index { assert Ours(a, id, k) && Plays(running, a, ids, k); }
    }
    forall x | x in more ensures x < next + 1 && Owned(id, b, ids', x) {
      if x == next {
        assert Ours(b, id, index) && ids'[index] == x;
      } else {
        assert Owned(id, a, ids, x);
        var i :| 0 <= i < |ids| && Ours(a, id, i) && ids[i] == x;
        assert Ours(b, id, i) && ids'[i] == x;
      }
    }
  }

  lemma EndShows(running: map<nat, nat>, rest: map<nat, nat>, id: string, a: Loop, b: Loop, ids: seq<nat>, next: nat, index: nat)
    requires Shows(running, id, a, ids, next) && Running(a, index) && b.spawned == Without(a.spawned, index)
    requires rest == if Ours(a, id, index) then running - {ids[index]} else running
    ensures Shows(rest, id, b, Without(ids, index), next)
  {
    var ids' := Without(ids, index);
    forall i | 0 <= i < |ids'| ensures b.spawned[i] == a.spawned[At(index, i)] && ids'[i] == ids[At(index, i)] { }
    forall i | 0 <= i < |ids'| && Ours(b, id, i) ensures Plays(rest, b, ids', i) {
      assert Ours(a, id, At(index, i)) && Plays(running, a, ids, At(index, i));
    }
    forall i, k | 0 <= i < k < |ids'| && Ours(b, id, i) && Ours(b, id, k) ensures ids'[i] != ids'[k] {
      assert Ours(a, id, At(index, i)) && Ours(a, id, At(index, k));
    }
    forall x | x in rest ensures x < next && Owned(id, b, ids', x) {
      assert Owned(id, a, ids, x);
      var k :| 0 <= k < |ids| && Ours(a, id, k) && ids[k] == x;
      var i := if k < index then k else k - 1;
      assert At(index, i) == k && Ours(b, id, i) && ids'[i] == x;
    }
  }

  /** Where entry `i` was before entry `index` was taken out. */
  function At(index: nat, i: nat): nat { if i < index then i else i + 1 }

  // ----- One event -----------------------------------------------------------------------------

  /** The schedule goes on, and does not overlap if the event is clear. */
  ghost predicate Goes(id: string, max: int, w: World, moves: seq<Move>, clear: bool, b: Loop, moves': seq<Move>,
                       ids': seq<nat>, next': nat) {
    Tracks(id, max, w, b, moves', ids', next') && (NoOverlap(moves) && clear ==> NoOverlap(moves'))
  }

  lemma TickGoes(e: Setting, id: string, name: string, max: int, w: World, a: Loop, moves: seq<Move>, ids: seq<nat>,
                 next: nat, now: Time, replies: nat -> nat -> Reply)
    returns (moves': seq<Move>, ids': seq<nat>)
    requires OneBudget(id, name, max, a) && Tracks(id, max, w, a, moves, ids, next)
    ensures Goes(id, max, w, moves, Clear(e, id, a, TickerFired(now, replies)), Ticked(e, a, now, replies), moves', ids', next)
  {
    var here, due, b := Here(e, a), FetchOf(a.w.rows, now, 64), Ticked(e, a, now, replies);
    FetchNames(a.w.rows, now, due, id, name);
    NextIsFree(id, max, w, a, moves, ids, next);
    moves' := TickTold(here, id, name, max, w, a.w, moves, due, now, replies, |due|, next);
    ids' := ids + seq(|b.spawned| - |a.spawned|, _ => 0);
    NewOnesWait(here, a.w, due, now, replies, |due|);
    LongerShows(RunningIn(max, w, id, moves), id, a, b, ids, ids', next);
  }

  lemma {:induction false} NewOnesWait(e: Setting, w: World, due: seq<DueJob>, now: Time, replies: nat -> nat -> Reply, k: nat)
    requires k <= |due|
    ensures forall i :: 0 <= i < |LaunchedUpTo(e, w, due, now, replies, k)| ==>
              LaunchedUpTo(e, w, due, now, replies, k)[i].attempt.None?
  {
    if k > 0 { NewOnesWait(e, w, due, now, replies, k - 1); }
  }

  lemma TickKeepsBudget(e: Setting, id: string, name: string, max: int, a: Loop, now: Time, replies: nat -> nat -> Reply)
    requires OneBudget(id, name, max, a)
    ensures OneBudget(id, name, max, Ticked(e, a, now, replies))
  {
    var here, due := Here(e, a), FetchOf(a.w.rows, now, 64);
    FetchNames(a.w.rows, now, due, id, name);
    var _ := TickKeepsTable(here, a.w, due, now, replies, |due|);
    TickLaunchBudget(here, a.w, due, now, replies, id, name, max, |due|);
  }

  lemma StartGoes(e: Setting, id: string, max: int, w: World, a: Loop, moves: seq<Move>, ids: seq<nat>, next: nat, index: nat)
    returns (moves': seq<Move>, ids': seq<nat>)
    requires Tracks(id, max, w, a, moves, ids, next)
    ensures Goes(id, max, w, moves, Clear(e, id, a, HandlerStarted(index)), Started(a, index), moves', ids', next + 1)
  {
    if Waiting(a, index) && a.spawned[index].due.id == id {
      moves', ids' := moves + [Begin(next)], ids[index := next];
      NextIsFree(id, max, w, a, moves, ids, next);
      BeginTold(id, max, w, a.w, moves, next);
      BeginShows(RunningIn(max, w, id, moves), id, a, ids, next, index, Counter(a.w.attempts, id) + 1);
    } else {
      moves', ids' := moves, ids;
      SameShows(RunningIn(max, w, id, moves), id, a, Started(a, index), ids, next);
    }
  }

  lemma ReturnGoes(e: Setting, id: string, name: string, max: int, w: World, a: Loop, moves: seq<Move>, ids: seq<nat>,
                   next: nat, index: nat, reply: Reply)
    returns (moves': seq<Move>, ids': seq<nat>)
    requires OneBudget(id, name, max, a) && Tracks(id, max, w, a, moves, ids, next)
    ensures Goes(id, max, w, moves, true, Returned(e, a, index, reply), moves', ids', next)
  {
    if !Running(a, index) {
      return moves, ids;
    }
    var launch := a.spawned[index];
    var r := Runner(e.nodeID, launch.options.retry);
    ids' := Without(ids, index);
    if launch.due.id == id {
      assert Ours(a, id, index) && Plays(RunningIn(max, w, id, moves), a, ids, index);
      moves' := moves + [End(ids[index], reply.failure.Some?)];
      EndTold(id, max, w, a.w, moves, r, launch.due, launch.attempt.value, reply, ids[index]);
    } else {
      moves' := moves;
      OtherEndTold(id, max, w, a.w, moves, r, launch.due, launch.attempt.value, reply);
    }
    EndShows(RunningIn(max, w, id, moves), RunningIn(max, w, id, moves'), id, a, Returned(e, a, index, reply), ids, next, index);
  }

  lemma ReturnKeepsBudget(e: Setting, id: string, name: string, max: int, a: Loop, index: nat, reply: Reply)
    requires OneBudget(id, name, max, a)
    ensures OneBudget(id, name, max, Returned(e, a, index, reply))
  {
    if Running(a, index) {
      var launch := a.spawned[index];
      CallTouches(a.w.rows, launch.due.id, Retry(RetryAt(Runner(e.nodeID, launch.options.retry), launch.attempt.value, reply)));
    }
  }

  /** A registration of the job itself would have to keep its budget. */
  predicate KeepsBudget(name: string, max: int, event: Event) {
    event.JobScheduled? && event.job.name == name ==> event.job.options.retry.maxAttempts == max
  }

  lemma WakeGoes(e: Setting, id: string, name: string, max: int, w: World, a: Loop, moves: seq<Move>, ids: seq<nat>,
                 next: nat, event: Event, b: Loop)
    returns (moves': seq<Move>, ids': seq<nat>, next': nat)
    requires OneBudget(id, name, max, a) && Tracks(id, max, w, a, moves, ids, next) && Wakes(e, a, event, b)
    ensures Goes(id, max, w, moves, Clear(e, id, a, event), b, moves', ids', next')
  {
    moves', ids', next' := moves, ids, next;
    match event {
      case TickerFired(now, replies) => moves', ids' := TickGoes(e, id, name, max, w, a, moves, ids, next, now, replies);
      case HandlerStarted(index) =>
        moves', ids' := StartGoes(e, id, max, w, a, moves, ids, next, index);
        next' := next + 1;
      case HandlerReturned(index, reply) =>
        moves', ids' := ReturnGoes(e, id, name, max, w, a, moves, ids, next, index, reply);
      case _ =>
        SameShows(RunningIn(max, w, id, moves), id, a, b, ids, next);
        next' := next + 1;
    }
  }

  lemma WakeKeepsBudget(e: Setting, id: string, name: string, max: int, a: Loop, event: Event, b: Loop)
    requires OneBudget(id, name, max, a) && Wakes(e, a, event, b) && KeepsBudget(name, max, event)
    ensures OneBudget(id, name, max, b)
  {
    match event {
      case TickerFired(now, replies) => TickKeepsBudget(e, id, name, max, a, now, replies);
      case HandlerReturned(index, reply) => ReturnKeepsBudget(e, id, name, max, a, index, reply);
      case _ =>
    }
  }

  // ----- Whole runs ----------------------------------------------------------------------------

  /** The job has a row and one budget, which no registration changes, and nothing of it runs at the start. */
  ghost predicate Follows(id: string, name: string, max: int, a: Loop, events: seq<Event>) {
    && OneBudget(id, name, max, a) && !SomeRuns(a, id)
    && forall i :: 0 <= i < |events| ==> KeepsBudget(name, max, events[i])
  }

  ghost predicate ClearAt(e: Setting, id: string, trace: seq<Loop>, events: seq<Event>, i: nat)
    requires i < |events| && |trace| == |events| + 1
  {
    Clear(e, id, trace[i], events[i])
  }

  /** In the first `k` events no execution of the job begins while another one of it runs. */
  ghost predicate AllClear(e: Setting, id: string, trace: seq<Loop>, events: seq<Event>, k: nat) {
    |trace| == |events| + 1 && forall i :: 0 <= i < k <= |events| ==> ClearAt(e, id, trace, events, i)
  }

  /** Every trace, with or without overlap, plays a schedule of the job's executions. */
  lemma {:induction false} LoopPlays(e: Setting, id: string, name: string, max: int, trace: seq<Loop>, events: seq<Event>, k: nat)
    returns (moves: seq<Move>, ids: seq<nat>, next: nat)
    requires IsTrace(e, trace, events) && k <= |events| && Follows(id, name, max, trace[0], events)
    ensures OneBudget(id, name, max, trace[k]) && Tracks(id, max, trace[0].w, trace[k], moves, ids, next)
    ensures AllClear(e, id, trace, events, k) ==> NoOverlap(moves)
  {
    if k == 0 {
      moves, ids, next := [], seq(|trace[0].spawned|, _ => 0), 0;
      assert !exists i :: 0 <= i < |trace[0].spawned| && Ours(trace[0], id, i);
    } else {
      moves, ids, next := LoopPlays(e, id, name, max, trace, events, k - 1);
      assert StepAt(e, trace, events, k - 1);
      WakeKeepsBudget(e, id, name, max, trace[k - 1], events[k - 1], trace[k]);
      assert AllClear(e, id, trace, events, k) ==>
        AllClear(e, id, trace, events, k - 1) && ClearAt(e, id, trace, events, k - 1);
      moves, ids, next := WakeGoes(e, id, name, max, trace[0].w, trace[k - 1], moves, ids, next, events[k - 1], trace[k]);
    }
  }

  /** What a trace has recorded for the job. */
  function Recorded(id: string, a: Loop, b: Loop): seq<Attempt>
    requires |AttemptsOf(a.w.runs, id)| <= |AttemptsOf(b.w.runs, id)|
  {
    AttemptsOf(b.w.runs, id)[|AttemptsOf(a.w.runs, id)|..]
  }

  /** As long as no execution of the job begins on this node while another one of it runs, the attempts recorded are the
      streaks of their own results, numbered on from the counter at the start, whatever other jobs, replays, renewals
      and registrations come between. */
  lemma LoopRecordsStreaks(e: Setting, id: string, name: string, max: int, trace: seq<Loop>, events: seq<Event>, k: nat)
    requires IsTrace(e, trace, events) && k <= |events| && Follows(id, name, max, trace[0], events)
    requires AllClear(e, id, trace, events, k)
    ensures AttemptsOf(trace[0].w.runs, id) <= AttemptsOf(trace[k].w.runs, id)
    ensures InStreaks(Counter(trace[0].w.attempts, id), Recorded(id, trace[0], trace[k]), max)
  {
    var moves, ids, next := LoopPlays(e, id, name, max, trace, events, k);
    NoOverlapIsOrderly(max, Counter(trace[0].w.attempts, id), moves);
    assert Recorded(id, trace[0], trace[k]) == Play(max, Counter(trace[0].w.attempts, id), moves).log;
  }

  /** Entry `i` of what is recorded from a fresh start: inside the budget, judged by its own outcome, and numbered from the
      one before. */
  lemma LoopStreaks(e: Setting, id: string, name: string, max: int, trace: seq<Loop>, events: seq<Event>, k: nat, i: nat)
    requires IsTrace(e, trace, events) && k <= |events| && Follows(id, name, max, trace[0], events)
    requires AllClear(e, id, trace, events, k) && Counter(trace[0].w.attempts, id) == 0
    requires |AttemptsOf(trace[0].w.runs, id)| + i < |AttemptsOf(trace[k].w.runs, id)|
    ensures var log := Recorded(id, trace[0], trace[k]);
            && Judged(log[i], log[i].outcome != Succeeded, max)
            && (if i == 0 then log[0].number == 1 else CountsUp(log, i))
  {
    LoopRecordsStreaks(e, id, name, max, trace, events, k);
    StreakLanguage(0, FailuresOf(Recorded(id, trace[0], trace[k])), max, i);
  }
}
