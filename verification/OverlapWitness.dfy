/** A handler that outlasts its period: two executions of one job overlap on a node, the first one's success forgets
    the counter, and the first failure of the second is dead-lettered. */
module OverlapWitness {
  import opened Basics
  import opened Schedules
  import opened Jobs
  import opened RowLedger
  import opened Storage
  import opened Persistence
  import opened Execution
  import opened Dispatching
  import opened TickProgress
  import opened TickCalls
  import opened Overlap
  import opened StreakRuns

  function Rows(next: Time): Rows { map["job" := MemJob("id", "job", next, "1s", "every", false)] }

  lemma OneRowFetch(next: Time, now: Time)
    requires next <= now
    ensures FetchOf(Rows(next), now, 64) == [Project(Rows(next)["job"])]
  {
    var rows, due := Rows(next), [Project(Rows(next)["job"])];
    assert due[0] in due;
    assert Listing(rows, now, due) && Take(due, Limit(64)) == due;
    assert WellKeyed(rows) && IsFetch(rows, now, 64, due);
    FetchCanonical(rows, now, 64, due, FetchOf(rows, now, 64));
  }

  /** The loop while the job's handlers wait or run. */
  function At(retry: RetryPolicy, next: Time, runs: seq<RunRecord>, attempts: map<string, nat>, spawned: seq<Launch>): Loop {
    Loop(World(Rows(next), runs, attempts), spawned, None, SecondsNode(retry).registry)
  }

  function Wait(retry: RetryPolicy, next: Time): Launch {
    Launch.Launch(Project(Rows(next)["job"]), JobOptions(false, RunOnce, retry), None)
  }

  lemma NamesTheJob(next: Time)
    ensures Named(Rows(next), "id") == Some("job")
  {
    NamedIs(Rows(next), "id", "job");
  }

  /** An ordinary tick launches the job once more, whether or not its handlers have returned. */
  lemma TickLaunches(retry: RetryPolicy, next: Time, now: Time, spawned: seq<Launch>, replies: nat -> nat -> Reply)
    requires next <= now <= next + 3 * SECOND
    ensures Ticked(SecondsNode(retry), At(retry, next, [], map[], spawned), now, replies) ==
            At(retry, now + SECOND, [], map[], spawned + [Wait(retry, next)])
  {
    var e, a := SecondsNode(retry), At(retry, next, [], map[], spawned);
    var due, dj := FetchOf(Rows(next), now, 64), Project(Rows(next)["job"]);
    OneRowFetch(next, now);
    NamesTheJob(next);
    assert Here(e, a) == e;
    assert DecisionFor(e, dj, now) == Decision.Launch(now + SECOND);
    HandleNext(e, a.w, due, now, replies, 0, a.w);
    assert HandledUpTo(e, a.w, due, now, replies, 1).rows == Rows(now + SECOND);
    assert LaunchedUpTo(e, a.w, due, now, replies, 1) == [Wait(retry, next)];
  }

  const GoodReply: Reply := Reply(0, 0, None, 0, 1.0)
  const BadReply: Reply := Reply(0, 0, Some("failed"), 0, 1.0)

  function Run(retry: RetryPolicy, next: Time, attempt: Ordinal): Launch {
    Wait(retry, next).(attempt := Some(attempt))
  }

  function RunOf(retry: RetryPolicy, next: Time, attempt: nat, reply: Reply): RunRecord {
    RecordOf(Runner("node", retry), Project(Rows(next)["job"]), attempt, reply)
  }

  // ----- The loop, event by event --------------------------------------------------------------

  function Begun(retry: RetryPolicy): Loop {
    At(retry, 3 * SECOND, [], map["id" := 2], [Run(retry, 0, 1), Run(retry, 2 * SECOND, 2)])
  }

  function Half(retry: RetryPolicy): Loop {
    At(retry, 3 * SECOND, [RunOf(retry, 0, 1, GoodReply)], map[], [Run(retry, 2 * SECOND, 2)])
  }

  function End(retry: RetryPolicy): Loop {
    At(retry, 3 * SECOND, [RunOf(retry, 0, 1, GoodReply), RunOf(retry, 2 * SECOND, 2, BadReply)], map[], [])
  }

  function FirstEvents(replies: nat -> nat -> Reply): seq<Event> {
    [TickerFired(SECOND, replies)] + [TickerFired(2 * SECOND, replies)] + [HandlerStarted(0)] + [HandlerStarted(1)]
  }

  lemma TickWakes(retry: RetryPolicy, next: Time, now: Time, spawned: seq<Launch>, replies: nat -> nat -> Reply)
    requires next <= now <= next + 3 * SECOND
    ensures Wakes(SecondsNode(retry), At(retry, next, [], map[], spawned), TickerFired(now, replies),
                  At(retry, now + SECOND, [], map[], spawned + [Wait(retry, next)]))
  {
    TickLaunches(retry, next, now, spawned, replies);
  }

  function Launched(retry: RetryPolicy): Loop {
    At(retry, 3 * SECOND, [], map[], [] + [Wait(retry, 0)] + [Wait(retry, 2 * SECOND)])
  }

  /** Two ticks launch the job twice. */
  lemma BothLaunched(retry: RetryPolicy, replies: nat -> nat -> Reply) returns (trace: seq<Loop>)
    ensures IsTrace(SecondsNode(retry), trace, [TickerFired(SECOND, replies)] + [TickerFired(2 * SECOND, replies)])
    ensures trace[0] == At(retry, 0, [], map[], []) && Final(trace) == Launched(retry)
  {
    var e, t1, t2 := SecondsNode(retry), TickerFired(SECOND, replies), TickerFired(2 * SECOND, replies);
    var a, b := At(retry, 0, [], map[], []), At(retry, 2 * SECOND, [], map[], [] + [Wait(retry, 0)]);
    TickWakes(retry, 0, SECOND, [], replies);
    TickWakes(retry, 2 * SECOND, 2 * SECOND, [] + [Wait(retry, 0)], replies);
    TraceSnoc(e, [a], [], t1, b);
    assert [] + [t1] == [t1];
    TraceSnoc(e, [a] + [b], [t1], t2, Launched(retry));
    trace := [a] + [b] + [Launched(retry)];
  }

  /** Then both handlers begin. */
  lemma BothBegin(retry: RetryPolicy, replies: nat -> nat -> Reply) returns (trace: seq<Loop>)
    ensures IsTrace(SecondsNode(retry), trace, FirstEvents(replies))
    ensures trace[0] == At(retry, 0, [], map[], []) && Final(trace) == Begun(retry)
  {
    var e, c := SecondsNode(retry), Launched(retry);
    var ticks := [TickerFired(SECOND, replies)] + [TickerFired(2 * SECOND, replies)];
    var first := BothLaunched(retry, replies);
    TraceSnoc(e, first, ticks, HandlerStarted(0), Started(c, 0));
    TraceSnoc(e, first + [Started(c, 0)], ticks + [HandlerStarted(0)], HandlerStarted(1), Started(Started(c, 0), 1));
    trace := first + [Started(c, 0)] + [Started(Started(c, 0), 1)];
    StartsAre(retry);
  }

  lemma StartsAre(retry: RetryPolicy)
    ensures Started(Started(Launched(retry), 0), 1) == Begun(retry)
  {
    var none: map<string, nat> := map[];
    assert none["id" := 1]["id" := 2] == map["id" := 2];
  }

  lemma ReturnsAre(retry: RetryPolicy)
    requires retry.maxAttempts == 2
    ensures Returned(SecondsNode(retry), Begun(retry), 0, GoodReply) == Half(retry)
    ensures Returned(SecondsNode(retry), Half(retry), 0, BadReply) == End(retry)
  {
    var none: map<string, nat> := map[];
    assert map["id" := 2] - {"id"} == none && none - {"id"} == none;
    assert Without(Begun(retry).spawned, 0) == Half(retry).spawned && Without(Half(retry).spawned, 0) == [];
  }

  /** The log of this run belongs to no streaks: after the success the count goes on at 2 and is used up. */
  lemma OverlapBreaksStreaks(retry: RetryPolicy, replies: nat -> nat -> Reply) returns (trace: seq<Loop>)
    requires retry.maxAttempts == 2
    ensures IsTrace(SecondsNode(retry), trace,
                    FirstEvents(replies) + [HandlerReturned(0, GoodReply)] + [HandlerReturned(0, BadReply)])
    ensures trace[0] == At(retry, 0, [], map[], [])
    ensures AttemptsOf(Final(trace).w.runs, "id") == [Attempt(1, Succeeded), Attempt(2, DeadLetter)]
    ensures forall fails :: Streaks(0, fails, 2) != AttemptsOf(Final(trace).w.runs, "id")
  {
    var e := SecondsNode(retry);
    var first := BothBegin(retry, replies);
    ReturnsAre(retry);
    TraceSnoc(e, first, FirstEvents(replies), HandlerReturned(0, GoodReply), Half(retry));
    TraceSnoc(e, first + [Half(retry)], FirstEvents(replies) + [HandlerReturned(0, GoodReply)],
              HandlerReturned(0, BadReply), End(retry));
    trace := first + [Half(retry)] + [End(retry)];
    LogIs(retry);
    NoStreaks();
  }

  lemma LogIs(retry: RetryPolicy)
    requires retry.maxAttempts == 2
    ensures AttemptsOf(End(retry).w.runs, "id") == [Attempt(1, Succeeded), Attempt(2, DeadLetter)]
  {
    var good, bad := RunOf(retry, 0, 1, GoodReply), RunOf(retry, 2 * SECOND, 2, BadReply);
    AttemptsSnoc([], good, "id");
    AttemptsSnoc([good], bad, "id");
    assert [] + [good] == [good] && [good] + [bad] == [good, bad];
  }

  lemma NoStreaks()
    ensures forall fails :: Streaks(0, fails, 2) != [Attempt(1, Succeeded), Attempt(2, DeadLetter)]
  {
    forall fails | Streaks(0, fails, 2) == [Attempt(1, Succeeded), Attempt(2, DeadLetter)] ensures false {
      StreaksLength(0, fails, 2);
      StreakLanguage(0, fails, 2, 0);
      StreakLanguage(0, fails, 2, 1);
    }
  }
}
