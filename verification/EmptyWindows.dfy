/** RunAll rows whose missed window holds no instant: they are executed for the same fire by tick after tick. */
module EmptyWindows {
  import opened Basics
  import opened Schedules
  import opened Jobs
  import opened Backoff
  import opened RowLedger
  import opened Storage
  import opened Persistence
  import opened Execution
  import opened Dispatching
  import opened TickProgress
  import opened LoopRuns
  import opened TickCalls

  /** The missed instants that a tick at `now` would replay for this row. */
  function Window(e: Setting, row: MemJob, now: Time): seq<Time>
    requires Load(e.lib, row.kind, row.schedule).Ok?
  {
    Instants(Some(Load(e.lib, row.kind, row.schedule).value), row.next, now, MAX_CATCHUP_INSTANTS)
  }

  /** A tick at `now` replays this row. */
  predicate ReplaysRow(e: Setting, row: MemJob, now: Time) { DecisionFor(e, Project(row), now).Replay? }

  /** It does so although no instant was missed. */
  predicate Stuck(e: Setting, row: MemJob, now: Time) {
    ReplaysRow(e, row, now) && Window(e, row, now) == []
  }

  /** The window is empty exactly until the fire after the row's own is in the past. */
  lemma StuckUntilNextFire(e: Setting, row: MemJob, now: Time)
    requires LibraryAdvances(e.lib) && ReplaysRow(e, row, now) && e.tick >= 0
    ensures var s := Load(e.lib, row.kind, row.schedule).value;
            Stuck(e, row, now) <==> !(s.Next(row.next).Some? && s.Next(row.next).value < now)
  {
  }

  // ----- One tick ------------------------------------------------------------------------------

  /** Entry `p` of the fetch is the row with this id, and only that. */
  ghost predicate EntryIs(due: seq<DueJob>, p: nat, row: MemJob) {
    && p < |due| && due[p] == Project(row)
    && forall i :: 0 <= i < |due| && i != p ==> due[i].id != row.id
  }

  /** One row of the tick: if it is the job's own its instants are executed, if not the job does not notice. */
  lemma RowFires(e: Setting, w: World, due: seq<DueJob>, now: Time, replies: nat -> Reply, name: string, p: nat, i: nat, row: MemJob)
    requires RowsOk(w.rows) && i < |due| && HasId(w.rows, due[i].id, due[i].name) && EntryIs(due, p, row)
    requires name in w.rows && w.rows[name] == row.(next := w.rows[name].next)
    ensures var w' := HandledOne(e, w, due[i], now, replies);
            && FiresOf(w'.runs, row.id) == Add(FiresOf(w.runs, row.id), i == p, ReplayFires(e, Project(row), now))
            && RowsOk(w'.rows) && name in w'.rows && (i != p ==> w'.rows[name] == w.rows[name])
            && w'.rows[name] == row.(next := w'.rows[name].next)
  {
    HandledFires(e, w, due[i], now, replies, row.id);
    HandledRaises(e, w, due[i], now, replies);
  }

  /** What the first `k` rows of a tick leave of the job. */
  ghost predicate FiredUpTo(e: Setting, w: World, w': World, now: Time, name: string, row: MemJob, p: nat, k: nat) {
    && FiresOf(w'.runs, row.id) == Add(FiresOf(w.runs, row.id), k > p, ReplayFires(e, Project(row), now))
    && RowsOk(w'.rows) && name in w'.rows && (k <= p ==> w'.rows[name] == row)
    && w'.rows[name] == row.(next := w'.rows[name].next)
  }

  lemma {:induction false} FiresUpTo(e: Setting, w: World, due: seq<DueJob>, now: Time, replies: nat -> nat -> Reply,
                                     name: string, p: nat, k: nat) returns (w': World)
    requires RowsOk(w.rows) && Matches(w.rows, due) && name in w.rows && EntryIs(due, p, w.rows[name]) && k <= |due|
    ensures w' == HandledUpTo(e, w, due, now, replies, k) && FiredUpTo(e, w, w', now, name, w.rows[name], p, k)
  {
    if k == 0 {
      return w;
    }
    var mid := FiresUpTo(e, w, due, now, replies, name, p, k - 1);
    EntryStays(e, w, due, now, replies, k - 1, mid);
    w' := FiredOn(e, w, mid, due, now, replies(k - 1), name, p, k - 1, w.rows[name]);
    HandleNext(e, w, due, now, replies, k - 1, mid);
  }

  lemma FiredOn(e: Setting, w: World, mid: World, due: seq<DueJob>, now: Time, replies: nat -> Reply, name: string, p: nat,
                i: nat, row: MemJob) returns (w': World)
    requires i < |due| && HasId(mid.rows, due[i].id, due[i].name) && EntryIs(due, p, row)
    requires FiredUpTo(e, w, mid, now, name, row, p, i)
    ensures w' == HandledOne(e, mid, due[i], now, replies) && FiredUpTo(e, w, w', now, name, row, p, i + 1)
  {
    RowFires(e, mid, due, now, replies, name, p, i, row);
    w' := HandledOne(e, mid, due[i], now, replies);
  }

  lemma EntryStays(e: Setting, w: World, due: seq<DueJob>, now: Time, replies: nat -> nat -> Reply, k: nat, mid: World)
    requires RowsOk(w.rows) && Matches(w.rows, due) && k < |due| && mid == HandledUpTo(e, w, due, now, replies, k)
    ensures HasId(mid.rows, due[k].id, due[k].name)
  {
    var _ := TickTouches(e, w, due, now, replies, k);
  }

  /** A tick that fetches a row executes in place exactly its replay instants. */
  lemma TickFires(e: Setting, w: World, t: Tick, name: string)
    requires RowsOk(w.rows) && IsFetch(w.rows, t.now, 64, t.due) && Holds(t, name)
    ensures name in w.rows
    ensures var w', row := AfterTick(e, w, t), w.rows[name];
            && FiresOf(w'.runs, row.id) == FiresOf(w.runs, row.id) + ReplayFires(e, Project(row), t.now)
            && RowsOk(w'.rows) && name in w'.rows && w'.rows[name] == row.(next := w'.rows[name].next)
  {
    var p := EntryOf(w, t, name);
    FetchMatches(w.rows, t.now, 64, t.due);
    var w' := FiresUpTo(e, w, t.due, t.now, t.replies, name, p, |t.due|);
  }

  lemma EntryOf(w: World, t: Tick, name: string) returns (p: nat)
    requires RowsOk(w.rows) && IsFetch(w.rows, t.now, 64, t.due) && Holds(t, name)
    ensures name in w.rows && EntryIs(t.due, p, w.rows[name])
  {
    var d: DueJob :| d in t.due && d.name == name;
    p :| 0 <= p < |t.due| && t.due[p] == d;
    var all: seq<DueJob> :| Listing(w.rows, t.now, all) && t.due == Take(all, Limit(64));
    assert all[p] in all;
    FetchMatches(w.rows, t.now, 64, t.due);
  }

  /** A stuck row is executed for its own fire, and stays where it is. */
  lemma StuckStays(e: Setting, w: World, t: Tick, name: string)
    requires RowsOk(w.rows) && IsFetch(w.rows, t.now, 64, t.due) && Holds(t, name) && name in w.rows
    requires Stuck(e, w.rows[name], t.now) && LaterReplies(e, t.now, t.replies)
    ensures var w', row := AfterTick(e, w, t), w.rows[name];
            && RowsOk(w'.rows) && name in w'.rows && w'.rows[name] == row && row.next <= t.now
            && FiresOf(w'.runs, row.id) == FiresOf(w.runs, row.id) + [row.next]
  {
    var p := EntryOf(w, t, name);
    TickFires(e, w, t, name);
    FetchMatches(w.rows, t.now, 64, t.due);
    var all: seq<DueJob> :| Listing(w.rows, t.now, all) && t.due == Take(all, Limit(64));
    assert all[p] in all;
    var w' := StaysUpTo(e, w, t.due, t.now, t.replies, name, p, |t.due|);
  }

  lemma {:induction false} StaysUpTo(e: Setting, w: World, due: seq<DueJob>, now: Time, replies: nat -> nat -> Reply,
                                     name: string, p: nat, k: nat) returns (w': World)
    requires RowsOk(w.rows) && Matches(w.rows, due) && name in w.rows && EntryIs(due, p, w.rows[name]) && k <= |due|
    requires Stuck(e, w.rows[name], now) && LaterReplies(e, now, replies) && w.rows[name].next <= now
    ensures w' == HandledUpTo(e, w, due, now, replies, k)
    ensures RowsOk(w'.rows) && name in w'.rows && w'.rows[name] == w.rows[name]
  {
    if k == 0 {
      return w;
    }
    var mid := StaysUpTo(e, w, due, now, replies, name, p, k - 1);
    EntryStays(e, w, due, now, replies, k - 1, mid);
    assert LaterReply(e, now, replies(k - 1)(0));
    RowStays(e, mid, due, now, replies(k - 1), name, p, k - 1);
    HandleNext(e, w, due, now, replies, k - 1, mid);
    w' := HandledOne(e, mid, due[k - 1], now, replies(k - 1));
  }

  lemma RowStays(e: Setting, w: World, due: seq<DueJob>, now: Time, replies: nat -> Reply, name: string, p: nat, i: nat)
    requires RowsOk(w.rows) && i < |due| && HasId(w.rows, due[i].id, due[i].name)
    requires name in w.rows && EntryIs(due, p, w.rows[name]) && w.rows[name].next <= now
    requires Stuck(e, w.rows[name], now) && LaterReply(e, now, replies(0))
    ensures var rows := HandledOne(e, w, due[i], now, replies).rows;
            RowsOk(rows) && name in rows && rows[name] == w.rows[name]
  {
    HandledRaises(e, w, due[i], now, replies);
    if i == p { StuckExecution(e, w, name, now, replies); }
  }

  lemma StuckExecution(e: Setting, w: World, name: string, now: Time, replies: nat -> Reply)
    requires RowsOk(w.rows) && name in w.rows && Stuck(e, w.rows[name], now) && w.rows[name].next <= now
    requires LaterReply(e, now, replies(0)) && w.rows[name].name == name
    ensures var rows := HandledOne(e, w, Project(w.rows[name]), now, replies).rows;
            name in rows && rows[name] == w.rows[name]
  {
    var dj := Project(w.rows[name]);
    var r := Runner(e.nodeID, e.registry[name].options.retry);
    NamedIs(w.rows, dj.id, name);
    ExecutedCalls(w, r, dj, replies(0));
    assert RetryAt(r, Counter(w.attempts, dj.id) + 1, replies(0)) > now;
  }

  // ----- Tick after tick -----------------------------------------------------------------------

  ghost function AfterTicks(e: Setting, w: World, ticks: seq<Tick>): World {
    if ticks == [] then w else AfterTick(e, AfterTicks(e, w, ticks[..|ticks| - 1]), ticks[|ticks| - 1])
  }

  /** Every tick fetches the row, and finds it late with no instant missed. */
  ghost predicate StuckTicks(e: Setting, w: World, ticks: seq<Tick>, name: string) {
    name in w.rows &&
    (ticks == [] ||
     var before, t := ticks[..|ticks| - 1], ticks[|ticks| - 1];
     && StuckTicks(e, w, before, name) && IsFetch(AfterTicks(e, w, before).rows, t.now, 64, t.due) && Holds(t, name)
     && Stuck(e, w.rows[name], t.now) && LaterReplies(e, t.now, t.replies))
  }

  /** k such ticks execute the row k times for the one fire, and it is still due. */
  lemma {:induction false} ExecutedByEveryTick(e: Setting, w: World, ticks: seq<Tick>, name: string)
    requires RowsOk(w.rows) && StuckTicks(e, w, ticks, name)
    ensures var w', row := AfterTicks(e, w, ticks), w.rows[name];
            && RowsOk(w'.rows) && name in w'.rows && w'.rows[name] == row
            && FiresOf(w'.runs, row.id) == FiresOf(w.runs, row.id) + seq(|ticks|, _ => row.next)
  {
    if ticks != [] {
      var before, t := ticks[..|ticks| - 1], ticks[|ticks| - 1];
      ExecutedByEveryTick(e, w, before, name);
      StuckStays(e, AfterTicks(e, w, before), t, name);
      assert seq(|ticks|, _ => w.rows[name].next) == seq(|before|, _ => w.rows[name].next) + [w.rows[name].next];
    }
  }

  /** The exact condition: after any number of such ticks the next one that replays the row executes it for the same fire
      again if and only if the window still holds no instant, that is, until the next fire is in the past. */
  lemma ExecutedAgainIff(e: Setting, w: World, ticks: seq<Tick>, t: Tick, name: string)
    requires LibraryAdvances(e.lib) && e.tick >= 0 && RowsOk(w.rows) && StuckTicks(e, w, ticks, name)
    requires IsFetch(AfterTicks(e, w, ticks).rows, t.now, 64, t.due) && Holds(t, name) && ReplaysRow(e, w.rows[name], t.now)
    ensures var mid, row, s := AfterTicks(e, w, ticks), w.rows[name], Load(e.lib, w.rows[name].kind, w.rows[name].schedule).value;
            var before, after := FiresOf(mid.runs, row.id), FiresOf(AfterTick(e, mid, t).runs, row.id);
            && before <= after
            && (row.next in after[|before|..] <==> Window(e, row, t.now) == [])
            && (Window(e, row, t.now) == [] <==> !(s.Next(row.next).Some? && s.Next(row.next).value < t.now))
  {
    ExecutedByEveryTick(e, w, ticks, name);
    var mid, row := AfterTicks(e, w, ticks), w.rows[name];
    TickFires(e, mid, t, name);
    StuckUntilNextFire(e, row, t.now);
    var s := Load(e.lib, row.kind, row.schedule).value;
    NextAdvances(e.lib, row.kind, row.schedule);
    FiresAscend(s, row.next, t.now, MAX_CATCHUP_INSTANTS);
    var before := FiresOf(mid.runs, row.id);
    assert (before + ReplayFires(e, Project(row), t.now))[|before|..] == ReplayFires(e, Project(row), t.now);
  }

  lemma NextAdvances(lib: Library, kind: string, expr: string)
    requires LibraryAdvances(lib) && Load(lib, kind, expr).Ok?
    ensures Advancing(Load(lib, kind, expr).value)
  {
  }

  // ----- An instance ---------------------------------------------------------------------------

  const Hour: int := 3600 * SECOND

  /** A node that knows one hourly RunAll job. */
  function HourlyNode(retry: RetryPolicy): Setting {
    Setting(Library(_ => Some(Periodic(Hour, 0).Next), _ => None, _ => None, _ => "", _ => ""),
            map["job" := Job("job", Periodic(Hour, 0), JobOptions(false, RunAll, retry))], None, SECOND, "node")
  }

  /** Its row, due at 0. */
  const HourlyRows: Rows := map["job" := MemJob("id", "job", 0, "0 * * * *", "cron", false)]

  /** Handlers that succeed. */
  function Succeeds(): nat -> nat -> Reply { (i: nat) => (k: nat) => Reply(0, 0, None, Hour, 1.0) }

  /** One tick a second, from ten seconds after the fire on. */
  function Seconds(k: nat): seq<Tick> {
    seq(k, i requires 0 <= i < k => Tick((10 + i) * SECOND, [Project(HourlyRows["job"])], Succeeds()))
  }

  lemma HourlyIsStuck(retry: RetryPolicy, i: nat)
    requires i <= 3590
    ensures Stuck(HourlyNode(retry), HourlyRows["job"], (10 + i) * SECOND)
  {
    NextEndsBlock(0, Hour, 0);
    NextEndsBlock((10 + i) * SECOND, Hour, 0);
    assert Block(0, Hour, 0) == 0 by { Quotient(0, 0, Hour); }
  }

  lemma SuccessIsLater(retry: RetryPolicy, now: Time)
    requires Growing(retry) && now < Hour
    ensures LaterReplies(HourlyNode(retry), now, Succeeds())
  {
    var e := HourlyNode(retry);
    forall i: nat, k: nat ensures LaterReply(e, now, Succeeds()(i)(k)) {
      forall name, attempt: nat | name in e.registry
        ensures RetryAt(Runner(e.nodeID, e.registry[name].options.retry), attempt, Succeeds()(i)(k)) > now
      {
        DelayInBand(retry, attempt, 1.0);
      }
    }
  }

  lemma HourlyFetch(rows: Rows, now: Time)
    requires rows == HourlyRows && 0 <= now
    ensures IsFetch(rows, now, 64, [Project(HourlyRows["job"])])
  {
    var due := [Project(HourlyRows["job"])];
    assert due[0] in due;
    assert Listing(rows, now, due) && Take(due, Limit(64)) == due;
  }

  /** An hourly job after an outage of ten seconds: one tick a second executes the same fire again and again, until the
      next hour; its row stays due all the time. */
  lemma {:induction false} HourlyRepeats(retry: RetryPolicy, k: nat)
    requires Growing(retry) && k <= 3590
    ensures StuckTicks(HourlyNode(retry), World(HourlyRows, [], map[]), Seconds(k), "job")
    ensures var w := AfterTicks(HourlyNode(retry), World(HourlyRows, [], map[]), Seconds(k));
            FiresOf(w.runs, "id") == seq(k, _ => 0) && w.rows == HourlyRows
  {
    var e, w := HourlyNode(retry), World(HourlyRows, [], map[]);
    if k > 0 {
      HourlyRepeats(retry, k - 1);
      assert Seconds(k)[..k - 1] == Seconds(k - 1);
      var t := Seconds(k)[k - 1];
      HourlyIsStuck(retry, k - 1);
      SuccessIsLater(retry, t.now);
      HourlyFetch(AfterTicks(e, w, Seconds(k - 1)).rows, t.now);
      assert t.due[0] in t.due && Holds(t, "job");
    }
    ExecutedByEveryTick(e, w, Seconds(k), "job");
    HourlyRowsStay(e, w, Seconds(k));
  }

  /** The table holds the one row throughout. */
  lemma {:induction false} HourlyRowsStay(e: Setting, w: World, ticks: seq<Tick>)
    requires w.rows == HourlyRows && StuckTicks(e, w, ticks, "job")
    ensures AfterTicks(e, w, ticks).rows == HourlyRows
  {
    if ticks != [] {
      var before, t := ticks[..|ticks| - 1], ticks[|ticks| - 1];
      HourlyRowsStay(e, w, before);
      HourlyTick(e, AfterTicks(e, w, before), t);
    }
  }

  lemma HourlyTick(e: Setting, w: World, t: Tick)
    requires w.rows == HourlyRows && IsFetch(w.rows, t.now, 64, t.due) && Holds(t, "job")
    requires Stuck(e, HourlyRows["job"], t.now) && LaterReplies(e, t.now, t.replies)
    ensures AfterTick(e, w, t).rows == HourlyRows
  {
    StuckStays(e, w, t, "job");
    TickKeys(e, w, t.due, t.now, t.replies, |t.due|);
  }

  lemma {:induction false} TickKeys(e: Setting, w: World, due: seq<DueJob>, now: Time, replies: nat -> nat -> Reply, k: nat)
    requires RowsOk(w.rows) && IsFetch(w.rows, now, 64, due) && k <= |due|
    ensures HandledUpTo(e, w, due, now, replies, k).rows.Keys == w.rows.Keys
  {
    FetchMatches(w.rows, now, 64, due);
    if k > 0 {
      var mid := HandledUpTo(e, w, due, now, replies, k - 1);
      TickKeys(e, w, due, now, replies, k - 1);
      var _ := TickTouches(e, w, due, now, replies, k - 1);
      HandledRaises(e, mid, due[k - 1], now, replies(k - 1));
    }
  }
}
