/** The storage calls of a tick: what the dispatcher does to the table is a list of claims and retries, so its ticks
    are the rounds that starvation freedom speaks of. */
module TickCalls {
  import opened Basics
  import opened Schedules
  import opened Jobs
  import opened Backoff
  import opened RowLedger
  import opened Storage
  import opened Persistence
  import opened Execution
  import opened Dispatching
  import opened TickProgress
  import opened Starvation

  // ----- Lists of calls ------------------------------------------------------------------------

  /** The calls lead from one table to another, and their retries write instants after `c`. */
  ghost predicate Writes(rows: Rows, ops: seq<TableOp>, c: Time, rows': Rows) {
    ApplyAll(rows, ops) == rows' && AllWriteLater(rows, ops, c)
  }

  lemma WritesOne(rows: Rows, op: TableOp, c: Time)
    requires WritesLater(rows, op, c)
    ensures Writes(rows, [op], c, ApplyOp'(rows, op))
  {
    assert [op][..0] == [];
  }

  lemma {:induction false} WritesOn(rows: Rows, a: seq<TableOp>, c: Time, mid: Rows, b: seq<TableOp>, rows': Rows)
    requires Writes(rows, a, c, mid) && Writes(mid, b, c, rows')
    ensures Writes(rows, a + b, c, rows')
  {
    if b == [] {
      assert a + b == a;
    } else {
      var before, last := b[..|b| - 1], b[|b| - 1];
      WritesOn(rows, a, c, mid, before, ApplyAll(mid, before));
      assert (a + b)[..|a + b| - 1] == a + before;
    }
  }

  // ----- One row -------------------------------------------------------------------------------

  /** Whatever attempt fails, the retry this reply leads to is for an instant after `now`. */
  ghost predicate LaterReply(e: Setting, now: Time, reply: Reply) {
    forall name, attempt: nat :: name in e.registry ==>
      RetryAt(Runner(e.nodeID, e.registry[name].options.retry), attempt, reply) > now
  }

  /** That is so when the clock has not gone back since the tick read it and the backoff is not negligible. */
  lemma PositiveBackoff(e: Setting, now: Time, reply: Reply)
    requires reply.retryClock >= now && Jitter(reply.jitter)
    requires forall name :: name in e.registry ==>
               var p := e.registry[name].options.retry;
               Growing(p) && p.initialBackoff >= 2 && p.maxBackoff >= 2
    ensures LaterReply(e, now, reply)
  {
    forall name, attempt: nat | name in e.registry
      ensures RetryAt(Runner(e.nodeID, e.registry[name].options.retry), attempt, reply) > now
    {
      AtLeastOne(e.registry[name].options.retry, attempt, reply.jitter);
    }
  }

  lemma AtLeastOne(p: RetryPolicy, attempt: int, jitter: real)
    requires Growing(p) && Jitter(jitter) && p.initialBackoff >= 2 && p.maxBackoff >= 2
    ensures ComputeBackoff(p, attempt, jitter) >= 1
  {
    FirstBase(p);
    BaseGrowsToCap(p, Min(attempt, 1), 1);
    if attempt >= 1 { BaseGrowsToCap(p, 1, attempt); }
    DelayInBand(p, attempt, jitter);
  }

  lemma ExecutionCalls(e: Setting, w: World, name: string, dj: DueJob, now: Time, reply: Reply) returns (ops: seq<TableOp>)
    requires name in e.registry && LaterReply(e, now, reply)
    ensures Writes(w.rows, ops, now, Executed(w, Runner(e.nodeID, e.registry[name].options.retry), dj, reply).rows)
    ensures OnRow(ops, dj.id)
  {
    var r, attempt := Runner(e.nodeID, e.registry[name].options.retry), Counter(w.attempts, dj.id) + 1;
    if AsksRetry(reply.failure.Some?, attempt, r.retry.maxAttempts) {
      ops := [Call(dj.id, Retry(RetryAt(r, attempt, reply)))];
      WritesOne(w.rows, ops[0], now);
    } else {
      ops := [];
    }
  }

  lemma {:induction false} InstantCalls(e: Setting, w: World, name: string, dj: DueJob, now: Time, instants: seq<Time>,
                                        replies: nat -> Reply, k: nat) returns (ops: seq<TableOp>)
    requires name in e.registry && k <= |instants| && forall i: nat :: LaterReply(e, now, replies(i))
    ensures Writes(w.rows, ops, now,
                   ReplayedUpTo(w, Runner(e.nodeID, e.registry[name].options.retry), dj, instants, replies, k).rows)
    ensures OnRow(ops, dj.id)
  {
    if k == 0 {
      return [];
    }
    var r := Runner(e.nodeID, e.registry[name].options.retry);
    var mid := ReplayedUpTo(w, r, dj, instants, replies, k - 1);
    var before := InstantCalls(e, w, name, dj, now, instants, replies, k - 1);
    assert LaterReply(e, now, replies(k - 1));
    var last := ExecutionCalls(e, mid, name, dj.(fire := instants[k - 1]), now, replies(k - 1));
    ReplayOneMore(w, r, dj, instants, replies, k - 1, mid);
    ops := before + last;
    WritesOn(w.rows, before, now, mid.rows, last,
             ReplayedUpTo(w, r, dj, instants, replies, k).rows);
  }

  /** Every call is a claim or retry on the row with this id. */
  predicate OnRow(ops: seq<TableOp>, id: string) { forall o :: o in ops ==> o.Call? && o.id == id }

  ghost predicate Claims(ops: seq<TableOp>, e: Setting, dj: DueJob, now: Time) {
    Target(e, dj, now).Some? ==> exists i :: 0 <= i < |ops| && ops[i] == Call(dj.id, Claim(Target(e, dj, now).value))
  }

  lemma ClaimCalls(rows: Rows, dj: DueJob, v: Time, now: Time) returns (ops: seq<TableOp>)
    ensures ops == [Call(dj.id, Claim(v))] && Writes(rows, ops, now, CallRows(rows, dj.id, Claim(v)))
  {
    ops := [Call(dj.id, Claim(v))];
    WritesOne(rows, ops[0], now);
  }

  lemma ReplayCalls(e: Setting, w: World, dj: DueJob, sched: Schedule, v: Time, now: Time, replies: nat -> Reply)
    returns (ops: seq<TableOp>)
    requires dj.name in e.registry && (forall i: nat :: LaterReply(e, now, replies(i))) && sched.Next(now) == Some(v)
    ensures Writes(w.rows, ops, now,
                   ReplayedAll(w, Runner(e.nodeID, e.registry[dj.name].options.retry), dj, sched, now, replies).rows)
    ensures OnRow(ops, dj.id)
    ensures Instants(Some(sched), dj.fire, now, MAX_CATCHUP_INSTANTS) != [] ==>
              |ops| > 0 && ops[|ops| - 1] == Call(dj.id, Claim(v))
  {
    var r := Runner(e.nodeID, e.registry[dj.name].options.retry);
    var instants := Instants(Some(sched), dj.fire, now, MAX_CATCHUP_INSTANTS);
    if instants == [] {
      assert LaterReply(e, now, replies(0));
      ops := ExecutionCalls(e, w, dj.name, dj, now, replies(0));
    } else {
      var mid := ReplayedUpTo(w, r, dj, instants, replies, |instants|);
      var before := InstantCalls(e, w, dj.name, dj, now, instants, replies, |instants|);
      var last := ClaimCalls(mid.rows, dj, v, now);
      ops := before + last;
      WritesOn(w.rows, before, now, mid.rows, last, CallRows(mid.rows, dj.id, Claim(v)));
    }
  }

  /** What is done with one due row is a list of calls, among them the claim for the target. */
  lemma RowCalls(e: Setting, w: World, dj: DueJob, now: Time, replies: nat -> Reply) returns (ops: seq<TableOp>)
    requires forall i: nat :: LaterReply(e, now, replies(i))
    ensures Writes(w.rows, ops, now, HandledOne(e, w, dj, now, replies).rows) && Claims(ops, e, dj, now)
    ensures OnRow(ops, dj.id)
  {
    match DecisionFor(e, dj, now) {
      case Ignore => ops := [];
      case Advance(v) =>
        ops := ClaimCalls(w.rows, dj, v, now);
        assert ops[0] == Call(dj.id, Claim(v));
      case Launch(v) =>
        ops := ClaimCalls(w.rows, dj, v, now);
        assert ops[0] == Call(dj.id, Claim(v));
      case Replay(v) =>
        ops := ReplayCalls(e, w, dj, Load(e.lib, dj.kind, dj.expr).value, v, now, replies);
    }
  }

  // ----- A whole tick --------------------------------------------------------------------------

  ghost predicate LaterReplies(e: Setting, now: Time, replies: nat -> nat -> Reply) {
    forall i: nat, k: nat :: LaterReply(e, now, replies(i)(k))
  }

  /** Every call is a claim or retry on one of these rows. */
  ghost predicate OnRows(ops: seq<TableOp>, due: seq<DueJob>) {
    forall o :: o in ops ==> o.Call? && exists d: DueJob :: d in due && d.id == o.id
  }

  lemma ClaimsAdd(a: seq<TableOp>, b: seq<TableOp>, e: Setting, dj: DueJob, now: Time)
    requires Claims(a, e, dj, now) || Claims(b, e, dj, now)
    ensures Claims(a + b, e, dj, now)
  {
    if Target(e, dj, now).Some? {
      var call := Call(dj.id, Claim(Target(e, dj, now).value));
      if i :| 0 <= i < |a| && a[i] == call {
        assert (a + b)[i] == call;
      } else {
        var i :| 0 <= i < |b| && b[i] == call;
        assert (a + b)[|a| + i] == call;
      }
    }
  }

  /** The first `k` rows of a tick are handled by a list of calls that claims each row the tick raises. */
  lemma {:induction false} TickWrites(e: Setting, w: World, due: seq<DueJob>, now: Time, replies: nat -> nat -> Reply,
                                      k: nat) returns (ops: seq<TableOp>)
    requires k <= |due| && LaterReplies(e, now, replies)
    ensures Writes(w.rows, ops, now, HandledUpTo(e, w, due, now, replies, k).rows)
    ensures (forall i :: 0 <= i < k ==> Claims(ops, e, due[i], now)) && OnRows(ops, due)
  {
    if k == 0 {
      return [];
    }
    var mid := HandledUpTo(e, w, due, now, replies, k - 1);
    var before := TickWrites(e, w, due, now, replies, k - 1);
    var last := RowCalls(e, mid, due[k - 1], now, replies(k - 1));
    ops := before + last;
    HandleNext(e, w, due, now, replies, k - 1, mid);
    WritesOn(w.rows, before, now, mid.rows, last, HandledUpTo(e, w, due, now, replies, k).rows);
    OneMoreRow(e, before, last, due, now, k - 1);
  }

  lemma OneMoreRow(e: Setting, a: seq<TableOp>, b: seq<TableOp>, due: seq<DueJob>, now: Time, k: nat)
    requires k < |due| && (forall i :: 0 <= i < k ==> Claims(a, e, due[i], now)) && OnRows(a, due)
    requires Claims(b, e, due[k], now) && OnRow(b, due[k].id)
    ensures (forall i :: 0 <= i < k + 1 ==> Claims(a + b, e, due[i], now)) && OnRows(a + b, due)
  {
    assert due[k] in due;
    forall i | 0 <= i < k + 1 ensures Claims(a + b, e, due[i], now) {
      ClaimsAdd(a, b, e, due[i], now);
    }
  }

  /** A tick of the dispatcher is a fair round for every due row that has only rows ahead of it which the node
      raises, whether it would raise the waiting row itself or not. */
  lemma TickIsFairRound(e: Setting, w: World, due: seq<DueJob>, now: Time, replies: nat -> nat -> Reply, name: string)
    returns (r: Round)
    requires LibraryAdvances(e.lib) && LaterReplies(e, now, replies) && IsFetch(w.rows, now, 64, due)
    requires name in w.rows && w.rows[name].next <= now
    requires forall n :: n in Ahead(w.rows, name) ==> Target(e, Project(w.rows[n]), now).Some?
    ensures FairRound(w.rows, r, name) && r.node == e && r.before == [] && r.now == now && r.due == due
    ensures AfterRound(w.rows, r) == HandledUpTo(e, w, due, now, replies, |due|).rows && OnRows(r.during, due)
  {
    var ops := TickWrites(e, w, due, now, replies, |due|);
    r := Round(e, [], now, due, ops);
    forall d | d in due ensures ClaimsFetched(r, d) {
      var i :| 0 <= i < |due| && due[i] == d;
      assert Claims(ops, e, due[i], now);
    }
  }

  // ----- Ticks in a row ------------------------------------------------------------------------

  /** One tick: its clock reading, what it fetched, and what its handlers return. */
  datatype Tick = Tick(now: Time, due: seq<DueJob>, replies: nat -> nat -> Reply)

  predicate Holds(t: Tick, name: string) { exists d: DueJob :: d in t.due && d.name == name }

  ghost function AfterTick(e: Setting, w: World, t: Tick): World {
    HandledUpTo(e, w, t.due, t.now, t.replies, |t.due|)
  }

  /** The row is due, and the node raises every row ahead of it. */
  ghost predicate Fair(e: Setting, w: World, t: Tick, name: string) {
    && LaterReplies(e, t.now, t.replies) && IsFetch(w.rows, t.now, 64, t.due)
    && name in w.rows && w.rows[name].next <= t.now
    && forall n :: n in Ahead(w.rows, name) ==> Target(e, Project(w.rows[n]), t.now).Some?
  }

  /** Ticks of one node that are fair until one of them fetches the row. */
  ghost predicate FairTicks(e: Setting, w: World, ticks: seq<Tick>, name: string)
    decreases |ticks|
  {
    ticks == [] ||
    (Fair(e, w, ticks[0], name) && (Holds(ticks[0], name) || FairTicks(e, AfterTick(e, w, ticks[0]), ticks[1..], name)))
  }

  /** Calls on other rows spare this one. */
  lemma {:induction false} OthersSpare(rows: Rows, ops: seq<TableOp>, due: seq<DueJob>, name: string, c: Time)
    requires RowsOk(rows) && name in rows && OnRows(ops, due) && AllWriteLater(rows, ops, c)
    requires forall d: DueJob :: d in due ==> d.id != rows[name].id
    ensures AllSpare(rows, ops, name)
  {
    if ops != [] {
      var before, last := ops[..|ops| - 1], ops[|ops| - 1];
      OthersSpare(rows, before, due, name, c);
      OpsKeepOk(rows, before, c);
      assert last in ops;
      CallTouches(ApplyAll(rows, before), last.id, last.op);
    }
  }

  lemma UnfetchedSpared(rows: Rows, r: Round, name: string)
    requires RowsOk(rows) && name in rows && r.before == [] && OnRows(r.during, r.due) && FairRound(rows, r, name)
    requires !Fetches(r, name)
    ensures !Taken(rows, r, name)
  {
    FetchMatches(rows, r.now, 64, r.due);
    forall d: DueJob | d in r.due ensures d.id != rows[name].id {
      var i :| 0 <= i < |r.due| && r.due[i] == d;
      assert HasId(rows, d.id, d.name);
    }
    OthersSpare(rows, r.during, r.due, name, r.now);
  }

  /** One fair tick as a round. */
  lemma TickAsRound(e: Setting, w: World, t: Tick, name: string) returns (r: Round)
    requires LibraryAdvances(e.lib) && RowsOk(w.rows) && Fair(e, w, t, name)
    ensures FairRound(w.rows, r, name) && AfterRound(w.rows, r) == AfterTick(e, w, t).rows && RowsOk(AfterTick(e, w, t).rows)
    ensures (Fetches(r, name) <==> Holds(t, name)) && (!Fetches(r, name) ==> !Taken(w.rows, r, name))
  {
    r := TickIsFairRound(e, w, t.due, t.now, t.replies, name);
    if !Fetches(r, name) { UnfetchedSpared(w.rows, r, name); }
    OpsKeepOk(w.rows, r.during, t.now);
  }

  /** The rounds are the ticks up to the first that fetches the row, or all of them. */
  ghost predicate RoundsOf(ticks: seq<Tick>, rounds: seq<Round>, name: string) {
    && |rounds| <= |ticks|
    && (forall i :: 0 <= i < |rounds| && Fetches(rounds[i], name) ==> Holds(ticks[i], name))
    && (|rounds| == |ticks| || (rounds != [] && Fetches(rounds[|rounds| - 1], name)))
  }

  /** Ticks in a row are fair rounds that leave the waiting row alone. */
  lemma {:induction false} TicksAreRounds(e: Setting, w: World, ticks: seq<Tick>, name: string) returns (rounds: seq<Round>)
    requires LibraryAdvances(e.lib) && RowsOk(w.rows) && FairTicks(e, w, ticks, name)
    ensures FairRounds(w.rows, rounds, name) && LeftAlone(w.rows, rounds, name) && RoundsOf(ticks, rounds, name)
    decreases |ticks|
  {
    if ticks == [] {
      return [];
    }
    var r := TickAsRound(e, w, ticks[0], name);
    if Fetches(r, name) {
      rounds := [r];
    } else {
      var rest := TicksAreRounds(e, AfterTick(e, w, ticks[0]), ticks[1..], name);
      rounds := [r] + rest;
      FirstRound(w.rows, r, rest, name);
      FirstTick(ticks, r, rest, name);
    }
  }

  lemma FirstTick(ticks: seq<Tick>, r: Round, rest: seq<Round>, name: string)
    requires ticks != [] && RoundsOf(ticks[1..], rest, name) && !Fetches(r, name)
    ensures RoundsOf(ticks, [r] + rest, name)
  {
    forall i | 0 < i < |[r] + rest| && Fetches(([r] + rest)[i], name) ensures Holds(ticks[i], name) {
      assert Holds(ticks[1..][i - 1], name);
    }
  }

  lemma FirstRound(rows: Rows, r: Round, rest: seq<Round>, name: string)
    requires FairRound(rows, r, name) && !Taken(rows, r, name)
    requires FairRounds(AfterRound(rows, r), rest, name) && LeftAlone(AfterRound(rows, r), rest, name)
    ensures FairRounds(rows, [r] + rest, name) && LeftAlone(rows, [r] + rest, name)
  {
    assert ([r] + rest)[1..] == rest;
  }

  /** A due row with R rows ahead of it is fetched by one of the next ceil((R + 1) / 64) ticks of the dispatcher,
      as long as it raises the rows ahead. */
  lemma TicksReachRow(e: Setting, w: World, ticks: seq<Tick>, name: string)
    requires LibraryAdvances(e.lib) && RowsOk(w.rows) && name in w.rows && FairTicks(e, w, ticks, name)
    requires |ticks| == (|Ahead(w.rows, name)| + 1 + 63) / 64
    ensures exists i :: 0 <= i < |ticks| && Holds(ticks[i], name)
  {
    var rounds := TicksAreRounds(e, w, ticks, name);
    if |rounds| == |ticks| {
      FetchedInTime(w.rows, rounds, name);
      var i :| 0 <= i < |rounds| && Fetches(rounds[i], name);
      assert Holds(ticks[i], name);
    } else {
      assert Holds(ticks[|rounds| - 1], name);
    }
  }

  // ----- An instance ---------------------------------------------------------------------------

  /** A job every second, its row due at 0. */
  const DueRows: Rows := map["job" := MemJob("id", "job", 0, "1s", "every", false)]

  function SecondsNode(retry: RetryPolicy): Setting {
    Setting(Library(_ => None, _ => Some(SECOND), _ => None, _ => "1s", _ => ""),
            map["job" := Job("job", Every(SECOND), JobOptions(false, RunOnce, retry))], None, SECOND, "node")
  }

  /** One tick a second later that fetches and claims the row. */
  function OneRound(retry: RetryPolicy): seq<Round> {
    [Round(SecondsNode(retry), [], SECOND, [Project(DueRows["job"])], [Call("id", Claim(2 * SECOND))])]
  }

  /** The conditions of `FetchedInTime` are met by a row that the node raises. */
  lemma FairInstance(retry: RetryPolicy)
    ensures var rounds := OneRound(retry);
            && RowsOk(DueRows) && "job" in DueRows
            && FairRounds(DueRows, rounds, "job") && LeftAlone(DueRows, rounds, "job")
            && |rounds| == (|Ahead(DueRows, "job")| + 1 + 63) / 64
            && Target(rounds[0].node, Project(DueRows["job"]), rounds[0].now) == Some(2 * SECOND)
  {
    var r := OneRound(retry)[0];
    assert Target(r.node, r.due[0], SECOND) == Some(2 * SECOND);
    assert Listing(DueRows, SECOND, r.due) && Take(r.due, Limit(64)) == r.due;
    assert r.during[0] == Call("id", Claim(2 * SECOND));
    WritesOne(DueRows, r.during[0], SECOND);
    assert r.due[0] in r.due && Fetches(r, "job");
    assert Ahead(DueRows, "job") == {};
  }
}
