/** A fetch takes only the 64 oldest due rows; still no due row waits forever behind the others. */
module Starvation {
  import opened Basics
  import opened Jobs
  import opened RowLedger
  import opened Storage
  import opened Dispatching
  import opened TickProgress

  /** A storage call by any node: a claim or retry on a row, or the registration of a job. */
  datatype TableOp =
    | Call(id: string, op: RowOp)
    | Ensure(job: MemJob)

  ghost function ApplyOp'(rows: Rows, op: TableOp): Rows {
    match op
    case Call(id, o) => CallRows(rows, id, o)
    case Ensure(j) =>
      if j.name in rows then rows[j.name := rows[j.name].(schedule := j.schedule, kind := j.kind)]
      else rows[j.name := j]
  }

  ghost function ApplyAll(rows: Rows, ops: seq<TableOp>): Rows {
    if ops == [] then rows else ApplyOp'(ApplyAll(rows, ops[..|ops| - 1]), ops[|ops| - 1])
  }

  /** A call as the code issues it: a registered row is new and unlocked under an unused id, and every
      retry and registration writes an instant later than `c`. */
  ghost predicate WritesLater(rows: Rows, op: TableOp, c: Time) {
    match op
    case Call(_, o) => o.Retry? ==> o.at > c
    case Ensure(j) => j.name !in rows ==> j.next > c && !j.locked && Named(rows, j.id).None?
  }

  /** The call leaves the fire time of this row alone. */
  ghost predicate Spares(rows: Rows, op: TableOp, name: string)
    requires name in rows
  {
    var rows' := ApplyOp'(rows, op);
    name in rows' && rows'[name].next == rows[name].next
  }

  ghost predicate AllWriteLater(rows: Rows, ops: seq<TableOp>, c: Time) {
    ops == [] ||
    var before := ops[..|ops| - 1];
    AllWriteLater(rows, before, c) && WritesLater(ApplyAll(rows, before), ops[|ops| - 1], c)
  }

  ghost predicate AllSpare(rows: Rows, ops: seq<TableOp>, name: string) {
    name in rows &&
    (ops == [] ||
     var before := ops[..|ops| - 1];
     && AllSpare(rows, before, name) && name in ApplyAll(rows, before)
     && Spares(ApplyAll(rows, before), ops[|ops| - 1], name))
  }

  lemma OpKeepsOk(rows: Rows, op: TableOp, c: Time)
    requires RowsOk(rows) && WritesLater(rows, op, c)
    ensures RowsOk(ApplyOp'(rows, op)) && rows.Keys <= ApplyOp'(rows, op).Keys
    ensures forall n :: n in rows ==> ApplyOp'(rows, op)[n].id == rows[n].id
  {
    match op {
      case Call(id, o) => CallTouches(rows, id, o);
      case Ensure(j) =>
        if j.name !in rows {
          forall n | n in rows ensures rows[n].id != j.id {
            if rows[n].id == j.id { assert HasId(rows, j.id, n); }
          }
        }
    }
  }

  // ----- Rows ahead ----------------------------------------------------------------------------

  /** The rows that come before `name` in the order of FetchDue. */
  function Ahead(rows: Rows, name: string): set<string>
    requires name in rows
  {
    set n | n in rows && Later(Project(rows[name]), Project(rows[n]))
  }

  /** No call puts a row ahead: claims only raise rows, retries and registrations write later instants. */
  lemma NothingGetsAhead(rows: Rows, op: TableOp, name: string)
    requires RowsOk(rows) && name in rows && WritesLater(rows, op, rows[name].next) && Spares(rows, op, name)
    ensures Ahead(ApplyOp'(rows, op), name) <= Ahead(rows, name)
  {
    var rows' := ApplyOp'(rows, op);
    OpKeepsOk(rows, op, rows[name].next);
    forall n | n in Ahead(rows', name) ensures n in Ahead(rows, name) {
      match op {
        case Call(id, o) =>
          CallTouches(rows, id, o);
          if rows[n].id == id { NamedIs(rows, id, n); }
        case Ensure(j) =>
      }
    }
  }

  lemma {:induction false} OpsNeverGetAhead(rows: Rows, ops: seq<TableOp>, name: string, c: Time)
    requires RowsOk(rows) && AllSpare(rows, ops, name) && AllWriteLater(rows, ops, c) && rows[name].next <= c
    ensures var after := ApplyAll(rows, ops);
            && RowsOk(after) && name in after && after[name].next == rows[name].next
            && Ahead(after, name) <= Ahead(rows, name)
            && forall n :: n in rows ==> n in after && after[n].id == rows[n].id
  {
    if ops != [] {
      var before, last := ops[..|ops| - 1], ops[|ops| - 1];
      OpsNeverGetAhead(rows, before, name, c);
      var mid := ApplyAll(rows, before);
      OpKeepsOk(mid, last, c);
      NothingGetsAhead(mid, last, name);
    }
  }

  // ----- A row above the tick's clock stays there ----------------------------------------------

  lemma OpKeepsAbove(rows: Rows, op: TableOp, n: string, now: Time)
    requires RowsOk(rows) && n in rows && rows[n].next > now && WritesLater(rows, op, now)
    ensures n in ApplyOp'(rows, op) && ApplyOp'(rows, op)[n].next > now
  {
    if op.Call? {
      CallTouches(rows, op.id, op.op);
      if rows[n].id == op.id { NamedIs(rows, op.id, n); }
    }
  }

  /** Tick progress under concurrency: a row claimed for a target after `now` is above `now` at the end,
      whatever other nodes' claims, retries and registrations happen around it. */
  lemma {:induction false} ClaimedStaysAbove(rows: Rows, ops: seq<TableOp>, n: string, v: Time, now: Time, i: nat)
    requires RowsOk(rows) && n in rows && v > now && AllWriteLater(rows, ops, now)
    requires i < |ops| && ops[i] == Call(rows[n].id, Claim(v))
    ensures var after := ApplyAll(rows, ops); n in after && after[n].next > now
  {
    var before, last := ops[..|ops| - 1], ops[|ops| - 1];
    OpsKeepOk(rows, before, now);
    var mid := ApplyAll(rows, before);
    if i < |before| {
      ClaimedStaysAbove(rows, before, n, v, now, i);
      OpKeepsAbove(mid, last, n, now);
    } else {
      CallTouches(mid, mid[n].id, Claim(v));
      ClaimRaises(mid, mid[n].id, n, v);
    }
  }

  lemma {:induction false} OpsKeepOk(rows: Rows, ops: seq<TableOp>, c: Time)
    requires RowsOk(rows) && AllWriteLater(rows, ops, c)
    ensures RowsOk(ApplyAll(rows, ops))
    ensures forall n :: n in rows ==> n in ApplyAll(rows, ops) && ApplyAll(rows, ops)[n].id == rows[n].id
  {
    if ops != [] {
      OpsKeepOk(rows, ops[..|ops| - 1], c);
      OpKeepsOk(ApplyAll(rows, ops[..|ops| - 1]), ops[|ops| - 1], c);
    }
  }

  // ----- A tick among other calls --------------------------------------------------------------

  /** Calls of other nodes, then a fetch at `now` on the node described by `node`, then the calls of this
      tick mixed with those of other nodes. */
  datatype Round = Round(node: Setting, before: seq<TableOp>, now: Time, due: seq<DueJob>, during: seq<TableOp>)

  /** The tick claims every fetched row that it raises. */
  ghost predicate ClaimsFetched(r: Round, d: DueJob) {
    Target(r.node, d, r.now).Some? ==>
      exists i :: 0 <= i < |r.during| && r.during[i] == Call(d.id, Claim(Target(r.node, d, r.now).value))
  }

  /** A round in which the row `name` is due, and every row ahead of it is one that the ticking node raises:
      registered there, led there if required, not an expired one-shot, and no RunAll row with an empty window. */
  ghost predicate FairRound(rows: Rows, r: Round, name: string) {
    && LibraryAdvances(r.node.lib)
    && name in rows && rows[name].next <= r.now && AllWriteLater(rows, r.before, rows[name].next)
    && var mid := ApplyAll(rows, r.before);
    && name in mid
    && IsFetch(mid, r.now, 64, r.due)
    && (forall n :: n in Ahead(mid, name) ==> Target(r.node, Project(mid[n]), r.now).Some?)
    && (forall d :: d in r.due ==> ClaimsFetched(r, d))
    && AllWriteLater(mid, r.during, r.now)
  }

  ghost function AfterRound(rows: Rows, r: Round): Rows {
    ApplyAll(ApplyAll(rows, r.before), r.during)
  }

  ghost predicate Fetches(r: Round, name: string) {
    exists d: DueJob :: d in r.due && d.name == name
  }

  /** Another node's call moves the row, which claims it for that node. */
  ghost predicate Taken(rows: Rows, r: Round, name: string) {
    !AllSpare(rows, r.before, name) || !AllSpare(ApplyAll(rows, r.before), r.during, name)
  }

  ghost predicate Served(rows: Rows, r: Round, name: string) { Fetches(r, name) || Taken(rows, r, name) }

  /** Rounds that are fair until one of them serves the row; what happens afterwards does not matter. */
  ghost predicate FairRounds(rows: Rows, rounds: seq<Round>, name: string)
    decreases |rounds|
  {
    rounds == [] ||
    (FairRound(rows, rounds[0], name)
     && (Served(rows, rounds[0], name) || FairRounds(AfterRound(rows, rounds[0]), rounds[1..], name)))
  }

  /** Some round serves the row. */
  ghost predicate ServedIn(rows: Rows, rounds: seq<Round>, name: string)
    decreases |rounds|
  {
    rounds != [] &&
    (Served(rows, rounds[0], name) || ServedIn(AfterRound(rows, rounds[0]), rounds[1..], name))
  }

  /** Nobody else moves the row before a round fetches it. */
  ghost predicate LeftAlone(rows: Rows, rounds: seq<Round>, name: string)
    decreases |rounds|
  {
    rounds == [] || Fetches(rounds[0], name)
    || (!Taken(rows, rounds[0], name) && LeftAlone(AfterRound(rows, rounds[0]), rounds[1..], name))
  }

  function NamesOf(due: seq<DueJob>): set<string> { set d | d in due :: d.name }

  lemma {:induction false} NamesCount(due: seq<DueJob>)
    requires forall i, j :: 0 <= i < j < |due| ==> due[i].name != due[j].name
    ensures |NamesOf(due)| == |due|
  {
    if due != [] {
      var init, last := due[..|due| - 1], due[|due| - 1];
      NamesCount(init);
      assert due == init + [last];
      assert NamesOf(due) == NamesOf(init) + {last.name};
    }
  }

  /** A due row that is not fetched has 64 fetched rows ahead of it. */
  lemma FullFetchAhead(rows: Rows, now: Time, due: seq<DueJob>, name: string)
    requires RowsOk(rows) && IsFetch(rows, now, 64, due) && name in rows && rows[name].next <= now
    requires forall d: DueJob :: d in due ==> d.name != name
    ensures NamesOf(due) <= Ahead(rows, name) && |NamesOf(due)| == 64
    ensures forall d :: d in due ==> d.name in rows && d == Project(rows[d.name])
  {
    var s: seq<DueJob> :| Listing(rows, now, s) && due == Take(s, Limit(64));
    var me := Project(rows[name]);
    assert me in s;
    var k :| 0 <= k < |s| && s[k] == me;
    LaterIsPreorder();
    DueIsPrefix(s, due);
    forall i | 0 <= i < |due| ensures s[i].name != name { assert due[i] == s[i] && due[i] in due; }
    forall i, j | 0 <= i < j < |due| ensures due[i].name != due[j].name {
      assert s[i] in s && s[j] in s && Later(s[j], s[i]);
    }
    NamesCount(due);
    forall d | d in due ensures d in s && Later(me, d) {
      var i :| 0 <= i < |due| && due[i] == d;
      assert Later(s[k], s[i]);
    }
  }

  lemma DueIsPrefix(s: seq<DueJob>, due: seq<DueJob>)
    requires due == Take(s, Limit(64))
    ensures |due| <= 64 && |due| <= |s| && (|due| < |s| ==> |due| == 64)
    ensures forall i :: 0 <= i < |due| ==> due[i] == s[i]
  {
  }

  /** A fair round that does not serve the row takes 64 rows out of its way. */
  lemma RoundTakes64(rows: Rows, r: Round, name: string)
    requires RowsOk(rows) && FairRound(rows, r, name) && !Served(rows, r, name)
    ensures var after := AfterRound(rows, r);
            && RowsOk(after) && name in after && after[name].next == rows[name].next
            && |Ahead(after, name)| + 64 <= |Ahead(rows, name)|
  {
    var mid, after := ApplyAll(rows, r.before), AfterRound(rows, r);
    OpsNeverGetAhead(rows, r.before, name, rows[name].next);
    OpsNeverGetAhead(mid, r.during, name, r.now);
    FullFetchAhead(mid, r.now, r.due, name);
    forall n | n in NamesOf(r.due) ensures n !in Ahead(after, name) {
      var d: DueJob :| d in r.due && d.name == n;
      FetchedLeaves(mid, r, name, d);
    }
    SubsetCard(Ahead(after, name) + NamesOf(r.due), Ahead(rows, name));
  }

  lemma FetchedLeaves(mid: Rows, r: Round, name: string, d: DueJob)
    requires RowsOk(mid) && name in mid && mid[name].next <= r.now && LibraryAdvances(r.node.lib)
    requires d in r.due && d.name in mid && d == Project(mid[d.name]) && d.name in Ahead(mid, name)
    requires Target(r.node, Project(mid[d.name]), r.now).Some? && ClaimsFetched(r, d)
    requires AllSpare(mid, r.during, name) && AllWriteLater(mid, r.during, r.now)
    requires var after := ApplyAll(mid, r.during); name in after && after[name].next == mid[name].next
    ensures d.name !in Ahead(ApplyAll(mid, r.during), name)
  {
    var v := Target(r.node, d, r.now).value;
    TargetIsLater(r.node, d, r.now);
    var i :| 0 <= i < |r.during| && r.during[i] == Call(d.id, Claim(v));
    ClaimedStaysAbove(mid, r.during, d.name, v, r.now, i);
  }

  /** While fair rounds pass without serving the row, 64 rows go from ahead of it in each of them. */
  lemma {:induction false} UnservedRounds(rows: Rows, rounds: seq<Round>, name: string)
    requires RowsOk(rows) && name in rows && FairRounds(rows, rounds, name) && !ServedIn(rows, rounds, name)
    ensures 64 * |rounds| <= |Ahead(rows, name)|
    decreases |rounds|
  {
    if rounds != [] {
      RoundTakes64(rows, rounds[0], name);
      UnservedRounds(AfterRound(rows, rounds[0]), rounds[1..], name);
    }
  }

  /** Starvation freedom: a due row with R rows ahead of it is fetched within ceil((R + 1) / 64) fair rounds,
      unless another node claims it first. */
  lemma ServedInTime(rows: Rows, rounds: seq<Round>, name: string)
    requires RowsOk(rows) && name in rows && FairRounds(rows, rounds, name)
    requires |rounds| == (|Ahead(rows, name)| + 1 + 63) / 64
    ensures ServedIn(rows, rounds, name)
  {
    if !ServedIn(rows, rounds, name) { UnservedRounds(rows, rounds, name); }
  }

  /** If no other node moves the row, one of these rounds fetches it. */
  lemma FetchedInTime(rows: Rows, rounds: seq<Round>, name: string)
    requires RowsOk(rows) && name in rows && FairRounds(rows, rounds, name) && LeftAlone(rows, rounds, name)
    requires |rounds| == (|Ahead(rows, name)| + 1 + 63) / 64
    ensures exists i :: 0 <= i < |rounds| && Fetches(rounds[i], name)
  {
    ServedInTime(rows, rounds, name);
    ServedAlone(rows, rounds, name);
  }

  lemma {:induction false} ServedAlone(rows: Rows, rounds: seq<Round>, name: string)
    requires ServedIn(rows, rounds, name) && LeftAlone(rows, rounds, name)
    ensures exists i :: 0 <= i < |rounds| && Fetches(rounds[i], name)
    decreases |rounds|
  {
    if !Fetches(rounds[0], name) {
      ServedAlone(AfterRound(rows, rounds[0]), rounds[1..], name);
      var i :| 0 <= i < |rounds[1..]| && Fetches(rounds[1..][i], name);
      assert Fetches(rounds[i + 1], name);
    }
  }
}
