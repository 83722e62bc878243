/** What one tick achieves: every row it handles leaves the due set. */
module TickProgress {
  import opened Basics
  import opened Schedules
  import opened Jobs
  import opened RowLedger
  import opened Storage
  import opened Persistence
  import opened Execution
  import opened Dispatching

  /** Parsed cron schedules keep the contract of the Schedule interface. */
  ghost predicate LibraryAdvances(lib: Library) {
    forall expr, a ::
      lib.cron(expr).Some? && lib.cron(expr).value(a).Some? ==> lib.cron(expr).value(a).value > a
  }

  lemma NextIsLater(lib: Library, kind: string, expr: string, now: Time)
    requires LibraryAdvances(lib)
    ensures var next := ComputeNextFire(lib, kind, expr, now); next.Ok? && next.value.Some? ==> next.value.value > now
  {
  }

  /** Where a tick will raise the row to; `None` if it leaves the row alone. A RunAll row whose missed
      window holds no instant is executed but not raised. */
  function Target(e: Setting, dj: DueJob, now: Time): Option<Time> {
    match DecisionFor(e, dj, now)
    case Ignore => None
    case Advance(v) => Some(v)
    case Launch(v) => Some(v)
    case Replay(v) =>
      if Instants(Some(Load(e.lib, dj.kind, dj.expr).value), dj.fire, now, MAX_CATCHUP_INSTANTS) == [] then None
      else Some(v)
  }

  lemma TargetIsLater(e: Setting, dj: DueJob, now: Time)
    requires LibraryAdvances(e.lib)
    ensures Target(e, dj, now).Some? ==> Target(e, dj, now).value > now
  {
    NextIsLater(e.lib, dj.kind, dj.expr, now);
  }

  ghost predicate RowsOk(rows: Rows) {
    WellKeyed(rows) && forall n :: n in rows ==> !rows[n].locked
  }

  /** Only the row with this id may differ, and only in its fire time. */
  ghost predicate Touches(rows: Rows, rows': Rows, id: string) {
    && RowsOk(rows') && rows'.Keys == rows.Keys
    && forall n :: n in rows ==>
         rows'[n] == rows[n].(next := rows'[n].next) && (rows[n].id != id ==> rows'[n] == rows[n])
  }

  lemma CallTouches(rows: Rows, id: string, op: RowOp)
    requires RowsOk(rows)
    ensures Touches(rows, CallRows(rows, id, op), id)
  {
    CallKeepsKeys(rows, id, op);
  }

  lemma ClaimRaises(rows: Rows, id: string, name: string, v: Time)
    requires RowsOk(rows) && HasId(rows, id, name)
    ensures CallRows(rows, id, Claim(v))[name].next == Max(rows[name].next, v)
  {
    NamedIs(rows, id, name);
  }

  lemma ExecutedCalls(w: World, r: Runner, dj: DueJob, reply: Reply)
    ensures var rows, attempt := Executed(w, r, dj, reply).rows, Counter(w.attempts, dj.id) + 1;
            rows == w.rows || rows == CallRows(w.rows, dj.id, Retry(RetryAt(r, attempt, reply)))
  {
  }

  lemma ExecutedTouches(w: World, r: Runner, dj: DueJob, reply: Reply)
    requires RowsOk(w.rows)
    ensures Touches(w.rows, Executed(w, r, dj, reply).rows, dj.id)
  {
    ExecutedCalls(w, r, dj, reply);
    CallTouches(w.rows, dj.id, Retry(RetryAt(r, Counter(w.attempts, dj.id) + 1, reply)));
  }

  lemma {:induction false} ReplayTouches(w: World, r: Runner, dj: DueJob, instants: seq<Time>, replies: nat -> Reply,
                                         k: nat)
    requires RowsOk(w.rows) && k <= |instants|
    ensures Touches(w.rows, ReplayedUpTo(w, r, dj, instants, replies, k).rows, dj.id)
  {
    if k > 0 {
      ReplayTouches(w, r, dj, instants, replies, k - 1);
      var before := ReplayedUpTo(w, r, dj, instants, replies, k - 1);
      ExecutedTouches(before, r, dj.(fire := instants[k - 1]), replies(k - 1));
    }
  }

  /** Retries never raise a row. */
  lemma {:induction false} ReplayLowers(w: World, r: Runner, dj: DueJob, instants: seq<Time>, replies: nat -> Reply, k: nat)
    requires RowsOk(w.rows) && k <= |instants| && HasId(w.rows, dj.id, dj.name)
    ensures var rows := ReplayedUpTo(w, r, dj, instants, replies, k).rows;
            dj.name in rows && rows[dj.name].next <= w.rows[dj.name].next
  {
    if k > 0 {
      ReplayLowers(w, r, dj, instants, replies, k - 1);
      ReplayTouches(w, r, dj, instants, replies, k - 1);
      var before := ReplayedUpTo(w, r, dj, instants, replies, k - 1);
      ExecutedCalls(before, r, dj.(fire := instants[k - 1]), replies(k - 1));
      NamedIs(before.rows, dj.id, dj.name);
    }
  }

  /** A replay touches its own row only, and raises it to the next fire exactly if the window held an
      instant; the retries of the replayed executions cannot undo that. */
  lemma ReplayedAllRaises(w: World, r: Runner, dj: DueJob, sched: Schedule, now: Time, replies: nat -> Reply)
    requires RowsOk(w.rows) && HasId(w.rows, dj.id, dj.name) && sched.Next(now).Some?
    ensures var rows, v := ReplayedAll(w, r, dj, sched, now, replies).rows, sched.Next(now).value;
            && Touches(w.rows, rows, dj.id)
            && (Instants(Some(sched), dj.fire, now, MAX_CATCHUP_INSTANTS) != [] ==>
                  v <= rows[dj.name].next <= Max(w.rows[dj.name].next, v))
            && (Instants(Some(sched), dj.fire, now, MAX_CATCHUP_INSTANTS) == [] ==>
                  rows[dj.name].next <= w.rows[dj.name].next)
  {
    var instants := Instants(Some(sched), dj.fire, now, MAX_CATCHUP_INSTANTS);
    if instants == [] {
      ExecutedTouches(w, r, dj, replies(0));
      NamedIs(w.rows, dj.id, dj.name);
    } else {
      ReplayTouches(w, r, dj, instants, replies, |instants|);
      var w' := ReplayedUpTo(w, r, dj, instants, replies, |instants|);
      ReplayLowers(w, r, dj, instants, replies, |instants|);
      CallTouches(w'.rows, dj.id, Claim(sched.Next(now).value));
      ClaimRaises(w'.rows, dj.id, dj.name, sched.Next(now).value);
    }
  }

  /** The dispatch of a due RunAll row leaves it above `now` exactly if the missed window holds an instant.
      With an empty window it executes and leaves the row due: the next tick executes it again. */
  lemma ReplayAdvancesIff(w: World, r: Runner, dj: DueJob, sched: Schedule, now: Time, replies: nat -> Reply)
    requires RowsOk(w.rows) && HasId(w.rows, dj.id, dj.name) && w.rows[dj.name].next <= now
    requires Advancing(sched) && sched.Next(now).Some?
    ensures var w' := ReplayedAll(w, r, dj, sched, now, replies);
            dj.name in w'.rows &&
            (w'.rows[dj.name].next > now <==>
             dj.fire < now && sched.Next(dj.fire).Some? && sched.Next(dj.fire).value < now)
  {
    ReplayedAllRaises(w, r, dj, sched, now, replies);
  }

  /** Handling one row: it alone is touched, and it ends at its target or above. */
  lemma HandledRaises(e: Setting, w: World, dj: DueJob, now: Time, replies: nat -> Reply)
    requires RowsOk(w.rows) && HasId(w.rows, dj.id, dj.name)
    ensures var rows := HandledOne(e, w, dj, now, replies).rows;
            && Touches(w.rows, rows, dj.id)
            && (Target(e, dj, now).Some? ==>
                  Target(e, dj, now).value <= rows[dj.name].next <= Max(w.rows[dj.name].next, Target(e, dj, now).value))
            && (Target(e, dj, now).None? ==> rows[dj.name].next <= w.rows[dj.name].next)
  {
    var d := DecisionFor(e, dj, now);
    if d.Replay? {
      ReplayedAllRaises(w, Runner(e.nodeID, e.registry[dj.name].options.retry), dj,
                        Load(e.lib, dj.kind, dj.expr).value, now, replies);
    } else if !d.Ignore? {
      CallTouches(w.rows, dj.id, Claim(d.target));
      ClaimRaises(w.rows, dj.id, dj.name, d.target);
    }
  }

  /** Every fetched entry still points to its row. */
  ghost predicate Matches(rows: Rows, due: seq<DueJob>) {
    && (forall i :: 0 <= i < |due| ==> HasId(rows, due[i].id, due[i].name))
    && (forall i, j :: 0 <= i < j < |due| ==> due[i].id != due[j].id)
  }

  lemma FetchMatches(rows: Rows, now: Time, limit: int, due: seq<DueJob>)
    requires RowsOk(rows) && IsFetch(rows, now, limit, due)
    ensures Matches(rows, due)
  {
    var s :| Listing(rows, now, s) && due == Take(s, Limit(limit));
    LaterIsPreorder();
    forall i | 0 <= i < |due| ensures HasId(rows, due[i].id, due[i].name) {
      assert due[i] == s[i] && s[i] in s;
    }
    forall i, j | 0 <= i < j < |due| ensures due[i].id != due[j].id {
      assert s[i] in s && s[j] in s && Later(s[j], s[i]);
    }
  }

  /** A tick keeps names and ids. */
  lemma {:induction false} TickKeepsTable(e: Setting, w: World, due: seq<DueJob>, now: Time, replies: nat -> nat -> Reply,
                                          k: nat) returns (m: World)
    requires RowsOk(w.rows) && Matches(w.rows, due) && k <= |due|
    ensures m == HandledUpTo(e, w, due, now, replies, k) && RowsOk(m.rows) && m.rows.Keys == w.rows.Keys
    ensures forall n :: n in w.rows ==> m.rows[n].id == w.rows[n].id
  {
    if k == 0 {
      return w;
    }
    var before := TickKeepsTable(e, w, due, now, replies, k - 1);
    assert HasId(w.rows, due[k - 1].id, due[k - 1].name);
    HandleNext(e, w, due, now, replies, k - 1, before);
    HandledRaises(e, before, due[k - 1], now, replies(k - 1));
    m := HandledOne(e, before, due[k - 1], now, replies(k - 1));
  }

  /** The first `k` fetched rows lie at their targets or above. */
  predicate AtTargets(e: Setting, rows: Rows, due: seq<DueJob>, now: Time, k: nat)
    requires k <= |due|
  {
    forall i :: 0 <= i < k && Target(e, due[i], now).Some? ==>
      due[i].name in rows && rows[due[i].name].next >= Target(e, due[i], now).value
  }

  lemma RowSettles(e: Setting, m: World, due: seq<DueJob>, now: Time, replies: nat -> Reply, k: nat, w': World)
    requires k < |due| && w' == HandledOne(e, m, due[k], now, replies)
    requires RowsOk(m.rows) && Matches(m.rows, due) && AtTargets(e, m.rows, due, now, k)
    ensures RowsOk(w'.rows) && Matches(w'.rows, due) && AtTargets(e, w'.rows, due, now, k + 1)
  {
    HandledRaises(e, m, due[k], now, replies);
    forall i | 0 <= i < |due| ensures HasId(w'.rows, due[i].id, due[i].name) {
      assert HasId(m.rows, due[i].id, due[i].name);
    }
  }

  /** After `k` rows are handled the first `k` are settled and the others untouched. */
  lemma {:induction false} TickTouches(e: Setting, w: World, due: seq<DueJob>, now: Time, replies: nat -> nat -> Reply,
                                       k: nat) returns (m: World)
    requires RowsOk(w.rows) && Matches(w.rows, due) && k <= |due|
    ensures m == HandledUpTo(e, w, due, now, replies, k)
    ensures RowsOk(m.rows) && Matches(m.rows, due) && AtTargets(e, m.rows, due, now, k)
  {
    if k == 0 {
      return w;
    }
    var mid := TickTouches(e, w, due, now, replies, k - 1);
    HandleNext(e, w, due, now, replies, k - 1, mid);
    m := HandledOne(e, mid, due[k - 1], now, replies(k - 1));
    RowSettles(e, mid, due, now, replies(k - 1), k - 1, m);
  }

  /** Tick progress: after a tick at `now` every row it was going to raise lies above `now`, whether this
      node or another won the claim and even if a replayed handler failed and pulled it back; so no fetch
      at the same instant returns it. */
  lemma TickLeavesNothingDue(e: Setting, w: World, due: seq<DueJob>, now: Time, replies: nat -> nat -> Reply, i: nat)
    requires LibraryAdvances(e.lib) && RowsOk(w.rows) && IsFetch(w.rows, now, 64, due)
    requires i < |due| && Target(e, due[i], now).Some?
    ensures var rows := HandledUpTo(e, w, due, now, replies, |due|).rows;
            && due[i].name in rows && rows[due[i].name].next > now
            && forall limit, again, d: DueJob :: IsFetch(rows, now, limit, again) && d in again ==> d.name != due[i].name
  {
    FetchMatches(w.rows, now, 64, due);
    var _ := TickTouches(e, w, due, now, replies, |due|);
    TargetIsLater(e, due[i], now);
    var rows := HandledUpTo(e, w, due, now, replies, |due|).rows;
    assert HasId(rows, due[i].id, due[i].name);
    forall limit, again, d: DueJob | IsFetch(rows, now, limit, again) && d in again
      ensures d.name != due[i].name
    {
      var s :| Listing(rows, now, s) && again == Take(s, Limit(limit));
      assert d in s;
    }
  }
}
