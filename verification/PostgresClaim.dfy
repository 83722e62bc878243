/** storage.go: PostgresStorage.ClaimJob as the transaction it is, interleaved with other claims and with
    ScheduleRetry, and its refinement to the atomic calls of `RowLedger`.

    A claim begins a transaction, tries the advisory lock of its key without waiting, updates the row if
    it is strictly below the target, and commits; ending the transaction releases the lock and, if it did
    not commit, the update. An update that changes a row waits while another open transaction has changed
    it and then looks at the committed row again. ScheduleRetry is a single such update. */
module PostgresClaim {
  import opened Basics
  import opened RowLedger

  datatype Reply = Won | Refused | Failed

  /** `since` is the length of the log when the call began; `entry` the log position that explains it. */
  datatype Tx =
    | Begun(id: string, target: Time, since: nat)
    | Locked(id: string, target: Time, since: nat)
    | Updated(id: string, target: Time, since: nat)
    | Done(id: string, target: Time, since: nat, reply: Reply, entry: Option<nat>)

  /** The atomic history: claims with their result, claims refused for a busy lock, and retries. */
  datatype Entry =
    | Claimed(tx: nat, id: string, target: Time, won: bool)
    | LockBusy(tx: nat)
    | Retried(id: string, at: Time)

  datatype Db = Db(rows: map<string, Time>, locks: map<int, nat>, txs: map<nat, Tx>, log: seq<Entry>)

  /** The advisory key of a job id; nothing is assumed about collisions. */
  type KeyOf = string -> int

  datatype Step =
    | Begin(tx: nat, id: string, target: Time)
    | TryLock(tx: nat)
    | Update(tx: nat)
    | Commit(tx: nat, heard: bool)      // heard: the client learns of the commit
    | Abort(tx: nat)                    // an error, a cancelled context or a crash before the commit
    | RetryUpdate(id: string, at: Time)

  predicate Open(tx: Tx) { !tx.Done? }

  /** An open transaction has changed the row and not committed. */
  predicate RowBusy(db: Db, id: string) {
    exists t :: t in db.txs && db.txs[t].Updated? && db.txs[t].id == id
  }

  predicate Hits(rows: map<string, Time>, id: string, op: RowOp) {
    id in rows && (Wins(rows[id], op) || Pulls(rows[id], op))
  }

  predicate Enabled(db: Db, step: Step) {
    match step
    case Begin(t, _, _) => t !in db.txs
    case TryLock(t) => t in db.txs && db.txs[t].Begun?
    case Update(t) =>
      && t in db.txs && db.txs[t].Locked?
      && (Hits(db.rows, db.txs[t].id, Claim(db.txs[t].target)) ==> !RowBusy(db, db.txs[t].id))
    case Commit(t, _) => t in db.txs && db.txs[t].Updated?
    case Abort(t) => t in db.txs && Open(db.txs[t])
    case RetryUpdate(id, at) => Hits(db.rows, id, Retry(at)) ==> !RowBusy(db, id)
  }

  function Finish(db: Db, t: nat, reply: Reply, entry: Option<nat>): Db
    requires t in db.txs
  {
    var tx := db.txs[t];
    db.(txs := db.txs[t := Done(tx.id, tx.target, tx.since, reply, entry)],
        locks := map k | k in db.locks && db.locks[k] != t :: db.locks[k])
  }

  function Log(db: Db, e: Entry): Db { db.(log := db.log + [e]) }

  function ApplyRow(rows: map<string, Time>, id: string, op: RowOp): map<string, Time> {
    if id in rows then rows[id := ApplyOp(rows[id], op)] else rows
  }

  function Apply(key: KeyOf, db: Db, step: Step): Db
    requires Enabled(db, step)
  {
    match step
    case Begin(t, id, target) => db.(txs := db.txs[t := Begun(id, target, |db.log|)])
    case TryLock(t) =>
      var tx := db.txs[t];
      if key(tx.id) in db.locks then Log(Finish(db, t, Refused, Some(|db.log|)), LockBusy(t))
      else db.(txs := db.txs[t := Locked(tx.id, tx.target, tx.since)], locks := db.locks[key(tx.id) := t])
    case Update(t) =>
      var tx := db.txs[t];
      if Hits(db.rows, tx.id, Claim(tx.target)) then
        db.(txs := db.txs[t := Updated(tx.id, tx.target, tx.since)])
      else Log(Finish(db, t, Refused, Some(|db.log|)), Claimed(t, tx.id, tx.target, false))
    case Commit(t, heard) =>
      var tx := db.txs[t];
      Log(Finish(db, t, if heard then Won else Failed, Some(|db.log|)), Claimed(t, tx.id, tx.target, true))
        .(rows := db.rows[tx.id := tx.target])
    case Abort(t) => Finish(db, t, Failed, None)
    case RetryUpdate(id, at) => Log(db, Retried(id, at)).(rows := ApplyRow(db.rows, id, Retry(at)))
  }

  // ----- The atomic specification --------------------------------------------------------------

  /** The result an atomic claim gives. */
  predicate AtomicWin(rows: map<string, Time>, id: string, target: Time) {
    id in rows && Wins(rows[id], Claim(target))
  }

  function AtomicStep(rows: map<string, Time>, e: Entry): map<string, Time> {
    match e
    case Claimed(_, id, target, _) => ApplyRow(rows, id, Claim(target))
    case LockBusy(_) => rows
    case Retried(id, at) => ApplyRow(rows, id, Retry(at))
  }

  function AtomicRun(rows: map<string, Time>, log: seq<Entry>): map<string, Time> {
    if log == [] then rows else AtomicStep(AtomicRun(rows, log[..|log| - 1]), log[|log| - 1])
  }

  /** Every claim in the log returned what the atomic claim returns at its place. */
  predicate Faithful(rows: map<string, Time>, log: seq<Entry>) {
    log == [] ||
    var before, e := log[..|log| - 1], log[|log| - 1];
    Faithful(rows, before) && (e.Claimed? ==> e.won == AtomicWin(AtomicRun(rows, before), e.id, e.target))
  }

  lemma LogSnoc(rows: map<string, Time>, log: seq<Entry>, e: Entry)
    ensures AtomicRun(rows, log + [e]) == AtomicStep(AtomicRun(rows, log), e)
    ensures Faithful(rows, log + [e]) <==>
            Faithful(rows, log) && (e.Claimed? ==> e.won == AtomicWin(AtomicRun(rows, log), e.id, e.target))
  {
    assert (log + [e])[..|log|] == log;
  }

  // ----- The invariant -------------------------------------------------------------------------

  /** The committed rows are those of the atomic history. */
  predicate Explained(rows: map<string, Time>, db: Db) {
    AtomicRun(rows, db.log) == db.rows && Faithful(rows, db.log)
  }

  /** An uncommitted update still applies to the committed row, and no two are open on one row. */
  ghost predicate RowLocks(db: Db) {
    && (forall t :: t in db.txs && db.txs[t].Updated? ==> AtomicWin(db.rows, db.txs[t].id, db.txs[t].target))
    && (forall t, u | t in db.txs && u in db.txs && db.txs[t].Updated? && db.txs[u].Updated? ::
          db.txs[t].id == db.txs[u].id ==> t == u)
  }

  /** An advisory lock is held exactly by the transactions between the lock and the end. */
  ghost predicate AdvisoryLocks(key: KeyOf, db: Db) {
    && (forall k :: k in db.locks ==>
          && db.locks[k] in db.txs
          && (db.txs[db.locks[k]].Locked? || db.txs[db.locks[k]].Updated?)
          && key(db.txs[db.locks[k]].id) == k)
    && (forall t :: t in db.txs && (db.txs[t].Locked? || db.txs[t].Updated?) ==>
          key(db.txs[t].id) in db.locks && db.locks[key(db.txs[t].id)] == t)
  }

  /** The reply of a finished call and its log entry agree. */
  predicate ReplyOk(log: seq<Entry>, t: nat, tx: Tx) {
    match tx
    case Done(id, target, since, reply, entry) =>
      && (entry.Some? ==> since <= entry.value < |log|)
      && (reply == Won ==> entry.Some? && log[entry.value] == Claimed(t, id, target, true))
      && (reply == Refused ==> entry.Some?)
      && (reply == Refused ==> log[entry.value] in {Claimed(t, id, target, false), LockBusy(t)})
      && (reply == Failed && entry.Some? ==> log[entry.value] == Claimed(t, id, target, true))
    case _ => tx.since <= |log|
  }

  /** A log entry belongs to the call that points to it. */
  predicate EntryOk(db: Db, i: nat)
    requires i < |db.log|
  {
    var e := db.log[i];
    e.Retried? || (e.tx in db.txs && db.txs[e.tx].Done? && db.txs[e.tx].entry == Some(i))
  }

  ghost predicate Replies(db: Db) {
    && (forall t :: t in db.txs ==> ReplyOk(db.log, t, db.txs[t]))
    && (forall i :: 0 <= i < |db.log| ==> EntryOk(db, i))
  }

  ghost predicate Inv(key: KeyOf, rows: map<string, Time>, db: Db) {
    Explained(rows, db) && RowLocks(db) && AdvisoryLocks(key, db) && Replies(db)
  }

  lemma StepExplained(key: KeyOf, rows: map<string, Time>, db: Db, step: Step)
    requires Explained(rows, db) && RowLocks(db) && Enabled(db, step)
    ensures Explained(rows, Apply(key, db, step))
  {
    var db' := Apply(key, db, step);
    if db'.log != db.log {
      LogSnoc(rows, db.log, db'.log[|db.log|]);
      if step.Update? {
        var tx := db.txs[step.tx];
        if tx.id in db.rows { assert db.rows[tx.id := db.rows[tx.id]] == db.rows; }
      }
    }
  }

  lemma StepRowLocks(key: KeyOf, db: Db, step: Step)
    requires RowLocks(db) && Enabled(db, step)
    ensures RowLocks(Apply(key, db, step))
  {
    if step.RetryUpdate? && step.id in db.rows && !Hits(db.rows, step.id, Retry(step.at)) {
      assert ApplyRow(db.rows, step.id, Retry(step.at)) == db.rows;
    }
  }

  lemma StepAdvisoryLocks(key: KeyOf, db: Db, step: Step)
    requires AdvisoryLocks(key, db) && Enabled(db, step)
    ensures AdvisoryLocks(key, Apply(key, db, step))
  {
  }

  lemma StepReplies(key: KeyOf, db: Db, step: Step)
    requires Replies(db) && Enabled(db, step)
    ensures Replies(Apply(key, db, step))
  {
    var db' := Apply(key, db, step);
    assert forall i :: 0 <= i < |db.log| ==> db'.log[i] == db.log[i];
    forall i | 0 <= i < |db'.log| ensures EntryOk(db', i) {
      if i < |db.log| { assert EntryOk(db, i); }
    }
    forall t | t in db'.txs ensures ReplyOk(db'.log, t, db'.txs[t]) {
      if t in db.txs { assert ReplyOk(db.log, t, db.txs[t]); }
    }
  }

  // ----- Runs ----------------------------------------------------------------------------------

  function Reach(key: KeyOf, db: Db, steps: seq<Step>): Db {
    if steps == [] then db
    else
      var before, last := Reach(key, db, steps[..|steps| - 1]), steps[|steps| - 1];
      if Enabled(before, last) then Apply(key, before, last) else before
  }

  predicate Legal(key: KeyOf, db: Db, steps: seq<Step>) {
    steps == [] ||
    var before, last := steps[..|steps| - 1], steps[|steps| - 1];
    Legal(key, db, before) && Enabled(Reach(key, db, before), last)
  }

  predicate Initial(db: Db) { db.locks == map[] && db.txs == map[] && db.log == [] }

  /** Refinement: in every interleaving the committed rows, and the result of every claim, are those of
      the atomic history in the log; a claim that found its advisory lock busy is a no-op that returns
      false; and every entry lies between the beginning and the end of its call. */
  lemma {:induction false} ClaimsAreAtomic(key: KeyOf, db: Db, steps: seq<Step>)
    requires Initial(db) && Legal(key, db, steps)
    ensures Inv(key, db.rows, Reach(key, db, steps))
  {
    if steps != [] {
      var before, last := steps[..|steps| - 1], steps[|steps| - 1];
      ClaimsAreAtomic(key, db, before);
      var d := Reach(key, db, before);
      StepExplained(key, db.rows, d, last);
      StepRowLocks(key, d, last);
      StepAdvisoryLocks(key, d, last);
      StepReplies(key, d, last);
    }
  }

  // ----- When a claim is refused, and when it wins ---------------------------------------------

  /** Another transaction, between its lock and its end, holds the key of this one. */
  ghost predicate HasRival(key: KeyOf, db: Db, t: nat) {
    t in db.txs && exists u :: u in db.txs && u != t && (db.txs[u].Locked? || db.txs[u].Updated?)
                               && key(db.txs[u].id) == key(db.txs[t].id)
  }

  /** Only the call `t` may have moved on. */
  predicate Others(db: Db, db': Db, t: nat) {
    db'.txs - {t} == db.txs - {t}
  }

  /** In every reachable state a claim that tries its lock is refused as busy exactly if another open transaction holds
      the key. Otherwise it is not answered yet and goes on with the lock. */
  lemma BusyIff(key: KeyOf, db: Db, steps: seq<Step>, t: nat)
    requires Initial(db) && Legal(key, db, steps) && Enabled(Reach(key, db, steps), TryLock(t))
    ensures var d := Reach(key, db, steps);
            var d', tx := Apply(key, d, TryLock(t)), d.txs[t];
            && d'.rows == d.rows && Others(d, d', t)
            && if HasRival(key, d, t) then
                 d'.log == d.log + [LockBusy(t)] && d'.txs[t] == Done(tx.id, tx.target, tx.since, Refused, Some(|d.log|))
               else d'.log == d.log && d'.txs[t] == Locked(tx.id, tx.target, tx.since)
  {
    ClaimsAreAtomic(key, db, steps);
    var d := Reach(key, db, steps);
    var k := key(d.txs[t].id);
    if k in d.locks { assert d.locks[k] != t; }
  }

  /** A step writes at most one entry, and a busy refusal is written by its own call in the presence of a rival. */
  lemma StepLogs(key: KeyOf, db: Db, step: Step)
    requires AdvisoryLocks(key, db) && Enabled(db, step)
    ensures var log := Apply(key, db, step).log;
            && db.log <= log && |log| <= |db.log| + 1
            && (|log| > |db.log| && log[|db.log|].LockBusy? ==>
                  step == TryLock(log[|db.log|].tx) && HasRival(key, db, step.tx))
  {
    if step.TryLock? {
      var k := key(db.txs[step.tx].id);
      if k in db.locks { assert db.locks[k] != step.tx; }
    }
  }

  /** Over every run, each busy refusal was given by an attempt at the lock while a rival held the key. */
  lemma {:induction false} BusyNeedsRival(key: KeyOf, db: Db, steps: seq<Step>, i: nat) returns (k: nat)
    requires Initial(db) && Legal(key, db, steps)
    requires i < |Reach(key, db, steps).log| && Reach(key, db, steps).log[i].LockBusy?
    ensures var t := Reach(key, db, steps).log[i].tx;
            k < |steps| && steps[k] == TryLock(t) && HasRival(key, Reach(key, db, steps[..k]), t)
  {
    k := |steps| - 1;
    var before, d := steps[..k], Reach(key, db, steps[..k]);
    ClaimsAreAtomic(key, db, before);
    StepLogs(key, d, steps[k]);
    if i < |d.log| {
      k := BusyNeedsRival(key, db, before, i);
      assert before[..k] == steps[..k];
    }
  }

  /** No transaction is open. */
  predicate Quiet(db: Db) { forall t :: t in db.txs ==> !Open(db.txs[t]) }

  /** The steps of a claim that nothing disturbs; there is nothing to commit if the update hits no row. */
  function ClaimSteps(t: nat, id: string, v: Time, commits: bool): seq<Step> {
    var tries := [Begin(t, id, v), TryLock(t), Update(t)];
    if commits then tries + [Commit(t, true)] else tries
  }

  /** A claim that runs from beginning to end while no other transaction is open is never refused as busy: it wins and
      leaves the row at the target exactly if the row was below it, and else is refused and changes nothing. */
  lemma UndisturbedClaim(key: KeyOf, db: Db, steps: seq<Step>, t: nat, id: string, v: Time)
    requires Initial(db) && Legal(key, db, steps)
    requires Quiet(Reach(key, db, steps)) && t !in Reach(key, db, steps).txs
    ensures var d := Reach(key, db, steps);
            var wins := id in d.rows && d.rows[id] < v;
            var more := ClaimSteps(t, id, v, wins);
            && Legal(key, d, more)
            && var d' := Reach(key, d, more);
               && Quiet(d') && Others(d, d', t) && t in d'.txs
               && d'.txs[t].Done? && d'.txs[t].reply == (if wins then Won else Refused)
               && d'.rows == if wins then d.rows[id := v] else d.rows
  {
    ClaimsAreAtomic(key, db, steps);
    var d := Reach(key, db, steps);
    var wins := id in d.rows && d.rows[id] < v;
    var d2 := LockGranted(key, d, t, id, v);
    var d' := ClaimEnds(key, d, t, id, v, d2);
    assert Others(d, d', t);
  }

  /** The last steps. */
  lemma ClaimEnds(key: KeyOf, d: Db, t: nat, id: string, v: Time, d2: Db) returns (d': Db)
    requires Legal(key, d, [Begin(t, id, v), TryLock(t)]) && d2 == Reach(key, d, [Begin(t, id, v), TryLock(t)])
    requires d2.rows == d.rows && d2.txs == d.txs[t := Locked(id, v, |d.log|)] && Quiet(d)
    ensures var wins := id in d.rows && d.rows[id] < v;
            && Legal(key, d, ClaimSteps(t, id, v, wins)) && d' == Reach(key, d, ClaimSteps(t, id, v, wins))
            && t in d'.txs && d'.txs[t].Done? && d'.txs[t].reply == (if wins then Won else Refused)
            && d'.txs == d.txs[t := d'.txs[t]]
            && d'.rows == if wins then d.rows[id := v] else d.rows
  {
    d' := OneStep(key, d, [Begin(t, id, v), TryLock(t)], Update(t));
    assert [Begin(t, id, v), TryLock(t)] + [Update(t)] == [Begin(t, id, v), TryLock(t), Update(t)];
    if id in d.rows && d.rows[id] < v {
      assert d'.txs[t] == Updated(id, v, |d.log|);
      d' := OneStep(key, d, [Begin(t, id, v), TryLock(t), Update(t)], Commit(t, true));
    }
  }

  /** The first two of them: nobody holds the lock, so it is granted. */
  lemma LockGranted(key: KeyOf, d: Db, t: nat, id: string, v: Time) returns (d2: Db)
    requires AdvisoryLocks(key, d) && Quiet(d) && t !in d.txs
    ensures Legal(key, d, [Begin(t, id, v), TryLock(t)]) && d2 == Reach(key, d, [Begin(t, id, v), TryLock(t)])
    ensures d2.rows == d.rows && d2.log == d.log
    ensures d2.txs == d.txs[t := Locked(id, v, |d.log|)]
  {
    LockHolder(key, d, key(id));
    var d1 := OneStep(key, d, [], Begin(t, id, v));
    assert [] + [Begin(t, id, v)] == [Begin(t, id, v)];
    d2 := OneStep(key, d, [Begin(t, id, v)], TryLock(t));
    assert [Begin(t, id, v)] + [TryLock(t)] == [Begin(t, id, v), TryLock(t)];
  }

  /** A lock has an open holder. */
  lemma LockHolder(key: KeyOf, d: Db, k: int)
    requires AdvisoryLocks(key, d)
    ensures k in d.locks ==> d.locks[k] in d.txs && Open(d.txs[d.locks[k]])
  {
  }

  lemma OneStep(key: KeyOf, db: Db, steps: seq<Step>, step: Step) returns (db': Db)
    requires Legal(key, db, steps) && Enabled(Reach(key, db, steps), step)
    ensures Legal(key, db, steps + [step]) && db' == Reach(key, db, steps + [step]) == Apply(key, Reach(key, db, steps), step)
  {
    assert (steps + [step])[..|steps|] == steps;
    db' := Reach(key, db, steps + [step]);
  }

  /** The next step of an open claim. */
  function NextStep(t: nat, tx: Tx, heard: bool): Step
    requires Open(tx)
  {
    if tx.Begun? then TryLock(t) else if tx.Locked? then Update(t) else Commit(t, heard)
  }

  /** In every reachable state each open claim can take its next step: whoever has changed a row also holds the key, so a
      claim that got its lock never waits for a row. A retry waits exactly while an open claim has changed its row and
      the retry would change it too. */
  lemma ClaimsNeverWait(key: KeyOf, db: Db, steps: seq<Step>, t: nat, heard: bool, id: string, at: Time)
    requires Initial(db) && Legal(key, db, steps) && t in Reach(key, db, steps).txs && Open(Reach(key, db, steps).txs[t])
    ensures var d := Reach(key, db, steps);
            && Enabled(d, NextStep(t, d.txs[t], heard)) && Enabled(d, Abort(t))
            && (!Enabled(d, RetryUpdate(id, at)) <==>
                  id in d.rows && at < d.rows[id] && exists u :: u in d.txs && d.txs[u].Updated? && d.txs[u].id == id)
  {
    ClaimsAreAtomic(key, db, steps);
    var d := Reach(key, db, steps);
    if d.txs[t].Locked? {
      forall u | u in d.txs && d.txs[u].Updated? ensures d.txs[u].id != d.txs[t].id {
        LockIsOwn(key, d, u);
        LockIsOwn(key, d, t);
      }
    }
  }

  lemma LockIsOwn(key: KeyOf, d: Db, t: nat)
    requires AdvisoryLocks(key, d) && t in d.txs && (d.txs[t].Locked? || d.txs[t].Updated?)
    ensures var k := key(d.txs[t].id); k in d.locks && d.locks[k] == t
  {
  }

  /** The end of a claim that changed its row: the row is at the target, and the client that hears of it has won. */
  lemma CommitTells(key: KeyOf, db: Db, t: nat, heard: bool)
    requires Enabled(db, Commit(t, heard))
    ensures var d', tx := Apply(key, db, Commit(t, heard)), db.txs[t];
            && d'.txs[t].Done? && (d'.txs[t].reply == Won <==> heard) && d'.txs[t].reply != Refused
            && d'.rows == db.rows[tx.id := tx.target] && Others(db, d', t)
  {
  }

  /** A retry takes effect at once: its row is at most the retry instant, and no other row changes. */
  lemma RetryLands(key: KeyOf, db: Db, id: string, at: Time)
    requires Enabled(db, RetryUpdate(id, at))
    ensures var d' := Apply(key, db, RetryUpdate(id, at));
            && d'.txs == db.txs && d'.rows.Keys == db.rows.Keys && d'.log == db.log + [Retried(id, at)]
            && (forall n :: n in db.rows ==> d'.rows[n] == if n == id then Min(db.rows[n], at) else db.rows[n])
  {
  }

  // ----- What colliding keys can do ------------------------------------------------------------

  /** The calls of the atomic history that concern one row. */
  function OpsOn(log: seq<Entry>, id: string): seq<RowOp> {
    if log == [] then []
    else
      var before, e := OpsOn(log[..|log| - 1], id), log[|log| - 1];
      if e.Claimed? && e.id == id then before + [Claim(e.target)]
      else if e.Retried? && e.id == id then before + [Retry(e.at)]
      else before
  }

  /** Claims on the row that returned true for the target. */
  function TrueReplies(log: seq<Entry>, id: string, v: Time): nat {
    if log == [] then 0
    else
      var e := log[|log| - 1];
      TrueReplies(log[..|log| - 1], id, v) + Ind(e.Claimed? && e.id == id && e.target == v && e.won)
  }

  lemma {:induction false} LogIsLedger(rows: map<string, Time>, log: seq<Entry>, id: string, v: Time)
    requires Faithful(rows, log) && id in rows
    ensures id in AtomicRun(rows, log) && AtomicRun(rows, log)[id] == After(rows[id], OpsOn(log, id))
    ensures TrueReplies(log, id, v) == WinsOn(rows[id], OpsOn(log, id), v)
  {
    if log != [] {
      var before, e := log[..|log| - 1], log[|log| - 1];
      LogIsLedger(rows, before, id, v);
      var ops := OpsOn(before, id);
      if OpsOn(log, id) != ops {
        var op := if e.Claimed? then Claim(e.target) else Retry(e.at);
        assert OpsOn(log, id) == ops + [op] && (ops + [op])[..|ops|] == ops;
      }
    }
  }

  /** Whatever the key function, each target is claimed with result true at most once more than a retry
      pulled the row back across it: colliding keys add refusals only. */
  lemma TrueRepliesBounded(key: KeyOf, db: Db, steps: seq<Step>, id: string, v: Time)
    requires Initial(db) && Legal(key, db, steps) && id in db.rows
    ensures var log := Reach(key, db, steps).log;
            TrueReplies(log, id, v) <= Downs(db.rows[id], OpsOn(log, id), v) + Ind(db.rows[id] < v)
  {
    ClaimsAreAtomic(key, db, steps);
    var log := Reach(key, db, steps).log;
    LogIsLedger(db.rows, log, id, v);
    ClaimLedger(db.rows[id], OpsOn(log, id), v);
  }
}
