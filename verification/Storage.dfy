/** storage.go: the job table, and MemoryStorage as the object that updates it in place. */
module Storage {
  import opened Basics
  import opened Jobs
  import opened RowLedger
  import opened Sorting

  /** `schedule` and `kind` are the persisted form of the schedule. */
  datatype MemJob = MemJob(id: string, name: string, next: Time, schedule: string, kind: string, locked: bool)

  datatype DueJob = DueJob(id: string, name: string, fire: Time, expr: string, kind: string)

  /** `None` times are Go's zero time. */
  datatype RunRecord = RunRecord(jobID: string, fire: Time, startedAt: Option<Time>, finishedAt: Option<Time>,
                                 nodeID: string, attempt: int, outcome: Outcome, error: string)

  datatype StorageError = NilJob | JobNotFound

  type Rows = map<string, MemJob>

  function Project(j: MemJob): DueJob { DueJob(j.id, j.name, j.next, j.schedule, j.kind) }

  // ----- The table as a value ------------------------------------------------------------------

  /** Rows are keyed by their own name and have distinct ids. */
  ghost predicate WellKeyed(rows: Rows) {
    && (forall n :: n in rows ==> rows[n].name == n)
    && (forall m, n :: m in rows && n in rows && rows[m].id == rows[n].id ==> m == n)
  }

  ghost predicate HasId(rows: Rows, id: string, name: string) {
    name in rows && rows[name].id == id
  }

  /** The name of the row with this id. */
  ghost function Named(rows: Rows, id: string): Option<string> {
    if name :| HasId(rows, id, name) then Some(name) else None
  }

  lemma NamedIs(rows: Rows, id: string, name: string)
    requires WellKeyed(rows) && HasId(rows, id, name)
    ensures Named(rows, id) == Some(name)
  {
  }

  /** One call on a row; a locked row refuses claims. */
  function CallRow(j: MemJob, op: RowOp): MemJob {
    if j.locked && op.Claim? then j else j.(next := ApplyOp(j.next, op))
  }

  /** The call on the row with this id, if there is one. */
  ghost function CallRows(rows: Rows, id: string, op: RowOp): Rows {
    match Named(rows, id)
    case None => rows
    case Some(n) => rows[n := CallRow(rows[n], op)]
  }

  predicate ClaimWins(j: MemJob, target: Time) { !j.locked && Wins(j.next, Claim(target)) }

  lemma CallKeepsKeys(rows: Rows, id: string, op: RowOp)
    requires WellKeyed(rows)
    ensures WellKeyed(CallRows(rows, id, op)) && CallRows(rows, id, op).Keys == rows.Keys
    ensures forall n :: n in rows ==> CallRows(rows, id, op)[n].id == rows[n].id
    ensures forall n :: n in rows && rows[n].id != id ==> CallRows(rows, id, op)[n] == rows[n]
  {
    var after, name := CallRows(rows, id, op), Named(rows, id);
    if name.Some? {
      assert HasId(rows, id, name.value) && after.Keys == rows.Keys;
      assert forall n :: n in rows ==> after[n].id == rows[n].id && after[n].name == rows[n].name;
    }
  }

  /** A sequence of calls on the table, each with the id it is addressed to. */
  ghost function CallAll(rows: Rows, calls: seq<(string, RowOp)>): Rows {
    if calls == [] then rows
    else
      var (id, op) := calls[|calls| - 1];
      CallRows(CallAll(rows, calls[..|calls| - 1]), id, op)
  }

  function OpsFor(calls: seq<(string, RowOp)>, id: string): seq<RowOp> {
    if calls == [] then []
    else
      var (i, op) := calls[|calls| - 1];
      OpsFor(calls[..|calls| - 1], id) + if i == id then [op] else []
  }

  /** The row of an unlocked job lives exactly the life the ledger describes for the calls on its id: the
      ledger's laws are laws about this table. */
  lemma {:induction false} TableFollowsLedger(rows: Rows, calls: seq<(string, RowOp)>, name: string)
    requires WellKeyed(rows) && name in rows && !rows[name].locked
    ensures var after := CallAll(rows, calls);
            && WellKeyed(after) && name in after && after[name].id == rows[name].id && !after[name].locked
            && after[name].next == After(rows[name].next, OpsFor(calls, rows[name].id))
  {
    if calls != [] {
      var before := calls[..|calls| - 1];
      var (id, op) := calls[|calls| - 1];
      TableFollowsLedger(rows, before, name);
      var mid := CallAll(rows, before);
      CallKeepsKeys(mid, id, op);
      if id == rows[name].id {
        NamedIs(mid, id, name);
        AfterSnoc(rows[name].next, OpsFor(before, id), op);
      } else {
        assert OpsFor(calls, rows[name].id) == OpsFor(before, rows[name].id);
      }
    }
  }

  // ----- Due rows in order ---------------------------------------------------------------------

  /** The sort key comparison of FetchDue: later fire, or same fire and greater name. */
  predicate Later(a: DueJob, b: DueJob) {
    a.fire > b.fire || (a.fire == b.fire && Less(b.name, a.name))
  }

  lemma LaterIsPreorder()
    ensures Preorder(Later)
  {
    forall x, y | Later(x, y) ensures !Later(y, x) {
      if Less(y.name, x.name) && Less(x.name, y.name) {
        LessTransitive(y.name, x.name, y.name);
        LessIrreflexive(y.name);
      }
    }
    forall x, y, z | !Later(x, y) && !Later(y, z) ensures !Later(x, z) {
      if x.fire == y.fire == z.fire {
        LessTotal(x.name, y.name);
        LessTotal(y.name, z.name);
        if Less(z.name, x.name) {
          if Less(x.name, y.name) { LessTransitive(z.name, x.name, y.name); }
        }
      }
    }
  }

  lemma LaterTotal(a: DueJob, b: DueJob)
    ensures Later(a, b) || Later(b, a) || (a.fire == b.fire && a.name == b.name)
  {
    LessTotal(a.name, b.name);
  }

  /** `s` lists exactly the rows due at `now`, each once, oldest fire first and then by name. */
  ghost predicate Listing(rows: Rows, now: Time, s: seq<DueJob>) {
    && (forall i, j :: 0 <= i < j < |s| ==> Later(s[j], s[i]))
    && (forall d :: d in s ==> d.name in rows && d == Project(rows[d.name]) && d.fire <= now)
    && (forall n :: n in rows && rows[n].next <= now ==> Project(rows[n]) in s)
  }

  /** A limit of zero or less stands for 32. */
  function Limit(limit: int): nat { if limit <= 0 then 32 else limit }

  function Take<T>(s: seq<T>, k: nat): seq<T> { s[..Min(k, |s|)] }

  /** What FetchDue may return: the first `limit` entries of the listing. */
  ghost predicate IsFetch(rows: Rows, now: Time, limit: int, out: seq<DueJob>) {
    exists s :: Listing(rows, now, s) && out == Take(s, Limit(limit))
  }

  lemma {:induction false} ListingUnique(rows: Rows, now: Time, s: seq<DueJob>, t: seq<DueJob>)
    requires WellKeyed(rows) && Listing(rows, now, s) && Listing(rows, now, t)
    ensures s == t
  {
    if |s| <= |t| { ListingPrefix(rows, now, s, t, |s|); } else { ListingPrefix(rows, now, t, s, |t|); }
    if |s| <= |t| { SameLength(rows, now, s, t); } else { SameLength(rows, now, t, s); }
  }

  lemma {:induction false} ListingPrefix(rows: Rows, now: Time, s: seq<DueJob>, t: seq<DueJob>, k: nat)
    requires WellKeyed(rows) && Listing(rows, now, s) && Listing(rows, now, t) && k <= |s| && k <= |t|
    ensures s[..k] == t[..k]
  {
    if k > 0 {
      ListingPrefix(rows, now, s, t, k - 1);
      SameEntry(rows, now, s, t, k - 1);
      assert s[..k] == s[..k - 1] + [s[k - 1]] && t[..k] == t[..k - 1] + [t[k - 1]];
    }
  }

  /** With equal prefixes, the next entries of two listings agree: neither can come before the other. */
  lemma SameEntry(rows: Rows, now: Time, s: seq<DueJob>, t: seq<DueJob>, k: nat)
    requires WellKeyed(rows) && Listing(rows, now, s) && Listing(rows, now, t) && k < |s| && k < |t|
    requires s[..k] == t[..k]
    ensures s[k] == t[k]
  {
    NotBefore(rows, now, s, t, k);
    NotBefore(rows, now, t, s, k);
    LaterTotal(s[k], t[k]);
    assert s[k] in s && t[k] in t;
  }

  lemma NotBefore(rows: Rows, now: Time, s: seq<DueJob>, t: seq<DueJob>, k: nat)
    requires WellKeyed(rows) && Listing(rows, now, s) && Listing(rows, now, t) && k < |s| && k < |t|
    requires s[..k] == t[..k]
    ensures !Later(t[k], s[k])
  {
    LaterIsPreorder();
    assert s[k] in s;
    var name := s[k].name;
    assert Project(rows[name]) in t;
    NoRepeat(rows, now, s, k);
    InRest(t, k, s[k]);
    var j :| k <= j < |t| && t[j] == s[k];
    if j > k { assert Later(t[j], t[k]); }
  }

  lemma InRest(t: seq<DueJob>, k: nat, d: DueJob)
    requires k <= |t| && d in t && d !in t[..k]
    ensures exists j :: k <= j < |t| && t[j] == d
  {
    assert t == t[..k] + t[k..];
    var i :| 0 <= i < |t[k..]| && t[k..][i] == d;
    assert t[k + i] == d;
  }

  lemma SameLength(rows: Rows, now: Time, s: seq<DueJob>, t: seq<DueJob>)
    requires WellKeyed(rows) && Listing(rows, now, s) && Listing(rows, now, t) && s <= t
    ensures |s| == |t|
  {
    if |s| < |t| {
      var d := t[|s|];
      assert d in t;
      NoRepeat(rows, now, t, |s|);
    }
  }

  lemma NoRepeat(rows: Rows, now: Time, t: seq<DueJob>, k: nat)
    requires Listing(rows, now, t) && k < |t|
    ensures t[k] !in t[..k]
  {
    LaterIsPreorder();
    forall i | 0 <= i < k ensures t[i] != t[k] {
      assert Later(t[k], t[i]);
    }
  }

  /** FetchDue is a function of the table: the order in which the map is walked does not matter. */
  lemma FetchCanonical(rows: Rows, now: Time, limit: int, a: seq<DueJob>, b: seq<DueJob>)
    requires WellKeyed(rows) && IsFetch(rows, now, limit, a) && IsFetch(rows, now, limit, b)
    ensures a == b
  {
    var s :| Listing(rows, now, s) && a == Take(s, Limit(limit));
    var t :| Listing(rows, now, t) && b == Take(t, Limit(limit));
    ListingUnique(rows, now, s, t);
  }

  /** The one fetch of a table. */
  ghost function FetchOf(rows: Rows, now: Time, limit: int): seq<DueJob> {
    if exists out :: IsFetch(rows, now, limit, out) then (var out :| IsFetch(rows, now, limit, out); out) else []
  }

  /** Read off the table: each entry tells of its own row, which is due; an entry is before another if it fires earlier,
      or at the same instant with the smaller name; and due rows are missing only behind `limit` entries, of 32 if
      there is no positive limit. */
  lemma FetchIsOldest(rows: Rows, now: Time, limit: int, out: seq<DueJob>)
    requires IsFetch(rows, now, limit, out)
    ensures |out| <= if limit > 0 then limit else 32
    ensures forall i :: 0 <= i < |out| ==> out[i].name in rows && TellsRow(out[i], rows[out[i].name]) && out[i].fire <= now
    ensures forall i, j :: 0 <= i < j < |out| ==> Before(out[i].fire, out[i].name, out[j].fire, out[j].name)
    ensures forall n :: n in rows && rows[n].next <= now ==>
              || (exists i :: 0 <= i < |out| && TellsRow(out[i], rows[n]))
              || (|out| == (if limit > 0 then limit else 32)
                  && forall i :: 0 <= i < |out| ==> Before(out[i].fire, out[i].name, rows[n].next, rows[n].name))
  {
    var s :| Listing(rows, now, s) && out == Take(s, Limit(limit));
    forall i | 0 <= i < |out|
      ensures out[i].name in rows && TellsRow(out[i], rows[out[i].name]) && out[i].fire <= now
    {
      assert out[i] == s[i] && s[i] in s;
    }
    forall n | n in rows && rows[n].next <= now && !(exists i :: 0 <= i < |out| && TellsRow(out[i], rows[n]))
      ensures |out| == Limit(limit)
      ensures forall i :: 0 <= i < |out| ==> Before(out[i].fire, out[i].name, rows[n].next, rows[n].name)
    {
      var d := Project(rows[n]);
      var j :| 0 <= j < |s| && s[j] == d;
      if j < |out| { assert TellsRow(out[j], rows[n]); }
    }
  }

  predicate TellsRow(d: DueJob, j: MemJob) {
    d.id == j.id && d.name == j.name && d.fire == j.next && d.expr == j.schedule && d.kind == j.kind
  }

  predicate Before(fire: Time, name: string, fire': Time, name': string) {
    fire < fire' || (fire == fire' && Less(name, name'))
  }

  /** A sorted arrangement of the due rows, without repetition, is the listing. */
  lemma SortedIsListing(rows: Rows, now: Time, found: seq<DueJob>, s: seq<DueJob>)
    requires WellKeyed(rows) && multiset(found) == multiset(s) && Sorted(s, Later)
    requires forall i, j :: 0 <= i < j < |found| ==> found[i].name != found[j].name
    requires forall d :: d in found ==> d.name in rows && d == Project(rows[d.name]) && d.fire <= now
    requires forall n :: n in rows && rows[n].next <= now ==> Project(rows[n]) in found
    ensures Listing(rows, now, s)
  {
    forall d ensures d in s <==> d in found {
      assert d in multiset(s) <==> d in multiset(found);
    }
    forall i, j | 0 <= i < j < |s|
      ensures Later(s[j], s[i])
    {
      LaterTotal(s[i], s[j]);
      if s[i].name == s[j].name {
        assert s[i] in s && s[j] in s;
        assert s[i] == s[j];
        TwiceInSeq(s, i, j);
        OnceInSeq(found, s[i]);
      }
    }
  }

  lemma {:induction false} OnceInSeq(s: seq<DueJob>, d: DueJob)
    requires forall i, j :: 0 <= i < j < |s| ==> s[i].name != s[j].name
    ensures multiset(s)[d] <= 1
  {
    if s != [] {
      var init, last := s[..|s| - 1], s[|s| - 1];
      assert s == init + [last];
      OnceInSeq(init, d);
      if d == last {
        assert d !in init;
        assert d !in multiset(init);
      }
    }
  }
}
