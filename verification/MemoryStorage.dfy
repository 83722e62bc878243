/** storage.go: MemoryStorage, the in-memory table that its methods update in place. */
module MemoryStorageModule {
  import opened Basics
  import opened Jobs
  import opened RowLedger
  import opened Sorting
  import opened Storage

  // ----- Generated ids -------------------------------------------------------------------------

  function Digit(d: nat): char
    requires d < 10
  {
    '0' + (d as char)
  }

  function Decimal(n: nat): string {
    if n < 10 then [Digit(n)] else Decimal(n / 10) + [Digit(n % 10)]
  }

  lemma {:induction false} DecimalInjective(m: nat, n: nat)
    requires Decimal(m) == Decimal(n)
    ensures m == n
  {
    DecimalNonEmpty(m / 10);
    DecimalNonEmpty(n / 10);
    var s := Decimal(m);
    assert s[|s| - 1] == Digit(m % 10) == Digit(n % 10);
    if m >= 10 && n >= 10 {
      assert s[..|s| - 1] == Decimal(m / 10) == Decimal(n / 10);
      DecimalInjective(m / 10, n / 10);
    }
  }

  lemma DecimalNonEmpty(n: nat)
    ensures |Decimal(n)| >= 1
  {
  }

  function MemId(k: nat): string { "mem-job-" + Decimal(k) }

  lemma MemIdInjective(j: nat, k: nat)
    requires MemId(j) == MemId(k)
    ensures j == k
  {
    assert MemId(j)[8..] == Decimal(j) && MemId(k)[8..] == Decimal(k);
    DecimalInjective(j, k);
  }

  /** The ids count up in decimal. */
  lemma FirstIds()
    ensures MemId(1) == "mem-job-1" && MemId(10) == "mem-job-10" && MemId(209) == "mem-job-209"
  {
    assert Decimal(10) == Decimal(1) + [Digit(0)] == "10";
    assert Decimal(20) == Decimal(2) + [Digit(0)] == "20";
    assert Decimal(209) == Decimal(20) + [Digit(9)] == "209";
  }

  /** What RecordRun stores: missing times and attempts below 1 are filled in. */
  function Completed(run: RunRecord, clock: Time): RunRecord {
    var finished := if run.finishedAt.None? then Some(clock) else run.finishedAt;
    run.(finishedAt := finished,
         startedAt := if run.startedAt.None? then finished else run.startedAt,
         attempt := Max(run.attempt, 1))
  }

  /** Every id is one of the first `last` generated ones. */
  ghost predicate Numbered(rows: Rows, last: nat) {
    forall n :: n in rows ==> exists k :: 1 <= k <= last && rows[n].id == MemId(k)
  }

  /** `found` holds the due rows outside `todo`, each once. */
  ghost predicate Collected(rows: Rows, todo: set<string>, now: Time, found: seq<DueJob>) {
    && (forall i, j :: 0 <= i < j < |found| ==> found[i].name != found[j].name)
    && (forall d :: d in found ==> d.name in rows && d.name !in todo && d == Project(rows[d.name]) && d.fire <= now)
    && (forall n :: n in rows && n !in todo && rows[n].next <= now ==> Project(rows[n]) in found)
  }

  lemma CollectOne(rows: Rows, todo: set<string>, now: Time, found: seq<DueJob>, name: string)
    requires WellKeyed(rows) && name in rows && name in todo && Collected(rows, todo, now, found)
    ensures Collected(rows, todo - {name}, now,
                      if rows[name].next <= now then found + [Project(rows[name])] else found)
  {
    assert forall i :: 0 <= i < |found| ==> found[i] in found;
  }

  class MemoryStorage {
    var jobs: map<string, MemJob>
    var runs: seq<RunRecord>
    var next: nat

    /** Rows carry their own name, and distinct ids out of those generated so far. */
    ghost predicate Valid()
      reads this
    {
      && WellKeyed(jobs)
      && Numbered(jobs, next)
    }

    lemma CallKeepsValid(op: RowOp, jobID: string)
      requires Valid()
      ensures WellKeyed(CallRows(jobs, jobID, op)) && Numbered(CallRows(jobs, jobID, op), next)
    {
      CallKeepsKeys(jobs, jobID, op);
      var rows := CallRows(jobs, jobID, op);
      forall n | n in rows ensures exists k :: 1 <= k <= next && rows[n].id == MemId(k) {
        assert rows[n].id == jobs[n].id;
      }
    }

    constructor ()
      ensures Valid() && jobs == map[] && runs == [] && next == 0
    {
      jobs, runs, next := map[], [], 0;
    }

    /** Inserts the row of a new name at its first fire; for a known name only the schedule changes.
        `None` is the nil job. */
    method EnsureJob(job: Option<(string, string, string)>, firstFire: Time) returns (r: Result<string, StorageError>)
      requires Valid()
      modifies this`jobs, this`next
      ensures Valid()
      ensures job.None? ==> r == Err(NilJob) && jobs == old(jobs) && next == old(next)
      ensures job.Some? && job.value.0 in old(jobs) ==>
                var row := old(jobs)[job.value.0];
                && r == Ok(row.id) && next == old(next)
                && jobs == old(jobs)[row.name := row.(schedule := job.value.1, kind := job.value.2)]
      ensures job.Some? && job.value.0 !in old(jobs) ==>
                && next == old(next) + 1 && r == Ok(MemId(next))
                && Named(old(jobs), MemId(next)) == None
                && jobs == old(jobs)[job.value.0 :=
                     MemJob(MemId(next), job.value.0, firstFire, job.value.1, job.value.2, false)]
    {
      if job.None? {
        return Err(NilJob);
      }
      var (name, schedule, kind) := job.value;
      if name in jobs {
        var row := jobs[name];
        jobs := jobs[name := row.(schedule := schedule, kind := kind)];
        return Ok(row.id);
      }
      next := next + 1;
      var id := MemId(next);
      forall n | n in jobs ensures jobs[n].id != id {
        var k :| 1 <= k <= old(next) && jobs[n].id == MemId(k);
        if jobs[n].id == id { MemIdInjective(k, next); }
      }
      jobs := jobs[name := MemJob(id, name, firstFire, schedule, kind, false)];
      return Ok(id);
    }

    /** Walks the map, in whatever order, for the row with this id. */
    method FindById(jobID: string) returns (found: Option<string>)
      requires Valid()
      ensures found == Named(jobs, jobID)
    {
      var todo := jobs.Keys;
      while todo != {}
        invariant todo <= jobs.Keys
        invariant forall n :: n in jobs && n !in todo ==> jobs[n].id != jobID
      {
        var name :| name in todo;
        if jobs[name].id == jobID {
          NamedIs(jobs, jobID, name);
          return Some(name);
        }
        todo := todo - {name};
      }
      return None;
    }

    method CollectDue(now: Time) returns (found: seq<DueJob>)
      requires Valid()
      ensures Collected(jobs, {}, now, found)
    {
      found := [];
      var todo := jobs.Keys;
      while todo != {}
        invariant todo <= jobs.Keys
        invariant Collected(jobs, todo, now, found)
      {
        var name :| name in todo;
        CollectOne(jobs, todo, now, found, name);
        if jobs[name].next <= now {
          found := found + [Project(jobs[name])];
        }
        todo := todo - {name};
      }
    }

    /** The `limit` least due rows by fire time, then name. */
    method FetchDue(now: Time, limit: int) returns (out: seq<DueJob>)
      requires Valid()
      ensures IsFetch(jobs, now, limit, out)
    {
      var found := CollectDue(now);
      var a := new DueJob[|found|](i requires 0 <= i < |found| => found[i]);
      assert a[..] == found;
      LaterIsPreorder();
      InsertionSort(a, Later);
      SortedIsListing(jobs, now, found, a[..]);
      out := Take(a[..], Limit(limit));
    }

    /** Raises the row to `target` if it is strictly below; the result says whether this call did it. */
    method ClaimJob(jobID: string, target: Time) returns (r: Result<bool, StorageError>)
      requires Valid()
      modifies this`jobs
      ensures Valid() && jobs == CallRows(old(jobs), jobID, Claim(target))
      ensures match Named(old(jobs), jobID)
              case None => r == Err(JobNotFound)
              case Some(n) => r == Ok(ClaimWins(old(jobs)[n], target))
    {
      CallKeepsValid(Claim(target), jobID);
      var found := FindById(jobID);
      if found.None? {
        return Err(JobNotFound);
      }
      var row := jobs[found.value];
      if row.locked {
        assert jobs == jobs[found.value := row];
        return Ok(false);
      }
      if !(row.next < target) {
        assert jobs == jobs[found.value := row];
        return Ok(false);
      }
      jobs := jobs[found.value := row.(next := target)];
      return Ok(true);
    }

    /** Pulls the row back to `retryAt` if that is strictly earlier. */
    method ScheduleRetry(jobID: string, retryAt: Time) returns (r: Result<(), StorageError>)
      requires Valid()
      modifies this`jobs
      ensures Valid() && jobs == CallRows(old(jobs), jobID, Retry(retryAt))
      ensures r == if Named(old(jobs), jobID).None? then Err(JobNotFound) else Ok(())
    {
      CallKeepsValid(Retry(retryAt), jobID);
      var found := FindById(jobID);
      if found.None? {
        return Err(JobNotFound);
      }
      var row := jobs[found.value];
      assert jobs == jobs[found.value := row];
      if retryAt < row.next {
        jobs := jobs[found.value := row.(next := retryAt)];
      }
      return Ok(());
    }

    /** Appends; two records of one attempt are both kept. `clock` is the time of the call. */
    method RecordRun(run: RunRecord, clock: Time)
      modifies this`runs
      ensures runs == old(runs) + [Completed(run, clock)]
      ensures var r := runs[|runs| - 1];
              && r == run.(startedAt := r.startedAt, finishedAt := r.finishedAt, attempt := r.attempt)
              && (run.finishedAt.Some? ==> r.finishedAt == run.finishedAt) && (run.finishedAt.None? ==> r.finishedAt == Some(clock))
              && (run.startedAt.Some? ==> r.startedAt == run.startedAt) && (run.startedAt.None? ==> r.startedAt == r.finishedAt)
              && (run.attempt >= 1 ==> r.attempt == run.attempt) && (run.attempt < 1 ==> r.attempt == 1)
    {
      var r := run;
      if r.finishedAt.None? {
        r := r.(finishedAt := Some(clock));
      }
      if r.startedAt.None? {
        r := r.(startedAt := r.finishedAt);
      }
      if r.attempt < 1 {
        r := r.(attempt := 1);
      }
      runs := runs + [r];
    }

    method Runs() returns (out: seq<RunRecord>)
      ensures out == runs
    {
      out := runs;
    }
  }
}
