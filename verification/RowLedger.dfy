/** The life of one job row under claims and retries, and what can be counted over it.

    Both storages change `next_fire` in exactly two ways once a row exists: a claim raises it to a
    strictly later target, a retry pulls it back to a strictly earlier instant. Everything the
    scheduler promises about single execution rests on the counting laws below. */
module RowLedger {
  import opened Basics
  import opened Schedules

  datatype RowOp = Claim(target: Time) | Retry(at: Time)

  /** The row after one storage call. */
  function ApplyOp(row: Time, op: RowOp): Time {
    match op
    case Claim(v) => if row < v then v else row
    case Retry(p) => if p < row then p else row
  }

  /** A claim that won: the row was strictly below its target. */
  predicate Wins(row: Time, op: RowOp) { op.Claim? && row < op.target }

  /** A retry that took effect: it pulled the row back. */
  predicate Pulls(row: Time, op: RowOp) { op.Retry? && op.at < row }

  /** The row after a sequence of calls. */
  function After(row: Time, ops: seq<RowOp>): Time {
    if ops == [] then row else ApplyOp(After(row, ops[..|ops| - 1]), ops[|ops| - 1])
  }

  /** The row that call `i` finds. */
  function FoundBy(row: Time, ops: seq<RowOp>, i: nat): Time
    requires i <= |ops|
  {
    After(row, ops[..i])
  }

  lemma AfterSnoc(row: Time, ops: seq<RowOp>, op: RowOp)
    ensures After(row, ops + [op]) == ApplyOp(After(row, ops), op)
  {
    assert (ops + [op])[..|ops|] == ops;
  }

  lemma AtStep(row: Time, ops: seq<RowOp>, i: nat)
    requires i < |ops|
    ensures FoundBy(row, ops, i + 1) == ApplyOp(FoundBy(row, ops, i), ops[i])
  {
    assert ops[..i + 1] == ops[..i] + [ops[i]];
    AfterSnoc(row, ops[..i], ops[i]);
  }

  // ----- Crossings of one instant --------------------------------------------------------------

  function Ind(b: bool): nat { if b then 1 else 0 }

  /** Calls that moved the row from below `v` to `v` or above. */
  function Ups(row: Time, ops: seq<RowOp>, v: Time): nat {
    if ops == [] then 0
    else var r, op := After(row, ops[..|ops| - 1]), ops[|ops| - 1];
         Ups(row, ops[..|ops| - 1], v) + Ind(r < v <= ApplyOp(r, op))
  }

  /** Calls that moved the row from `v` or above to below `v`. */
  function Downs(row: Time, ops: seq<RowOp>, v: Time): nat {
    if ops == [] then 0
    else var r, op := After(row, ops[..|ops| - 1]), ops[|ops| - 1];
         Downs(row, ops[..|ops| - 1], v) + Ind(ApplyOp(r, op) < v <= r)
  }

  /** Successful claims with target `v`. */
  function WinsOn(row: Time, ops: seq<RowOp>, v: Time): nat {
    if ops == [] then 0
    else var r, op := After(row, ops[..|ops| - 1]), ops[|ops| - 1];
         WinsOn(row, ops[..|ops| - 1], v) + Ind(Wins(r, op) && op.target == v)
  }

  /** The crossings of every instant telescope. */
  lemma {:induction false} CrossingsTelescope(row: Time, ops: seq<RowOp>, v: Time)
    ensures Ups(row, ops, v) - Downs(row, ops, v) == Ind(v <= After(row, ops)) - Ind(v <= row)
  {
    if ops != [] { CrossingsTelescope(row, ops[..|ops| - 1], v); }
  }

  lemma {:induction false} WinsOnAreUps(row: Time, ops: seq<RowOp>, v: Time)
    ensures WinsOn(row, ops, v) <= Ups(row, ops, v)
  {
    if ops != [] { WinsOnAreUps(row, ops[..|ops| - 1], v); }
  }

  /** The claim ledger: claims on one target outnumber the pull-backs across it by at most one, and
      not at all when the row started at or above the target. */
  lemma ClaimLedger(row: Time, ops: seq<RowOp>, v: Time)
    ensures WinsOn(row, ops, v) <= Downs(row, ops, v) + Ind(row < v)
  {
    CrossingsTelescope(row, ops, v);
    WinsOnAreUps(row, ops, v);
  }

  /** Between two successful claims on one target some retry pulled the row from the target or
      above to below it. */
  lemma RepeatNeedsPullBack(row: Time, ops: seq<RowOp>, i: nat, j: nat)
    requires i < j < |ops|
    requires Wins(FoundBy(row, ops, i), ops[i]) && Wins(FoundBy(row, ops, j), ops[j])
    requires ops[i].target == ops[j].target
    ensures exists k :: i < k < j && Pulls(FoundBy(row, ops, k), ops[k])
                        && ops[k].at < ops[i].target <= FoundBy(row, ops, k)
  {
    AtStep(row, ops, i);
    FirstPullBack(row, ops, i + 1, j, ops[i].target);
  }

  lemma {:induction false} FirstPullBack(row: Time, ops: seq<RowOp>, i: nat, j: nat, v: Time)
    requires i <= j <= |ops|
    requires FoundBy(row, ops, j) < v <= FoundBy(row, ops, i)
    ensures exists k :: i <= k < j && Pulls(FoundBy(row, ops, k), ops[k]) && ops[k].at < v <= FoundBy(row, ops, k)
    decreases j - i
  {
    AtStep(row, ops, i);
    if v <= FoundBy(row, ops, i + 1) { FirstPullBack(row, ops, i + 1, j, v); }
  }

  ghost predicate RetryFree(row: Time, ops: seq<RowOp>) {
    forall k :: 0 <= k < |ops| ==> !Pulls(FoundBy(row, ops, k), ops[k])
  }

  /** Without effective retries the targets of successful claims strictly increase. */
  lemma {:induction false} TargetsAscend(row: Time, ops: seq<RowOp>, i: nat, j: nat)
    requires i < j < |ops| && RetryFree(row, ops)
    requires Wins(FoundBy(row, ops, i), ops[i]) && Wins(FoundBy(row, ops, j), ops[j])
    ensures ops[i].target < ops[j].target
  {
    AtStep(row, ops, i);
    if FoundBy(row, ops, j) < ops[i].target {
      FirstPullBack(row, ops, i + 1, j, ops[i].target);
    }
  }

  /** The row stays above an instant that every later retry respects. */
  lemma {:induction false} StaysAbove(row: Time, ops: seq<RowOp>, w: Time)
    requires row > w
    requires forall k :: 0 <= k < |ops| && ops[k].Retry? ==> ops[k].at > w
    ensures After(row, ops) > w
  {
    if ops != [] { StaysAbove(row, ops[..|ops| - 1], w); }
  }

  // ----- One execution per gap -----------------------------------------------------------------

  /** A claim issued by a tick: the target is the first fire after the tick's own clock reading. */
  ghost predicate IssuedAt(s: Schedule, op: RowOp, now: Time) {
    op.Claim? && s.Next(now) == Some(op.target)
  }

  /** Two clock readings see the same upcoming fire. */
  ghost predicate SameGap(s: Schedule, a: Time, b: Time) {
    var earlier := s.Next(Min(a, b));
    earlier.Some? && Max(a, b) < earlier.value
  }

  /** For a grid, of all claims whose clocks read instants of one inter-fire gap, at most one wins,
      whatever the snapshots, clock skews and order, unless a retry pulled the row back in between. */
  lemma OneWinPerGap(s: Schedule, row: Time, ops: seq<RowOp>, i: nat, j: nat, a: Time, b: Time)
    requires Grid(s) && i < j < |ops| && RetryFree(row, ops)
    requires IssuedAt(s, ops[i], a) && IssuedAt(s, ops[j], b) && SameGap(s, a, b)
    ensures !(Wins(FoundBy(row, ops, i), ops[i]) && Wins(FoundBy(row, ops, j), ops[j]))
  {
    assert s.Next(a) == s.Next(b);
    if Wins(FoundBy(row, ops, i), ops[i]) && Wins(FoundBy(row, ops, j), ops[j]) {
      TargetsAscend(row, ops, i, j);
    }
  }

  /** Two nodes that act on one stale snapshot of an interval job exclude each other, in both
      orders, exactly when their clocks agree; otherwise the earlier clock going first lets both
      win. This is why the law above asks for a grid. */
  lemma IntervalExclusion(d: int, row: Time, a: Time, b: Time)
    requires d > 0 && row < a + d && row < b + d
    ensures var s := Every(d);
            var first, second := [Claim(a + d), Claim(b + d)], [Claim(b + d), Claim(a + d)];
            && IssuedAt(s, Claim(a + d), a) && IssuedAt(s, Claim(b + d), b)
            && (WinCount(row, first) == 2 <==> a < b)
            && (WinCount(row, second) == 2 <==> b < a)
            && (WinCount(row, first) == 1 && WinCount(row, second) == 1 <==> a == b)
  {
    WinCountPair(row, a + d, b + d);
    WinCountPair(row, b + d, a + d);
  }

  lemma WinCountPair(row: Time, v: Time, w: Time)
    ensures WinCount(row, [Claim(v), Claim(w)]) ==
            Ind(row < v) + Ind(ApplyOp(row, Claim(v)) < w)
  {
    var ops := [Claim(v), Claim(w)];
    assert ops[..1] == [Claim(v)] && [Claim(v)][..0] == [];
    AfterSnoc(row, [], Claim(v));
    assert [] + [Claim(v)] == [Claim(v)];
    assert WinCount(row, [Claim(v)]) == Ind(row < v);
  }

  // ----- All targets together ------------------------------------------------------------------

  function WinCount(row: Time, ops: seq<RowOp>): nat {
    if ops == [] then 0
    else var r, op := After(row, ops[..|ops| - 1]), ops[|ops| - 1];
         WinCount(row, ops[..|ops| - 1]) + Ind(Wins(r, op))
  }

  function PullCount(row: Time, ops: seq<RowOp>): nat {
    if ops == [] then 0
    else var r, op := After(row, ops[..|ops| - 1]), ops[|ops| - 1];
         PullCount(row, ops[..|ops| - 1]) + Ind(Pulls(r, op))
  }

  /** The distinct targets won so far. */
  function Targets(row: Time, ops: seq<RowOp>): set<Time> {
    if ops == [] then {}
    else var r, op := After(row, ops[..|ops| - 1]), ops[|ops| - 1];
         Targets(row, ops[..|ops| - 1]) + if Wins(r, op) then {op.target} else {}
  }

  function UpTo(vs: set<Time>, hi: Time): set<Time> { set v | v in vs && v <= hi }

  function Within(vs: set<Time>, lo: Time, hi: Time): set<Time> { set v | v in vs && lo < v <= hi }

  /** Levels that effective retries crossed beyond the first: 0 as long as each retry pulls the row
      back across at most one target claimed before. */
  function Excess(row: Time, ops: seq<RowOp>): nat {
    if ops == [] then 0
    else var r, op := After(row, ops[..|ops| - 1]), ops[|ops| - 1];
         Excess(row, ops[..|ops| - 1])
         + if Pulls(r, op) then Max(|Within(Targets(row, ops[..|ops| - 1]), op.at, r)| - 1, 0) else 0
  }

  lemma WinsSnoc(row: Time, ops: seq<RowOp>, op: RowOp)
    ensures WinCount(row, ops + [op]) == WinCount(row, ops) + Ind(Wins(After(row, ops), op))
    ensures PullCount(row, ops + [op]) == PullCount(row, ops) + Ind(Pulls(After(row, ops), op))
  {
    assert (ops + [op])[..|ops|] == ops;
  }

  lemma LedgerSnoc(row: Time, ops: seq<RowOp>, op: RowOp)
    ensures Targets(row, ops + [op]) == Targets(row, ops) + if Wins(After(row, ops), op) then {op.target} else {}
    ensures Excess(row, ops + [op]) == Excess(row, ops)
              + if Pulls(After(row, ops), op)
                then Max(|Within(Targets(row, ops), op.at, After(row, ops))| - 1, 0) else 0
  {
    assert (ops + [op])[..|ops|] == ops;
  }

  /** Over any sequence of calls the successful claims number at most the distinct targets still at
      or below the row, plus the effective retries, plus the excess levels those crossed. */
  lemma {:induction false} WinsBounded(row: Time, ops: seq<RowOp>)
    ensures WinCount(row, ops) <=
            |UpTo(Targets(row, ops), After(row, ops))| + PullCount(row, ops) + Excess(row, ops)
  {
    if ops != [] {
      var before, op := ops[..|ops| - 1], ops[|ops| - 1];
      WinsBounded(row, before);
      var r, ts := After(row, before), Targets(row, before);
      if Wins(r, op) {
        SubsetCard(UpTo(ts, r) + {op.target}, UpTo(Targets(row, ops), op.target));
      } else if Pulls(r, op) {
        assert UpTo(ts, r) == UpTo(ts, op.at) + Within(ts, op.at, r);
      } else {
        assert op.Claim? ==> After(row, ops) == r;
      }
    }
  }

  lemma WinsBoundedByTargets(row: Time, ops: seq<RowOp>)
    ensures WinCount(row, ops) <= |Targets(row, ops)| + PullCount(row, ops) + Excess(row, ops)
  {
    WinsBounded(row, ops);
    SubsetCard(UpTo(Targets(row, ops), After(row, ops)), Targets(row, ops));
  }

  /** What one more call does to the counts. */
  lemma CountsSnoc(row: Time, ops: seq<RowOp>, op: RowOp)
    ensures After(row, ops + [op]) == ApplyOp(After(row, ops), op)
    ensures WinCount(row, ops + [op]) == WinCount(row, ops) + Ind(Wins(After(row, ops), op))
    ensures PullCount(row, ops + [op]) == PullCount(row, ops) + Ind(Pulls(After(row, ops), op))
    ensures Targets(row, ops + [op]) == Targets(row, ops) + if Wins(After(row, ops), op) then {op.target} else {}
    ensures Excess(row, ops + [op]) == Excess(row, ops)
              + if Pulls(After(row, ops), op)
                then Max(|Within(Targets(row, ops), op.at, After(row, ops))| - 1, 0) else 0
  {
    AfterSnoc(row, ops, op);
    WinsSnoc(row, ops, op);
    LedgerSnoc(row, ops, op);
  }

  /** The excess term cannot be dropped: here one late retry crosses two targets, both are claimed a second
      time, and the bound is attained with every term. */
  lemma LateRetryWitness()
    ensures var ops := [] + [Claim(10)] + [Claim(20)] + [Retry(5)] + [Claim(10)] + [Claim(20)];
            && WinCount(0, ops) == 4 && PullCount(0, ops) == 1 && Excess(0, ops) == 1
            && UpTo(Targets(0, ops), After(0, ops)) == {10, 20}
  {
    var ops: seq<RowOp> := [];
    CountsSnoc(0, ops, Claim(10));
    CountsSnoc(0, ops + [Claim(10)], Claim(20));
    var two := ops + [Claim(10)] + [Claim(20)];
    assert Targets(0, two) == {10, 20} && Within({10, 20}, 5, 20) == {10, 20};
    CountsSnoc(0, two, Retry(5));
    CountsSnoc(0, two + [Retry(5)], Claim(10));
    CountsSnoc(0, two + [Retry(5)] + [Claim(10)], Claim(20));
    assert UpTo({10, 20}, 20) == {10, 20};
  }
}
