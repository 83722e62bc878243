/** The executions of one job on one node as a schedule of beginnings and ends: when the recorded attempts are the streak
    language of their results, and when overlapping executions break it. */
module Overlap {
  import opened Basics
  import opened Jobs
  import opened Execution

  /** Execution `x` begins or ends. */
  datatype Move = Begin(x: nat) | End(x: nat, failed: bool)

  /** The job's attempt counter, the attempts counted for the executions that run, and what was recorded. */
  datatype Course = Course(counter: nat, running: map<nat, nat>, log: seq<Attempt>)

  function Step(max: int, a: Course, move: Move): Course {
    match move
    case Begin(x) => a.(counter := a.counter + 1, running := a.running[x := a.counter + 1])
    case End(x, failed) =>
      if x !in a.running then a
      else
        var number := a.running[x];
        Course(if AsksRetry(failed, number, max) then a.counter else 0, a.running - {x},
               a.log + [Attempt(number, OutcomeOf(failed, number, max))])
  }

  function Play(max: int, c: nat, moves: seq<Move>): Course {
    if moves == [] then Course(c, map[], [])
    else Step(max, Play(max, c, moves[..|moves| - 1]), moves[|moves| - 1])
  }

  lemma PlaySnoc(max: int, c: nat, moves: seq<Move>, move: Move)
    ensures Play(max, c, moves + [move]) == Step(max, Play(max, c, moves), move)
  {
    assert (moves + [move])[..|moves|] == moves;
  }

  /** Which executions run does not depend on results. */
  function Busy(moves: seq<Move>): set<nat> {
    if moves == [] then {}
    else
      match moves[|moves| - 1]
      case Begin(x) => Busy(moves[..|moves| - 1]) + {x}
      case End(x, _) => Busy(moves[..|moves| - 1]) - {x}
  }

  /** No execution begins while another one runs. */
  predicate NoOverlap(moves: seq<Move>) {
    moves == [] ||
    var before := moves[..|moves| - 1];
    NoOverlap(before) && (moves[|moves| - 1].Begin? ==> Busy(before) == {})
  }

  /** No execution begins while it runs itself. */
  predicate Proper(moves: seq<Move>) {
    moves == [] ||
    var before := moves[..|moves| - 1];
    Proper(before) && (moves[|moves| - 1].Begin? ==> moves[|moves| - 1].x !in Busy(before))
  }

  lemma {:induction false} BusyRuns(max: int, c: nat, moves: seq<Move>)
    ensures Play(max, c, moves).running.Keys == Busy(moves)
  {
    if moves != [] { BusyRuns(max, c, moves[..|moves| - 1]); }
  }

  /** Which attempts failed, as their outcomes tell. */
  function FailuresOf(attempts: seq<Attempt>): seq<bool> {
    seq(|attempts|, i requires 0 <= i < |attempts| => attempts[i].outcome != Succeeded)
  }

  lemma {:induction false} OutcomesTell(c: nat, fails: seq<bool>, max: int)
    ensures FailuresOf(Streaks(c, fails, max)) == fails
  {
    StreaksLength(c, fails, max);
    if fails != [] { OutcomesTell(c, fails[..|fails| - 1], max); }
  }

  /** The recorded attempts are the streaks of their own results. */
  predicate InStreaks(c: nat, log: seq<Attempt>, max: int) { log == Streaks(c, FailuresOf(log), max) }

  // ----- Without overlap -----------------------------------------------------------------------

  /** The counter is where the log leaves it, one further while an execution runs; and at most one runs. */
  predicate Orderly(c: nat, a: Course, max: int) {
    var at := CounterAfter(c, FailuresOf(a.log), max);
    && InStreaks(c, a.log, max)
    && a.counter == at + |a.running.Keys|
    && |a.running.Keys| <= 1
    && forall x :: x in a.running ==> a.running[x] == at + 1
  }

  lemma FailuresSnoc(log: seq<Attempt>, attempt: Attempt)
    ensures FailuresOf(log + [attempt]) == FailuresOf(log) + [attempt.outcome != Succeeded]
  {
  }

  lemma {:induction false} StreaksSnoc(c: nat, fails: seq<bool>, failed: bool, max: int)
    ensures CounterAfter(c, fails + [failed], max) == NextCounter(CounterAfter(c, fails, max), failed, max)
    ensures var number := CounterAfter(c, fails, max) + 1;
            Streaks(c, fails + [failed], max) == Streaks(c, fails, max) + [Attempt(number, OutcomeOf(failed, number, max))]
  {
    var all := fails + [failed];
    assert all[..|all| - 1] == fails && all[|all| - 1] == failed;
  }

  lemma {:induction false} BeginIsOrderly(c: nat, a: Course, x: nat, max: int)
    requires Orderly(c, a, max) && a.running == map[]
    ensures Orderly(c, Step(max, a, Begin(x)), max)
  {
    assert Step(max, a, Begin(x)).running.Keys == {x};
  }

  /** The attempt that the counter calls for keeps the log in streaks. */
  lemma {:induction false} NextAttempt(c: nat, log: seq<Attempt>, failed: bool, max: int)
    requires InStreaks(c, log, max)
    ensures var number := CounterAfter(c, FailuresOf(log), max) + 1;
            var more := log + [Attempt(number, OutcomeOf(failed, number, max))];
            InStreaks(c, more, max) && CounterAfter(c, FailuresOf(more), max) == NextCounter(number - 1, failed, max)
  {
    var number := CounterAfter(c, FailuresOf(log), max) + 1;
    FailuresSnoc(log, Attempt(number, OutcomeOf(failed, number, max)));
    StreaksSnoc(c, FailuresOf(log), failed, max);
  }

  lemma {:induction false} EndIsOrderly(c: nat, a: Course, x: nat, failed: bool, max: int)
    requires Orderly(c, a, max)
    ensures Orderly(c, Step(max, a, End(x, failed)), max)
  {
    if x in a.running {
      var b := Step(max, a, End(x, failed));
      OnlyOne(a.running.Keys, x);
      assert b.running.Keys == {};
      NextAttempt(c, a.log, failed, max);
      assert b.counter == NextCounter(a.running[x] - 1, failed, max);
    }
  }

  lemma OnlyOne(xs: set<nat>, x: nat)
    requires x in xs && |xs| <= 1
    ensures xs == {x}
  {
    if y :| y in xs && y != x { SubsetCard({x, y}, xs); }
  }

  lemma {:induction false} NoOverlapIsOrderly(max: int, c: nat, moves: seq<Move>)
    requires NoOverlap(moves)
    ensures Orderly(c, Play(max, c, moves), max)
  {
    if moves == [] {
      assert FailuresOf([]) == [];
    } else {
      var before, last := moves[..|moves| - 1], moves[|moves| - 1];
      NoOverlapIsOrderly(max, c, before);
      match last {
        case Begin(x) =>
          BusyRuns(max, c, before);
          BeginIsOrderly(c, Play(max, c, before), x, max);
        case End(x, failed) => EndIsOrderly(c, Play(max, c, before), x, failed, max);
      }
    }
  }

  // ----- With overlap --------------------------------------------------------------------------

  /** The same schedule with other results. */
  function WithResults(moves: seq<Move>, failed: nat -> bool): seq<Move> {
    seq(|moves|, i requires 0 <= i < |moves| =>
      match moves[i]
      case Begin(x) => Begin(x)
      case End(x, _) => End(x, failed(x)))
  }

  lemma WithResultsSnoc(moves: seq<Move>, failed: nat -> bool)
    requires moves != []
    ensures var all := WithResults(moves, failed);
            && |all| == |moves| && all[..|moves| - 1] == WithResults(moves[..|moves| - 1], failed)
            && all[|moves| - 1] == match moves[|moves| - 1]
                                   case Begin(x) => Begin(x)
                                   case End(x, _) => End(x, failed(x))
  {
  }

  lemma {:induction false} ResultsKeepShape(moves: seq<Move>, failed: nat -> bool)
    ensures Busy(WithResults(moves, failed)) == Busy(moves)
    ensures NoOverlap(WithResults(moves, failed)) <==> NoOverlap(moves)
    ensures Proper(WithResults(moves, failed)) <==> Proper(moves)
  {
    if moves != [] {
      ResultsKeepShape(moves[..|moves| - 1], failed);
      WithResultsSnoc(moves, failed);
    }
  }

  /** Every execution succeeds. */
  predicate AllSucceed(moves: seq<Move>) { forall i :: 0 <= i < |moves| && moves[i].End? ==> !moves[i].failed }

  /** A number that no streak of successes has at this place: the first is c + 1, all others 1. */
  predicate Odd(c: nat, log: seq<Attempt>, i: nat)
    requires i < |log|
  {
    log[i].number != if i == 0 then c + 1 else 1
  }

  predicate HasOdd(c: nat, log: seq<Attempt>) { exists i :: 0 <= i < |log| && Odd(c, log, i) }

  /** Some execution runs whose number will be odd whenever it is recorded. */
  predicate OddRuns(c: nat, a: Course) {
    exists x :: x in a.running && a.running[x] >= 2 && (a.running[x] == c + 1 ==> a.log != [])
  }

  /** In schedules of successes an overlap leaves an execution with an odd number running, or recorded. */
  lemma {:induction false} OverlapIsOdd(max: int, c: nat, moves: seq<Move>)
    requires Proper(moves) && !NoOverlap(moves) && AllSucceed(moves)
    ensures var a := Play(max, c, moves); OddRuns(c, a) || HasOdd(c, a.log)
  {
    var before, last := moves[..|moves| - 1], moves[|moves| - 1];
    var a, b := Play(max, c, before), Play(max, c, moves);
    if NoOverlap(before) {
      FirstOverlap(max, c, before, last.x);
    } else {
      OverlapIsOdd(max, c, before);
      BusyRuns(max, c, before);
      OddStays(max, c, a, last);
    }
  }

  /** What was odd stays so: a recorded number is never changed, and a running one is kept until it is recorded. */
  lemma {:induction false} OddStays(max: int, c: nat, a: Course, move: Move)
    requires OddRuns(c, a) || HasOdd(c, a.log)
    requires move.Begin? ==> move.x !in a.running
    ensures var b := Step(max, a, move); OddRuns(c, b) || HasOdd(c, b.log)
  {
    var b := Step(max, a, move);
    if i :| 0 <= i < |a.log| && Odd(c, a.log, i) {
      assert b.log[i] == a.log[i] && Odd(c, b.log, i);
    } else {
      var x :| x in a.running && a.running[x] >= 2 && (a.running[x] == c + 1 ==> a.log != []);
      if move.End? && move.x == x {
        assert Odd(c, b.log, |a.log|);
      } else {
        assert x in b.running && b.running[x] == a.running[x];
      }
    }
  }

  /** The first execution that begins while another runs is counted as at least the second. */
  lemma {:induction false} FirstOverlap(max: int, c: nat, moves: seq<Move>, x: nat)
    requires NoOverlap(moves) && AllSucceed(moves) && Busy(moves) != {} && x !in Busy(moves)
    ensures OddRuns(c, Step(max, Play(max, c, moves), Begin(x)))
  {
    var a := Play(max, c, moves);
    NoOverlapIsOrderly(max, c, moves);
    BusyRuns(max, c, moves);
    SuccessCounter(max, c, moves);
    var y :| y in a.running;
    SubsetCard({y}, a.running.Keys);
    assert Step(max, a, Begin(x)).running[x] == a.counter + 1;
  }

  /** After a success the counter starts again. */
  lemma {:induction false} SuccessCounter(max: int, c: nat, moves: seq<Move>)
    requires AllSucceed(moves)
    ensures var a := Play(max, c, moves);
            && (forall i :: 0 <= i < |a.log| ==> a.log[i].outcome == Succeeded)
            && CounterAfter(c, FailuresOf(a.log), max) == if a.log == [] then c else 0
  {
    if moves != [] {
      var before, last := moves[..|moves| - 1], moves[|moves| - 1];
      SuccessCounter(max, c, before);
      var a := Play(max, c, before);
      if last.End? && last.x in a.running {
        FailuresSnoc(a.log, Play(max, c, moves).log[|a.log|]);
        StreaksSnoc(c, FailuresOf(a.log), false, max);
      }
    }
  }

  /** Streaks of successes have no odd numbers. */
  lemma {:induction false} SuccessStreaks(c: nat, fails: seq<bool>, max: int)
    requires forall i :: 0 <= i < |fails| ==> !fails[i]
    ensures !HasOdd(c, Streaks(c, fails, max)) && CounterAfter(c, fails, max) == if fails == [] then c else 0
  {
    StreaksLength(c, fails, max);
    if fails != [] {
      var before := fails[..|fails| - 1];
      SuccessStreaks(c, before, max);
      StreaksLength(c, before, max);
      var all, some := Streaks(c, fails, max), Streaks(c, before, max);
      forall i | 0 <= i < |all| ensures !Odd(c, all, i) {
        if i < |some| { assert all[i] == some[i] && !Odd(c, some, i); }
      }
    }
  }

  /** For a schedule whose executions all end: the recorded attempts are streaks whatever the results are, exactly if
      no execution begins while another one runs. */
  lemma {:induction false} StreaksIffNoOverlap(max: int, c: nat, moves: seq<Move>)
    requires Proper(moves) && Busy(moves) == {}
    ensures (forall failed: nat -> bool :: InStreaks(c, Play(max, c, WithResults(moves, failed)).log, max))
            <==> NoOverlap(moves)
  {
    if NoOverlap(moves) {
      forall failed: nat -> bool ensures InStreaks(c, Play(max, c, WithResults(moves, failed)).log, max) {
        ResultsKeepShape(moves, failed);
        NoOverlapIsOrderly(max, c, WithResults(moves, failed));
      }
    } else {
      OverlapBreaks(max, c, moves);
    }
  }

  /** With overlap it is enough that every handler succeeds. */
  lemma {:induction false} OverlapBreaks(max: int, c: nat, moves: seq<Move>)
    requires Proper(moves) && Busy(moves) == {} && !NoOverlap(moves)
    ensures !InStreaks(c, Play(max, c, WithResults(moves, _ => false)).log, max)
  {
    var all := WithResults(moves, _ => false);
    ResultsKeepShape(moves, _ => false);
    OverlapIsOdd(max, c, all);
    BusyRuns(max, c, all);
    SuccessCounter(max, c, all);
    var a := Play(max, c, all);
    SuccessStreaks(c, FailuresOf(a.log), max);
  }
}
