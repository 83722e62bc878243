/** schedule.go and cron.go: when a job fires, and how the fires of a window are enumerated. */
module Schedules {
  import opened Basics

  /** The three schedule families. A cron expression is represented by the `Next` function of its
      parsed form, since the parser itself is a library. */
  datatype Schedule =
    | Cron(expr: string, next: Time -> Option<Time>)
    | Every(d: int)
    | At(t: Time)
  {
    /** The first fire strictly after `after`, or `None` when there is none. */
    function Next(after: Time): Option<Time> {
      match this
      case Cron(_, next) => next(after)
      case Every(d) => Some(after + d)
      case At(t) => if t > after then Some(t) else None
    }
  }

  /** The contract of the Schedule interface: fires lie strictly after the argument. */
  ghost predicate Advancing(s: Schedule) {
    forall a :: s.Next(a).Some? ==> s.Next(a).value > a
  }

  /** A schedule with fixed fire instants: everywhere between two fires the same fire comes next. */
  ghost predicate Grid(s: Schedule) {
    && Advancing(s)
    && forall a, b :: s.Next(a).Some? && a <= b < s.Next(a).value ==> s.Next(b) == s.Next(a)
  }

  /** Once a schedule has no next fire, it never has one again. */
  ghost predicate Exhaustive(s: Schedule) {
    forall a, b :: s.Next(a).None? && a <= b ==> s.Next(b).None?
  }

  ghost predicate IsFire(s: Schedule, v: Time) {
    s.Next(v - 1) == Some(v)
  }

  // ----- Concrete schedules ------------------------------------------------------------------

  /** The instants k*period + offset, a cron expression such as "every minute". */
  function Periodic(period: int, offset: int): Schedule
    requires period > 0
  {
    Cron("periodic", (a: Time) => Some(a + period - (a - offset) % period))
  }

  lemma PeriodicIsGrid(period: int, offset: int)
    requires period > 0
    ensures Grid(Periodic(period, offset)) && Exhaustive(Periodic(period, offset))
    ensures forall v :: IsFire(Periodic(period, offset), v) <==> (v - offset) % period == 0
  {
    var s := Periodic(period, offset);
    forall a, b | a <= b < s.Next(a).value
      ensures s.Next(b) == s.Next(a)
    {
      SameResidueBlock(a - offset, b - offset, period);
    }
    forall v
      ensures IsFire(s, v) <==> (v - offset) % period == 0
    {
      PreviousResidue(v - offset, period);
    }
  }

  lemma SameResidueBlock(x: int, y: int, p: int)
    requires p > 0 && x <= y < x + p - x % p
    ensures y - y % p == x - x % p
  {
    var q := x / p;
    assert x == q * p + x % p;
    Quotient(y, q, p);
  }

  lemma PreviousResidue(x: int, p: int)
    requires p > 0
    ensures (x - 1) % p == p - 1 <==> x % p == 0
  {
    var q := x / p;
    assert x == q * p + x % p;
    if x % p == 0 {
      assert x - 1 == (q - 1) * p + (p - 1);
      Quotient(x - 1, q - 1, p);
    } else {
      Quotient(x - 1, q, p);
    }
  }

  /** A one-shot schedule is a grid with one fire. */
  lemma AtIsGrid(t: Time)
    ensures Grid(At(t)) && Exhaustive(At(t))
    ensures forall v :: IsFire(At(t), v) <==> v == t
  {
  }

  /** An interval schedule is never a grid: its fires move with the instant it is asked at. */
  lemma EveryIsNotGrid(d: int)
    requires d > 1
    ensures Advancing(Every(d)) && !Grid(Every(d))
  {
    var s := Every(d);
    assert s.Next(0) == Some(d) && s.Next(1) == Some(d + 1);
  }

  // ----- Fires of a grid ---------------------------------------------------------------------

  lemma NextIsFire(s: Schedule, a: Time)
    requires Grid(s) && s.Next(a).Some?
    ensures IsFire(s, s.Next(a).value)
  {
    assert a <= s.Next(a).value - 1 < s.Next(a).value;
  }

  /** `Next` finds the least fire after its argument. */
  lemma NextIsLeast(s: Schedule, a: Time, w: Time)
    requires Grid(s) && Exhaustive(s) && IsFire(s, w) && a < w
    ensures s.Next(a).Some? && a < s.Next(a).value <= w
  {
    assert a <= w - 1;
  }

  /** The distinct upcoming fires seen from [lo, hi]: one for each inter-fire gap the window touches. */
  ghost function GapEnds(s: Schedule, lo: Time, hi: Time): set<Time> {
    set a | lo <= a <= hi && s.Next(a).Some? :: s.Next(a).value
  }

  /** The block of a periodic schedule that an instant lies in. */
  function Block(a: Time, period: int, offset: int): int
    requires period > 0
  {
    (a - offset) / period
  }

  /** The fire that ends block `q`. */
  function BlockEnd(q: int, period: int, offset: int): Time { (q + 1) * period + offset }

  function BlockEnds(lo: int, hi: int, period: int, offset: int): set<Time> {
    set q | lo <= q <= hi :: BlockEnd(q, period, offset)
  }

  lemma NextEndsBlock(a: Time, period: int, offset: int)
    requires period > 0
    ensures Periodic(period, offset).Next(a) == Some(BlockEnd(Block(a, period, offset), period, offset))
  {
    var q := Block(a, period, offset);
    assert a - offset == q * period + (a - offset) % period;
    assert (q + 1) * period == q * period + period;
  }

  lemma BlockStart(q: int, period: int, offset: int)
    requires period > 0
    ensures Block(q * period + offset, period, offset) == q
  {
    Quotient(q * period, q, period);
  }

  lemma BlockMonotone(a: Time, b: Time, period: int, offset: int)
    requires period > 0 && a <= b
    ensures Block(a, period, offset) <= Block(b, period, offset)
  {
    var p, q := Block(a, period, offset), Block(b, period, offset);
    assert a - offset == p * period + (a - offset) % period;
    assert b - offset == q * period + (b - offset) % period;
    if q < p {
      MulAtLeast(p - q, period);
      MulSub(p, q, period);
    }
  }

  lemma {:induction false} BlockEndsCount(lo: int, hi: int, period: int, offset: int)
    requires period > 0 && lo <= hi + 1
    ensures |BlockEnds(lo, hi, period, offset)| == hi - lo + 1
    decreases hi - lo + 1
  {
    if lo <= hi {
      BlockEndsCount(lo, hi - 1, period, offset);
      var rest, last := BlockEnds(lo, hi - 1, period, offset), BlockEnd(hi, period, offset);
      assert BlockEnds(lo, hi, period, offset) == rest + {last};
      forall q | lo <= q <= hi - 1 ensures BlockEnd(q, period, offset) != last {
        MulAtLeast(hi - q, period);
        MulSub(hi + 1, q + 1, period);
      }
    } else {
      assert BlockEnds(lo, hi, period, offset) == {};
    }
  }

  /** The number of inter-fire gaps of a periodic schedule that a window touches, in numbers. */
  lemma PeriodicGaps(period: int, offset: int, lo: Time, hi: Time)
    requires period > 0 && lo <= hi
    ensures |GapEnds(Periodic(period, offset), lo, hi)| == Block(hi, period, offset) - Block(lo, period, offset) + 1
  {
    var s, p, q := Periodic(period, offset), Block(lo, period, offset), Block(hi, period, offset);
    BlockMonotone(lo, hi, period, offset);
    BlockEndsCount(p, q, period, offset);
    forall v ensures v in GapEnds(s, lo, hi) <==> v in BlockEnds(p, q, period, offset) {
      if v in GapEnds(s, lo, hi) {
        var a :| lo <= a <= hi && s.Next(a) == Some(v);
        NextEndsBlock(a, period, offset);
        BlockMonotone(lo, a, period, offset);
        BlockMonotone(a, hi, period, offset);
      }
      if v in BlockEnds(p, q, period, offset) {
        var b :| p <= b <= q && v == BlockEnd(b, period, offset);
        GapOfBlock(b, period, offset, lo, hi);
      }
    }
    assert GapEnds(s, lo, hi) == BlockEnds(p, q, period, offset);
  }

  lemma GapOfBlock(b: int, period: int, offset: int, lo: Time, hi: Time)
    requires period > 0 && lo <= hi && Block(lo, period, offset) <= b <= Block(hi, period, offset)
    ensures BlockEnd(b, period, offset) in GapEnds(Periodic(period, offset), lo, hi)
  {
    var a := Max(lo, b * period + offset);
    BlockStart(b, period, offset);
    NextEndsBlock(a, period, offset);
    assert hi - offset == Block(hi, period, offset) * period + (hi - offset) % period;
    MulSub(Block(hi, period, offset), b, period);
    if b < Block(hi, period, offset) { MulAtLeast(Block(hi, period, offset) - b, period); }
    assert b * period + offset <= hi;
    if a == lo { BlockMonotone(b * period + offset, lo, period, offset); }
    assert Block(a, period, offset) == b;
    assert lo <= a <= hi;
  }

  // ----- iterateSchedule ---------------------------------------------------------------------

  /** The orbit of `Next` from `from`, cut at `until` and after `limit` entries. */
  function Fires(s: Schedule, from: Time, until: Time, limit: nat): seq<Time>
    decreases limit
  {
    if limit == 0 then []
    else match s.Next(from)
         case None => []
         case Some(t) => if t < until then [t] + Fires(s, t, until, limit - 1) else []
  }

  /** What iterateSchedule returns; `None` stands for the nil schedule. */
  function Instants(s: Option<Schedule>, from: Time, until: Time, limit: int): seq<Time> {
    if s.None? || from >= until || limit <= 0 then [] else Fires(s.value, from, until, limit)
  }

  method IterateSchedule(s: Option<Schedule>, from: Time, until: Time, limit: int) returns (out: seq<Time>)
    ensures out == Instants(s, from, until, limit)
  {
    if s.None? || !(from < until) || limit <= 0 {
      return [];
    }
    out := [];
    var t := from;
    while |out| < limit
      invariant |out| <= limit
      invariant out + Fires(s.value, t, until, limit - |out|) == Fires(s.value, from, until, limit)
    {
      var next := s.value.Next(t);
      if next.None? || !(next.value < until) {
        return;
      }
      assert Fires(s.value, t, until, limit - |out|)
          == [next.value] + Fires(s.value, next.value, until, limit - |out| - 1);
      t := next.value;
      out := out + [t];
    }
  }

  ghost predicate Ascending(ts: seq<Time>) {
    forall i, j :: 0 <= i < j < |ts| ==> ts[i] < ts[j]
  }

  /** Entry `i` is the fire that follows entry `i - 1`, or `from` for the first one. */
  ghost predicate Follows(s: Schedule, from: Time, ts: seq<Time>, i: nat)
    requires i < |ts|
  {
    s.Next(if i == 0 then from else ts[i - 1]) == Some(ts[i])
  }

  /** The list is short only because no further fire lies before `until`. */
  ghost predicate Stopped(s: Schedule, from: Time, until: Time, ts: seq<Time>) {
    var next := s.Next(if ts == [] then from else ts[|ts| - 1]);
    next.Some? ==> next.value >= until
  }

  /** Entries are consecutive fires, and the list is cut only by the limit or the end of the window. */
  lemma {:induction false} FiresConsecutive(s: Schedule, from: Time, until: Time, limit: nat)
    ensures var ts := Fires(s, from, until, limit);
            && |ts| <= limit
            && (forall i :: 0 <= i < |ts| ==> Follows(s, from, ts, i))
            && (|ts| < limit ==> Stopped(s, from, until, ts))
    decreases limit
  {
    if limit > 0 && s.Next(from).Some? && s.Next(from).value < until {
      var t := s.Next(from).value;
      FiresConsecutive(s, t, until, limit - 1);
      var rest := Fires(s, t, until, limit - 1);
      var ts := Fires(s, from, until, limit);
      forall i | 0 <= i < |ts|
        ensures Follows(s, from, ts, i)
      {
        if i > 0 { assert Follows(s, t, rest, i - 1); }
      }
    }
  }

  /** Entries lie strictly inside the window and strictly increase. */
  lemma {:induction false} FiresAscend(s: Schedule, from: Time, until: Time, limit: nat)
    requires Advancing(s)
    ensures var ts := Fires(s, from, until, limit);
            Ascending(ts) && forall i :: 0 <= i < |ts| ==> from < ts[i] < until
    decreases limit
  {
    if limit > 0 && s.Next(from).Some? && s.Next(from).value < until {
      var t := s.Next(from).value;
      FiresAscend(s, t, until, limit - 1);
      var rest := Fires(s, t, until, limit - 1);
      assert Fires(s, from, until, limit) == [t] + rest;
    }
  }

  /** For a grid the list is the set of all fires of the window, except that the cap drops those
      later than its last entry. */
  lemma {:induction false} FiresAreAllFires(s: Schedule, from: Time, until: Time, limit: nat, v: Time)
    requires Grid(s) && Exhaustive(s)
    ensures var ts := Fires(s, from, until, limit);
            v in ts <==> IsFire(s, v) && from < v < until && limit > 0
                         && (|ts| >= limit ==> v <= ts[|ts| - 1])
    decreases limit
  {
    if limit > 0 {
      if IsFire(s, v) && from < v { NextIsLeast(s, from, v); }
      if s.Next(from).Some? && s.Next(from).value < until {
        FiresHeadAndRest(s, from, until, limit, v);
      }
    }
  }

  lemma {:induction false} FiresHeadAndRest(s: Schedule, from: Time, until: Time, limit: nat, v: Time)
    requires Grid(s) && Exhaustive(s)
    requires limit > 0 && s.Next(from).Some? && s.Next(from).value < until
    requires IsFire(s, v) && from < v ==> s.Next(from).value <= v
    ensures var ts := Fires(s, from, until, limit);
            v in ts <==> IsFire(s, v) && from < v < until && (|ts| >= limit ==> v <= ts[|ts| - 1])
    decreases limit, 0
  {
    var t := s.Next(from).value;
    var rest := Fires(s, t, until, limit - 1);
    NextIsFire(s, from);
    FiresAreAllFires(s, t, until, limit - 1, v);
    FiresAscend(s, t, until, limit - 1);
    assert v in [t] + rest <==> v == t || v in rest;
    assert Fires(s, from, until, limit) == [t] + rest;
  }

  /** A longer budget continues where a full shorter one stopped. */
  lemma {:induction false} FiresCompose(s: Schedule, from: Time, until: Time, a: nat, b: nat)
    requires a > 0
    ensures var first := Fires(s, from, until, a);
            Fires(s, from, until, a + b) ==
            if |first| < a then first else first + Fires(s, first[|first| - 1], until, b)
    decreases a
  {
    if s.Next(from).Some? && s.Next(from).value < until {
      var t := s.Next(from).value;
      if a == 1 {
        assert Fires(s, from, until, 1) == [t];
      } else {
        FiresCompose(s, t, until, a - 1, b);
        Prepend(t, Fires(s, t, until, a - 1), Fires(s, Last(t, Fires(s, t, until, a - 1)), until, b));
      }
    }
  }

  function Last(t: Time, ts: seq<Time>): Time { if ts == [] then t else ts[|ts| - 1] }

  lemma Prepend(t: Time, rest: seq<Time>, tail: seq<Time>)
    ensures [t] + (rest + tail) == ([t] + rest) + tail
  {
  }

  /** How many fires an interval schedule has strictly inside a window of length `w`: ceil(w/d) - 1. */
  function EveryCount(w: int, d: int): (n: int)
    requires d > 0
    ensures n >= 0
  {
    if w <= 0 then 0 else (w - 1) / d
  }

  lemma EveryCountStep(w: int, d: int)
    requires d > 0
    ensures w <= d ==> EveryCount(w, d) == 0
    ensures w > d ==> EveryCount(w, d) == EveryCount(w - d, d) + 1
  {
    if 0 < w <= d {
      Quotient(w - 1, 0, d);
    } else if w > d {
      var q := (w - d - 1) / d;
      assert w - d - 1 == q * d + (w - d - 1) % d;
      assert (q + 1) * d == q * d + d;
      Quotient(w - 1, q + 1, d);
    }
  }

  /** An interval schedule fires at from+d, from+2d, ...: min(limit, ceil(w/d)-1) of them fit. */
  lemma {:induction false} EveryFires(d: int, from: Time, until: Time, limit: nat)
    requires d > 0
    ensures var ts := Fires(Every(d), from, until, limit);
            && |ts| == Min(limit, EveryCount(until - from, d))
            && forall i :: 0 <= i < |ts| ==> ts[i] == from + (i + 1) * d
    decreases limit
  {
    EveryCountStep(until - from, d);
    if limit > 0 && from + d < until {
      EveryFires(d, from + d, until, limit - 1);
      var ts, rest := Fires(Every(d), from, until, limit), Fires(Every(d), from + d, until, limit - 1);
      assert ts == [from + d] + rest;
      forall i | 0 <= i < |ts|
        ensures ts[i] == from + (i + 1) * d
      {
        if i > 0 {
          assert ts[i] == rest[i - 1] == from + d + i * d;
          assert (i + 1) * d == d + i * d;
        }
      }
    }
  }
}
