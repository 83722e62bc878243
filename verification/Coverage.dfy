/** Which missed fires a capped replay reaches: exactly the first `limit` of the window. */
module Coverage {
  import opened Basics
  import opened Schedules
  import opened Jobs

  /** The fires strictly inside a window. */
  ghost function FiresBetween(s: Schedule, lo: Time, hi: Time): set<Time> {
    set v | lo < v < hi && IsFire(s, v)
  }

  /** Where the window ends matters only for what lies beyond. */
  lemma {:induction false} FiresCut(s: Schedule, from: Time, until: Time, limit: nat, v: Time)
    requires Advancing(s) && v < until
    ensures v in Fires(s, from, until, limit) <==> v in Fires(s, from, v + 1, limit)
    decreases limit
  {
    if limit > 0 && s.Next(from).Some? && s.Next(from).value < until {
      var t := s.Next(from).value;
      FiresCut(s, t, until, limit - 1, v);
      assert Fires(s, from, until, limit) == [t] + Fires(s, t, until, limit - 1);
      if t <= v {
        assert Fires(s, from, v + 1, limit) == [t] + Fires(s, t, v + 1, limit - 1);
      } else {
        FiresAscend(s, t, until, limit - 1);
      }
    }
  }

  lemma {:induction false} AscendingCard(ts: seq<Time>)
    requires Ascending(ts)
    ensures |set t | t in ts| == |ts|
  {
    if ts != [] {
      var init, last := ts[..|ts| - 1], ts[|ts| - 1];
      AscendingCard(init);
      assert (set t | t in ts) == (set t | t in init) + {last};
    }
  }

  /** A window is covered exactly if it holds no more fires than the limit. */
  lemma WindowCovered(s: Schedule, from: Time, until: Time, limit: nat)
    requires Grid(s) && Exhaustive(s) && limit > 0
    ensures (forall v :: v in FiresBetween(s, from, until) ==> v in Fires(s, from, until, limit))
            <==> |FiresBetween(s, from, until)| <= limit
  {
    var ts, all := Fires(s, from, until, limit), FiresBetween(s, from, until);
    var reached := set t | t in ts;
    FiresAscend(s, from, until, limit);
    FiresConsecutive(s, from, until, limit);
    AscendingCard(ts);
    forall v ensures v in ts <==> v in all && (|ts| >= limit ==> v <= ts[|ts| - 1]) {
      FiresAreAllFires(s, from, until, limit, v);
    }
    SubsetCard(reached, all);
    if |all| <= limit && |ts| == limit { SubsetEqual(reached, all); }
    if forall v :: v in all ==> v in ts { SubsetCard(all, reached); }
  }

  lemma SubsetEqual<T>(a: set<T>, b: set<T>)
    requires a <= b && |b| <= |a|
    ensures a == b
  {
    forall x | x in b ensures x in a {
      if x !in a { SubsetCard(a, b - {x}); }
    }
  }

  /** An instant is replayed exactly if it is a fire of the window and at most `limit` fires of the window are not
      later. */
  lemma ReachedIff(s: Schedule, from: Time, until: Time, limit: nat, v: Time)
    requires Grid(s) && Exhaustive(s) && limit > 0
    ensures v in Fires(s, from, until, limit) <==>
            v in FiresBetween(s, from, until) && |FiresBetween(s, from, v + 1)| <= limit
  {
    FiresAreAllFires(s, from, until, limit, v);
    if v in FiresBetween(s, from, until) {
      var ts := Fires(s, from, v + 1, limit);
      FiresCut(s, from, until, limit, v);
      WindowCovered(s, from, v + 1, limit);
      if v in ts {
        forall x | x in FiresBetween(s, from, v + 1) ensures x in ts {
          FiresAreAllFires(s, from, v + 1, limit, x);
          FiresAreAllFires(s, from, v + 1, limit, v);
        }
      }
    }
  }

  /** Every missed fire is replayed exactly if at most 256 were missed; otherwise the 257th and all later are not. */
  lemma AllMissedReplayed(s: Schedule, fire: Time, now: Time)
    requires Grid(s) && Exhaustive(s)
    ensures (forall v :: IsFire(s, v) && fire < v < now ==> v in Fires(s, fire, now, MAX_CATCHUP_INSTANTS))
            <==> |FiresBetween(s, fire, now)| <= MAX_CATCHUP_INSTANTS
  {
    WindowCovered(s, fire, now, MAX_CATCHUP_INSTANTS);
    assert forall v :: v in FiresBetween(s, fire, now) <==> IsFire(s, v) && fire < v < now;
  }

  // ----- In numbers ----------------------------------------------------------------------------

  /** The gaps a window touches end with its fires and the first fire after it. */
  lemma GapsAndFires(s: Schedule, lo: Time, hi: Time)
    requires Grid(s) && lo < hi && s.Next(hi - 1).Some?
    ensures FiresBetween(s, lo, hi) + {s.Next(hi - 1).value} == GapEnds(s, lo, hi - 1)
    ensures s.Next(hi - 1).value !in FiresBetween(s, lo, hi)
  {
    var last := s.Next(hi - 1).value;
    forall v ensures v in GapEnds(s, lo, hi - 1) <==> v in FiresBetween(s, lo, hi) || v == last {
      if v in GapEnds(s, lo, hi - 1) {
        var a :| lo <= a <= hi - 1 && s.Next(a) == Some(v);
        NextIsFire(s, a);
      }
      if v in FiresBetween(s, lo, hi) { assert s.Next(v - 1) == Some(v); }
    }
  }

  lemma CountFires(s: Schedule, lo: Time, hi: Time)
    requires Grid(s) && lo < hi && s.Next(hi - 1).Some?
    ensures |FiresBetween(s, lo, hi)| == |GapEnds(s, lo, hi - 1)| - 1
  {
    GapsAndFires(s, lo, hi);
  }

  /** How many fires a periodic schedule has strictly inside a window. */
  lemma PeriodicFires(period: int, offset: int, lo: Time, hi: Time)
    requires period > 0 && lo < hi
    ensures |FiresBetween(Periodic(period, offset), lo, hi)| == Block(hi - 1, period, offset) - Block(lo, period, offset)
  {
    PeriodicIsGrid(period, offset);
    NextEndsBlock(hi - 1, period, offset);
    CountFires(Periodic(period, offset), lo, hi);
    PeriodicGaps(period, offset, lo, hi - 1);
  }

  /** For a periodic job the condition is a comparison of two quotients. */
  lemma PeriodicReplayed(period: int, offset: int, fire: Time, now: Time, v: Time)
    requires period > 0
    ensures v in Fires(Periodic(period, offset), fire, now, MAX_CATCHUP_INSTANTS) <==>
            (v - offset) % period == 0 && fire < v < now
            && Block(v, period, offset) - Block(fire, period, offset) <= MAX_CATCHUP_INSTANTS
  {
    PeriodicIsGrid(period, offset);
    ReachedIff(Periodic(period, offset), fire, now, MAX_CATCHUP_INSTANTS, v);
    if fire < v { PeriodicFires(period, offset, fire, v + 1); }
  }

  lemma SecondIsFire(k: int)
    ensures IsFire(Periodic(SECOND, 0), k * SECOND) && k * SECOND % SECOND == 0 && Block(k * SECOND, SECOND, 0) == k
  {
    PeriodicIsGrid(SECOND, 0);
    Quotient(k * SECOND, k, SECOND);
  }

  /** The documented case: a job every second and an outage of an hour. The 257th second is a missed fire that the
      replay does not reach; the 256th is the last one it does. */
  lemma HourOfSeconds()
    ensures var s, ts := Periodic(SECOND, 0), Fires(Periodic(SECOND, 0), 0, 3600 * SECOND, MAX_CATCHUP_INSTANTS);
            && IsFire(s, 257 * SECOND) && 0 < 257 * SECOND < 3600 * SECOND && 257 * SECOND !in ts
            && 256 * SECOND in ts
  {
    SecondIsFire(0);
    SecondIsFire(256);
    SecondIsFire(257);
    PeriodicReplayed(SECOND, 0, 0, 3600 * SECOND, 257 * SECOND);
    PeriodicReplayed(SECOND, 0, 0, 3600 * SECOND, 256 * SECOND);
  }
}
