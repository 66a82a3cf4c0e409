/** How long a customer has paid: invoice periods clipped to now, merged over gaps of at most a day. */
module PaidIntervals {
  import Sorting
  /** From `start` up to but not including `end`, in milliseconds. */
  datatype Interval = Interval(start: int, end: int)

  const MERGE_TOLERANCE_MS := 24 * 60 * 60 * 1000

  function Min(a: int, b: int): int {
    if a < b then a else b
  }

  function Max(a: int, b: int): int {
    if a > b then a else b
  }

  // ---------- what counts as paid ----------

  function Clipped(interval: Interval, nowMs: int): Interval {
    Interval(interval.start, Min(interval.end, nowMs))
  }

  /** `x` is the part before now of one of the intervals, if there is such a part. */
  predicate IsElapsed(intervals: seq<Interval>, nowMs: int, x: Interval) {
    x.start < x.end && exists i :: 0 <= i < |intervals| && Clipped(intervals[i], nowMs) == x
  }

  predicate Bridges(a: Interval, t: int, b: Interval) {
    a.start <= t < b.start <= a.end + MERGE_TOLERANCE_MS
  }

  /** Paid at `t`: inside an elapsed interval, or before another that starts at most a day after its end. */
  ghost predicate Paid(intervals: seq<Interval>, nowMs: int, t: int) {
    || (exists a :: IsElapsed(intervals, nowMs, a) && a.start <= t < a.end)
    || (exists a, b :: IsElapsed(intervals, nowMs, a) && IsElapsed(intervals, nowMs, b) && Bridges(a, t, b))
  }

  function Earliest(intervals: seq<Interval>, nowMs: int): int {
    if intervals == [] then nowMs
    else Min(Earliest(intervals[..|intervals| - 1], nowMs), intervals[|intervals| - 1].start)
  }

  /** The milliseconds at which the customer has paid. */
  ghost function PaidMs(intervals: seq<Interval>, nowMs: int): set<int> {
    set t | Earliest(intervals, nowMs) <= t < nowMs && Paid(intervals, nowMs, t)
  }

  lemma {:induction false} EarliestIsEarliest(intervals: seq<Interval>, nowMs: int)
    ensures forall i :: 0 <= i < |intervals| ==> Earliest(intervals, nowMs) <= intervals[i].start
  {
    if intervals != [] {
      EarliestIsEarliest(intervals[..|intervals| - 1], nowMs);
    }
  }

  lemma PaidMsAreThePaid(intervals: seq<Interval>, nowMs: int, t: int)
    ensures t in PaidMs(intervals, nowMs) <==> Paid(intervals, nowMs, t)
  {
    EarliestIsEarliest(intervals, nowMs);
  }

  /** Nothing but the intervals matters: neither their order nor repetitions. */
  lemma PaidDependsOnIntervals(some: seq<Interval>, others: seq<Interval>, nowMs: int)
    requires forall x :: x in some ==> x in others
    ensures PaidMs(some, nowMs) <= PaidMs(others, nowMs)
  {
    forall x | IsElapsed(some, nowMs, x) ensures IsElapsed(others, nowMs, x) {
      var i :| 0 <= i < |some| && Clipped(some[i], nowMs) == x;
      assert some[i] in others;
    }
    forall t | t in PaidMs(some, nowMs) ensures t in PaidMs(others, nowMs) {
      PaidMsAreThePaid(others, nowMs, t);
    }
  }

  // ---------- the sweep ----------

  /** Clipped to now, without those that have not started. */
  function Elapsed(intervals: seq<Interval>, nowMs: int): seq<Interval> {
    if intervals == [] then []
    else
      var before, last := Elapsed(intervals[..|intervals| - 1], nowMs), Clipped(intervals[|intervals| - 1], nowMs);
      if last.end > last.start then before + [last] else before
  }

  predicate StartsNoLater(a: Interval, b: Interval) {
    a.start <= b.start
  }

  function SortByStart(intervals: seq<Interval>): seq<Interval> {
    Sorting.Sort(intervals, StartsNoLater)
  }

  predicate InStartOrder(s: seq<Interval>) {
    forall i, j :: 0 <= i < j < |s| ==> s[i].start <= s[j].start
  }

  lemma SortKeepsIntervals(intervals: seq<Interval>)
    ensures InStartOrder(SortByStart(intervals))
    ensures forall y :: y in SortByStart(intervals) <==> y in intervals
  {
    Sorting.SortIsInOrder(intervals, StartsNoLater);
    forall y ensures y in SortByStart(intervals) <==> y in intervals {
      Sorting.SortIsOfTheSame(intervals, StartsNoLater, y);
    }
  }

  lemma {:induction false} ElapsedAreElapsed(intervals: seq<Interval>, nowMs: int)
    ensures forall x :: x in Elapsed(intervals, nowMs) <==> IsElapsed(intervals, nowMs, x)
  {
    if intervals != [] {
      var init, last := intervals[..|intervals| - 1], intervals[|intervals| - 1];
      ElapsedAreElapsed(init, nowMs);
      forall x
        ensures IsElapsed(intervals, nowMs, x)
            <==> IsElapsed(init, nowMs, x) || (x.start < x.end && x == Clipped(last, nowMs))
      {
        if IsElapsed(init, nowMs, x) {
          var i :| 0 <= i < |init| && Clipped(init[i], nowMs) == x;
          assert intervals[i] == init[i];
        }
        if IsElapsed(intervals, nowMs, x) {
          var i :| 0 <= i < |intervals| && Clipped(intervals[i], nowMs) == x;
          assert i < |init| ==> init[i] == intervals[i];
        }
      }
    }
  }

  predicate Inside(merged: seq<Interval>, t: int) {
    exists i :: 0 <= i < |merged| && merged[i].start <= t < merged[i].end
  }

  /** Not empty, in order, and more than a day apart. */
  predicate Separated(merged: seq<Interval>) {
    && (forall i :: 0 <= i < |merged| ==> merged[i].start < merged[i].end)
    && (forall i, j :: 0 <= i < j < |merged| ==> merged[i].end + MERGE_TOLERANCE_MS < merged[j].start)
  }

  ghost predicate Covered(s: seq<Interval>, t: int) {
    || (exists a :: a in s && a.start <= t < a.end)
    || (exists a, b :: a in s && b in s && Bridges(a, t, b))
  }

  /**
   * The sweep over `done` has covered what `done` covers; the last merged interval is open for more:
   * it ends where the latest of `done` ends, and what starts before it ended more than a day before it.
   */
  ghost predicate Swept(done: seq<Interval>, merged: seq<Interval>) {
    && Separated(merged)
    && (forall t :: Inside(merged, t) <==> Covered(done, t))
    && (done == [] <==> merged == [])
    && (merged != [] ==>
          var last := merged[|merged| - 1];
          && (exists a :: a in done && a.end == last.end)
          && (exists a :: a in done && a.start == last.start)
          && (forall a :: a in done ==> a.end <= last.end)
          && (forall a :: a in done ==> last.start <= a.start || a.end + MERGE_TOLERANCE_MS < last.start))
  }

  lemma CoveredByOneMore(done: seq<Interval>, x: Interval, t: int)
    requires forall a :: a in done ==> a.start <= x.start && a.start < a.end
    ensures Covered(done + [x], t) <==>
      Covered(done, t) || x.start <= t < x.end || exists a :: a in done && Bridges(a, t, x)
  {
    var all := done + [x];
    assert forall a :: a in all <==> a in done || a == x;
    if exists a :: a in done && Bridges(a, t, x) {
      var a :| a in done && Bridges(a, t, x);
      assert a in all && x in all;
    }
  }

  lemma InsideOneMore(merged: seq<Interval>, last: Interval, t: int)
    ensures Inside(merged + [last], t) <==> Inside(merged, t) || last.start <= t < last.end
  {
    var all := merged + [last];
    assert all[|merged|] == last;
    assert forall i :: 0 <= i < |merged| ==> all[i] == merged[i];
  }

  lemma StartsOneMore(done: seq<Interval>, merged: seq<Interval>, x: Interval)
    requires Swept(done, merged) && x.start < x.end
    requires forall a :: a in done ==> a.start <= x.start && a.start < a.end
    requires merged == [] || x.start > merged[|merged| - 1].end + MERGE_TOLERANCE_MS
    ensures Swept(done + [x], merged + [x])
  {
    hide Covered, Inside;
    forall t ensures Inside(merged + [x], t) <==> Covered(done + [x], t) {
      CoveredByOneMore(done, x, t);
      InsideOneMore(merged, x, t);
      assert !exists a :: a in done && Bridges(a, t, x);
    }
    assert x in done + [x];
    assert forall a :: a in done + [x] <==> a in done || a == x;
    if merged != [] {
      forall i | 0 <= i < |merged| ensures merged[i].end <= merged[|merged| - 1].end {
      }
    }
  }

  lemma ExtendsLast(done: seq<Interval>, merged: seq<Interval>, x: Interval)
    requires Swept(done, merged) && x.start < x.end && merged != []
    requires forall a :: a in done ==> a.start <= x.start && a.start < a.end
    requires x.start <= merged[|merged| - 1].end + MERGE_TOLERANCE_MS
    ensures var last := merged[|merged| - 1];
      Swept(done + [x], merged[..|merged| - 1] + [Interval(last.start, Max(last.end, x.end))])
  {
    hide Covered, Inside;
    var init, last := merged[..|merged| - 1], merged[|merged| - 1];
    var longer := Interval(last.start, Max(last.end, x.end));
    assert merged == init + [last];
    var latest :| latest in done && latest.end == last.end;
    var first :| first in done && first.start == last.start;
    assert first.start <= x.start;
    forall t ensures Inside(init + [longer], t) <==> Covered(done + [x], t) {
      CoveredByOneMore(done, x, t);
      InsideOneMore(init, longer, t);
      InsideOneMore(init, last, t);
      if last.end <= t < x.start {
        assert Bridges(latest, t, x);
      }
      if a :| a in done && Bridges(a, t, x) {
        assert last.start <= a.start;
      }
    }
    assert x in done + [x] && latest in done + [x] && first in done + [x];
    assert forall a :: a in done + [x] <==> a in done || a == x;
    assert longer.end == (if last.end > x.end then latest else x).end;
  }

  lemma NothingSwept()
    ensures Swept([], [])
  {
  }

  lemma SweptAll(intervals: seq<Interval>, nowMs: int, merged: seq<Interval>)
    requires Swept(SortByStart(Elapsed(intervals, nowMs)), merged)
    ensures Separated(merged) && forall t :: Inside(merged, t) <==> Paid(intervals, nowMs, t)
  {
    hide Elapsed, SortByStart, IsElapsed, Separated, Inside;
    ElapsedAreElapsed(intervals, nowMs);
    SortKeepsIntervals(Elapsed(intervals, nowMs));
  }

  /** Merges into intervals in order, more than a day apart, that cover exactly the paid milliseconds. */
  method MergeElapsedIntervals(intervals: seq<Interval>, nowMs: int) returns (merged: seq<Interval>)
    ensures Separated(merged)
    ensures forall t :: Inside(merged, t) <==> Paid(intervals, nowMs, t)
  {
    hide Swept, Elapsed, SortByStart, IsElapsed, Separated, Inside, Paid;
    var elapsedIntervals := SortByStart(Elapsed(intervals, nowMs));
    ElapsedAreElapsed(intervals, nowMs);
    SortKeepsIntervals(Elapsed(intervals, nowMs));
    ElapsedAreNotEmpty(intervals, nowMs);
    merged := [];
    NothingSwept();
    for i := 0 to |elapsedIntervals|
      invariant Swept(elapsedIntervals[..i], merged)
    {
      var interval := elapsedIntervals[i];
      assert elapsedIntervals[..i + 1] == elapsedIntervals[..i] + [interval];
      forall a | a in elapsedIntervals[..i] ensures a.start <= interval.start && a.start < a.end {
        assert a in elapsedIntervals;
      }
      if |merged| == 0 || interval.start > merged[|merged| - 1].end + MERGE_TOLERANCE_MS {
        StartsOneMore(elapsedIntervals[..i], merged, interval);
        merged := merged + [interval];
        continue;
      }
      var previous := merged[|merged| - 1];
      ExtendsLast(elapsedIntervals[..i], merged, interval);
      merged := merged[..|merged| - 1] + [previous.(end := Max(previous.end, interval.end))];
    }
    assert elapsedIntervals[..|elapsedIntervals|] == elapsedIntervals;
    SweptAll(intervals, nowMs, merged);
  }

  lemma ElapsedAreNotEmpty(intervals: seq<Interval>, nowMs: int)
    ensures forall x :: IsElapsed(intervals, nowMs, x) ==> x.start < x.end
  {
  }

  /** There is only one way to merge: the covered points determine the merged intervals. */
  lemma {:induction false} MergedIsUnique(some: seq<Interval>, others: seq<Interval>)
    requires Separated(some) && Separated(others)
    requires forall t :: Inside(some, t) <==> Inside(others, t)
    ensures some == others
  {
    if some == [] {
      if others != [] {
        assert Inside(others, others[0].start);
      }
    } else {
      assert Inside(some, some[0].start);
      assert others != [];
      FirstStartsNoLater(some, others);
      FirstStartsNoLater(others, some);
      FirstEndsNoLater(some, others);
      FirstEndsNoLater(others, some);
      forall t ensures Inside(some[1..], t) <==> Inside(others[1..], t) {
        InsideTheRest(some, t);
        InsideTheRest(others, t);
      }
      MergedIsUnique(some[1..], others[1..]);
      assert some == [some[0]] + some[1..] && others == [others[0]] + others[1..];
    }
  }

  lemma FirstStartsNoLater(some: seq<Interval>, others: seq<Interval>)
    requires Separated(some) && Separated(others) && some != [] && others != []
    requires forall t :: Inside(some, t) <==> Inside(others, t)
    ensures some[0].start <= others[0].start
  {
    var t := others[0].start;
    assert Inside(others, t);
    var i :| 0 <= i < |some| && some[i].start <= t < some[i].end;
    assert i > 0 ==> some[0].end < some[i].start;
  }

  lemma FirstEndsNoLater(some: seq<Interval>, others: seq<Interval>)
    requires Separated(some) && Separated(others) && some != [] && others != []
    requires some[0].start == others[0].start
    requires forall t :: Inside(some, t) <==> Inside(others, t)
    ensures some[0].end <= others[0].end
  {
    var t := others[0].end;
    forall i | 0 <= i < |others| ensures !(others[i].start <= t < others[i].end) {
      assert i == 0 || others[0].end < others[i].start;
    }
    assert !Inside(others, t);
    assert some[0].start <= t;
  }

  lemma InsideTheRest(merged: seq<Interval>, t: int)
    requires Separated(merged) && merged != []
    ensures Inside(merged[1..], t) <==> Inside(merged, t) && !(merged[0].start <= t < merged[0].end)
  {
    if i :| 0 <= i < |merged| && merged[i].start <= t < merged[i].end {
      if i > 0 {
        assert merged[1..][i - 1] == merged[i] && merged[0].end < merged[i].start;
      }
    }
    if i :| 0 <= i < |merged| - 1 && merged[1..][i].start <= t < merged[1..][i].end {
      assert merged[i + 1] == merged[1..][i] && merged[0].end < merged[i + 1].start;
    }
  }

  // ---------- the duration ----------

  function Total(merged: seq<Interval>): int {
    if merged == [] then 0
    else Total(merged[..|merged| - 1]) + merged[|merged| - 1].end - merged[|merged| - 1].start
  }

  predicate Contains(interval: Interval, t: int) {
    interval.start <= t < interval.end
  }

  function Points(interval: Interval): set<int> {
    set t | interval.start <= t < interval.end && Contains(interval, t)
  }

  lemma {:induction false} IntervalSize(interval: Interval)
    requires interval.start <= interval.end
    ensures |Points(interval)| == interval.end - interval.start
    decreases interval.end - interval.start
  {
    if interval.start == interval.end {
      assert Points(interval) == {};
    } else {
      var shorter := interval.(end := interval.end - 1);
      IntervalSize(shorter);
      assert forall t :: Contains(interval, t) <==> Contains(shorter, t) || t == interval.end - 1;
      assert Points(interval) == Points(shorter) + {interval.end - 1};
    }
  }

  lemma LastIsApart(init: seq<Interval>, last: Interval, t: int)
    requires Separated(init + [last])
    ensures Inside(init, t) <==> Inside(init + [last], t) && t !in Points(last)
    ensures t in Points(last) ==> Inside(init + [last], t)
  {
    InsideOneMore(init, last, t);
    var merged := init + [last];
    forall i | 0 <= i < |init| ensures init[i].end < last.start {
      assert merged[i] == init[i] && merged[|init|] == last;
    }
  }

  lemma {:induction false} TotalIsSize(merged: seq<Interval>, points: set<int>)
    requires Separated(merged)
    requires forall t :: t in points <==> Inside(merged, t)
    ensures Total(merged) == |points|
  {
    hide Inside, Points, Contains;
    if merged == [] {
      forall t ensures t !in points {
        NothingInside(t);
      }
      assert points == {};
    } else {
      var init, last := merged[..|merged| - 1], merged[|merged| - 1];
      var lastPoints := Points(last);
      assert merged == init + [last];
      forall t ensures t in points - lastPoints <==> Inside(init, t) {
        LastIsApart(init, last, t);
      }
      TotalIsSize(init, points - lastPoints);
      IntervalSize(last);
      assert lastPoints <= points by {
        forall t | t in lastPoints ensures t in points {
          LastIsApart(init, last, t);
        }
      }
      assert points == (points - lastPoints) + lastPoints;
    }
  }

  lemma NothingInside(t: int)
    ensures !Inside([], t)
  {
  }

  /** The paid duration is the number of paid milliseconds. */
  method GetPaidDurationMs(intervals: seq<Interval>, nowMs: int) returns (total: int)
    ensures total == |PaidMs(intervals, nowMs)|
  {
    hide Separated, Inside, Paid, PaidMs;
    var merged := MergeElapsedIntervals(intervals, nowMs);
    total := 0;
    for i := 0 to |merged|
      invariant total == Total(merged[..i])
    {
      assert merged[..i + 1][..i] == merged[..i];
      total := total + merged[i].end - merged[i].start;
    }
    assert merged[..|merged|] == merged;
    forall t ensures t in PaidMs(intervals, nowMs) <==> Inside(merged, t) {
      PaidMsAreThePaid(intervals, nowMs, t);
    }
    TotalIsSize(merged, PaidMs(intervals, nowMs));
  }

  // ---------- how the duration reacts ----------

  lemma SubsetIsNoLarger(some: set<int>, others: set<int>)
    requires some <= others
    ensures |some| <= |others|
  {
    assert others == some + (others - some);
  }

  /** The order of the intervals does not matter. */
  lemma DurationIgnoresOrder(some: seq<Interval>, others: seq<Interval>, nowMs: int)
    requires multiset(some) == multiset(others)
    ensures PaidMs(some, nowMs) == PaidMs(others, nowMs)
  {
    forall x ensures x in some <==> x in others {
      assert x in some <==> x in multiset(some);
      assert x in others <==> x in multiset(others);
    }
    PaidDependsOnIntervals(some, others, nowMs);
    PaidDependsOnIntervals(others, some, nowMs);
  }

  /** Another interval never lowers the duration. */
  lemma DurationGrowsWithIntervals(intervals: seq<Interval>, more: seq<Interval>, nowMs: int)
    ensures |PaidMs(intervals, nowMs)| <= |PaidMs(intervals + more, nowMs)|
  {
    PaidDependsOnIntervals(intervals, intervals + more, nowMs);
    SubsetIsNoLarger(PaidMs(intervals, nowMs), PaidMs(intervals + more, nowMs));
  }

  lemma ElapsedLater(intervals: seq<Interval>, nowMs: int, laterMs: int, x: Interval) returns (y: Interval)
    requires nowMs <= laterMs && IsElapsed(intervals, nowMs, x)
    ensures IsElapsed(intervals, laterMs, y) && y.start == x.start && x.end <= y.end
  {
    var i :| 0 <= i < |intervals| && Clipped(intervals[i], nowMs) == x;
    y := Clipped(intervals[i], laterMs);
  }

  /** Time passing never lowers the duration. */
  lemma DurationGrowsWithTime(intervals: seq<Interval>, nowMs: int, laterMs: int)
    requires nowMs <= laterMs
    ensures |PaidMs(intervals, nowMs)| <= |PaidMs(intervals, laterMs)|
  {
    hide IsElapsed, PaidMs;
    forall t | t in PaidMs(intervals, nowMs) ensures t in PaidMs(intervals, laterMs) {
      PaidMsAreThePaid(intervals, nowMs, t);
      PaidMsAreThePaid(intervals, laterMs, t);
      if a :| IsElapsed(intervals, nowMs, a) && a.start <= t < a.end {
        var later := ElapsedLater(intervals, nowMs, laterMs, a);
      } else {
        var a, b :| IsElapsed(intervals, nowMs, a) && IsElapsed(intervals, nowMs, b) && Bridges(a, t, b);
        var laterA := ElapsedLater(intervals, nowMs, laterMs, a);
        var laterB := ElapsedLater(intervals, nowMs, laterMs, b);
        assert Bridges(laterA, t, laterB);
      }
    }
    SubsetIsNoLarger(PaidMs(intervals, nowMs), PaidMs(intervals, laterMs));
  }
}
