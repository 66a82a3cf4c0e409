/** How many organisations existed by the end of each day: one pass over sorted times, and the naive count. */
module OrgCounts {
  import opened Common
  import Sorting

  const DAY_MS := 86_400_000

  /** The naive count: the creation times up to the last millisecond of the day; unreadable ones never count. */
  function OrgsCreatedByDate(createdAt: seq<Option<int>>, day: int): nat {
    if createdAt == [] then 0
    else
      var before, last := OrgsCreatedByDate(createdAt[..|createdAt| - 1], day), createdAt[|createdAt| - 1];
      if last.Some? && last.value <= (day + 1) * DAY_MS - 1 then before + 1 else before
  }

  function Readable(createdAt: seq<Option<int>>): seq<int> {
    if createdAt == [] then []
    else
      var before, last := Readable(createdAt[..|createdAt| - 1]), createdAt[|createdAt| - 1];
      if last.Some? then before + [last.value] else before
  }

  predicate IsNoLater(a: int, b: int) {
    a <= b
  }

  function SortTimes(times: seq<int>): seq<int> {
    Sorting.Sort(times, IsNoLater)
  }

  predicate InOrder(times: seq<int>) {
    forall i, j :: 0 <= i < j < |times| ==> times[i] <= times[j]
  }

  function CountBelow(s: seq<int>, end: int): nat {
    |Sorting.Selected(s, (x: int) => x < end)|
  }

  lemma {:induction false} NaiveCountIsBelow(createdAt: seq<Option<int>>, day: int)
    ensures OrgsCreatedByDate(createdAt, day) == CountBelow(Readable(createdAt), (day + 1) * DAY_MS)
  {
    if createdAt != [] {
      var init, last := createdAt[..|createdAt| - 1], createdAt[|createdAt| - 1];
      NaiveCountIsBelow(init, day);
      if last.Some? {
        assert (Readable(init) + [last.value])[..|Readable(init)|] == Readable(init);
      }
    }
  }

  lemma TimesAreSorted(times: seq<int>)
    ensures InOrder(SortTimes(times))
    ensures forall x :: x in SortTimes(times) <==> x in times
  {
    Sorting.SortIsInOrder(times, IsNoLater);
    forall x ensures x in SortTimes(times) <==> x in times {
      Sorting.SortIsOfTheSame(times, IsNoLater, x);
    }
  }

  lemma SortKeepsCounts(times: seq<int>, end: int)
    ensures CountBelow(SortTimes(times), end) == CountBelow(times, end)
  {
    Sorting.SortKeepsCounts(times, IsNoLater, (x: int) => x < end);
  }

  /** Where sorted times cross the end is how many lie below it. */
  lemma {:induction false} SplitIsCount(sorted: seq<int>, end: int, n: nat)
    requires n <= |sorted|
    requires forall i :: 0 <= i < n ==> sorted[i] < end
    requires forall i :: n <= i < |sorted| ==> sorted[i] >= end
    ensures CountBelow(sorted, end) == n
  {
    if n < |sorted| {
      SplitIsCount(sorted[..|sorted| - 1], end, n);
    } else if n > 0 {
      SplitIsCount(sorted[..|sorted| - 1], end, n - 1);
    }
  }

  /** The single pass gives every date the naive count, whatever the order and repetitions of the dates. */
  method BuildOrgCountsByDateId(days: seq<int>, createdAt: seq<Option<int>>) returns (countsByDay: map<int, nat>)
    ensures forall day :: day in countsByDay <==> day in days
    ensures forall day :: day in days ==> countsByDay[day] == OrgsCreatedByDate(createdAt, day)
  {
    hide SortTimes, Readable, CountBelow, OrgsCreatedByDate;
    var times := SortTimes(Readable(createdAt));
    var sortedDays := SortTimes(days);
    TimesAreSorted(Readable(createdAt));
    TimesAreSorted(days);
    countsByDay := map[];
    var orgIndex := 0;
    for i := 0 to |sortedDays|
      invariant 0 <= orgIndex <= |times|
      invariant forall k :: 0 <= k < orgIndex ==> i > 0 && times[k] < (sortedDays[i - 1] + 1) * DAY_MS
      invariant forall day :: day in countsByDay <==> day in sortedDays[..i]
      invariant forall day :: day in countsByDay ==> countsByDay[day] == OrgsCreatedByDate(createdAt, day)
    {
      var day := sortedDays[i];
      var endExclusive := (day + 1) * DAY_MS;
      assert i > 0 ==> sortedDays[i - 1] <= day;
      while orgIndex < |times| && times[orgIndex] < endExclusive
        invariant 0 <= orgIndex <= |times|
        invariant forall k :: 0 <= k < orgIndex ==> times[k] < endExclusive
      {
        orgIndex := orgIndex + 1;
      }
      SplitIsCount(times, endExclusive, orgIndex);
      SortKeepsCounts(Readable(createdAt), endExclusive);
      NaiveCountIsBelow(createdAt, day);
      assert sortedDays[..i + 1] == sortedDays[..i] + [day];
      countsByDay := countsByDay[day := orgIndex];
    }
    assert sortedDays[..|sortedDays|] == sortedDays;
  }
}
