/** The sorts of the scripts: by any order, with elements that the order does not tell apart left as they came. */
module Sorting {
  ghost predicate IsOrder<T(!new)>(leq: (T, T) -> bool) {
    && (forall a, b :: leq(a, b) || leq(b, a))
    && (forall a, b, c :: leq(a, b) && leq(b, c) ==> leq(a, c))
  }

  /** Inserts after every element that may come before it. */
  function Insert<T>(sorted: seq<T>, x: T, leq: (T, T) -> bool): seq<T> {
    if sorted == [] || leq(sorted[|sorted| - 1], x) then sorted + [x]
    else Insert(sorted[..|sorted| - 1], x, leq) + [sorted[|sorted| - 1]]
  }

  function Sort<T>(s: seq<T>, leq: (T, T) -> bool): seq<T> {
    if s == [] then [] else Insert(Sort(s[..|s| - 1], leq), s[|s| - 1], leq)
  }

  predicate Pairwise<T>(s: seq<T>, related: (T, T) -> bool) {
    forall i, j :: 0 <= i < j < |s| ==> related(s[i], s[j])
  }

  // ---------- the same elements ----------

  lemma {:induction false} InsertAddsOne<T>(sorted: seq<T>, x: T, leq: (T, T) -> bool)
    ensures multiset(Insert(sorted, x, leq)) == multiset(sorted) + multiset{x}
  {
    if sorted != [] && !leq(sorted[|sorted| - 1], x) {
      InsertAddsOne(sorted[..|sorted| - 1], x, leq);
      assert sorted == sorted[..|sorted| - 1] + [sorted[|sorted| - 1]];
    }
  }

  lemma {:induction false} SortKeepsAll<T>(s: seq<T>, leq: (T, T) -> bool)
    ensures multiset(Sort(s, leq)) == multiset(s)
  {
    hide Insert;
    if s != [] {
      SortKeepsAll(s[..|s| - 1], leq);
      InsertAddsOne(Sort(s[..|s| - 1], leq), s[|s| - 1], leq);
      assert s == s[..|s| - 1] + [s[|s| - 1]];
    }
  }

  lemma SortIsOfTheSame<T>(s: seq<T>, leq: (T, T) -> bool, x: T)
    ensures x in Sort(s, leq) <==> x in s
  {
    hide Sort;
    SortKeepsAll(s, leq);
    assert x in Sort(s, leq) <==> x in multiset(Sort(s, leq));
    assert x in s <==> x in multiset(s);
  }

  lemma InsertIsOfTheSame<T>(sorted: seq<T>, x: T, leq: (T, T) -> bool, y: T)
    ensures y in Insert(sorted, x, leq) <==> y in sorted || y == x
  {
    hide Insert;
    InsertAddsOne(sorted, x, leq);
    assert y in Insert(sorted, x, leq) <==> y in multiset(Insert(sorted, x, leq));
    assert y in sorted <==> y in multiset(sorted);
  }

  // ---------- in order ----------

  lemma {:induction false} InsertKeepsOrder<T(!new)>(sorted: seq<T>, x: T, leq: (T, T) -> bool)
    requires IsOrder(leq) && Pairwise(sorted, leq)
    ensures Pairwise(Insert(sorted, x, leq), leq)
  {
    if sorted == [] || leq(sorted[|sorted| - 1], x) {
    } else {
      var init, last := sorted[..|sorted| - 1], sorted[|sorted| - 1];
      InsertKeepsOrder(init, x, leq);
      var inserted := Insert(init, x, leq);
      forall i | 0 <= i < |inserted| ensures leq(inserted[i], last) {
        InsertIsOfTheSame(init, x, leq, inserted[i]);
      }
    }
  }

  lemma {:induction false} SortIsInOrder<T(!new)>(s: seq<T>, leq: (T, T) -> bool)
    requires IsOrder(leq)
    ensures Pairwise(Sort(s, leq), leq)
  {
    hide Insert, IsOrder;
    if s != [] {
      SortIsInOrder(s[..|s| - 1], leq);
      InsertKeepsOrder(Sort(s[..|s| - 1], leq), s[|s| - 1], leq);
    }
  }

  // ---------- what holds of any two elements, either way round ----------

  lemma {:induction false} InsertKeepsPairs<T>(sorted: seq<T>, x: T, leq: (T, T) -> bool, related: (T, T) -> bool)
    requires Pairwise(sorted, related) && forall y :: y in sorted ==> related(x, y) && related(y, x)
    ensures Pairwise(Insert(sorted, x, leq), related)
  {
    if sorted == [] || leq(sorted[|sorted| - 1], x) {
    } else {
      var init, last := sorted[..|sorted| - 1], sorted[|sorted| - 1];
      InsertKeepsPairs(init, x, leq, related);
      var inserted := Insert(init, x, leq);
      forall i | 0 <= i < |inserted| ensures related(inserted[i], last) {
        InsertIsOfTheSame(init, x, leq, inserted[i]);
      }
    }
  }

  lemma {:induction false} SortKeepsPairs<T(!new)>(s: seq<T>, leq: (T, T) -> bool, related: (T, T) -> bool)
    requires Pairwise(s, related) && forall a, b :: related(a, b) <==> related(b, a)
    ensures Pairwise(Sort(s, leq), related)
  {
    hide Insert;
    if s != [] {
      var init, x := s[..|s| - 1], s[|s| - 1];
      SortKeepsPairs(init, leq, related);
      forall y | y in Sort(init, leq) ensures related(y, x) {
        SortIsOfTheSame(init, leq, y);
      }
      InsertKeepsPairs(Sort(init, leq), x, leq, related);
    }
  }

  // ---------- the elements of one kind ----------

  function Selected<T>(s: seq<T>, ofKind: T -> bool): seq<T> {
    if s == [] then []
    else if ofKind(s[|s| - 1]) then Selected(s[..|s| - 1], ofKind) + [s[|s| - 1]]
    else Selected(s[..|s| - 1], ofKind)
  }

  lemma {:induction false} InsertedComesLast<T(!new)>(sorted: seq<T>, x: T, leq: (T, T) -> bool, ofKind: T -> bool)
    requires forall a, b :: ofKind(a) && ofKind(b) ==> leq(a, b)
    ensures Selected(Insert(sorted, x, leq), ofKind)
         == if ofKind(x) then Selected(sorted, ofKind) + [x] else Selected(sorted, ofKind)
  {
    if sorted == [] || leq(sorted[|sorted| - 1], x) {
      assert (sorted + [x])[..|sorted|] == sorted;
    } else {
      var init, last := sorted[..|sorted| - 1], sorted[|sorted| - 1];
      InsertedComesLast(init, x, leq, ofKind);
      var inserted := Insert(init, x, leq);
      assert (inserted + [last])[..|inserted|] == inserted;
    }
  }

  /** The sort is stable: elements that may come in either order keep theirs. */
  lemma {:induction false} SortIsStable<T(!new)>(s: seq<T>, leq: (T, T) -> bool, ofKind: T -> bool)
    requires forall a, b :: ofKind(a) && ofKind(b) ==> leq(a, b)
    ensures Selected(Sort(s, leq), ofKind) == Selected(s, ofKind)
  {
    hide Insert;
    if s != [] {
      SortIsStable(s[..|s| - 1], leq, ofKind);
      InsertedComesLast(Sort(s[..|s| - 1], leq), s[|s| - 1], leq, ofKind);
    }
  }

  lemma {:induction false} InsertCountsOne<T>(sorted: seq<T>, x: T, leq: (T, T) -> bool, ofKind: T -> bool)
    ensures |Selected(Insert(sorted, x, leq), ofKind)| == |Selected(sorted, ofKind)| + if ofKind(x) then 1 else 0
  {
    if sorted == [] || leq(sorted[|sorted| - 1], x) {
      assert (sorted + [x])[..|sorted|] == sorted;
    } else {
      var init, last := sorted[..|sorted| - 1], sorted[|sorted| - 1];
      InsertCountsOne(init, x, leq, ofKind);
      var inserted := Insert(init, x, leq);
      assert (inserted + [last])[..|inserted|] == inserted;
    }
  }

  lemma {:induction false} SortKeepsCounts<T>(s: seq<T>, leq: (T, T) -> bool, ofKind: T -> bool)
    ensures |Selected(Sort(s, leq), ofKind)| == |Selected(s, ofKind)|
  {
    hide Insert;
    if s != [] {
      SortKeepsCounts(s[..|s| - 1], leq, ofKind);
      InsertCountsOne(Sort(s[..|s| - 1], leq), s[|s| - 1], leq, ofKind);
    }
  }
}
