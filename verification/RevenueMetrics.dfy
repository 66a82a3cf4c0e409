/** Daily revenue rows per customer, added up from movements and merged with rows already stored. */
module RevenueMetrics {
  import opened Common
  import Sorting
  import opened RevenueMovements

  datatype Metric = Metric(
    opening: real,
    newBusiness: real,
    expansion: real,
    contraction: real,
    churn: real,
    churnByPlan: ByPlan<real>,
    contractionByPlan: ByPlan<real>)

  datatype Key = Key(day: int, customer: string)

  datatype Row = Row(key: Key, metric: Metric)

  const NO_PLAN := ByPlan(0.0, 0.0, 0.0, 0.0)

  function Breakdown(lostPlan: Option<PlanKey>, amount: real): ByPlan<real> {
    if lostPlan.None? || amount <= 0.0 then NO_PLAN
    else
      match lostPlan.value
      case Solo => NO_PLAN.(solo := amount)
      case Maker => NO_PLAN.(maker := amount)
      case Team => NO_PLAN.(team := amount)
      case Enterprise => NO_PLAN.(enterprise := amount)
  }

  function KeyOf(e: MovementEvent): Key {
    Key(e.day, e.customer)
  }

  function MetricOf(e: MovementEvent): Metric {
    var m := e.movement;
    Metric(m.currentMrr, m.newBusiness, m.expansion, m.contraction, m.churn,
           Breakdown(m.lostPlan, m.churn), Breakdown(m.lostPlan, m.contraction))
  }

  function PlusByPlan(a: ByPlan<real>, b: ByPlan<real>): ByPlan<real> {
    ByPlan(a.solo + b.solo, a.maker + b.maker, a.team + b.team, a.enterprise + b.enterprise)
  }

  /** The opening revenue stays; everything else is added. */
  function Plus(a: Metric, b: Metric): Metric {
    Metric(a.opening, a.newBusiness + b.newBusiness, a.expansion + b.expansion, a.contraction + b.contraction,
           a.churn + b.churn, PlusByPlan(a.churnByPlan, b.churnByPlan),
           PlusByPlan(a.contractionByPlan, b.contractionByPlan))
  }

  function PlusAt(metrics: map<Key, Metric>, key: Key, metric: Metric): map<Key, Metric> {
    metrics[key := if key in metrics then Plus(metrics[key], metric) else metric]
  }

  function Aggregate(movements: seq<MovementEvent>): map<Key, Metric> {
    if movements == [] then map[]
    else
      var last := movements[|movements| - 1];
      PlusAt(Aggregate(movements[..|movements| - 1]), KeyOf(last), MetricOf(last))
  }

  /** The keys, in the order in which they first occur. */
  function Keys(movements: seq<MovementEvent>): seq<Key> {
    if movements == [] then []
    else
      var before := Keys(movements[..|movements| - 1]);
      var key := KeyOf(movements[|movements| - 1]);
      if key in before then before else before + [key]
  }

  /** `rows` are the entries of `metrics`, each once, in some order. */
  ghost predicate IsListing(rows: seq<Row>, metrics: map<Key, Metric>) {
    && (forall i :: 0 <= i < |rows| ==> rows[i].key in metrics && metrics[rows[i].key] == rows[i].metric)
    && (forall i, j :: 0 <= i < j < |rows| ==> rows[i].key != rows[j].key)
    && (forall key :: key in metrics ==> exists i :: 0 <= i < |rows| && rows[i].key == key)
  }

  lemma {:induction false} KeysAreTheKeys(movements: seq<MovementEvent>)
    ensures Distinct(Keys(movements))
    ensures forall key :: key in Keys(movements) <==> key in Aggregate(movements)
  {
    if movements != [] {
      KeysAreTheKeys(movements[..|movements| - 1]);
    }
  }

  function RowsFor(keys: seq<Key>, metrics: map<Key, Metric>): (rows: seq<Row>)
    requires forall key :: key in keys ==> key in metrics
    ensures |rows| == |keys|
    ensures forall i :: 0 <= i < |rows| ==> rows[i] == Row(keys[i], metrics[keys[i]])
  {
    if keys == [] then []
    else RowsFor(keys[..|keys| - 1], metrics) + [Row(keys[|keys| - 1], metrics[keys[|keys| - 1]])]
  }

  lemma RowsAreAListing(keys: seq<Key>, metrics: map<Key, Metric>)
    requires Distinct(keys) && forall key :: key in keys <==> key in metrics
    ensures IsListing(RowsFor(keys, metrics), metrics)
  {
    hide RowsFor;
    var rows := RowsFor(keys, metrics);
    forall key | key in metrics ensures exists i :: 0 <= i < |rows| && rows[i].key == key {
      var i :| 0 <= i < |keys| && keys[i] == key;
      assert rows[i].key == key;
    }
  }

  // ---------- the order of rows ----------

  /** Places of customer ids in the order of the locale; ids that compare as equal share a place. */
  type Collation = string -> int

  /** Whether `b` may not come before `a`: by day, then by customer. */
  predicate IsOrdered(a: Row, b: Row, collation: Collation) {
    a.key.day < b.key.day || (a.key.day == b.key.day && collation(a.key.customer) <= collation(b.key.customer))
  }

  function RowOrder(collation: Collation): (Row, Row) -> bool {
    (a: Row, b: Row) => IsOrdered(a, b, collation)
  }

  predicate InRowOrder(rows: seq<Row>, collation: Collation) {
    forall i, j :: 0 <= i < j < |rows| ==> IsOrdered(rows[i], rows[j], collation)
  }

  lemma SortKeepsRows(rows: seq<Row>, collation: Collation)
    ensures InRowOrder(Sorting.Sort(rows, RowOrder(collation)), collation)
    ensures multiset(Sorting.Sort(rows, RowOrder(collation))) == multiset(rows)
  {
    Sorting.SortIsInOrder(rows, RowOrder(collation));
    Sorting.SortKeepsAll(rows, RowOrder(collation));
  }

  /** Two rows of one key would occur twice in the multiset of a listing. */
  lemma SameRowsSameListing(rows: seq<Row>, others: seq<Row>, metrics: map<Key, Metric>)
    requires IsListing(rows, metrics) && multiset(rows) == multiset(others)
    ensures IsListing(others, metrics)
  {
    forall i | 0 <= i < |others| ensures others[i].key in metrics && metrics[others[i].key] == others[i].metric {
      assert others[i] in multiset(others);
      assert others[i] in rows;
    }
    forall i, j | 0 <= i < j < |others| ensures others[i].key != others[j].key {
      assert others[i] in multiset(others) && others[j] in multiset(others);
      OnceInListing(rows, metrics, others[i]);
      TwiceInOrder(others, i, j);
    }
    forall key | key in metrics ensures exists i :: 0 <= i < |others| && others[i].key == key {
      var i :| 0 <= i < |rows| && rows[i].key == key;
      assert rows[i] in multiset(others);
      var k :| 0 <= k < |others| && others[k] == rows[i];
    }
  }

  lemma {:induction false} CountOfAbsent(rows: seq<Row>, row: Row)
    requires row !in rows
    ensures multiset(rows)[row] == 0
  {
  }

  lemma OnceInListing(rows: seq<Row>, metrics: map<Key, Metric>, row: Row)
    requires IsListing(rows, metrics)
    ensures multiset(rows)[row] <= 1
  {
    if row in rows {
      var i :| 0 <= i < |rows| && rows[i] == row;
      CountOfAbsent(rows[..i], row);
      CountOfAbsent(rows[i + 1..], row);
      assert rows == rows[..i] + [row] + rows[i + 1..];
    }
  }

  lemma TwiceInOrder(rows: seq<Row>, i: nat, j: nat)
    requires i < j < |rows|
    ensures rows[i] == rows[j] ==> multiset(rows)[rows[i]] >= 2
  {
    assert rows == rows[..i] + [rows[i]] + rows[i + 1..j] + [rows[j]] + rows[j + 1..];
  }

  method AggregateRevenueMovementEvents(movements: seq<MovementEvent>, collation: Collation) returns (rows: seq<Row>)
    ensures IsListing(rows, Aggregate(movements))
    ensures InRowOrder(rows, collation)
  {
    hide IsListing, Plus, MetricOf, KeyOf, RowsFor, Distinct, InRowOrder;
    var metricsByKey: map<Key, Metric> := map[];
    var order: seq<Key> := [];
    for i := 0 to |movements|
      invariant metricsByKey == Aggregate(movements[..i])
      invariant order == Keys(movements[..i])
      invariant forall key :: key in order <==> key in metricsByKey
    {
      var movement := movements[i];
      var key := KeyOf(movement);
      assert movements[..i + 1][..i] == movements[..i];
      if key !in metricsByKey {
        order := order + [key];
        metricsByKey := metricsByKey[key := MetricOf(movement)];
      } else {
        metricsByKey := metricsByKey[key := Plus(metricsByKey[key], MetricOf(movement))];
      }
    }
    assert movements[..|movements|] == movements;
    KeysAreTheKeys(movements);
    var values := RowsFor(order, metricsByKey);
    RowsAreAListing(order, metricsByKey);
    SortKeepsRows(values, collation);
    SameRowsSameListing(values, Sorting.Sort(values, RowOrder(collation)), metricsByKey);
    rows := Sorting.Sort(values, RowOrder(collation));
  }

  // ---------- what a row holds ----------

  datatype Column =
    | NewBusiness
    | Expansion
    | Contraction
    | Churn
    | ChurnOf(plan: PlanKey)
    | ContractionOf(plan: PlanKey)

  function Cell(metric: Metric, column: Column): real {
    match column
    case NewBusiness => metric.newBusiness
    case Expansion => metric.expansion
    case Contraction => metric.contraction
    case Churn => metric.churn
    case ChurnOf(plan) => PartOf(metric.churnByPlan, plan)
    case ContractionOf(plan) => PartOf(metric.contractionByPlan, plan)
  }

  /** What one movement adds to a column: a plan's column takes what that plan lost. */
  function Contribution(m: Movement, column: Column): real {
    match column
    case NewBusiness => m.newBusiness
    case Expansion => m.expansion
    case Contraction => m.contraction
    case Churn => m.churn
    case ChurnOf(plan) => if m.lostPlan == Some(plan) then PositivePart(m.churn) else 0.0
    case ContractionOf(plan) => if m.lostPlan == Some(plan) then PositivePart(m.contraction) else 0.0
  }

  function SumOf(movements: seq<MovementEvent>, key: Key, column: Column): real {
    if movements == [] then 0.0
    else
      var last := movements[|movements| - 1];
      SumOf(movements[..|movements| - 1], key, column)
      + if KeyOf(last) == key then Contribution(last.movement, column) else 0.0
  }

  predicate Occurs(movements: seq<MovementEvent>, key: Key) {
    exists i :: 0 <= i < |movements| && KeyOf(movements[i]) == key
  }

  /** The revenue a key opens with: that of its first movement. */
  function Opening(movements: seq<MovementEvent>, key: Key): real
    requires Occurs(movements, key)
  {
    if KeyOf(movements[0]) == key then movements[0].movement.currentMrr
    else
      assert Occurs(movements[1..], key) by {
        var i :| 0 <= i < |movements| && KeyOf(movements[i]) == key;
        assert movements[1..][i - 1] == movements[i];
      }
      Opening(movements[1..], key)
  }

  lemma CellOfOne(e: MovementEvent, column: Column)
    ensures Cell(MetricOf(e), column) == Contribution(e.movement, column)
  {
  }

  lemma CellOfPlus(a: Metric, b: Metric, column: Column)
    ensures Cell(Plus(a, b), column) == Cell(a, column) + Cell(b, column)
  {
  }

  /** Rows are told apart by their opening revenue and their columns. */
  lemma SameCells(a: Metric, b: Metric)
    requires a.opening == b.opening && forall column :: Cell(a, column) == Cell(b, column)
    ensures a == b
  {
    assert Cell(a, NewBusiness) == Cell(b, NewBusiness) && Cell(a, Expansion) == Cell(b, Expansion);
    assert Cell(a, Contraction) == Cell(b, Contraction) && Cell(a, Churn) == Cell(b, Churn);
    assert Cell(a, ChurnOf(Solo)) == Cell(b, ChurnOf(Solo)) && Cell(a, ChurnOf(Maker)) == Cell(b, ChurnOf(Maker));
    assert Cell(a, ChurnOf(Team)) == Cell(b, ChurnOf(Team));
    assert Cell(a, ChurnOf(Enterprise)) == Cell(b, ChurnOf(Enterprise));
    assert Cell(a, ContractionOf(Solo)) == Cell(b, ContractionOf(Solo));
    assert Cell(a, ContractionOf(Maker)) == Cell(b, ContractionOf(Maker));
    assert Cell(a, ContractionOf(Team)) == Cell(b, ContractionOf(Team));
    assert Cell(a, ContractionOf(Enterprise)) == Cell(b, ContractionOf(Enterprise));
  }

  lemma {:induction false} OpeningIsTheFirst(movements: seq<MovementEvent>, last: MovementEvent, key: Key)
    ensures Occurs(movements + [last], key) <==> Occurs(movements, key) || KeyOf(last) == key
    ensures Occurs(movements, key) ==> Opening(movements + [last], key) == Opening(movements, key)
    ensures !Occurs(movements, key) && KeyOf(last) == key ==>
        Opening(movements + [last], key) == last.movement.currentMrr
  {
    var all := movements + [last];
    assert all[|movements|] == last;
    assert forall i :: 0 <= i < |movements| ==> all[i] == movements[i];
    if movements != [] {
      assert all[1..] == movements[1..] + [last];
      OpeningIsTheFirst(movements[1..], last, key);
      assert forall i :: 0 <= i < |movements| - 1 ==> movements[1..][i] == movements[i + 1];
    }
  }

  lemma {:induction false} SumOfNothing(movements: seq<MovementEvent>, key: Key, column: Column)
    requires !Occurs(movements, key)
    ensures SumOf(movements, key, column) == 0.0
  {
    if movements != [] {
      assert KeyOf(movements[|movements| - 1]) != key;
      SumOfNothing(movements[..|movements| - 1], key, column);
    }
  }

  /** A key has a row exactly when a movement has it; the row opens as the first does and sums them all. */
  lemma {:induction false} AggregateIsExact(movements: seq<MovementEvent>, key: Key)
    ensures key in Aggregate(movements) <==> Occurs(movements, key)
    ensures key in Aggregate(movements) ==>
      && Aggregate(movements)[key].opening == Opening(movements, key)
      && forall column :: Cell(Aggregate(movements)[key], column) == SumOf(movements, key, column)
  {
    hide Cell, Contribution, MetricOf, Plus, Opening, Occurs;
    if movements == [] {
      NothingOccursInNothing(key);
    } else {
      var init, last := movements[..|movements| - 1], movements[|movements| - 1];
      assert movements == init + [last];
      AggregateIsExact(init, key);
      OpeningIsTheFirst(init, last, key);
      if KeyOf(last) == key {
        LastMovementIsAdded(init, last, key);
      }
    }
  }

  lemma NothingOccursInNothing(key: Key)
    ensures !Occurs([], key)
  {
  }

  lemma LastMovementIsAdded(init: seq<MovementEvent>, last: MovementEvent, key: Key)
    requires KeyOf(last) == key
    requires key in Aggregate(init) <==> Occurs(init, key)
    requires key in Aggregate(init) ==>
      && Aggregate(init)[key].opening == Opening(init, key)
      && forall column :: Cell(Aggregate(init)[key], column) == SumOf(init, key, column)
    ensures var all := init + [last];
      && key in Aggregate(all) && Occurs(all, key)
      && Aggregate(all)[key].opening == Opening(all, key)
      && forall column :: Cell(Aggregate(all)[key], column) == SumOf(all, key, column)
  {
    hide Cell, Contribution, Occurs, Opening;
    var all := init + [last];
    assert all[..|all| - 1] == init;
    OpeningIsTheFirst(init, last, key);
    forall column ensures Cell(Aggregate(all)[key], column) == SumOf(all, key, column) {
      CellOfOne(last, column);
      if key in Aggregate(init) {
        CellOfPlus(Aggregate(init)[key], MetricOf(last), column);
      } else {
        SumOfNothing(init, key, column);
      }
    }
  }

  // ---------- merging ----------

  function ByKey(rows: seq<Row>): map<Key, Metric> {
    if rows == [] then map[]
    else ByKey(rows[..|rows| - 1])[rows[|rows| - 1].key := rows[|rows| - 1].metric]
  }

  function MergeMetricRows(existingRows: seq<Row>, rowsToAdd: seq<Row>): (merged: seq<Row>)
    ensures |merged| == |rowsToAdd|
  {
    var existing := ByKey(existingRows);
    seq(|rowsToAdd|, i requires 0 <= i < |rowsToAdd| =>
      if rowsToAdd[i].key in existing
      then Row(rowsToAdd[i].key, Plus(existing[rowsToAdd[i].key], rowsToAdd[i].metric))
      else rowsToAdd[i])
  }

  lemma {:induction false} ByKeyOfDistinctRows(rows: seq<Row>)
    requires forall i, j :: 0 <= i < j < |rows| ==> rows[i].key != rows[j].key
    ensures forall i :: 0 <= i < |rows| ==> rows[i].key in ByKey(rows) && ByKey(rows)[rows[i].key] == rows[i].metric
    ensures forall key :: key in ByKey(rows) ==> exists i :: 0 <= i < |rows| && rows[i].key == key
  {
    if rows != [] {
      ByKeyOfDistinctRows(rows[..|rows| - 1]);
    }
  }

  lemma ByKeyOfListing(rows: seq<Row>, metrics: map<Key, Metric>)
    requires IsListing(rows, metrics)
    ensures ByKey(rows) == metrics
  {
    ByKeyOfDistinctRows(rows);
    forall key ensures key in ByKey(rows) <==> key in metrics {
      if key in metrics {
        var i :| 0 <= i < |rows| && rows[i].key == key;
      }
    }
    assert ByKey(rows).Keys == metrics.Keys;
  }

  lemma {:induction false} SumOfConcat(first: seq<MovementEvent>, second: seq<MovementEvent>, key: Key, column: Column)
    ensures SumOf(first + second, key, column) == SumOf(first, key, column) + SumOf(second, key, column)
  {
    if second == [] {
      assert first + second == first;
    } else {
      assert (first + second)[..|first + second| - 1] == first + second[..|second| - 1];
      SumOfConcat(first, second[..|second| - 1], key, column);
    }
  }

  lemma {:induction false} OpeningOfConcat(first: seq<MovementEvent>, second: seq<MovementEvent>, key: Key)
    ensures Occurs(first + second, key) <==> Occurs(first, key) || Occurs(second, key)
    ensures Occurs(first, key) ==> Opening(first + second, key) == Opening(first, key)
    ensures !Occurs(first, key) && Occurs(second, key) ==> Opening(first + second, key) == Opening(second, key)
  {
    var all := first + second;
    assert forall i :: 0 <= i < |first| ==> all[i] == first[i];
    assert forall i :: 0 <= i < |second| ==> all[|first| + i] == second[i];
    if first == [] {
      assert all == second;
    } else {
      assert all[1..] == first[1..] + second;
      OpeningOfConcat(first[1..], second, key);
      assert forall i :: 0 <= i < |first| - 1 ==> first[1..][i] == first[i + 1];
    }
  }

  /** Adding up two lists is adding up the second and merging it with the first, key by key. */
  lemma AggregateOfConcat(first: seq<MovementEvent>, second: seq<MovementEvent>, key: Key)
    ensures var one := Aggregate(first + second);
      && (key in one <==> key in Aggregate(first) || key in Aggregate(second))
      && (key in Aggregate(first) && key !in Aggregate(second) ==> one[key] == Aggregate(first)[key])
      && (key !in Aggregate(first) && key in Aggregate(second) ==> one[key] == Aggregate(second)[key])
      && (key in Aggregate(first) && key in Aggregate(second) ==>
            one[key] == Plus(Aggregate(first)[key], Aggregate(second)[key]))
  {
    hide Cell, Contribution, Aggregate, Occurs, Opening, SumOf;
    AggregateIsExact(first, key);
    AggregateIsExact(second, key);
    AggregateIsExact(first + second, key);
    OpeningOfConcat(first, second, key);
    if key in Aggregate(first + second) {
      var one := Aggregate(first + second)[key];
      var parts := if key !in Aggregate(second) then Aggregate(first)[key]
        else if key !in Aggregate(first) then Aggregate(second)[key]
        else Plus(Aggregate(first)[key], Aggregate(second)[key]);
      forall column ensures Cell(one, column) == Cell(parts, column) {
        SumOfConcat(first, second, key, column);
        if key !in Aggregate(second) {
          SumOfNothing(second, key, column);
        } else if key !in Aggregate(first) {
          SumOfNothing(first, key, column);
        } else {
          CellOfPlus(Aggregate(first)[key], Aggregate(second)[key], column);
        }
      }
      SameCells(one, parts);
    }
  }

  /**
   * Incremental equals one-shot: however the rows of `first` and `second` are listed, merging them
   * gives for every row of `second` what adding up both at once gives.
   */
  lemma IncrementalEqualsOneShot(first: seq<MovementEvent>, second: seq<MovementEvent>, existing: seq<Row>,
                                 toAdd: seq<Row>)
    requires IsListing(existing, Aggregate(first)) && IsListing(toAdd, Aggregate(second))
    ensures var merged := MergeMetricRows(existing, toAdd);
      forall i :: 0 <= i < |merged| ==>
        && merged[i].key == toAdd[i].key
        && merged[i].key in Aggregate(first + second)
        && merged[i].metric == Aggregate(first + second)[merged[i].key]
  {
    hide Aggregate, Plus;
    ByKeyOfListing(existing, Aggregate(first));
    var merged := MergeMetricRows(existing, toAdd);
    forall i | 0 <= i < |merged|
      ensures merged[i].key == toAdd[i].key && merged[i].key in Aggregate(first + second)
      ensures merged[i].metric == Aggregate(first + second)[merged[i].key]
    {
      AggregateOfConcat(first, second, toAdd[i].key);
    }
  }

  // ---------- nothing is lost in the rows ----------

  function Total(rows: seq<Row>, column: Column): real {
    if rows == [] then 0.0
    else Total(rows[..|rows| - 1], column) + Cell(rows[|rows| - 1].metric, column)
  }

  function TotalOf(movements: seq<MovementEvent>, column: Column): real {
    if movements == [] then 0.0
    else TotalOf(movements[..|movements| - 1], column) + Contribution(movements[|movements| - 1].movement, column)
  }

  function CellAt(metrics: map<Key, Metric>, key: Key, column: Column): real {
    if key in metrics then Cell(metrics[key], column) else 0.0
  }

  function TotalAt(keys: seq<Key>, metrics: map<Key, Metric>, column: Column): real {
    if keys == [] then 0.0
    else TotalAt(keys[..|keys| - 1], metrics, column) + CellAt(metrics, keys[|keys| - 1], column)
  }

  lemma {:induction false} TotalWithout(keys: seq<Key>, metrics: map<Key, Metric>, key: Key, column: Column)
    requires key !in keys
    ensures TotalAt(keys, metrics, column) == TotalAt(keys, metrics - {key}, column)
  {
    hide Cell;
    if keys != [] {
      TotalWithout(keys[..|keys| - 1], metrics, key, column);
    }
  }

  lemma {:induction false} TotalTakesOut(keys: seq<Key>, metrics: map<Key, Metric>, key: Key, column: Column)
    requires Distinct(keys) && key in keys
    ensures TotalAt(keys, metrics, column) == TotalAt(keys, metrics - {key}, column) + CellAt(metrics, key, column)
  {
    hide Cell;
    var init, last := keys[..|keys| - 1], keys[|keys| - 1];
    if last == key {
      TotalWithout(init, metrics, key, column);
    } else {
      assert key in init;
      TotalTakesOut(init, metrics, key, column);
    }
  }

  lemma {:induction false} TotalOfNoMetrics(keys: seq<Key>, column: Column)
    ensures TotalAt(keys, map[], column) == 0.0
  {
    if keys != [] {
      TotalOfNoMetrics(keys[..|keys| - 1], column);
    }
  }

  lemma {:induction false} TotalIgnoresOrder(keys: seq<Key>, others: seq<Key>, metrics: map<Key, Metric>,
                                             column: Column)
    requires Distinct(keys) && Distinct(others)
    requires forall key :: key in metrics ==> key in keys && key in others
    ensures TotalAt(keys, metrics, column) == TotalAt(others, metrics, column)
    decreases |metrics|
  {
    hide TotalAt, CellAt;
    if metrics == map[] {
      TotalOfNoMetrics(keys, column);
      TotalOfNoMetrics(others, column);
    } else {
      var key :| key in metrics;
      TotalTakesOut(keys, metrics, key, column);
      TotalTakesOut(others, metrics, key, column);
      assert |(metrics - {key}).Keys| < |metrics.Keys| by {
        assert metrics.Keys == (metrics - {key}).Keys + {key};
      }
      TotalIgnoresOrder(keys, others, metrics - {key}, column);
    }
  }

  lemma {:induction false} TotalOfRows(rows: seq<Row>, keys: seq<Key>, metrics: map<Key, Metric>, column: Column)
    requires |rows| == |keys|
    requires forall i :: 0 <= i < |rows| ==> keys[i] in metrics && rows[i].metric == metrics[keys[i]]
    ensures Total(rows, column) == TotalAt(keys, metrics, column)
  {
    if rows != [] {
      TotalOfRows(rows[..|rows| - 1], keys[..|keys| - 1], metrics, column);
    }
  }

  lemma {:induction false} TotalWithoutKey(keys: seq<Key>, metrics: map<Key, Metric>, key: Key, metric: Metric,
                                           column: Column)
    requires key !in keys && forall k :: k in keys ==> k in metrics
    ensures TotalAt(keys, metrics[key := metric], column) == TotalAt(keys, metrics, column)
  {
    if keys != [] {
      TotalWithoutKey(keys[..|keys| - 1], metrics, key, metric, column);
    }
  }

  lemma {:induction false} TotalWithKey(keys: seq<Key>, metrics: map<Key, Metric>, key: Key, metric: Metric,
                                        column: Column)
    requires key in keys && Distinct(keys) && forall k :: k in keys ==> k in metrics
    ensures TotalAt(keys, PlusAt(metrics, key, metric), column) == TotalAt(keys, metrics, column) + Cell(metric, column)
  {
    hide Cell, Plus;
    var init, last := keys[..|keys| - 1], keys[|keys| - 1];
    CellOfPlus(metrics[key], metric, column);
    if last == key {
      TotalWithoutKey(init, metrics, key, Plus(metrics[key], metric), column);
    } else {
      TotalWithKey(init, metrics, key, metric, column);
    }
  }

  lemma OneMoreMovementInTotal(keys: seq<Key>, metrics: map<Key, Metric>, e: MovementEvent, column: Column)
    requires Distinct(keys) && forall key :: key in keys <==> key in metrics
    ensures var more := if KeyOf(e) in keys then keys else keys + [KeyOf(e)];
      && (forall key :: key in more ==> key in PlusAt(metrics, KeyOf(e), MetricOf(e)))
      && TotalAt(more, PlusAt(metrics, KeyOf(e), MetricOf(e)), column)
        == TotalAt(keys, metrics, column) + Contribution(e.movement, column)
  {
    hide Cell, Contribution, MetricOf, Plus;
    CellOfOne(e, column);
    var key := KeyOf(e);
    if key in keys {
      TotalWithKey(keys, metrics, key, MetricOf(e), column);
    } else {
      TotalWithoutKey(keys, metrics, key, MetricOf(e), column);
      assert (keys + [key])[..|keys|] == keys;
    }
  }

  lemma {:induction false} KeyTotalsAreKept(movements: seq<MovementEvent>, column: Column)
    ensures forall key :: key in Keys(movements) ==> key in Aggregate(movements)
    ensures TotalAt(Keys(movements), Aggregate(movements), column) == TotalOf(movements, column)
  {
    hide Cell, Contribution, MetricOf, PlusAt, TotalAt, KeyOf;
    KeysAreTheKeys(movements);
    if movements == [] {
      TotalOfNoKeys(column);
    } else {
      var init, last := movements[..|movements| - 1], movements[|movements| - 1];
      KeysAreTheKeys(init);
      KeyTotalsAreKept(init, column);
      OneMoreMovementInTotal(Keys(init), Aggregate(init), last, column);
    }
  }

  lemma TotalOfNoKeys(column: Column)
    ensures TotalAt([], map[], column) == 0.0
  {
  }

  function KeysOf(rows: seq<Row>): (keys: seq<Key>)
    ensures |keys| == |rows| && forall i :: 0 <= i < |rows| ==> keys[i] == rows[i].key
  {
    if rows == [] then [] else KeysOf(rows[..|rows| - 1]) + [rows[|rows| - 1].key]
  }

  /** The daily rows of a run, in any order, hold column by column exactly what its movements hold together. */
  lemma TotalsAreKept(movements: seq<MovementEvent>, rows: seq<Row>, column: Column)
    requires IsListing(rows, Aggregate(movements))
    ensures Total(rows, column) == TotalOf(movements, column)
  {
    hide Cell, Contribution, Aggregate, TotalAt, Keys, KeysOf;
    KeyTotalsAreKept(movements, column);
    KeysAreTheKeys(movements);
    forall key | key in Aggregate(movements) ensures key in KeysOf(rows) {
      var i :| 0 <= i < |rows| && rows[i].key == key;
      assert KeysOf(rows)[i] == key;
    }
    TotalIgnoresOrder(KeysOf(rows), Keys(movements), Aggregate(movements), column);
    TotalOfRows(rows, KeysOf(rows), Aggregate(movements), column);
  }

  // ---------- the key as text ----------

  function ColonAt(text: string): nat {
    if text == [] || text[0] == ':' then 0 else 1 + ColonAt(text[1..])
  }

  lemma {:induction false} ColonEndsTheDate(date: string, customer: string)
    requires ':' !in date
    ensures ColonAt(date + ":" + customer) == |date|
  {
    var text := date + ":" + customer;
    if date == [] {
      assert text[0] == ':';
    } else {
      assert text[0] == date[0] && text[1..] == date[1..] + ":" + customer;
      ColonEndsTheDate(date[1..], customer);
    }
  }

  /** Dates hold no colon, so the text of a key tells keys apart whatever the customer id holds. */
  lemma KeyTextIsUnambiguous(date1: string, customer1: string, date2: string, customer2: string)
    requires ':' !in date1 && ':' !in date2
    ensures date1 + ":" + customer1 == date2 + ":" + customer2 <==> date1 == date2 && customer1 == customer2
  {
    var left, right := date1 + ":" + customer1, date2 + ":" + customer2;
    ColonEndsTheDate(date1, customer1);
    ColonEndsTheDate(date2, customer2);
    if left == right {
      assert date1 == left[..|date1|] && date2 == right[..|date1|];
      assert customer1 == left[|date1| + 1..] && customer2 == right[|date1| + 1..];
    }
  }
}
