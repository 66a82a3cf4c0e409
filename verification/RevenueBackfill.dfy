/** The two tables a backfill writes, and what any sequence of its transactions leaves in them. */
module RevenueBackfill {
  import opened Common
  import opened RevenueMovements
  import opened RevenueMetrics

  const DB_CHUNK_SIZE := 500

  /** `processed` tells for every event id already counted the day and customer it counted for. */
  datatype Tables = Tables(processed: map<string, Key>, metrics: map<Key, Metric>)

  const EMPTY := Tables(map[], map[])

  datatype Mode = Additive | Exact

  /** Days `from` to `to` of one customer; no customer, or an empty one, means every customer. */
  datatype Scope = Scope(from: int, to: int, customer: Option<string>)

  predicate InScope(scope: Scope, key: Key) {
    scope.from <= key.day <= scope.to && (IsBlankId(scope.customer) || scope.customer == Some(key.customer))
  }

  // ---------- lists of movements ----------

  function Ids(movements: seq<MovementEvent>): set<string> {
    set i | 0 <= i < |movements| :: movements[i].eventId
  }

  /** The first movement of every event id. */
  function Deduped(movements: seq<MovementEvent>): seq<MovementEvent> {
    if movements == [] then []
    else
      var init, last := movements[..|movements| - 1], movements[|movements| - 1];
      if last.eventId in Ids(init) then Deduped(init) else Deduped(init) + [last]
  }

  /** The movements whose event id is not in `ids`. */
  function Unclaimed(movements: seq<MovementEvent>, ids: set<string>): seq<MovementEvent> {
    if movements == [] then []
    else
      var init, last := movements[..|movements| - 1], movements[|movements| - 1];
      if last.eventId in ids then Unclaimed(init, ids) else Unclaimed(init, ids) + [last]
  }

  predicate DistinctIds(movements: seq<MovementEvent>) {
    forall i, j :: 0 <= i < j < |movements| ==> movements[i].eventId != movements[j].eventId
  }

  lemma IdsOfConcat(first: seq<MovementEvent>, second: seq<MovementEvent>)
    ensures Ids(first + second) == Ids(first) + Ids(second)
  {
    var all := first + second;
    forall id | id in Ids(first) + Ids(second) ensures id in Ids(all) {
      if id in Ids(first) {
        var i :| 0 <= i < |first| && first[i].eventId == id;
        assert all[i].eventId == id;
      } else {
        var i :| 0 <= i < |second| && second[i].eventId == id;
        assert all[|first| + i].eventId == id;
      }
    }
    assert forall i :: 0 <= i < |all| ==> all[i].eventId in Ids(first) + Ids(second) by {
      forall i | 0 <= i < |all| ensures all[i].eventId in Ids(first) + Ids(second) {
        if i < |first| {
          assert first[i].eventId in Ids(first);
        } else {
          assert second[i - |first|].eventId in Ids(second);
        }
      }
    }
  }

  lemma IdsOfLast(init: seq<MovementEvent>, last: MovementEvent)
    ensures Ids(init + [last]) == Ids(init) + {last.eventId}
  {
    IdsOfConcat(init, [last]);
    assert [last][0].eventId in Ids([last]);
  }

  lemma DistinctWithLast(init: seq<MovementEvent>, last: MovementEvent)
    requires DistinctIds(init) && last.eventId !in Ids(init)
    ensures DistinctIds(init + [last])
  {
    forall i | 0 <= i < |init| ensures init[i].eventId in Ids(init) {
    }
  }

  /** Deduplication keeps every id, once, and only movements of the list. */
  lemma {:induction false} DedupedKeepsEachIdOnce(movements: seq<MovementEvent>)
    ensures Ids(Deduped(movements)) == Ids(movements) && DistinctIds(Deduped(movements))
    ensures forall m :: m in Deduped(movements) ==> m in movements
  {
    hide Ids, DistinctIds;
    if movements == [] {
      NothingIsDistinct();
    } else {
      var init, last := movements[..|movements| - 1], movements[|movements| - 1];
      DedupedKeepsEachIdOnce(init);
      IdsOfLast(init, last);
      assert movements == init + [last];
      if last.eventId in Ids(init) {
        assert Ids(movements) == Ids(init);
      } else {
        IdsOfLast(Deduped(init), last);
        DistinctWithLast(Deduped(init), last);
      }
    }
  }

  lemma NothingIsDistinct()
    ensures DistinctIds([]) && Ids([]) == {}
  {
  }

  lemma {:induction false} UnclaimedKeepsTheRest(movements: seq<MovementEvent>, ids: set<string>)
    ensures Ids(Unclaimed(movements, ids)) == Ids(movements) - ids
    ensures forall m :: m in Unclaimed(movements, ids) <==> m in movements && m.eventId !in ids
  {
    hide Ids;
    if movements == [] {
      NothingIsDistinct();
    } else {
      var init, last := movements[..|movements| - 1], movements[|movements| - 1];
      UnclaimedKeepsTheRest(init, ids);
      IdsOfLast(init, last);
      assert movements == init + [last];
      IdsOfLast(Unclaimed(init, ids), last);
    }
  }

  lemma {:induction false} UnclaimedIsDistinct(movements: seq<MovementEvent>, ids: set<string>)
    requires DistinctIds(movements)
    ensures DistinctIds(Unclaimed(movements, ids))
  {
    hide Ids;
    if movements != [] {
      var init, last := movements[..|movements| - 1], movements[|movements| - 1];
      UnclaimedIsDistinct(init, ids);
      UnclaimedKeepsTheRest(init, ids);
      LastIsNew(init, last);
      if last.eventId !in ids {
        DistinctWithLast(Unclaimed(init, ids), last);
      }
    }
  }

  lemma LastIsNew(init: seq<MovementEvent>, last: MovementEvent)
    requires forall i :: 0 <= i < |init| ==> init[i].eventId != last.eventId
    ensures last.eventId !in Ids(init)
  {
  }

  /** The movements whose event id is in `ids`. */
  function WithIds(movements: seq<MovementEvent>, ids: set<string>): seq<MovementEvent> {
    if movements == [] then []
    else
      var init, last := movements[..|movements| - 1], movements[|movements| - 1];
      if last.eventId in ids then WithIds(init, ids) + [last] else WithIds(init, ids)
  }

  lemma {:induction false} WithoutTheKnown(movements: seq<MovementEvent>, ids: set<string>, known: set<string>)
    requires forall i :: 0 <= i < |movements| ==> (movements[i].eventId in ids <==> movements[i].eventId !in known)
    ensures WithIds(movements, ids) == Unclaimed(movements, known)
  {
    if movements != [] {
      WithoutTheKnown(movements[..|movements| - 1], ids, known);
    }
  }

  lemma {:induction false} UnclaimedOfLast(init: seq<MovementEvent>, last: MovementEvent, ids: set<string>)
    ensures Unclaimed(init + [last], ids)
         == if last.eventId in ids then Unclaimed(init, ids) else Unclaimed(init, ids) + [last]
  {
    assert (init + [last])[..|init|] == init;
  }

  /** A second list adds to a first the first movement of each id that is new. */
  lemma {:induction false} DedupedOfConcat(first: seq<MovementEvent>, second: seq<MovementEvent>)
    ensures Deduped(first + second) == Deduped(first) + Unclaimed(Deduped(second), Ids(first))
  {
    hide Unclaimed, Ids;
    if second == [] {
      assert first + second == first;
      NothingUnclaimed(Ids(first));
    } else {
      var init, last := second[..|second| - 1], second[|second| - 1];
      DedupedOfConcat(first, init);
      assert (first + second)[..|first + second| - 1] == first + init;
      IdsOfConcat(first, init);
      UnclaimedOfLast(Deduped(init), last, Ids(first));
      assert last.eventId in Ids(first + init) <==> last.eventId in Ids(first) || last.eventId in Ids(init);
      if last.eventId !in Ids(first + init) {
        assert Deduped(first) + (Unclaimed(Deduped(init), Ids(first)) + [last]) == Deduped(first + init) + [last];
      }
    }
  }

  lemma NothingUnclaimed(ids: set<string>)
    ensures Unclaimed([], ids) == []
  {
  }

  // ---------- the statements ----------

  /** Inserts the ids that are not there yet. */
  function Registered(processed: map<string, Key>, movements: seq<MovementEvent>): map<string, Key> {
    if movements == [] then processed
    else
      var before, last := Registered(processed, movements[..|movements| - 1]), movements[|movements| - 1];
      if last.eventId in before then before else before[last.eventId := KeyOf(last)]
  }

  function UpsertedRow(metrics: map<Key, Metric>, row: Row, mode: Mode): map<Key, Metric> {
    match mode
    case Additive => PlusAt(metrics, row.key, row.metric)
    case Exact => metrics[row.key := row.metric]
  }

  function Upserted(metrics: map<Key, Metric>, rows: seq<Row>, mode: Mode): map<Key, Metric> {
    if rows == [] then metrics
    else UpsertedRow(Upserted(metrics, rows[..|rows| - 1], mode), rows[|rows| - 1], mode)
  }

  function WithoutScope(tables: Tables, scope: Scope): Tables {
    Tables(map id | id in tables.processed && !InScope(scope, tables.processed[id]) :: tables.processed[id],
           map key | key in tables.metrics && !InScope(scope, key) :: tables.metrics[key])
  }

  /** Ids counted inside the scope which the movements do not have. */
  function StaleIds(tables: Tables, scope: Scope, movements: seq<MovementEvent>): set<string> {
    set id | id in tables.processed && InScope(scope, tables.processed[id]) && id !in Ids(movements)
  }

  lemma {:induction false} RegisteredConcat(processed: map<string, Key>, first: seq<MovementEvent>,
                                            second: seq<MovementEvent>)
    ensures Registered(processed, first + second) == Registered(Registered(processed, first), second)
  {
    if second == [] {
      assert first + second == first;
    } else {
      assert (first + second)[..|first + second| - 1] == first + second[..|second| - 1];
      RegisteredConcat(processed, first, second[..|second| - 1]);
    }
  }

  /** Known ids keep their day and customer, and new ids are added. */
  lemma {:induction false} RegisteredKeeps(processed: map<string, Key>, movements: seq<MovementEvent>)
    ensures Registered(processed, movements).Keys == processed.Keys + Ids(movements)
    ensures forall id :: id in processed ==> Registered(processed, movements)[id] == processed[id]
  {
    hide Ids, KeyOf;
    if movements == [] {
      NothingIsDistinct();
    } else {
      var init, last := movements[..|movements| - 1], movements[|movements| - 1];
      RegisteredKeeps(processed, init);
      IdsOfLast(init, last);
      assert movements == init + [last];
    }
  }

  /** A new id gets the day and customer of its movement. */
  lemma {:induction false} RegisteredAdds(processed: map<string, Key>, movements: seq<MovementEvent>, i: nat)
    requires DistinctIds(movements) && i < |movements| && movements[i].eventId !in processed
    ensures movements[i].eventId in Registered(processed, movements)
    ensures Registered(processed, movements)[movements[i].eventId] == KeyOf(movements[i])
  {
    hide Ids, KeyOf;
    var init, last := movements[..|movements| - 1], movements[|movements| - 1];
    RegisteredKeeps(processed, init);
    if i < |init| {
      RegisteredAdds(processed, init, i);
    } else {
      LastIsNew(init, last);
    }
  }

  lemma {:induction false} UpsertedConcat(metrics: map<Key, Metric>, first: seq<Row>, second: seq<Row>, mode: Mode)
    ensures Upserted(metrics, first + second, mode) == Upserted(Upserted(metrics, first, mode), second, mode)
  {
    hide UpsertedRow;
    if second == [] {
      assert first + second == first;
    } else {
      assert (first + second)[..|first + second| - 1] == first + second[..|second| - 1];
      UpsertedConcat(metrics, first, second[..|second| - 1], mode);
    }
  }

  // ---------- the rows of a table after an upsert ----------

  function MergedAt(metrics: map<Key, Metric>, added: map<Key, Metric>, mode: Mode, key: Key): Metric
    requires key in metrics || key in added
  {
    if key !in added then metrics[key]
    else if mode == Exact || key !in metrics then added[key]
    else Plus(metrics[key], added[key])
  }

  /** One row per key of either table; in both, an addition or a replacement. */
  function Merged(metrics: map<Key, Metric>, added: map<Key, Metric>, mode: Mode): map<Key, Metric> {
    map key | key in metrics.Keys + added.Keys :: MergedAt(metrics, added, mode, key)
  }

  lemma {:induction false} UpsertedWithout(metrics: map<Key, Metric>, rows: seq<Row>, mode: Mode, key: Key)
    requires forall i :: 0 <= i < |rows| ==> rows[i].key != key
    ensures key in Upserted(metrics, rows, mode) <==> key in metrics
    ensures key in metrics ==> Upserted(metrics, rows, mode)[key] == metrics[key]
  {
    hide Plus;
    if rows != [] {
      UpsertedWithout(metrics, rows[..|rows| - 1], mode, key);
    }
  }

  lemma {:induction false} UpsertedWith(metrics: map<Key, Metric>, rows: seq<Row>, mode: Mode, n: nat)
    requires n < |rows| && forall i, j :: 0 <= i < j < |rows| ==> rows[i].key != rows[j].key
    ensures var key := rows[n].key;
      && key in Upserted(metrics, rows, mode)
      && Upserted(metrics, rows, mode)[key]
        == if mode == Exact || key !in metrics then rows[n].metric else Plus(metrics[key], rows[n].metric)
  {
    hide Plus;
    var init := rows[..|rows| - 1];
    if n == |rows| - 1 {
      UpsertedWithout(metrics, init, mode, rows[n].key);
    } else {
      UpsertedWith(metrics, init, mode, n);
    }
  }

  /** Writing the rows of an aggregate merges the aggregate into the table, whatever the order of the rows. */
  lemma UpsertedIsMerged(metrics: map<Key, Metric>, rows: seq<Row>, added: map<Key, Metric>, mode: Mode)
    requires IsListing(rows, added)
    ensures Upserted(metrics, rows, mode) == Merged(metrics, added, mode)
  {
    hide Upserted, Plus;
    var left, right := Upserted(metrics, rows, mode), Merged(metrics, added, mode);
    forall key
      ensures key in left <==> key in right
      ensures key in right ==> left[key] == right[key]
    {
      if key in added {
        var n :| 0 <= n < |rows| && rows[n].key == key;
        UpsertedWith(metrics, rows, mode, n);
      } else {
        UpsertedWithout(metrics, rows, mode, key);
      }
    }
    assert left.Keys == right.Keys;
  }

  // ---------- one transaction ----------

  function Claimed(processed: map<string, Key>, movements: seq<MovementEvent>): seq<MovementEvent> {
    Unclaimed(Deduped(movements), processed.Keys)
  }

  /** Claims the movements' ids and merges the rows of the movements it could claim. */
  function Applied(tables: Tables, movements: seq<MovementEvent>, mode: Mode): Tables {
    Tables(Registered(tables.processed, Deduped(movements)),
           Merged(tables.metrics, Aggregate(Claimed(tables.processed, movements)), mode))
  }

  /** A reset with a stale snapshot is refused and changes nothing. */
  function Transacted(tables: Tables, scope: Scope, movements: seq<MovementEvent>, reset: bool): Tables {
    if !reset then Applied(tables, movements, Additive)
    else if StaleIds(tables, scope, movements) != {} then tables
    else Applied(WithoutScope(tables, scope), movements, Exact)
  }

  // ---------- the program ----------

  method DedupeRevenueMovementEvents(movements: seq<MovementEvent>) returns (deduped: seq<MovementEvent>)
    ensures deduped == Deduped(movements)
  {
    deduped := [];
    var seenEventIds: set<string> := {};
    for i := 0 to |movements|
      invariant deduped == Deduped(movements[..i])
      invariant seenEventIds == Ids(movements[..i])
    {
      var movement := movements[i];
      assert movements[..i + 1] == movements[..i] + [movement];
      IdsOfLast(movements[..i], movement);
      if movement.eventId in seenEventIds {
        continue;
      }
      seenEventIds := seenEventIds + {movement.eventId};
      deduped := deduped + [movement];
    }
    assert movements[..|movements|] == movements;
  }

  function Missing(processedEventIds: seq<string>, ids: set<string>): seq<string> {
    if processedEventIds == [] then []
    else
      var last := processedEventIds[|processedEventIds| - 1];
      var before := Missing(processedEventIds[..|processedEventIds| - 1], ids);
      if last in ids then before else before + [last]
  }

  lemma {:induction false} MissingOfLonger(processedEventIds: seq<string>, ids: set<string>, n: nat)
    requires n <= |processedEventIds|
    ensures Missing(processedEventIds[..n], ids) <= Missing(processedEventIds, ids)
    decreases |processedEventIds| - n
  {
    if n == |processedEventIds| {
      assert processedEventIds[..n] == processedEventIds;
    } else {
      MissingOfLonger(processedEventIds, ids, n + 1);
      assert processedEventIds[..n + 1][..n] == processedEventIds[..n];
    }
  }

  /** A sample of the missing ids: the first `sampleSize` of them, so none exactly when none is missing. */
  method FindMissingResetSnapshotEventIds(movements: seq<MovementEvent>, processedEventIds: seq<string>,
                                          sampleSize: int)
    returns (missingEventIds: seq<string>)
    ensures sampleSize >= 1 ==>
      && missingEventIds <= Missing(processedEventIds, Ids(movements))
      && |missingEventIds| <= sampleSize
      && (|missingEventIds| < sampleSize ==> missingEventIds == Missing(processedEventIds, Ids(movements)))
    ensures sampleSize < 1 ==>
      missingEventIds == Missing(processedEventIds[..if processedEventIds == [] then 0 else 1], Ids(movements))
  {
    var snapshotEventIds := Ids(movements);
    missingEventIds := [];
    for i := 0 to |processedEventIds|
      invariant missingEventIds == Missing(processedEventIds[..i], snapshotEventIds)
      invariant i == 0 || |missingEventIds| < sampleSize
      invariant |missingEventIds| == 0 || |missingEventIds| < sampleSize
    {
      assert processedEventIds[..i + 1][..i] == processedEventIds[..i];
      if processedEventIds[i] !in snapshotEventIds {
        missingEventIds := missingEventIds + [processedEventIds[i]];
      }
      if |missingEventIds| >= sampleSize {
        MissingOfLonger(processedEventIds, snapshotEventIds, i + 1);
        return;
      }
    }
    assert processedEventIds[..|processedEventIds|] == processedEventIds;
  }

  datatype Outcome = Committed(metricRowsApplied: nat, movementsApplied: nat) | StaleSnapshot | DatabaseFailure

  /** The statement of a transaction at which the database fails, if it does. */
  datatype Failure = NoFailure | AtReset | AtClaim | AtUpsert | AtRefresh

  class BackfillDatabase {
    var processed: map<string, Key>
    var metrics: map<Key, Metric>

    ghost function Contents(): Tables
      reads this
    {
      Tables(processed, metrics)
    }

    constructor ()
      ensures Contents() == EMPTY
    {
      processed, metrics := map[], map[];
    }

    /** The ids counted inside the scope, in whatever order the database returns them. */
    method SelectProcessedIds(scope: Scope) returns (ids: seq<string>)
      ensures forall id :: id in ids <==> id in processed && InScope(scope, processed[id])
    {
      hide InScope;
      ids := [];
      var rest := processed.Keys;
      while rest != {}
        invariant rest <= processed.Keys
        invariant forall id :: id in ids <==> id in processed && id !in rest && InScope(scope, processed[id])
        decreases |rest|
      {
        var id :| id in rest;
        rest := rest - {id};
        if InScope(scope, processed[id]) {
          ids := ids + [id];
        }
      }
    }

    method AssertResetSnapshotIsCurrent(movements: seq<MovementEvent>, scope: Scope) returns (current: bool)
      ensures current <==> StaleIds(Contents(), scope, movements) == {}
    {
      hide InScope;
      var ids := SelectProcessedIds(scope);
      var missing := FindMissingResetSnapshotEventIds(movements, ids, 10);
      current := |missing| == 0;
      MissingIsTheOthers(ids, Ids(movements));
      ghost var all := Missing(ids, Ids(movements));
      if current {
        assert forall id :: id in StaleIds(Contents(), scope, movements) ==> id in all;
      } else {
        assert all[0] == missing[0] && all[0] in all;
        assert all[0] in StaleIds(Contents(), scope, movements);
      }
    }

    method ResetBackfillRange(scope: Scope)
      modifies this
      ensures Contents() == WithoutScope(old(Contents()), scope)
    {
      processed := map id | id in processed && !InScope(scope, processed[id]) :: processed[id];
      metrics := map key | key in metrics && !InScope(scope, key) :: metrics[key];
    }

    /** One INSERT: ids already there are left alone and not returned. */
    method InsertProcessed(chunk: seq<MovementEvent>) returns (ids: set<string>)
      requires DistinctIds(chunk)
      modifies `processed
      ensures processed == Registered(old(processed), chunk)
      ensures ids == Ids(chunk) - old(processed).Keys
    {
      ids := {};
      for i := 0 to |chunk|
        invariant processed == Registered(old(processed), chunk[..i])
        invariant ids == Ids(chunk[..i]) - old(processed).Keys
      {
        assert chunk[..i + 1] == chunk[..i] + [chunk[i]];
        RegisteredKeeps(old(processed), chunk[..i]);
        IdsOfLast(chunk[..i], chunk[i]);
        assert forall k :: 0 <= k < i ==> chunk[..i][k] == chunk[k];
        if chunk[i].eventId !in processed {
          processed := processed[chunk[i].eventId := KeyOf(chunk[i])];
          ids := ids + {chunk[i].eventId};
        }
      }
      assert chunk[..|chunk|] == chunk;
    }

    method ClaimProcessedEvents(movements: seq<MovementEvent>) returns (claimed: seq<MovementEvent>)
      modifies `processed
      ensures claimed == Claimed(old(processed), movements)
      ensures processed == Registered(old(processed), Deduped(movements))
    {
      hide Registered, Unclaimed, Deduped, Ids;
      var unique := DedupeRevenueMovementEvents(movements);
      DedupedKeepsEachIdOnce(movements);
      NothingIsRegistered(processed);
      var claimedEventIds: set<string> := {};
      var i := 0;
      while i < |unique|
        invariant 0 <= i <= |unique|
        invariant processed == Registered(old(processed), unique[..i])
        invariant claimedEventIds == Ids(unique[..i]) - old(processed).Keys
      {
        var next := if i + DB_CHUNK_SIZE < |unique| then i + DB_CHUNK_SIZE else |unique|;
        ChunkIsClaimed(old(processed), unique, i, next);
        var ids := InsertProcessed(unique[i..next]);
        claimedEventIds := claimedEventIds + ids;
        i := next;
      }
      assert unique[..|unique|] == unique;
      claimed := WithIds(unique, claimedEventIds);
      IdsAreListed(unique);
      WithoutTheKnown(unique, claimedEventIds, old(processed).Keys);
    }

    method UpsertDailyRevenueMetrics(rows: seq<Row>, mode: Mode)
      requires forall i, j :: 0 <= i < j < |rows| ==> rows[i].key != rows[j].key
      modifies `metrics
      ensures metrics == Upserted(old(metrics), rows, mode)
    {
      hide Upserted, UpsertedRow;
      NoRowsUpserted(metrics, mode);
      var i := 0;
      while i < |rows|
        invariant 0 <= i <= |rows|
        invariant metrics == Upserted(old(metrics), rows[..i], mode)
      {
        var next := if i + DB_CHUNK_SIZE < |rows| then i + DB_CHUNK_SIZE else |rows|;
        UpsertedConcat(old(metrics), rows[..i], rows[i..next], mode);
        assert rows[..i] + rows[i..next] == rows[..next];
        metrics := Upserted(metrics, rows[i..next], mode);
        i := next;
      }
      assert rows[..|rows|] == rows;
    }

    /**
     * A transaction commits all of its work or, if the snapshot is stale or the database fails at any
     * statement, rolls back and leaves both tables as they were.
     */
    method ApplyBackfillTransaction(scope: Scope, movements: seq<MovementEvent>, reset: bool, collation: Collation,
                                    failure: Failure)
      returns (outcome: Outcome)
      modifies this
      ensures outcome.Committed? ==>
        && Contents() == Transacted(old(Contents()), scope, movements, reset)
        && (reset ==> StaleIds(old(Contents()), scope, movements) == {})
      ensures !outcome.Committed? ==> Contents() == old(Contents())
      ensures failure.NoFailure? ==>
        (outcome.Committed? <==> !(reset && StaleIds(old(Contents()), scope, movements) != {}))
    {
      hide StaleIds, WithoutScope, Merged, Registered, Deduped, Claimed, IsListing, Aggregate;
      var begun := (processed, metrics);
      if reset {
        var current := AssertResetSnapshotIsCurrent(movements, scope);
        if !current {
          return StaleSnapshot;
        }
        ResetBackfillRange(scope);
        if failure.AtReset? {
          processed, metrics := begun.0, begun.1;
          return DatabaseFailure;
        }
      }
      label Claiming:
      var movementsToApply := ClaimProcessedEvents(movements);
      if failure.AtClaim? {
        processed, metrics := begun.0, begun.1;
        return DatabaseFailure;
      }
      var rows := AggregateRevenueMovementEvents(movementsToApply, collation);
      ListingHasDistinctKeys(rows, Aggregate(movementsToApply));
      var mode := if reset then Exact else Additive;
      UpsertDailyRevenueMetrics(rows, mode);
      UpsertedIsMerged(old@Claiming(metrics), rows, Aggregate(movementsToApply), mode);
      if failure.AtUpsert? || failure.AtRefresh? {
        processed, metrics := begun.0, begun.1;
        return DatabaseFailure;
      }
      outcome := Committed(|rows|, |movementsToApply|);
    }
  }

  lemma NoRowsUpserted(metrics: map<Key, Metric>, mode: Mode)
    ensures Upserted(metrics, [], mode) == metrics
  {
  }

  lemma ListingHasDistinctKeys(rows: seq<Row>, metrics: map<Key, Metric>)
    requires IsListing(rows, metrics)
    ensures forall i, j :: 0 <= i < j < |rows| ==> rows[i].key != rows[j].key
  {
  }

  lemma {:induction false} MissingIsTheOthers(processedEventIds: seq<string>, ids: set<string>)
    ensures forall id :: id in Missing(processedEventIds, ids) <==> id in processedEventIds && id !in ids
  {
    if processedEventIds != [] {
      MissingIsTheOthers(processedEventIds[..|processedEventIds| - 1], ids);
    }
  }

  /** One more chunk of distinct movements claims exactly its ids that were not there at the start. */
  lemma ChunkIsClaimed(processed: map<string, Key>, unique: seq<MovementEvent>, i: nat, next: nat)
    requires DistinctIds(unique) && i <= next <= |unique|
    ensures DistinctIds(unique[i..next])
    ensures Registered(Registered(processed, unique[..i]), unique[i..next]) == Registered(processed, unique[..next])
    ensures Ids(unique[i..next]) - Registered(processed, unique[..i]).Keys == Ids(unique[i..next]) - processed.Keys
    ensures Ids(unique[..next]) == Ids(unique[..i]) + Ids(unique[i..next])
  {
    hide Registered;
    var done, chunk := unique[..i], unique[i..next];
    assert done + chunk == unique[..next];
    RegisteredConcat(processed, done, chunk);
    RegisteredKeeps(processed, done);
    IdsOfConcat(done, chunk);
    forall id | id in Ids(chunk) ensures id !in Ids(done) {
      var k :| 0 <= k < |chunk| && chunk[k].eventId == id;
      assert unique[i + k].eventId == id;
    }
  }

  lemma NothingIsRegistered(processed: map<string, Key>)
    ensures Registered(processed, []) == processed && Ids([]) == {}
  {
  }

  lemma IdsAreListed(movements: seq<MovementEvent>)
    ensures forall i :: 0 <= i < |movements| ==> movements[i].eventId in Ids(movements)
  {
  }
}
