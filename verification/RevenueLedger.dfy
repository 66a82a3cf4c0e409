/** What any sequence of backfill transactions leaves: the aggregate of a log of movements, each counted once. */
module RevenueLedger {
  import opened Common
  import opened RevenueMovements
  import opened RevenueMetrics
  import opened RevenueBackfill

  datatype Transaction = Transaction(scope: Scope, movements: seq<MovementEvent>, reset: bool)

  function Run(tables: Tables, transactions: seq<Transaction>): Tables {
    if transactions == [] then tables
    else
      var last := transactions[|transactions| - 1];
      Transacted(Run(tables, transactions[..|transactions| - 1]), last.scope, last.movements, last.reset)
  }

  /** The tables hold the movements of `log` and nothing else, each id once. */
  ghost predicate Backed(tables: Tables, log: seq<MovementEvent>) {
    && DistinctIds(log)
    && tables.processed.Keys == Ids(log)
    && (forall i :: 0 <= i < |log| ==>
          log[i].eventId in tables.processed && tables.processed[log[i].eventId] == KeyOf(log[i]))
    && tables.metrics == Aggregate(log)
  }

  // ---------- an additive transaction ----------

  lemma MergedIsAggregate(first: seq<MovementEvent>, second: seq<MovementEvent>)
    ensures Merged(Aggregate(first), Aggregate(second), Additive) == Aggregate(first + second)
  {
    hide Aggregate, Plus;
    var left, right := Merged(Aggregate(first), Aggregate(second), Additive), Aggregate(first + second);
    forall key
      ensures key in left <==> key in right
      ensures key in right ==> left[key] == right[key]
    {
      AggregateOfConcat(first, second, key);
    }
    assert left.Keys == right.Keys;
  }

  lemma DistinctConcat(first: seq<MovementEvent>, second: seq<MovementEvent>)
    requires DistinctIds(first) && DistinctIds(second) && Ids(first) !! Ids(second)
    ensures DistinctIds(first + second)
  {
    IdsAreListed(first);
    IdsAreListed(second);
    var all := first + second;
    forall i, j | 0 <= i < j < |all| ensures all[i].eventId != all[j].eventId {
      if i < |first| && |first| <= j {
        assert all[i].eventId in Ids(first) && all[j].eventId in Ids(second);
      }
    }
  }

  /** The ids in the log and the new ones, each with the day and customer of its movement. */
  lemma RegisteredBacks(processed: map<string, Key>, log: seq<MovementEvent>, movements: seq<MovementEvent>)
    requires processed.Keys == Ids(log)
    requires forall i :: 0 <= i < |log| ==> log[i].eventId in processed && processed[log[i].eventId] == KeyOf(log[i])
    ensures var all := log + Claimed(processed, movements);
      var after := Registered(processed, Deduped(movements));
      && after.Keys == Ids(all)
      && forall i :: 0 <= i < |all| ==> all[i].eventId in after && after[all[i].eventId] == KeyOf(all[i])
  {
    hide Ids, KeyOf, Registered, Deduped, Unclaimed;
    var unique := Deduped(movements);
    var claimed := Claimed(processed, movements);
    var after := Registered(processed, unique);
    var all := log + claimed;
    DedupedKeepsEachIdOnce(movements);
    UnclaimedKeepsTheRest(unique, processed.Keys);
    RegisteredKeeps(processed, unique);
    IdsOfConcat(log, claimed);
    assert after.Keys == Ids(all);
    forall i | 0 <= i < |all|
      ensures all[i].eventId in after && after[all[i].eventId] == KeyOf(all[i])
    {
      if i < |log| {
        assert all[i] == log[i];
      } else {
        assert all[i] == claimed[i - |log|] && all[i] in claimed;
        var k :| 0 <= k < |unique| && unique[k] == all[i];
        RegisteredAdds(processed, unique, k);
      }
    }
  }

  /** An additive transaction extends the log with the first movement of every id not in it yet. */
  lemma AdditiveKeepsBacked(tables: Tables, log: seq<MovementEvent>, movements: seq<MovementEvent>)
    requires Backed(tables, log)
    ensures Backed(Applied(tables, movements, Additive), log + Claimed(tables.processed, movements))
  {
    hide Aggregate, Merged, KeyOf, Ids, DistinctIds, Registered, Deduped, Unclaimed;
    var claimed := Claimed(tables.processed, movements);
    DedupedKeepsEachIdOnce(movements);
    UnclaimedKeepsTheRest(Deduped(movements), tables.processed.Keys);
    UnclaimedIsDistinct(Deduped(movements), tables.processed.Keys);
    DistinctConcat(log, claimed);
    RegisteredBacks(tables.processed, log, movements);
    MergedIsAggregate(log, claimed);
  }

  // ---------- a reset ----------

  /** The movements of the log outside the scope. */
  function Outside(log: seq<MovementEvent>, scope: Scope): seq<MovementEvent> {
    if log == [] then []
    else
      var init, last := log[..|log| - 1], log[|log| - 1];
      if InScope(scope, KeyOf(last)) then Outside(init, scope) else Outside(init, scope) + [last]
  }

  ghost predicate AllInScope(movements: seq<MovementEvent>, scope: Scope) {
    forall m :: m in movements ==> InScope(scope, KeyOf(m))
  }

  lemma {:induction false} OutsideKeepsTheOthers(log: seq<MovementEvent>, scope: Scope)
    ensures forall m :: m in Outside(log, scope) <==> m in log && !InScope(scope, KeyOf(m))
    ensures DistinctIds(log) ==> DistinctIds(Outside(log, scope))
  {
    hide InScope, KeyOf;
    if log != [] {
      var init, last := log[..|log| - 1], log[|log| - 1];
      OutsideKeepsTheOthers(init, scope);
      assert log == init + [last];
      if DistinctIds(log) {
        forall i | 0 <= i < |Outside(init, scope)| ensures Outside(init, scope)[i].eventId != last.eventId {
          assert Outside(init, scope)[i] in init;
        }
      }
    }
  }

  /** Leaving movements of a scope out of the log leaves exactly the rows of that scope out. */
  lemma {:induction false} AggregateOutside(log: seq<MovementEvent>, scope: Scope, key: Key)
    ensures key in Aggregate(Outside(log, scope)) <==> key in Aggregate(log) && !InScope(scope, key)
    ensures key in Aggregate(Outside(log, scope)) ==> Aggregate(Outside(log, scope))[key] == Aggregate(log)[key]
  {
    hide InScope, KeyOf, MetricOf, Plus;
    if log != [] {
      var init, last := log[..|log| - 1], log[|log| - 1];
      AggregateOutside(init, scope, key);
      var kept := Outside(init, scope);
      if !InScope(scope, KeyOf(last)) {
        AggregateOutside(init, scope, KeyOf(last));
        assert (kept + [last])[..|kept|] == kept;
      }
    }
  }

  lemma WithoutScopeIsBacked(tables: Tables, log: seq<MovementEvent>, scope: Scope)
    requires Backed(tables, log)
    ensures Backed(WithoutScope(tables, scope), Outside(log, scope))
  {
    hide InScope, KeyOf, Aggregate, DistinctIds;
    var kept := Outside(log, scope);
    var after := WithoutScope(tables, scope);
    OutsideKeepsTheOthers(log, scope);
    forall id ensures id in after.processed <==> id in Ids(kept) {
      if id in Ids(kept) {
        var i :| 0 <= i < |kept| && kept[i].eventId == id;
        assert kept[i] in kept;
        var k :| 0 <= k < |log| && log[k] == kept[i];
      }
      if id in after.processed {
        var k :| 0 <= k < |log| && log[k].eventId == id;
        assert log[k] in log && log[k] in kept;
        var i :| 0 <= i < |kept| && kept[i] == log[k];
        assert kept[i].eventId == id;
      }
    }
    forall i | 0 <= i < |kept|
      ensures kept[i].eventId in after.processed && after.processed[kept[i].eventId] == KeyOf(kept[i])
    {
      assert kept[i] in kept;
      var k :| 0 <= k < |log| && log[k] == kept[i];
    }
    forall key
      ensures key in after.metrics <==> key in Aggregate(kept)
      ensures key in after.metrics ==> after.metrics[key] == Aggregate(kept)[key]
    {
      AggregateOutside(log, scope, key);
    }
    assert after.metrics.Keys == Aggregate(kept).Keys;
  }

  /** No id of the snapshot is counted outside the scope. */
  ghost predicate CountedInScope(processed: map<string, Key>, movements: seq<MovementEvent>, scope: Scope) {
    forall m :: m in movements && m.eventId in processed ==> InScope(scope, processed[m.eventId])
  }

  lemma {:induction false} NothingClaimedBefore(movements: seq<MovementEvent>, ids: set<string>)
    ensures Unclaimed(movements, ids) == movements <==> forall m :: m in movements ==> m.eventId !in ids
    ensures |Unclaimed(movements, ids)| <= |movements|
  {
    if movements != [] {
      var init, last := movements[..|movements| - 1], movements[|movements| - 1];
      NothingClaimedBefore(init, ids);
      assert movements == init + [last];
      assert last in movements;
      assert forall m :: m in movements <==> m in init || m == last;
    }
  }

  lemma DedupedHasEachId(movements: seq<MovementEvent>, m: MovementEvent)
    requires m in movements
    ensures exists first :: first in Deduped(movements) && first.eventId == m.eventId
  {
    hide Deduped;
    DedupedKeepsEachIdOnce(movements);
    var i :| 0 <= i < |movements| && movements[i] == m;
    assert m.eventId in Ids(movements);
    var k :| 0 <= k < |Deduped(movements)| && Deduped(movements)[k].eventId == m.eventId;
    assert Deduped(movements)[k] in Deduped(movements);
  }

  /** A reset counts its whole snapshot exactly when no id of it is counted outside the scope. */
  lemma WholeSnapshotIsClaimed(tables: Tables, scope: Scope, movements: seq<MovementEvent>)
    ensures Claimed(WithoutScope(tables, scope).processed, movements) == Deduped(movements)
      <==> CountedInScope(tables.processed, movements, scope)
  {
    hide InScope, Deduped, Unclaimed, Ids, DistinctIds;
    var known := WithoutScope(tables, scope).processed.Keys;
    NothingClaimedBefore(Deduped(movements), known);
    DedupedKeepsEachIdOnce(movements);
    forall m | m in movements ensures exists first :: first in Deduped(movements) && first.eventId == m.eventId {
      DedupedHasEachId(movements, m);
    }
  }

  lemma MergedApart(first: seq<MovementEvent>, second: seq<MovementEvent>)
    requires Aggregate(first).Keys !! Aggregate(second).Keys
    ensures Merged(Aggregate(first), Aggregate(second), Exact) == Aggregate(first + second)
  {
    hide Aggregate, Plus;
    var left, right := Merged(Aggregate(first), Aggregate(second), Exact), Aggregate(first + second);
    forall key
      ensures key in left <==> key in right
      ensures key in right ==> left[key] == right[key]
    {
      AggregateOfConcat(first, second, key);
    }
    assert left.Keys == right.Keys;
  }

  lemma AggregateInScope(movements: seq<MovementEvent>, scope: Scope)
    requires AllInScope(movements, scope)
    ensures forall key :: key in Aggregate(movements) ==> InScope(scope, key)
  {
    hide Aggregate, InScope;
    forall key | key in Aggregate(movements) ensures InScope(scope, key) {
      AggregateIsExact(movements, key);
      var i :| 0 <= i < |movements| && KeyOf(movements[i]) == key;
      assert movements[i] in movements;
    }
  }

  /** A reset replaces the part of the log in its scope by its snapshot. */
  lemma ResetKeepsBacked(tables: Tables, log: seq<MovementEvent>, scope: Scope, movements: seq<MovementEvent>)
    requires Backed(tables, log) && AllInScope(movements, scope) && CountedInScope(tables.processed, movements, scope)
    ensures Backed(Applied(WithoutScope(tables, scope), movements, Exact), Outside(log, scope) + Deduped(movements))
  {
    hide Aggregate, Merged, KeyOf, Ids, DistinctIds, Registered, Deduped, Unclaimed;
    hide WithoutScope, InScope, CountedInScope;
    var base, kept := WithoutScope(tables, scope), Outside(log, scope);
    WithoutScopeIsBacked(tables, log, scope);
    WholeSnapshotIsClaimed(tables, scope, movements);
    DedupedKeepsEachIdOnce(movements);
    UnclaimedKeepsTheRest(Deduped(movements), base.processed.Keys);
    DistinctConcat(kept, Deduped(movements));
    RegisteredBacks(base.processed, kept, movements);
    AggregateInScope(Deduped(movements), scope);
    forall key | key in Aggregate(kept) ensures key !in Aggregate(Deduped(movements)) {
      AggregateOutside(log, scope, key);
    }
    MergedApart(kept, Deduped(movements));
  }

  /**
   * A reset is exact and loses nothing. If it commits, the rows of the scope are the aggregate of the
   * snapshot and all other rows stay; every id counted before is still counted. This is for any tables,
   * however they came about.
   */
  lemma ResetIsExact(tables: Tables, scope: Scope, movements: seq<MovementEvent>)
    requires StaleIds(tables, scope, movements) == {}
    requires AllInScope(movements, scope) && CountedInScope(tables.processed, movements, scope)
    ensures var after := Transacted(tables, scope, movements, true);
      && (forall key :: InScope(scope, key) ==>
            && (key in after.metrics <==> key in Aggregate(Deduped(movements)))
            && (key in after.metrics ==> after.metrics[key] == Aggregate(Deduped(movements))[key]))
      && (forall key :: !InScope(scope, key) ==>
            && (key in after.metrics <==> key in tables.metrics)
            && (key in after.metrics ==> after.metrics[key] == tables.metrics[key]))
      && (forall id :: id in tables.processed ==> id in after.processed)
      && (forall m :: m in movements ==> m.eventId in after.processed)
  {
    hide Aggregate, InScope, Deduped, Claimed, Registered, CountedInScope, KeyOf, Plus;
    var base := WithoutScope(tables, scope);
    WholeSnapshotIsClaimed(tables, scope, movements);
    DedupedKeepsEachIdOnce(movements);
    RegisteredKeeps(base.processed, Deduped(movements));
    AggregateInScope(Deduped(movements), scope);
    IdsAreListed(movements);
    var after := Transacted(tables, scope, movements, true);
    forall id | id in tables.processed ensures id in after.processed {
      assert id in StaleIds(tables, scope, movements) || id in base.processed || id in Ids(movements);
    }
  }

  // ---------- whole runs ----------

  function Movements(transactions: seq<Transaction>): seq<MovementEvent> {
    if transactions == [] then []
    else Movements(transactions[..|transactions| - 1]) + transactions[|transactions| - 1].movements
  }

  /** The log a sequence of transactions leaves behind. */
  ghost function LogOf(transactions: seq<Transaction>): seq<MovementEvent> {
    if transactions == [] then []
    else
      var log, last := LogOf(transactions[..|transactions| - 1]), transactions[|transactions| - 1];
      if !last.reset then log + Unclaimed(Deduped(last.movements), Ids(log))
      else if exists m :: m in log && InScope(last.scope, KeyOf(m)) && m.eventId !in Ids(last.movements) then log
      else Outside(log, last.scope) + Deduped(last.movements)
  }

  /** An event id fixes the day and the customer. */
  ghost predicate IdsFixTheirKey(movements: seq<MovementEvent>) {
    forall m, n :: m in movements && n in movements && m.eventId == n.eventId ==> KeyOf(m) == KeyOf(n)
  }

  ghost predicate ResetsAreInScope(transactions: seq<Transaction>) {
    forall t :: t in transactions && t.reset ==> AllInScope(t.movements, t.scope)
  }

  lemma {:induction false} LogIsOfItsMovements(transactions: seq<Transaction>)
    ensures forall m :: m in LogOf(transactions) ==> m in Movements(transactions)
  {
    hide InScope, KeyOf, Ids;
    if transactions != [] {
      var init, last := transactions[..|transactions| - 1], transactions[|transactions| - 1];
      LogIsOfItsMovements(init);
      DedupedKeepsEachIdOnce(last.movements);
      UnclaimedKeepsTheRest(Deduped(last.movements), Ids(LogOf(init)));
      OutsideKeepsTheOthers(LogOf(init), last.scope);
    }
  }

  lemma StaleIdsOfBacked(tables: Tables, log: seq<MovementEvent>, scope: Scope, movements: seq<MovementEvent>)
    requires Backed(tables, log)
    ensures StaleIds(tables, scope, movements) != {}
      <==> exists m :: m in log && InScope(scope, KeyOf(m)) && m.eventId !in Ids(movements)
  {
    hide InScope, KeyOf, Aggregate, DistinctIds;
    if StaleIds(tables, scope, movements) != {} {
      var id :| id in StaleIds(tables, scope, movements);
      var i :| 0 <= i < |log| && log[i].eventId == id;
      assert log[i] in log && InScope(scope, KeyOf(log[i]));
    }
    if m :| m in log && InScope(scope, KeyOf(m)) && m.eventId !in Ids(movements) {
      var i :| 0 <= i < |log| && log[i] == m;
      assert m.eventId in StaleIds(tables, scope, movements);
    }
  }

  lemma SnapshotIsCountedInScope(tables: Tables, log: seq<MovementEvent>, scope: Scope, movements: seq<MovementEvent>)
    requires Backed(tables, log) && AllInScope(movements, scope)
    requires forall m, n :: m in movements && n in log && m.eventId == n.eventId ==> KeyOf(m) == KeyOf(n)
    ensures CountedInScope(tables.processed, movements, scope)
  {
    hide InScope, KeyOf, Aggregate, DistinctIds;
    forall m | m in movements && m.eventId in tables.processed ensures InScope(scope, tables.processed[m.eventId]) {
      var i :| 0 <= i < |log| && log[i].eventId == m.eventId;
      assert log[i] in log;
    }
  }

  lemma OneTransactionIsBacked(tables: Tables, log: seq<MovementEvent>, last: Transaction)
    requires Backed(tables, log)
    requires last.reset ==> AllInScope(last.movements, last.scope)
    requires forall m, n :: m in last.movements && n in log && m.eventId == n.eventId ==> KeyOf(m) == KeyOf(n)
    ensures Backed(Transacted(tables, last.scope, last.movements, last.reset),
      if !last.reset then log + Unclaimed(Deduped(last.movements), Ids(log))
      else if exists m :: m in log && InScope(last.scope, KeyOf(m)) && m.eventId !in Ids(last.movements) then log
      else Outside(log, last.scope) + Deduped(last.movements))
  {
    hide InScope, KeyOf, Ids, Aggregate, DistinctIds, StaleIds, Applied, WithoutScope, Outside;
    if !last.reset {
      AdditiveKeepsBacked(tables, log, last.movements);
    } else {
      StaleIdsOfBacked(tables, log, last.scope, last.movements);
      SnapshotIsCountedInScope(tables, log, last.scope, last.movements);
      if StaleIds(tables, last.scope, last.movements) == {} {
        ResetKeepsBacked(tables, log, last.scope, last.movements);
      }
    }
  }

  /**
   * Whatever additive and reset transactions ran, refused resets included, the metrics are the
   * aggregate of the log and the processed ids are its ids, each once.
   */
  lemma {:induction false} EveryRunIsBacked(transactions: seq<Transaction>)
    requires IdsFixTheirKey(Movements(transactions)) && ResetsAreInScope(transactions)
    ensures Backed(Run(EMPTY, transactions), LogOf(transactions))
  {
    hide InScope, KeyOf, Transacted, Unclaimed, Deduped, Outside, AllInScope;
    if transactions == [] {
      NothingIsBacked();
    } else {
      var init, last := transactions[..|transactions| - 1], transactions[|transactions| - 1];
      assert forall t :: t in init ==> t in transactions;
      EveryRunIsBacked(init);
      LogIsOfItsMovements(init);
      assert last in transactions;
      OneTransactionIsBacked(Run(EMPTY, init), LogOf(init), last);
    }
  }

  lemma NothingIsBacked()
    ensures Backed(EMPTY, [])
  {
  }

  lemma {:induction false} LogOfAdditions(transactions: seq<Transaction>)
    requires forall t :: t in transactions ==> !t.reset
    ensures LogOf(transactions) == Deduped(Movements(transactions))
  {
    hide Deduped, Unclaimed, Ids;
    if transactions == [] {
      NothingDeduped();
    } else {
      var init, last := transactions[..|transactions| - 1], transactions[|transactions| - 1];
      assert last in transactions && forall t :: t in init ==> t in transactions;
      LogOfAdditions(init);
      DedupedKeepsEachIdOnce(Movements(init));
      DedupedOfConcat(Movements(init), last.movements);
    }
  }

  lemma NothingDeduped()
    ensures Deduped([]) == []
  {
  }

  lemma {:induction false} AdditionsAreBacked(transactions: seq<Transaction>)
    requires forall t :: t in transactions ==> !t.reset
    ensures Backed(Run(EMPTY, transactions), LogOf(transactions))
  {
    hide Applied, Unclaimed, Deduped, Ids, Backed;
    if transactions == [] {
      NothingIsBacked();
    } else {
      var init, last := transactions[..|transactions| - 1], transactions[|transactions| - 1];
      assert last in transactions && forall t :: t in init ==> t in transactions;
      AdditionsAreBacked(init);
      AdditiveKeepsBacked(Run(EMPTY, init), LogOf(init), last.movements);
      assert Run(EMPTY, init).processed.Keys == Ids(LogOf(init)) by {
        BackedKnowsItsIds(Run(EMPTY, init), LogOf(init));
      }
    }
  }

  lemma BackedKnowsItsIds(tables: Tables, log: seq<MovementEvent>)
    requires Backed(tables, log)
    ensures tables.processed.Keys == Ids(log) && tables.metrics == Aggregate(log) && DistinctIds(log)
  {
  }

  /**
   * Exactly once: after any additive transactions, with overlapping or repeated movements, the metrics
   * are those of one aggregation of the first movement of every id, and the processed ids are its ids.
   */
  lemma EveryMovementCountsOnce(transactions: seq<Transaction>)
    requires forall t :: t in transactions ==> !t.reset
    ensures var after := Run(EMPTY, transactions);
      var log := Deduped(Movements(transactions));
      && after.metrics == Aggregate(log)
      && after.processed.Keys == Ids(Movements(transactions))
      && DistinctIds(log)
  {
    hide Run, LogOf, Deduped, Ids, Backed, Aggregate, DistinctIds;
    AdditionsAreBacked(transactions);
    LogOfAdditions(transactions);
    BackedKnowsItsIds(Run(EMPTY, transactions), LogOf(transactions));
    DedupedKeepsEachIdOnce(Movements(transactions));
  }

  // ---------- from feeds to tables ----------

  /** One run of the script: a feed of events, turned into movements and applied. */
  datatype Backfill = Backfill(events: seq<Event>, plans: seq<Plan>, options: Options, reset: bool)

  function TransactionOf(b: Backfill): Transaction {
    var built := FollowAll(b.plans, b.options, NO_PROGRESS, SortEvents(b.events)).movements;
    Transaction(Scope(b.options.from, b.options.to, b.options.customer), Deduped(built), b.reset)
  }

  function TransactionsOf(backfills: seq<Backfill>): seq<Transaction> {
    if backfills == [] then []
    else TransactionsOf(backfills[..|backfills| - 1]) + [TransactionOf(backfills[|backfills| - 1])]
  }

  ghost predicate IsFed(backfills: seq<Backfill>, event: Event) {
    exists i :: 0 <= i < |backfills| && event in backfills[i].events
  }

  /** An event never changes: wherever it is fed, it has its time and its customer. */
  ghost predicate EventsAgree(backfills: seq<Backfill>) {
    forall d, e :: IsFed(backfills, d) && IsFed(backfills, e) && d.id == e.id ==>
      d.created == e.created && d.customer == e.customer
  }

  lemma MovementOfBackfill(b: Backfill, m: MovementEvent)
    requires m in TransactionOf(b).movements
    ensures exists event :: event in b.events && IsOf(m, event, b.options)
  {
    hide FollowAll, SortEvents, IsOf, Deduped;
    DedupedKeepsEachIdOnce(FollowAll(b.plans, b.options, NO_PROGRESS, SortEvents(b.events)).movements);
    MovementsComeFromEvents(b.plans, b.options, SortEvents(b.events), m);
    var event :| event in SortEvents(b.events) && IsOf(m, event, b.options);
    SortIsOfTheSameEvents(b.events, event);
  }

  /** The script's own filters keep all movements of a backfill inside its range and customer. */
  lemma BackfillsStayInScope(b: Backfill)
    ensures AllInScope(TransactionOf(b).movements, TransactionOf(b).scope)
  {
    hide FollowAll, SortEvents, Deduped, HasMovement;
    forall m | m in TransactionOf(b).movements ensures InScope(TransactionOf(b).scope, KeyOf(m)) {
      MovementOfBackfill(b, m);
      var event :| event in b.events && IsOf(m, event, b.options);
    }
  }

  lemma {:induction false} ResetsOfBackfillsAreInScope(backfills: seq<Backfill>)
    ensures ResetsAreInScope(TransactionsOf(backfills))
  {
    hide TransactionOf, AllInScope;
    if backfills != [] {
      ResetsOfBackfillsAreInScope(backfills[..|backfills| - 1]);
      BackfillsStayInScope(backfills[|backfills| - 1]);
    }
  }

  /** The movement has the id, the day and the customer of the event. */
  predicate IsMovementOf(m: MovementEvent, event: Event) {
    m.eventId == event.id && m.day == DayOf(event) && event.customer == Some(m.customer)
  }

  /** The movement's day and customer are those of an event that was fed. */
  ghost predicate HasEvent(backfills: seq<Backfill>, m: MovementEvent) {
    exists event :: IsFed(backfills, event) && IsMovementOf(m, event)
  }

  lemma {:induction false} MovementsOfBackfills(backfills: seq<Backfill>, m: MovementEvent)
    requires m in Movements(TransactionsOf(backfills))
    ensures HasEvent(backfills, m)
  {
    hide TransactionOf, IsConsidered, HasMovement;
    var init, last := backfills[..|backfills| - 1], backfills[|backfills| - 1];
    assert TransactionsOf(backfills)[..|backfills| - 1] == TransactionsOf(init) by { TransactionsAreAsMany(init); }
    TransactionsAreAsMany(backfills);
    if m in Movements(TransactionsOf(init)) {
      MovementsOfBackfills(init, m);
      var event :| IsFed(init, event) && IsMovementOf(m, event);
      var i :| 0 <= i < |init| && event in init[i].events;
      assert backfills[i] == init[i];
    } else {
      MovementOfBackfill(last, m);
      var event :| event in last.events && IsOf(m, event, last.options);
      assert event in backfills[|backfills| - 1].events;
      assert IsFed(backfills, event);
    }
  }

  lemma {:induction false} TransactionsAreAsMany(backfills: seq<Backfill>)
    ensures |TransactionsOf(backfills)| == |backfills|
  {
    hide TransactionOf;
    if backfills != [] {
      TransactionsAreAsMany(backfills[..|backfills| - 1]);
    }
  }

  /**
   * End to end: whatever feeds the script is run on, in whatever ranges, with or without resets, the
   * tables hold exactly the aggregate and the ids of a log of movements, each event once.
   */
  lemma BackfillsCountEventsOnce(backfills: seq<Backfill>)
    requires EventsAgree(backfills)
    ensures Backed(Run(EMPTY, TransactionsOf(backfills)), LogOf(TransactionsOf(backfills)))
  {
    hide TransactionsOf, Movements, Run, LogOf, Backed, ResetsAreInScope, IsFed;
    var movements := Movements(TransactionsOf(backfills));
    forall m, n | m in movements && n in movements && m.eventId == n.eventId ensures KeyOf(m) == KeyOf(n) {
      MovementsOfBackfills(backfills, m);
      MovementsOfBackfills(backfills, n);
    }
    ResetsOfBackfillsAreInScope(backfills);
    EveryRunIsBacked(TransactionsOf(backfills));
  }
}
