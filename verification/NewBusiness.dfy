/** How often a customer is counted as new business. */
module NewBusiness {
  import opened Common
  import Sorting
  import opened RevenueMovements
  import opened RevenueAccounting

  function NewBusinessCount(movements: seq<MovementEvent>, customer: string): nat {
    if movements == [] then 0
    else
      var last := movements[|movements| - 1];
      NewBusinessCount(movements[..|movements| - 1], customer)
      + if last.customer == customer && last.movement.newBusiness > 0.0 then 1 else 0
  }

  /** What an event leaves tracked has a `paidAt` no later than the event. */
  lemma TrackedPaidAtIsNotLater(plans: seq<Plan>, event: Event, tracked: Option<Tracked>, initialPaidAt: Option<int>)
    requires !event.kind.Unsupported?
    requires tracked.Some? ==> tracked.value.paidAt.Some? && tracked.value.paidAt.value <= OccurredAt(event)
    ensures var reading := ReadEvent(plans, event, tracked, initialPaidAt);
      reading.Baseline? || reading.Change? ==>
        reading.next.paidAt.Some? && reading.next.paidAt.value <= OccurredAt(event)
  {
    hide Mrr, PreviousState, LicensedItem, ItemPriceId, ItemProductId, IsActiveUntilPeriodEnd;
  }

  /** A customer known to have paid before an event never counts as new business in it. */
  lemma KnownCustomersAreNotNew(plans: seq<Plan>, event: Event, tracked: Option<Tracked>, initialPaidAt: Option<int>)
    requires !event.kind.Unsupported?
    requires OrElse(TrackedField(tracked, (t: Tracked) => t.paidAt), initialPaidAt).Some?
    requires OrElse(TrackedField(tracked, (t: Tracked) => t.paidAt), initialPaidAt).value < OccurredAt(event)
    ensures var reading := ReadEvent(plans, event, tracked, initialPaidAt);
      reading.Change? ==> Classify(plans, reading.current, reading.next).newBusiness == 0.0
  {
    hide Mrr, PreviousState, LicensedItem, ItemPriceId, ItemProductId, IsActiveUntilPeriodEnd;
    hide PlanKeyOf, SubscriptionPlan;
  }

  /** The events of the customer are one per second, in time order. */
  predicate DistinctTimes(events: seq<Event>, customer: string) {
    forall i, j ::
      0 <= i < j < |events| && events[i].customer == Some(customer) && events[j].customer == Some(customer)
      ==> events[i].created < events[j].created
  }

  lemma OtherEventsChangeNothing(plans: seq<Plan>, options: Options, p: Progress, event: Event, customer: string)
    requires event.customer != Some(customer) || !IsConsidered(options, event)
    ensures var q := Follow(plans, options, p, event);
      && StateOf(q.states, customer) == StateOf(p.states, customer)
      && NewBusinessCount(q.movements, customer) == NewBusinessCount(p.movements, customer)
  {
    hide ReadEvent, Classify, HasMovement;
    var q := Follow(plans, options, p, event);
    assert q.movements[..|p.movements|] == p.movements;
  }

  // ---------- how often, exactly ----------

  /** The event names a price and a product. */
  predicate IsPriced(event: Event) {
    !IsBlankId(ItemPriceId(LicensedItem(event.items))) && !IsBlankId(ItemProductId(LicensedItem(event.items)))
  }

  predicate IsReadFor(options: Options, event: Event, customer: string) {
    event.customer == Some(customer) && IsConsidered(options, event) && IsPriced(event)
  }

  /** The event from which on the customer is tracked. */
  function FirstReading(options: Options, events: seq<Event>, customer: string): Option<Event> {
    if events == [] then None
    else
      var before, last := FirstReading(options, events[..|events| - 1], customer), events[|events| - 1];
      if before.Some? then before else if IsReadFor(options, last, customer) then Some(last) else None
  }

  /** As the first event of its customer, the event brings revenue where there was none. */
  predicate StartsRevenue(plans: seq<Plan>, event: Event) {
    && PriceMrr(plans, event) > 0.0
    && (event.kind.SubscriptionCreated?
        || (event.kind.SubscriptionUpdated? && TellsThePast(event) && Mrr(plans, PreviousState(event, None)) <= 0.0))
  }

  /**
   * After the events `before`, the event is a start of the range that brings revenue: the first event of
   * the customer, or a creation in the second of the first one.
   */
  predicate IsStart(plans: seq<Plan>, options: Options, before: seq<Event>, event: Event, customer: string) {
    && IsReadFor(options, event, customer) && DayOf(event) >= options.from
    && match FirstReading(options, before, customer)
       case None => StartsRevenue(plans, event)
       case Some(first) =>
         event.kind.SubscriptionCreated? && event.created == first.created && PriceMrr(plans, event) > 0.0
  }

  function Starts(plans: seq<Plan>, options: Options, events: seq<Event>, customer: string): nat {
    if events == [] then 0
    else
      var init, last := events[..|events| - 1], events[|events| - 1];
      Starts(plans, options, init, customer) + if IsStart(plans, options, init, last, customer) then 1 else 0
  }

  predicate IsBefore(paidAt: Option<int>, event: Event) {
    paidAt.Some? && paidAt.value < OccurredAt(event)
  }

  /** A payment is known from before the customer's first event. */
  predicate PaidBefore(options: Options, events: seq<Event>, customer: string) {
    var first := FirstReading(options, events, customer);
    first.Some? && IsBefore(InitialPaidAt(options, customer), first.value)
  }

  lemma FirstReadingCounts(plans: seq<Plan>, event: Event, initialPaidAt: Option<int>)
    requires !event.kind.Unsupported? && IsPriced(event)
    ensures var reading := ReadEvent(plans, event, None, initialPaidAt);
      && (reading.Baseline? || reading.Change?)
      && reading.next.paidAt == (if IsBefore(initialPaidAt, event) then initialPaidAt else Some(OccurredAt(event)))
      && (reading.Change? && Classify(plans, reading.current, reading.next).newBusiness > 0.0
          <==> !IsBefore(initialPaidAt, event) && StartsRevenue(plans, event))
  {
    hide PlanByProductId, LicensedItem, ItemPriceId, ItemProductId, IsActiveUntilPeriodEnd, PlanKeyOf;
    if event.kind.SubscriptionUpdated? {
      hide PreviousState;
    }
  }

  lemma LaterReadingCounts(plans: seq<Plan>, event: Event, tracked: Tracked, initialPaidAt: Option<int>)
    requires !event.kind.Unsupported? && IsPriced(event)
    requires tracked.paidAt.Some? && tracked.paidAt.value <= OccurredAt(event)
    ensures var reading := ReadEvent(plans, event, Some(tracked), initialPaidAt);
      && (reading.Baseline? || reading.Change? ==> reading.next.paidAt == tracked.paidAt)
      && (reading.Change? && Classify(plans, reading.current, reading.next).newBusiness > 0.0
          <==> event.kind.SubscriptionCreated? && tracked.paidAt.value == OccurredAt(event)
               && PriceMrr(plans, event) > 0.0)
  {
    hide PlanByProductId, LicensedItem, ItemPriceId, ItemProductId, IsActiveUntilPeriodEnd, PlanKeyOf, PreviousState;
  }

  lemma UnpricedEventsChangeNothing(plans: seq<Plan>, options: Options, p: Progress, event: Event, customer: string)
    requires event.customer == Some(customer) && IsConsidered(options, event) && !IsPriced(event)
    ensures var q := Follow(plans, options, p, event);
      q.states == p.states && q.movements == p.movements
  {
    hide PreviousState, KnownPaidAtBefore, LicensedItem, ItemPriceId, ItemProductId;
  }

  lemma CountOfFollow(plans: seq<Plan>, options: Options, p: Progress, event: Event, customer: string)
    requires event.customer == Some(customer) && IsConsidered(options, event)
    ensures var reading := ReadingOf(plans, options, p.states, event);
      var q := Follow(plans, options, p, event);
      && StateOf(q.states, customer)
           == (if reading.Baseline? || reading.Change? then Some(reading.next) else StateOf(p.states, customer))
      && NewBusinessCount(q.movements, customer) == NewBusinessCount(p.movements, customer)
        + (if reading.Change? && DayOf(event) >= options.from
           && Classify(plans, reading.current, reading.next).newBusiness > 0.0
           then 1 else 0)
  {
    hide ReadEvent, Classify;
    var q := Follow(plans, options, p, event);
    assert q.movements[..|p.movements|] == p.movements;
  }

  function PaidSince(options: Options, events: seq<Event>, customer: string): Option<int>
    requires FirstReading(options, events, customer).Some?
  {
    if PaidBefore(options, events, customer) then InitialPaidAt(options, customer)
    else Some(OccurredAt(FirstReading(options, events, customer).value))
  }

  /** What is known of a customer after a feed in time order: tracked since the first reading, and counted. */
  predicate IsCounted(plans: seq<Plan>, options: Options, p: Progress, events: seq<Event>, customer: string) {
    var first := FirstReading(options, events, customer);
    && (customer in p.states <==> first.Some?)
    && (first.Some? ==> p.states[customer].paidAt == PaidSince(options, events, customer))
    && NewBusinessCount(p.movements, customer) ==
         (if PaidBefore(options, events, customer) then 0 else Starts(plans, options, events, customer))
  }

  lemma {:induction false} FirstReadingIsInFeed(options: Options, events: seq<Event>, customer: string)
    ensures FirstReading(options, events, customer).Some? ==> FirstReading(options, events, customer).value in events
    ensures FirstReading(options, events, customer).None? ==>
        forall plans :: Starts(plans, options, events, customer) == 0
  {
    hide IsReadFor;
    if events != [] {
      FirstReadingIsInFeed(options, events[..|events| - 1], customer);
    }
  }

  lemma ReadEventIsCounted(plans: seq<Plan>, options: Options, p: Progress, init: seq<Event>, event: Event,
                           customer: string)
    requires InTimeOrder(init + [event]) && IsReadFor(options, event, customer)
    requires IsCounted(plans, options, p, init, customer)
    ensures IsCounted(plans, options, Follow(plans, options, p, event), init + [event], customer)
  {
    hide ReadEvent, Classify, Follow, IsPriced, StartsRevenue, NewBusinessCount, PriceMrr;
    assert (init + [event])[..|init|] == init;
    CountOfFollow(plans, options, p, event, customer);
    FirstReadingIsInFeed(options, init, customer);
    var initial := InitialPaidAt(options, customer);
    match FirstReading(options, init, customer) {
      case None => FirstReadingCounts(plans, event, initial);
      case Some(first) =>
        var i :| 0 <= i < |init| && init[i] == first;
        assert (init + [event])[i].created <= (init + [event])[|init|].created;
        LaterReadingCounts(plans, event, p.states[customer], initial);
    }
  }

  lemma OtherEventIsCounted(plans: seq<Plan>, options: Options, p: Progress, init: seq<Event>, event: Event,
                            customer: string)
    requires !IsReadFor(options, event, customer) && IsCounted(plans, options, p, init, customer)
    ensures IsCounted(plans, options, Follow(plans, options, p, event), init + [event], customer)
  {
    hide Follow, IsPriced, NewBusinessCount, StartsRevenue, IsConsidered;
    assert (init + [event])[..|init|] == init;
    if event.customer == Some(customer) && IsConsidered(options, event) {
      UnpricedEventsChangeNothing(plans, options, p, event, customer);
    } else {
      OtherEventsChangeNothing(plans, options, p, event, customer);
    }
  }

  lemma {:induction false} FeedIsCounted(plans: seq<Plan>, options: Options, events: seq<Event>, customer: string)
    requires InTimeOrder(events)
    ensures IsCounted(plans, options, FollowAll(plans, options, NO_PROGRESS, events), events, customer)
  {
    hide Follow, IsReadFor, IsCounted;
    if events == [] {
      NothingIsCounted(plans, options, customer);
    } else {
      var init, event := events[..|events| - 1], events[|events| - 1];
      assert events == init + [event];
      FeedIsCounted(plans, options, init, customer);
      var p := FollowAll(plans, options, NO_PROGRESS, init);
      if IsReadFor(options, event, customer) {
        ReadEventIsCounted(plans, options, p, init, event, customer);
      } else {
        OtherEventIsCounted(plans, options, p, init, event, customer);
      }
    }
  }

  lemma NothingIsCounted(plans: seq<Plan>, options: Options, customer: string)
    ensures IsCounted(plans, options, NO_PROGRESS, [], customer)
  {
  }

  /**
   * How often a customer is new business over any feed, exactly: never if a payment from before the first
   * event is known, and otherwise once for every start. So it is counted at most once exactly when such a
   * payment is known or there is at most one start.
   */
  lemma NewBusinessIsCountedOnceExactlyWhen(events: seq<Event>, plans: seq<Plan>, options: Options, customer: string)
    ensures var sorted := SortEvents(events);
      var count := NewBusinessCount(FollowAll(plans, options, NO_PROGRESS, sorted).movements, customer);
      && count == (if PaidBefore(options, sorted, customer) then 0 else Starts(plans, options, sorted, customer))
      && (count <= 1 <==> PaidBefore(options, sorted, customer) || Starts(plans, options, sorted, customer) <= 1)
  {
    hide FollowAll, NewBusinessCount, Starts, FirstReading, SortEvents;
    SortIsInTimeOrder(events);
    FeedIsCounted(plans, options, SortEvents(events), customer);
  }

  /** No two events of the customer are in the same second. */
  predicate OnePerSecond(events: seq<Event>, customer: string) {
    forall i, j ::
      0 <= i < j < |events| && events[i].customer == Some(customer) && events[j].customer == Some(customer)
      ==> events[i].created != events[j].created
  }

  predicate InDifferentSeconds(a: Event, b: Event, customer: string) {
    a.customer == Some(customer) && b.customer == Some(customer) ==> a.created != b.created
  }

  lemma SortKeepsDistinctTimes(events: seq<Event>, customer: string)
    requires OnePerSecond(events, customer)
    ensures DistinctTimes(SortEvents(events), customer)
  {
    var related := (a: Event, b: Event) => InDifferentSeconds(a, b, customer);
    SortIsInTimeOrder(events);
    Sorting.SortKeepsPairs(events, IsNoLater, related);
    var sorted := SortEvents(events);
    forall i, j | 0 <= i < j < |sorted| && sorted[i].customer == Some(customer) && sorted[j].customer == Some(customer)
      ensures sorted[i].created < sorted[j].created
    {
      assert related(sorted[i], sorted[j]);
    }
  }

  lemma {:induction false} DistinctTimesStartOnce(plans: seq<Plan>, options: Options, events: seq<Event>,
                                                  customer: string)
    requires DistinctTimes(events, customer)
    ensures Starts(plans, options, events, customer) <= 1
  {
    hide IsConsidered, IsPriced, StartsRevenue, PriceMrr;
    if events != [] {
      var init, last := events[..|events| - 1], events[|events| - 1];
      DistinctTimesStartOnce(plans, options, init, customer);
      FirstReadingIsInFeed(options, init, customer);
      FirstReadingIsTheCustomers(options, init, customer);
      if FirstReading(options, init, customer).Some? {
        var i :| 0 <= i < |init| && init[i] == FirstReading(options, init, customer).value;
        assert events[i] == init[i];
      }
    }
  }

  lemma {:induction false} FirstReadingIsTheCustomers(options: Options, events: seq<Event>, customer: string)
    ensures FirstReading(options, events, customer).Some? ==>
        IsReadFor(options, FirstReading(options, events, customer).value, customer)
  {
    hide IsReadFor;
    if events != [] {
      FirstReadingIsTheCustomers(options, events[..|events| - 1], customer);
    }
  }

  /** In particular at most once if no two of the customer's events share a second. */
  lemma NewBusinessIsCountedOnce(events: seq<Event>, plans: seq<Plan>, options: Options, customer: string)
    requires OnePerSecond(events, customer)
    ensures NewBusinessCount(FollowAll(plans, options, NO_PROGRESS, SortEvents(events)).movements, customer) <= 1
  {
    hide FollowAll, NewBusinessCount, DistinctTimes, OnePerSecond, SortEvents, Starts, FirstReading;
    SortKeepsDistinctTimes(events, customer);
    DistinctTimesStartOnce(plans, options, SortEvents(events), customer);
    NewBusinessIsCountedOnceExactlyWhen(events, plans, options, customer);
  }

  /** The customer is known to have paid, before every event of the customer. */
  predicate PaidBeforeAll(events: seq<Event>, options: Options, customer: string) {
    && InitialPaidAt(options, customer).Some?
    && forall i :: 0 <= i < |events| && events[i].customer == Some(customer) ==>
      InitialPaidAt(options, customer).value < OccurredAt(events[i])
  }

  /** A customer known to have paid before the feed is never new business, however events share seconds. */
  lemma KnownPayersAreNeverNewBusiness(events: seq<Event>, plans: seq<Plan>, options: Options, customer: string)
    requires PaidBeforeAll(events, options, customer)
    ensures NewBusinessCount(FollowAll(plans, options, NO_PROGRESS, SortEvents(events)).movements, customer) == 0
  {
    hide FollowAll, NewBusinessCount, SortEvents, Starts, FirstReading, IsConsidered, IsPriced;
    var sorted := SortEvents(events);
    NewBusinessIsCountedOnceExactlyWhen(events, plans, options, customer);
    FirstReadingIsInFeed(options, sorted, customer);
    FirstReadingIsTheCustomers(options, sorted, customer);
    var first := FirstReading(options, sorted, customer);
    if first.Some? {
      SortIsOfTheSameEvents(events, first.value);
      var i :| 0 <= i < |events| && events[i] == first.value;
    }
  }

  /** A new subscription is new business exactly when it brings revenue and no earlier payment is known. */
  lemma CreatedIsNewBusinessExactlyWhen(plans: seq<Plan>, event: Event, tracked: Option<Tracked>,
                                        initialPaidAt: Option<int>)
    requires event.kind.SubscriptionCreated?
    ensures var reading := ReadEvent(plans, event, tracked, initialPaidAt);
      var paidAt := OrElse(TrackedField(tracked, (t: Tracked) => t.paidAt), initialPaidAt);
      reading.Change? ==>
        (Classify(plans, reading.current, reading.next).newBusiness > 0.0
         <==> Mrr(plans, reading.next) > 0.0 && !(paidAt.Some? && paidAt.value < OccurredAt(event)))
  {
    hide PlanByProductId, PreviousState, LicensedItem, ItemPriceId, ItemProductId, PlanKeyOf;
  }

  /** No payment is known from before the event, and the customer is tracked, if at all, since this very second. */
  predicate IsFirstSecond(options: Options, p: Progress, event: Event)
    requires event.customer.Some?
  {
    && InitialPaidAt(options, event.customer.value).None?
    && (event.customer.value in p.states ==> p.states[event.customer.value].paidAt == Some(OccurredAt(event)))
  }

  lemma CreationIsNewBusiness(plans: seq<Plan>, options: Options, p: Progress, event: Event)
    requires IsPricedCreation(options, event) && PriceMrr(plans, event) > 0.0 && IsFirstSecond(options, p, event)
    ensures var customer := event.customer.value;
      var q := Follow(plans, options, p, event);
      && NewBusinessCount(q.movements, customer) == NewBusinessCount(p.movements, customer) + 1
      && customer in q.states && q.states[customer].paidAt == Some(OccurredAt(event))
  {
    hide NewBusinessCount, PreviousState, Classify, PriceMrr, LicensedItem, ItemPriceId, ItemProductId, Mrr;
    var customer := event.customer.value;
    var tracked := StateOf(p.states, customer);
    TrackedRevenueIsTheEvents(plans, event, tracked, InitialPaidAt(options, customer));
    CreatedIsNewBusinessExactlyWhen(plans, event, tracked, InitialPaidAt(options, customer));
    OneMoreMovement(p.movements, Follow(plans, options, p, event).movements, customer);
  }

  lemma OneMoreMovement(before: seq<MovementEvent>, after: seq<MovementEvent>, customer: string)
    requires |after| == |before| + 1 && after[..|before|] == before
    requires after[|before|].customer == customer && after[|before|].movement.newBusiness > 0.0
    ensures NewBusinessCount(after, customer) == NewBusinessCount(before, customer) + 1
  {
  }

  /** Two subscriptions created in the same second both count as new business. */
  lemma SameSecondCountsTwice() returns (events: seq<Event>)
    ensures |events| == 2 && events[0].created == events[1].created
    ensures forall event :: event in events ==> event.kind.SubscriptionCreated?
    ensures NewBusinessCount(FollowAll([SOLO_PLAN], SOLO_OPTIONS, NO_PROGRESS, events).movements, "cus") == 2
  {
    hide Follow, IsPricedCreation, PriceMrr;
    var first := SimpleEvent("evt_1", SubscriptionCreated, 1, "sub_1");
    var second := SimpleEvent("evt_2", SubscriptionCreated, 1, "sub_2");
    SimpleEventIsPriced("evt_1", 1, "sub_1");
    SimpleEventIsPriced("evt_2", 1, "sub_2");
    TwoEvents([SOLO_PLAN], SOLO_OPTIONS, NO_PROGRESS, first, second);
    CreationIsNewBusiness([SOLO_PLAN], SOLO_OPTIONS, NO_PROGRESS, first);
    CreationIsNewBusiness([SOLO_PLAN], SOLO_OPTIONS, Follow([SOLO_PLAN], SOLO_OPTIONS, NO_PROGRESS, first), second);
    events := [first, second];
  }
}
