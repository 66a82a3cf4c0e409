/** A customer's movements account for the change of its revenue: in which feeds, and what is missing in others. */
module RevenueAccounting {
  import opened Common
  import opened RevenueMovements

  function MrrOf(plans: seq<Plan>, states: map<string, Tracked>, customer: string): real {
    if customer in states then Mrr(plans, states[customer]) else 0.0
  }

  function NetOf(movements: seq<MovementEvent>, customer: string): real {
    if movements == [] then 0.0
    else
      var last := movements[|movements| - 1];
      NetOf(movements[..|movements| - 1], customer) + if last.customer == customer then Net(last.movement) else 0.0
  }

  /** How far the revenue an event starts from is from the revenue tracked before it. */
  function GapOf(plans: seq<Plan>, options: Options, p: Progress, event: Event): real {
    if !IsConsidered(options, event) then 0.0
    else
      var tracked := MrrOf(plans, p.states, event.customer.value);
      match ReadingOf(plans, options, p.states, event)
      case Baseline(next) => Mrr(plans, next) - tracked
      case Change(current, next) => Mrr(plans, current) - tracked
      case _ => 0.0
  }

  /** All gaps of one customer over a run that starts from `p`. */
  function GapsOf(plans: seq<Plan>, options: Options, p: Progress, events: seq<Event>, customer: string): real {
    if events == [] then 0.0
    else
      var before := FollowAll(plans, options, p, events[..|events| - 1]);
      var last := events[|events| - 1];
      GapsOf(plans, options, p, events[..|events| - 1], customer)
      + if last.customer == Some(customer) then GapOf(plans, options, before, last) else 0.0
  }

  lemma OneEventIsAccountedFor(plans: seq<Plan>, options: Options, p: Progress, event: Event, customer: string)
    requires DayOf(event) >= options.from
    ensures var q := Follow(plans, options, p, event);
      NetOf(q.movements, customer) - NetOf(p.movements, customer)
      == MrrOf(plans, q.states, customer) - MrrOf(plans, p.states, customer)
         - if event.customer == Some(customer) then GapOf(plans, options, p, event) else 0.0
  {
    hide ReadEvent, Mrr, Classify, HasMovement, Net;
    if IsConsidered(options, event) {
      match ReadingOf(plans, options, p.states, event)
      case Change(current, next) =>
        ClassifyAccountsForTheChange(plans, current, next);
        var movement := MovementEvent(event.id, event.kind, DayOf(event), event.customer.value,
                                      Classify(plans, current, next));
        assert (p.movements + [movement])[..|p.movements|] == p.movements;
        NoMovementIsNoChange(Classify(plans, current, next));
      case _ =>
    }
  }

  lemma NoMovementIsNoChange(m: Movement)
    requires m.newBusiness >= 0.0 && m.expansion >= 0.0 && m.contraction >= 0.0 && m.churn >= 0.0
    ensures !HasMovement(m) ==> Net(m) == 0.0
  {
  }

  /**
   * Over any feed, the movements of a customer add up to the change of the tracked revenue, less the
   * gaps between what events say it was and what was tracked. No assumption on prices or order.
   */
  lemma {:induction false} RevenueIsAccountedFor(plans: seq<Plan>, options: Options, p: Progress, events: seq<Event>,
                                                 customer: string)
    requires forall i :: 0 <= i < |events| ==> DayOf(events[i]) >= options.from
    ensures var q := FollowAll(plans, options, p, events);
      NetOf(q.movements, customer) - NetOf(p.movements, customer)
      == MrrOf(plans, q.states, customer) - MrrOf(plans, p.states, customer)
         - GapsOf(plans, options, p, events, customer)
  {
    hide Follow, GapOf, MrrOf;
    if events != [] {
      RevenueIsAccountedFor(plans, options, p, events[..|events| - 1], customer);
      OneEventIsAccountedFor(plans, options, FollowAll(plans, options, p, events[..|events| - 1]),
                             events[|events| - 1], customer);
    }
  }

  /** The event names a price and a product, and is not the deletion of another subscription. */
  predicate IsFollowed(event: Event, tracked: Option<Tracked>) {
    var item := LicensedItem(event.items);
    && !IsBlankId(ItemPriceId(item)) && !IsBlankId(ItemProductId(item))
    && !(event.kind.SubscriptionDeleted? && tracked.Some?
         && !IsBlankId(tracked.value.subscriptionId) && tracked.value.subscriptionId != event.subscriptionId)
  }

  predicate TellsThePast(event: Event) {
    event.previousItems != [] || (event.previousStatus.Some? && ToBackfillStatus(event.previousStatus.value).Some?)
  }

  /**
   * The revenue an event starts from, whatever was tracked: none for a creation; what the previous price
   * brought for an update, or its own price if nothing is known of the past; for a deletion the tracked
   * price as if it were paid, or the event's own price.
   */
  function StartOf(plans: seq<Plan>, event: Event, tracked: Option<Tracked>): real
    requires !event.kind.Unsupported?
  {
    match event.kind
    case SubscriptionCreated => 0.0
    case SubscriptionUpdated =>
      if tracked.None? && !TellsThePast(event) then PriceMrr(plans, event)
      else PositivePart(Mrr(plans, PreviousState(event, tracked)))
    case SubscriptionDeleted =>
      if tracked.Some? then Mrr(plans, tracked.value.(status := Some(Succeeded))) else PriceMrr(plans, event)
  }

  lemma ReadingStartsAsStated(plans: seq<Plan>, event: Event, tracked: Option<Tracked>, initialPaidAt: Option<int>)
    requires !event.kind.Unsupported? && (tracked.Some? ==> IsComplete(tracked.value))
    ensures var reading := ReadEvent(plans, event, tracked, initialPaidAt);
      && (reading.Baseline? || reading.Change? <==> IsFollowed(event, tracked))
      && (reading.Baseline? ==> Mrr(plans, reading.next) == StartOf(plans, event, tracked))
      && (reading.Change? ==> Mrr(plans, reading.current) == StartOf(plans, event, tracked))
  {
    hide PlanByProductId, LicensedItem, ItemPriceId, ItemProductId, KnownPaidAtBefore, IsActiveUntilPeriodEnd;
    if event.kind.SubscriptionUpdated? {
      hide PreviousState;
    }
  }

  /** The gap of every kind of event: the revenue it starts from less the revenue tracked before it. */
  lemma GapOfEveryEvent(plans: seq<Plan>, options: Options, p: Progress, event: Event)
    requires AllComplete(p.states)
    ensures GapOf(plans, options, p, event) ==
      (if IsConsidered(options, event) && IsFollowed(event, StateOf(p.states, event.customer.value))
       then StartOf(plans, event, StateOf(p.states, event.customer.value))
            - MrrOf(plans, p.states, event.customer.value)
       else 0.0)
  {
    hide Mrr, StartOf, IsFollowed, ReadEvent;
    if IsConsidered(options, event) {
      var customer := event.customer.value;
      ReadingStartsAsStated(plans, event, StateOf(p.states, customer), InitialPaidAt(options, customer));
    }
  }

  /** Whatever is tracked is for a known price and product, since some known time. */
  predicate IsComplete(state: Tracked) {
    state.paidAt.Some? && state.status.Some? && !IsBlankId(state.priceId) && !IsBlankId(state.productId)
  }

  predicate AllComplete(states: map<string, Tracked>) {
    forall customer :: customer in states ==> IsComplete(states[customer])
  }

  // ---------- when the movements telescope ----------

  /** The events before the range, at the front of a feed in time order. */
  function RangeStart(options: Options, events: seq<Event>): (n: nat)
    ensures n <= |events|
    ensures forall i :: 0 <= i < n ==> DayOf(events[i]) < options.from
    ensures n < |events| ==> DayOf(events[n]) >= options.from
  {
    if events == [] || DayOf(events[0]) >= options.from then 0
    else
      var n := RangeStart(options, events[1..]);
      assert forall i :: 0 < i < 1 + n ==> events[i] == events[1..][i - 1];
      1 + n
  }

  lemma {:induction false} FollowAllConcat(plans: seq<Plan>, options: Options, p: Progress, first: seq<Event>,
                                           second: seq<Event>)
    ensures FollowAll(plans, options, p, first + second)
         == FollowAll(plans, options, FollowAll(plans, options, p, first), second)
  {
    hide Follow;
    if second == [] {
      assert first + second == first;
    } else {
      assert (first + second)[..|first + second| - 1] == first + second[..|second| - 1];
      FollowAllConcat(plans, options, p, first, second[..|second| - 1]);
    }
  }

  lemma {:induction false} NothingIsEmittedBeforeTheRange(plans: seq<Plan>, options: Options, p: Progress,
                                                          events: seq<Event>)
    requires forall i :: 0 <= i < |events| ==> DayOf(events[i]) < options.from
    ensures FollowAll(plans, options, p, events).movements == p.movements
  {
    hide ReadEvent, Classify;
    if events != [] {
      NothingIsEmittedBeforeTheRange(plans, options, p, events[..|events| - 1]);
    }
  }

  predicate NonNegative(plans: seq<Plan>) {
    forall i :: 0 <= i < |plans| ==> Amount(plans[i].monthlyPrice) >= 0.0 && Amount(plans[i].yearlyPrice) >= 0.0
  }

  lemma {:induction false} PlanByProductIdIsListed(plans: seq<Plan>, productId: Option<string>)
    ensures PlanByProductId(plans, productId).Some? ==> PlanByProductId(plans, productId).value in plans
  {
    if !IsBlankId(productId) && plans != [] && plans[0].stripeId != productId {
      PlanByProductIdIsListed(plans[1..], productId);
    }
  }

  lemma MrrIsNonNegative(plans: seq<Plan>, state: Tracked)
    requires NonNegative(plans)
    ensures Mrr(plans, state) >= 0.0
  {
    PlanByProductIdIsListed(plans, state.productId);
  }

  /**
   * Created only while nothing is paid, updated from what was tracked, deleted only while paying:
   * what a feed must satisfy for the event to start from the tracked revenue.
   */
  predicate WellFormed(plans: seq<Plan>, states: map<string, Tracked>, event: Event)
    requires event.customer.Some?
  {
    var customer := event.customer.value;
    match event.kind
    case SubscriptionCreated => MrrOf(plans, states, customer) == 0.0
    case SubscriptionUpdated =>
      && customer in states
      && PreviousState(event, Some(states[customer])).priceId == states[customer].priceId
      && PreviousState(event, Some(states[customer])).productId == states[customer].productId
    case SubscriptionDeleted => customer in states && states[customer].status == Some(Succeeded)
    case Unsupported => true
  }

  lemma ReadingIsComplete(plans: seq<Plan>, event: Event, tracked: Option<Tracked>, initialPaidAt: Option<int>)
    requires !event.kind.Unsupported? && (tracked.Some? ==> IsComplete(tracked.value))
    ensures var reading := ReadEvent(plans, event, tracked, initialPaidAt);
      reading.Baseline? || reading.Change? ==> IsComplete(reading.next)
  {
    hide Mrr, PreviousState, LicensedItem, ItemPriceId, ItemProductId, PlanByProductId;
  }

  lemma FollowKeepsComplete(plans: seq<Plan>, options: Options, p: Progress, event: Event)
    requires AllComplete(p.states)
    ensures AllComplete(Follow(plans, options, p, event).states)
  {
    hide ReadEvent, Classify, HasMovement, IsComplete;
    if IsConsidered(options, event) {
      var customer := event.customer.value;
      ReadingIsComplete(plans, event, StateOf(p.states, customer), InitialPaidAt(options, customer));
    }
  }

  lemma {:induction false} FollowAllKeepsComplete(plans: seq<Plan>, options: Options, p: Progress, events: seq<Event>)
    requires AllComplete(p.states)
    ensures AllComplete(FollowAll(plans, options, p, events).states)
  {
    hide Follow, AllComplete;
    if events != [] {
      var init := events[..|events| - 1];
      FollowAllKeepsComplete(plans, options, p, init);
      FollowKeepsComplete(plans, options, FollowAll(plans, options, p, init), events[|events| - 1]);
    }
  }

  lemma WellFormedUpdateHasNoGap(plans: seq<Plan>, event: Event, tracked: Tracked, initialPaidAt: Option<int>)
    requires NonNegative(plans) && IsComplete(tracked) && event.kind.SubscriptionUpdated?
    requires PreviousState(event, Some(tracked)).priceId == tracked.priceId
    requires PreviousState(event, Some(tracked)).productId == tracked.productId
    ensures var reading := ReadEvent(plans, event, Some(tracked), initialPaidAt);
      reading.Change? ==> Mrr(plans, reading.current) == Mrr(plans, tracked)
  {
    hide PlanByProductId, LicensedItem, ItemPriceId, ItemProductId;
    MrrIsNonNegative(plans, tracked);
    MrrIsNonNegative(plans, PreviousState(event, Some(tracked)));
  }

  lemma WellFormedEventHasNoGap(plans: seq<Plan>, options: Options, p: Progress, event: Event)
    requires NonNegative(plans) && AllComplete(p.states) && event.customer.Some? && WellFormed(plans, p.states, event)
    ensures GapOf(plans, options, p, event) == 0.0
  {
    hide PlanByProductId, LicensedItem, ItemPriceId, ItemProductId;
    if IsConsidered(options, event) {
      var customer := event.customer.value;
      match event.kind
      case SubscriptionCreated =>
      case SubscriptionUpdated =>
        WellFormedUpdateHasNoGap(plans, event, p.states[customer], InitialPaidAt(options, customer));
      case SubscriptionDeleted =>
    }
  }

  lemma {:induction false} WellFormedFeedHasNoGaps(plans: seq<Plan>, options: Options, p: Progress,
                                                   events: seq<Event>, customer: string)
    requires NonNegative(plans) && AllComplete(p.states)
    requires forall i :: 0 <= i < |events| && events[i].customer == Some(customer) ==>
      WellFormed(plans, FollowAll(plans, options, p, events[..i]).states, events[i])
    ensures GapsOf(plans, options, p, events, customer) == 0.0
  {
    hide Follow, GapOf, WellFormed;
    if events != [] {
      var init := events[..|events| - 1];
      assert forall i :: 0 <= i < |init| ==> init[..i] == events[..i];
      WellFormedFeedHasNoGaps(plans, options, p, init, customer);
      FollowAllKeepsComplete(plans, options, p, init);
      if events[|events| - 1].customer == Some(customer) {
        WellFormedEventHasNoGap(plans, options, FollowAll(plans, options, p, init), events[|events| - 1]);
      }
    }
  }

  /** The events of a customer in `within`, read after `before`, are well formed. */
  predicate WellFormedWithin(plans: seq<Plan>, options: Options, before: seq<Event>, within: seq<Event>,
                             customer: string) {
    forall i :: 0 <= i < |within| && within[i].customer == Some(customer) ==>
      WellFormed(plans, FollowAll(plans, options, NO_PROGRESS, before + within[..i]).states, within[i])
  }

  lemma RangeHasNoGaps(plans: seq<Plan>, options: Options, before: seq<Event>, within: seq<Event>, customer: string)
    requires NonNegative(plans) && WellFormedWithin(plans, options, before, within, customer)
    ensures GapsOf(plans, options, FollowAll(plans, options, NO_PROGRESS, before), within, customer) == 0.0
  {
    hide WellFormed, Follow, GapsOf, FollowAll;
    var start := FollowAll(plans, options, NO_PROGRESS, before);
    assert AllComplete(NO_PROGRESS.states);
    FollowAllKeepsComplete(plans, options, NO_PROGRESS, before);
    forall i | 0 <= i < |within| && within[i].customer == Some(customer)
      ensures WellFormed(plans, FollowAll(plans, options, start, within[..i]).states, within[i])
    {
      FollowAllConcat(plans, options, NO_PROGRESS, before, within[..i]);
    }
    WellFormedFeedHasNoGaps(plans, options, start, within, customer);
  }

  /** A feed in time order is the events before the range followed by the others. */
  lemma {:induction false} LaterEventsAreInRange(options: Options, events: seq<Event>)
    requires InTimeOrder(events)
    ensures forall i :: RangeStart(options, events) <= i < |events| ==> DayOf(events[i]) >= options.from
  {
    var n := RangeStart(options, events);
    forall i | n <= i < |events| ensures DayOf(events[i]) >= options.from {
      if n < i { assert events[n].created <= events[i].created; }
    }
  }

  /** An event leaves no gap exactly when it is not followed or starts from the tracked revenue. */
  lemma NoGapExactlyWhen(plans: seq<Plan>, options: Options, p: Progress, event: Event)
    requires AllComplete(p.states) && IsConsidered(options, event)
    ensures var tracked := StateOf(p.states, event.customer.value);
      GapOf(plans, options, p, event) == 0.0
      <==> !IsFollowed(event, tracked) || StartOf(plans, event, tracked) == MrrOf(plans, p.states, event.customer.value)
  {
    hide Mrr, StartOf, IsFollowed, GapOf, MrrOf;
    GapOfEveryEvent(plans, options, p, event);
  }

  // ---------- the same, read off the feed ----------

  /** What a followed event leaves tracked, but for the time of the first payment. */
  function LeftBy(event: Event): Tracked {
    var item := LicensedItem(event.items);
    Tracked(None, ItemPriceId(item), ItemProductId(item), Some(if IsEnded(event) then Deleted else Succeeded),
            event.subscriptionId)
  }

  predicate IsEnded(event: Event) {
    event.kind.SubscriptionDeleted? && !IsActiveUntilPeriodEnd(LicensedItem(event.items), event)
  }

  function LeftByLast(last: Option<Event>): Option<Tracked> {
    if last.Some? then Some(LeftBy(last.value)) else None
  }

  /** The event is one of the customer that the run looks at, and says what is paid, after the event `earlier`. */
  predicate IsNext(options: Options, earlier: Option<Event>, event: Event, customer: string) {
    event.customer == Some(customer) && IsConsidered(options, event) && IsFollowed(event, LeftByLast(earlier))
  }

  /** The customer's last event that says what is paid. */
  function LastFollowed(options: Options, events: seq<Event>, customer: string): Option<Event> {
    if events == [] then None
    else
      var earlier, last := LastFollowed(options, events[..|events| - 1], customer), events[|events| - 1];
      if IsNext(options, earlier, last, customer) then Some(last) else earlier
  }

  /** The revenue after an event: that of its own price, unless its subscription has run out. */
  function RevenueAfter(plans: seq<Plan>, last: Option<Event>): real {
    if last.None? || IsEnded(last.value) then 0.0 else PriceMrr(plans, last.value)
  }

  /** The starts of a customer's events in `within`, which come after `before`, less the revenue before each. */
  function Drift(plans: seq<Plan>, options: Options, before: seq<Event>, within: seq<Event>, customer: string): real {
    if within == [] then 0.0
    else
      var init, last := within[..|within| - 1], within[|within| - 1];
      var earlier := LastFollowed(options, before + init, customer);
      Drift(plans, options, before, init, customer)
      + if IsNext(options, earlier, last, customer)
        then StartOf(plans, last, LeftByLast(earlier)) - RevenueAfter(plans, earlier) else 0.0
  }

  predicate SameButPaidAt(tracked: Option<Tracked>, other: Option<Tracked>) {
    && (tracked.Some? <==> other.Some?)
    && (tracked.Some? ==> tracked.value.(paidAt := None) == other.value.(paidAt := None))
  }

  lemma ReadingLeavesTheEvents(plans: seq<Plan>, event: Event, tracked: Option<Tracked>, initialPaidAt: Option<int>)
    requires !event.kind.Unsupported?
    ensures var reading := ReadEvent(plans, event, tracked, initialPaidAt);
      reading.Baseline? || reading.Change? ==> reading.next.(paidAt := None) == LeftBy(event)
  {
    hide Mrr, PreviousState, LicensedItem, ItemPriceId, ItemProductId, PlanByProductId, IsActiveUntilPeriodEnd;
  }

  /** Where revenue starts, and whether an event is followed, does not depend on the time of the first payment. */
  lemma PaidAtDoesNotMatter(plans: seq<Plan>, event: Event, tracked: Option<Tracked>, other: Option<Tracked>)
    requires SameButPaidAt(tracked, other) && !event.kind.Unsupported?
    ensures IsFollowed(event, tracked) <==> IsFollowed(event, other)
    ensures StartOf(plans, event, tracked) == StartOf(plans, event, other)
  {
    hide LicensedItem, PlanMrr, PlanByProductId, PriceMrr;
  }

  lemma FollowLeavesTheEvents(plans: seq<Plan>, options: Options, p: Progress, earlier: Option<Event>, event: Event,
                              customer: string)
    requires AllComplete(p.states) && SameButPaidAt(StateOf(p.states, customer), LeftByLast(earlier))
    ensures var last := if IsNext(options, earlier, event, customer) then Some(event) else earlier;
      SameButPaidAt(StateOf(Follow(plans, options, p, event).states, customer), LeftByLast(last))
  {
    hide ReadEvent, Classify, HasMovement, IsFollowed, LeftBy, StartOf;
    if IsConsidered(options, event) && event.customer == Some(customer) {
      var tracked := StateOf(p.states, customer);
      ReadingStartsAsStated(plans, event, tracked, InitialPaidAt(options, customer));
      ReadingLeavesTheEvents(plans, event, tracked, InitialPaidAt(options, customer));
      PaidAtDoesNotMatter(plans, event, tracked, LeftByLast(earlier));
    }
  }

  /** What is tracked for a customer is what its last followed event has left. */
  lemma {:induction false} StatesAreOfTheFeed(plans: seq<Plan>, options: Options, events: seq<Event>, customer: string)
    ensures SameButPaidAt(StateOf(FollowAll(plans, options, NO_PROGRESS, events).states, customer),
                          LeftByLast(LastFollowed(options, events, customer)))
  {
    hide Follow, LeftBy, IsNext, AllComplete;
    if events != [] {
      var init := events[..|events| - 1];
      StatesAreOfTheFeed(plans, options, init, customer);
      NothingIsComplete();
      FollowAllKeepsComplete(plans, options, NO_PROGRESS, init);
      FollowLeavesTheEvents(plans, options, FollowAll(plans, options, NO_PROGRESS, init),
                            LastFollowed(options, init, customer), events[|events| - 1], customer);
    }
  }

  lemma NothingIsComplete()
    ensures AllComplete(NO_PROGRESS.states)
  {
  }

  lemma LeftRevenue(plans: seq<Plan>, event: Event)
    ensures Mrr(plans, LeftBy(event)) == RevenueAfter(plans, Some(event))
  {
    hide PlanByProductId, LicensedItem, IsActiveUntilPeriodEnd;
  }

  /** The revenue tracked after any events is that of the customer's last followed event. */
  lemma TrackedRevenueIsOfTheFeed(plans: seq<Plan>, options: Options, events: seq<Event>, customer: string)
    ensures MrrOf(plans, FollowAll(plans, options, NO_PROGRESS, events).states, customer)
         == RevenueAfter(plans, LastFollowed(options, events, customer))
  {
    hide FollowAll, LastFollowed, LeftBy, PlanByProductId, PlanMrr, RevenueAfter;
    StatesAreOfTheFeed(plans, options, events, customer);
    var last := LastFollowed(options, events, customer);
    if last.Some? { LeftRevenue(plans, last.value); } else { NoRevenueAtFirst(plans); }
  }

  lemma NoRevenueAtFirst(plans: seq<Plan>)
    ensures RevenueAfter(plans, None) == 0.0
  {
  }

  lemma GapIsOfTheFeed(plans: seq<Plan>, options: Options, events: seq<Event>, event: Event, customer: string)
    ensures var earlier := LastFollowed(options, events, customer);
      (if event.customer == Some(customer)
       then GapOf(plans, options, FollowAll(plans, options, NO_PROGRESS, events), event) else 0.0)
      == (if IsNext(options, earlier, event, customer)
          then StartOf(plans, event, LeftByLast(earlier)) - RevenueAfter(plans, earlier) else 0.0)
  {
    hide FollowAll, LastFollowed, LeftByLast, RevenueAfter, GapOf, StartOf, IsFollowed, MrrOf;
    hide SameButPaidAt, AllComplete;
    if event.customer == Some(customer) {
      var p := FollowAll(plans, options, NO_PROGRESS, events);
      NothingIsComplete();
      FollowAllKeepsComplete(plans, options, NO_PROGRESS, events);
      GapOfEveryEvent(plans, options, p, event);
      if IsConsidered(options, event) {
        StatesAreOfTheFeed(plans, options, events, customer);
        TrackedRevenueIsOfTheFeed(plans, options, events, customer);
        PaidAtDoesNotMatter(plans, event, StateOf(p.states, customer),
                            LeftByLast(LastFollowed(options, events, customer)));
      }
    }
  }

  lemma {:induction false} DriftIsTheGaps(plans: seq<Plan>, options: Options, before: seq<Event>, within: seq<Event>,
                                          customer: string)
    ensures Drift(plans, options, before, within, customer)
         == GapsOf(plans, options, FollowAll(plans, options, NO_PROGRESS, before), within, customer)
  {
    hide FollowAll, LastFollowed, LeftByLast, RevenueAfter, GapOf, StartOf, IsNext;
    if within != [] {
      var init := within[..|within| - 1];
      DriftIsTheGaps(plans, options, before, init, customer);
      FollowAllConcat(plans, options, NO_PROGRESS, before, init);
      GapIsOfTheFeed(plans, options, before + init, within[|within| - 1], customer);
    }
  }

  lemma NothingIsNet(customer: string)
    ensures NetOf([], customer) == 0.0
  {
  }

  lemma RangeIsAccountedFor(plans: seq<Plan>, options: Options, before: seq<Event>, within: seq<Event>,
                            customer: string)
    requires forall i :: 0 <= i < |before| ==> DayOf(before[i]) < options.from
    requires forall i :: 0 <= i < |within| ==> DayOf(within[i]) >= options.from
    ensures NetOf(FollowAll(plans, options, NO_PROGRESS, before + within).movements, customer)
         == RevenueAfter(plans, LastFollowed(options, before + within, customer))
            - RevenueAfter(plans, LastFollowed(options, before, customer))
            - Drift(plans, options, before, within, customer)
  {
    hide FollowAll, MrrOf, GapsOf, Drift, LastFollowed, RevenueAfter, NetOf;
    RevenueIsAccountedFor(plans, options, FollowAll(plans, options, NO_PROGRESS, before), within, customer);
    FollowAllConcat(plans, options, NO_PROGRESS, before, within);
    NothingIsEmittedBeforeTheRange(plans, options, NO_PROGRESS, before);
    NothingIsNet(customer);
    DriftIsTheGaps(plans, options, before, within, customer);
    TrackedRevenueIsOfTheFeed(plans, options, before, customer);
    TrackedRevenueIsOfTheFeed(plans, options, before + within, customer);
  }

  /**
   * The movements of a customer add up to the revenue after its last event less the revenue after its last
   * event before the range, and less its drift; so they telescope exactly when the drift is nothing. All
   * of this is read off the feed: there is no assumption on prices or on the feed.
   */
  lemma MovementsTelescopeExactlyWhen(events: seq<Event>, plans: seq<Plan>, options: Options, customer: string)
    ensures var sorted := SortEvents(events);
      var n := RangeStart(options, sorted);
      var net := NetOf(FollowAll(plans, options, NO_PROGRESS, sorted).movements, customer);
      var change := RevenueAfter(plans, LastFollowed(options, sorted, customer))
                    - RevenueAfter(plans, LastFollowed(options, sorted[..n], customer));
      var drift := Drift(plans, options, sorted[..n], sorted[n..], customer);
      net == change - drift && (net == change <==> drift == 0.0)
  {
    hide *;
    var sorted := SortEvents(events);
    var n := RangeStart(options, sorted);
    SortIsInTimeOrder(events);
    LaterEventsAreInRange(options, sorted);
    assert sorted == sorted[..n] + sorted[n..];
    RangeIsAccountedFor(plans, options, sorted[..n], sorted[n..], customer);
  }

  /**
   * For a feed that is well formed within the range, the movements of a customer add up to the
   * revenue after the last event less the revenue at the start of the range.
   */
  lemma MovementsTelescope(events: seq<Event>, plans: seq<Plan>, options: Options, customer: string)
    requires NonNegative(plans)
    requires var sorted := SortEvents(events);
      var n := RangeStart(options, sorted);
      WellFormedWithin(plans, options, sorted[..n], sorted[n..], customer)
    ensures var sorted := SortEvents(events);
      var start := FollowAll(plans, options, NO_PROGRESS, sorted[..RangeStart(options, sorted)]);
      var end := FollowAll(plans, options, NO_PROGRESS, sorted);
      NetOf(end.movements, customer) == MrrOf(plans, end.states, customer) - MrrOf(plans, start.states, customer)
  {
    hide WellFormedWithin, FollowAll, MrrOf, GapsOf, SortEvents, Drift, LastFollowed, RevenueAfter;
    var sorted := SortEvents(events);
    var n := RangeStart(options, sorted);
    RangeHasNoGaps(plans, options, sorted[..n], sorted[n..], customer);
    DriftIsTheGaps(plans, options, sorted[..n], sorted[n..], customer);
    TrackedRevenueIsOfTheFeed(plans, options, sorted[..n], customer);
    TrackedRevenueIsOfTheFeed(plans, options, sorted, customer);
    MovementsTelescopeExactlyWhen(events, plans, options, customer);
  }

  // ---------- a feed that is not well formed ----------

  function SimpleEvent(id: string, kind: Kind, created: int, subscription: string): Event {
    Event(id, kind, created, Some("cus"), Some(subscription),
          [Item(Some(ItemPlan(Some("price"), Some("prod"), "licensed")), None, None, None)], [], None)
  }

  const SOLO_PLAN := Plan(Some("Solo"), Some("prod"), Some(12.0), Some("price"), None, None)

  const SOLO_OPTIONS := Options(None, 0, 0, map[])

  /** A creation of the range that names a price. */
  predicate IsPricedCreation(options: Options, event: Event) {
    && event.kind.SubscriptionCreated? && IsConsidered(options, event) && DayOf(event) >= options.from
    && IsFollowed(event, None)
  }

  /** A creation adds its price to the movements, whatever was tracked, and leaves just its price tracked. */
  lemma CreationAddsItsPrice(plans: seq<Plan>, options: Options, p: Progress, event: Event)
    requires IsPricedCreation(options, event)
    ensures var customer := event.customer.value;
      var q := Follow(plans, options, p, event);
      && NetOf(q.movements, customer) == NetOf(p.movements, customer) + PriceMrr(plans, event)
      && MrrOf(plans, q.states, customer) == PriceMrr(plans, event)
  {
    hide NetOf, PreviousState, Classify, HasMovement, KnownPaidAtBefore, PriceMrr, Mrr, LicensedItem, ItemPriceId;
    hide ItemProductId, DayOf;
    var customer := event.customer.value;
    TrackedRevenueIsTheEvents(plans, event, StateOf(p.states, customer), InitialPaidAt(options, customer));
    OneEventIsAccountedFor(plans, options, p, event, customer);
  }

  lemma SimpleEventIsPriced(id: string, created: int, subscription: string)
    requires 0 <= created < 86400
    ensures var event := SimpleEvent(id, SubscriptionCreated, created, subscription);
      IsPricedCreation(SOLO_OPTIONS, event) && PriceMrr([SOLO_PLAN], event) == 12.0
  {
    var event := SimpleEvent(id, SubscriptionCreated, created, subscription);
    assert LicensedItem(event.items) == Some(event.items[0]);
  }

  lemma TwoEvents(plans: seq<Plan>, options: Options, p: Progress, first: Event, second: Event)
    ensures FollowAll(plans, options, p, [first, second])
         == Follow(plans, options, Follow(plans, options, p, first), second)
  {
    hide Follow;
    assert [first, second][..1] == [first] && [first][..0] == [];
    assert FollowAll(plans, options, p, [first]) == Follow(plans, options, p, first);
  }

  /** A second subscription counts as more revenue, although only one is tracked: 24 against 12, after two creations. */
  lemma SecondSubscriptionBreaksTelescoping() returns (events: seq<Event>)
    ensures |events| == 2 && forall event :: event in events ==> event.kind.SubscriptionCreated?
    ensures var end := FollowAll([SOLO_PLAN], SOLO_OPTIONS, NO_PROGRESS, events);
      NetOf(end.movements, "cus") == 24.0 && MrrOf([SOLO_PLAN], end.states, "cus") == 12.0
  {
    hide Follow, MrrOf, IsPricedCreation, PriceMrr;
    var first := SimpleEvent("evt_1", SubscriptionCreated, 1, "sub_1");
    var second := SimpleEvent("evt_2", SubscriptionCreated, 2, "sub_2");
    SimpleEventIsPriced("evt_1", 1, "sub_1");
    SimpleEventIsPriced("evt_2", 2, "sub_2");
    TwoEvents([SOLO_PLAN], SOLO_OPTIONS, NO_PROGRESS, first, second);
    CreationAddsItsPrice([SOLO_PLAN], SOLO_OPTIONS, NO_PROGRESS, first);
    CreationAddsItsPrice([SOLO_PLAN], SOLO_OPTIONS, Follow([SOLO_PLAN], SOLO_OPTIONS, NO_PROGRESS, first), second);
    events := [first, second];
  }
}
