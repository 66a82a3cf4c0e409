/** Monthly recurring revenue movements, read off a feed of Stripe subscription events. */
module RevenueMovements {
  import opened Common
  import Sorting

  // ---------- plans and prices ----------

  datatype Plan = Plan(
    name: Option<string>,
    stripeId: Option<string>,
    monthlyPrice: Option<real>,
    monthlyPriceId: Option<string>,
    yearlyPrice: Option<real>,
    yearlyPriceId: Option<string>)

  datatype Status = Created | Updated | Succeeded | Failed | Deleted | Canceled

  function ToBackfillStatus(status: string): Option<Status> {
    if status in {"active", "trialing", "past_due", "unpaid", "succeeded"} then Some(Succeeded)
    else if status in {"incomplete", "incomplete_expired", "paused", "created"} then Some(Created)
    else if status == "updated" then Some(Updated)
    else if status == "failed" then Some(Failed)
    else if status == "deleted" then Some(Deleted)
    else if status == "canceled" then Some(Canceled)
    else None
  }

  function ToLower(s: string): string {
    seq(|s|, i requires 0 <= i < |s| => if 'A' <= s[i] <= 'Z' then s[i] - 'A' + 'a' else s[i])
  }

  function PlanKeyOf(plan: Option<Plan>): Option<PlanKey> {
    if plan.None? || plan.value.name.None? then None
    else
      var name := ToLower(plan.value.name.value);
      if name == "solo" then Some(Solo)
      else if name == "maker" then Some(Maker)
      else if name == "team" then Some(Team)
      else if name == "enterprise" then Some(Enterprise)
      else None
  }

  function OrElse<T>(first: Option<T>, second: Option<T>): Option<T> {
    if first.Some? then first else second
  }

  predicate IsBlankId(id: Option<string>) {
    id.None? || id.value == ""
  }

  function Amount(price: Option<real>): real {
    if price.Some? then price.value else 0.0
  }

  function PlanMrr(plan: Option<Plan>, priceId: Option<string>): real {
    if plan.None? || IsBlankId(priceId) then 0.0
    else if plan.value.monthlyPriceId == priceId then Amount(plan.value.monthlyPrice)
    else if plan.value.yearlyPriceId == priceId then Amount(plan.value.yearlyPrice) / 12.0
    else 0.0
  }

  function PlanByProductId(plans: seq<Plan>, productId: Option<string>): Option<Plan> {
    if IsBlankId(productId) || plans == [] then None
    else if plans[0].stripeId == productId then Some(plans[0])
    else PlanByProductId(plans[1..], productId)
  }

  function PositivePart(x: real): real {
    if x > 0.0 then x else 0.0
  }

  // ---------- what is tracked for a customer ----------

  /** Times are in milliseconds; `paidAt` is when the customer is known to have first paid. */
  datatype Tracked = Tracked(
    paidAt: Option<int>,
    priceId: Option<string>,
    productId: Option<string>,
    status: Option<Status>,
    subscriptionId: Option<string>)

  function SubscriptionPlan(plans: seq<Plan>, state: Tracked): Option<Plan> {
    if state.status != Some(Succeeded) then None else PlanByProductId(plans, state.productId)
  }

  function Mrr(plans: seq<Plan>, state: Tracked): real {
    PlanMrr(SubscriptionPlan(plans, state), state.priceId)
  }

  datatype Movement = Movement(
    currentMrr: real,
    nextMrr: real,
    newBusiness: real,
    expansion: real,
    contraction: real,
    churn: real,
    lostPlan: Option<PlanKey>)

  const NO_MOVEMENT := Movement(0.0, 0.0, 0.0, 0.0, 0.0, 0.0, None)

  function Classify(plans: seq<Plan>, current: Tracked, next: Tracked): Movement {
    var currentMrr := Mrr(plans, current);
    var nextMrr := Mrr(plans, next);
    var lostPlan := PlanKeyOf(SubscriptionPlan(plans, current));
    var still := NO_MOVEMENT.(currentMrr := currentMrr, nextMrr := nextMrr);
    if currentMrr == 0.0 && nextMrr == 0.0 then NO_MOVEMENT
    else if currentMrr == 0.0 && nextMrr > 0.0 then
      if current.paidAt.None? then still.(newBusiness := nextMrr) else still.(expansion := nextMrr)
    else if currentMrr > 0.0 && nextMrr == 0.0 then still.(churn := currentMrr, lostPlan := lostPlan)
    else if nextMrr > currentMrr then still.(expansion := nextMrr - currentMrr)
    else if currentMrr > nextMrr then still.(contraction := currentMrr - nextMrr, lostPlan := lostPlan)
    else still
  }

  predicate HasMovement(m: Movement) {
    m.newBusiness > 0.0 || m.expansion > 0.0 || m.contraction > 0.0 || m.churn > 0.0
  }

  function Net(m: Movement): real {
    m.newBusiness + m.expansion - m.contraction - m.churn
  }

  /** A movement accounts for the whole change of revenue, in one bucket, whatever the prices. */
  lemma ClassifyAccountsForTheChange(plans: seq<Plan>, current: Tracked, next: Tracked)
    ensures var m := Classify(plans, current, next);
      && Net(m) == Mrr(plans, next) - Mrr(plans, current)
      && m.newBusiness >= 0.0 && m.expansion >= 0.0 && m.contraction >= 0.0 && m.churn >= 0.0
      && (HasMovement(m) <==> Mrr(plans, next) != Mrr(plans, current))
      && (m.newBusiness > 0.0 ==> current.paidAt.None? && m.newBusiness == Mrr(plans, next))
  {
    hide PlanMrr, SubscriptionPlan;
  }

  // ---------- events ----------

  datatype ItemPlan = ItemPlan(id: Option<string>, product: Option<string>, usageType: string)

  datatype Item = Item(plan: Option<ItemPlan>, priceId: Option<string>, priceProduct: Option<string>,
                       periodEnd: Option<int>)

  datatype Kind = SubscriptionCreated | SubscriptionUpdated | SubscriptionDeleted | Unsupported

  /** `created` is in seconds. Missing lists are empty; `previousStatus` is None unless it changed. */
  datatype Event = Event(
    id: string,
    kind: Kind,
    created: int,
    customer: Option<string>,
    subscriptionId: Option<string>,
    items: seq<Item>,
    previousItems: seq<Item>,
    previousStatus: Option<string>)

  function LicensedItem(items: seq<Item>): Option<Item> {
    if items == [] then None
    else
      var licensed := FirstLicensed(items);
      if licensed.Some? then licensed else Some(items[0])
  }

  function FirstLicensed(items: seq<Item>): Option<Item> {
    if items == [] then None
    else if items[0].plan.Some? && items[0].plan.value.usageType == "licensed" then Some(items[0])
    else FirstLicensed(items[1..])
  }

  function ItemPriceId(item: Option<Item>): Option<string> {
    if item.None? then None
    else OrElse(if item.value.plan.Some? then item.value.plan.value.id else None, item.value.priceId)
  }

  function ItemProductId(item: Option<Item>): Option<string> {
    if item.None? then None
    else OrElse(if item.value.plan.Some? then item.value.plan.value.product else None, item.value.priceProduct)
  }

  function OccurredAt(event: Event): int {
    event.created * 1000
  }

  /** The UTC day of the event, counted from the epoch; day order is date order. */
  function DayOf(event: Event): int {
    event.created / 86400
  }

  predicate IsActiveUntilPeriodEnd(item: Option<Item>, event: Event) {
    && item.Some? && item.value.periodEnd.Some? && item.value.periodEnd.value != 0
    && item.value.periodEnd.value * 1000 > OccurredAt(event)
  }

  // ---------- one event ----------

  /** How an event of a customer changes what is tracked: not at all, without a movement, or with one. */
  datatype Reading =
    | Unpriced
    | Mismatched
    | Baseline(next: Tracked)
    | Change(current: Tracked, next: Tracked)

  function TrackedField<T>(tracked: Option<Tracked>, field: Tracked -> Option<T>): Option<T> {
    if tracked.Some? then field(tracked.value) else None
  }

  function KnownPaidAtBefore(event: Event, trackedPaidAt: Option<int>, initialPaidAt: Option<int>): Option<int> {
    var paidAt := OrElse(trackedPaidAt, initialPaidAt);
    if paidAt.Some? && paidAt.value < OccurredAt(event) then paidAt else None
  }

  /** What the customer's subscription was before an update, as far as the event and the past tell. */
  function PreviousState(event: Event, tracked: Option<Tracked>): Tracked {
    var currentItem := LicensedItem(event.items);
    var previousItem := LicensedItem(event.previousItems);
    var changedStatus := if event.previousStatus.Some? then ToBackfillStatus(event.previousStatus.value) else None;
    var reuse := tracked.None? && previousItem.None? && changedStatus == Some(Succeeded);
    var priceId := OrElse(OrElse(ItemPriceId(previousItem), TrackedField(tracked, (t: Tracked) => t.priceId)),
                          if reuse then ItemPriceId(currentItem) else None);
    var productId := OrElse(OrElse(ItemProductId(previousItem), TrackedField(tracked, (t: Tracked) => t.productId)),
                            if reuse then ItemProductId(currentItem) else None);
    var status := OrElse(TrackedField(tracked, (t: Tracked) => t.status),
                         if previousItem.Some? then Some(Succeeded) else changedStatus);
    Tracked(None, priceId, productId, status, None)
  }

  function ReadEvent(plans: seq<Plan>, event: Event, tracked: Option<Tracked>, initialPaidAt: Option<int>): Reading
    requires !event.kind.Unsupported?
  {
    var item := LicensedItem(event.items);
    var priceId, productId := ItemPriceId(item), ItemProductId(item);
    if IsBlankId(priceId) || IsBlankId(productId) then Unpriced
    else
      var trackedPaidAt := TrackedField(tracked, (t: Tracked) => t.paidAt);
      var previous := PreviousState(event, tracked);
      var previousMrr := Mrr(plans, previous);
      var knownPaidAt := KnownPaidAtBefore(event, trackedPaidAt, initialPaidAt);
      var now := Some(OccurredAt(event));
      var activePaidAt := OrElse(OrElse(trackedPaidAt, knownPaidAt), if previousMrr > 0.0 then now else None);
      match event.kind
      case SubscriptionCreated =>
        Change(Tracked(knownPaidAt, None, None, Some(Created), None),
               Tracked(OrElse(knownPaidAt, now), priceId, productId, Some(Succeeded), event.subscriptionId))
      case SubscriptionUpdated =>
        var next := Tracked(OrElse(activePaidAt, now), priceId, productId, Some(Succeeded), event.subscriptionId);
        var known := tracked.Some? || event.previousItems != []
          || (event.previousStatus.Some? && ToBackfillStatus(event.previousStatus.value).Some?);
        if !known then Baseline(next)
        else
          Change(Tracked(activePaidAt, previous.priceId, previous.productId,
                         Some(if previousMrr > 0.0 then Succeeded else Updated), event.subscriptionId), next)
      case SubscriptionDeleted =>
        var baseline := TrackedField(tracked, (t: Tracked) => t.subscriptionId);
        if !IsBlankId(baseline) && baseline != event.subscriptionId then Mismatched
        else
          Change(Tracked(OrElse(activePaidAt, now),
                         OrElse(TrackedField(tracked, (t: Tracked) => t.priceId), priceId),
                         OrElse(TrackedField(tracked, (t: Tracked) => t.productId), productId),
                         Some(Succeeded), event.subscriptionId),
                 Tracked(OrElse(activePaidAt, now), priceId, productId,
                         Some(if IsActiveUntilPeriodEnd(item, event) then Succeeded else Deleted),
                         event.subscriptionId))
  }

  // ---------- a feed ----------

  datatype MovementEvent = MovementEvent(eventId: string, kind: Kind, day: int, customer: string, movement: Movement)

  datatype Skipped = Skipped(missingCustomer: nat, missingPlan: nat, noMovement: nat, outOfRange: nat,
                             subscriptionMismatch: nat, unsupportedEvent: nat)

  const NOTHING_SKIPPED := Skipped(0, 0, 0, 0, 0, 0)

  datatype Options = Options(customer: Option<string>, from: int, to: int, initialPaidAt: map<string, Option<int>>)

  datatype Progress = Progress(states: map<string, Tracked>, movements: seq<MovementEvent>, skipped: Skipped)

  const NO_PROGRESS := Progress(map[], [], NOTHING_SKIPPED)

  function StateOf(states: map<string, Tracked>, customer: string): Option<Tracked> {
    if customer in states then Some(states[customer]) else None
  }

  function InitialPaidAt(options: Options, customer: string): Option<int> {
    if customer in options.initialPaidAt then options.initialPaidAt[customer] else None
  }

  /** Whether the event is about a customer, a kind and a day the run looks at. */
  predicate IsConsidered(options: Options, event: Event) {
    && !event.kind.Unsupported? && DayOf(event) <= options.to
    && !IsBlankId(event.customer)
    && (IsBlankId(options.customer) || event.customer == options.customer)
  }

  function ReadingOf(plans: seq<Plan>, options: Options, states: map<string, Tracked>, event: Event): Reading
    requires IsConsidered(options, event)
  {
    var customer := event.customer.value;
    ReadEvent(plans, event, StateOf(states, customer), InitialPaidAt(options, customer))
  }

  function Record(plans: seq<Plan>, options: Options, p: Progress, event: Event): Progress
    requires IsConsidered(options, event)
  {
    var customer := event.customer.value;
    var isBeforeRange := DayOf(event) < options.from;
    match ReadingOf(plans, options, p.states, event)
    case Unpriced => p.(skipped := p.skipped.(missingPlan := p.skipped.missingPlan + 1))
    case Mismatched => p.(skipped := p.skipped.(subscriptionMismatch := p.skipped.subscriptionMismatch + 1))
    case Baseline(next) =>
      var tracked := p.(states := p.states[customer := next]);
      if isBeforeRange then tracked.(skipped := p.skipped.(outOfRange := p.skipped.outOfRange + 1))
      else tracked.(skipped := p.skipped.(noMovement := p.skipped.noMovement + 1))
    case Change(current, next) =>
      var movement := Classify(plans, current, next);
      var tracked := p.(states := p.states[customer := next]);
      if isBeforeRange then tracked.(skipped := p.skipped.(outOfRange := p.skipped.outOfRange + 1))
      else if !HasMovement(movement) then tracked.(skipped := p.skipped.(noMovement := p.skipped.noMovement + 1))
      else tracked.(movements := p.movements + [MovementEvent(event.id, event.kind, DayOf(event), customer, movement)])
  }

  function Follow(plans: seq<Plan>, options: Options, p: Progress, event: Event): Progress {
    if event.kind.Unsupported? then p.(skipped := p.skipped.(unsupportedEvent := p.skipped.unsupportedEvent + 1))
    else if DayOf(event) > options.to then p.(skipped := p.skipped.(outOfRange := p.skipped.outOfRange + 1))
    else if IsBlankId(event.customer) then p.(skipped := p.skipped.(missingCustomer := p.skipped.missingCustomer + 1))
    else if !IsConsidered(options, event) then p.(skipped := p.skipped.(outOfRange := p.skipped.outOfRange + 1))
    else Record(plans, options, p, event)
  }

  function FollowAll(plans: seq<Plan>, options: Options, p: Progress, events: seq<Event>): Progress {
    if events == [] then p
    else Follow(plans, options, FollowAll(plans, options, p, events[..|events| - 1]), events[|events| - 1])
  }

  // ---------- the sort ----------

  predicate IsNoLater(a: Event, b: Event) {
    a.created <= b.created
  }

  function SortEvents(events: seq<Event>): seq<Event> {
    Sorting.Sort(events, IsNoLater)
  }

  predicate InTimeOrder(events: seq<Event>) {
    forall i, j :: 0 <= i < j < |events| ==> events[i].created <= events[j].created
  }

  /** The events of one second, in order. */
  function AtTime(events: seq<Event>, created: int): seq<Event> {
    Sorting.Selected(events, (event: Event) => event.created == created)
  }

  lemma SortIsInTimeOrder(events: seq<Event>)
    ensures InTimeOrder(SortEvents(events))
  {
    Sorting.SortIsInOrder(events, IsNoLater);
  }

  lemma SortIsOfTheSameEvents(events: seq<Event>, event: Event)
    ensures event in SortEvents(events) <==> event in events
  {
    Sorting.SortIsOfTheSame(events, IsNoLater, event);
  }

  /** The feed is processed in time order, and events of the same second in the order they came. */
  lemma SortIsStable(events: seq<Event>, t: int)
    ensures InTimeOrder(SortEvents(events)) && multiset(SortEvents(events)) == multiset(events)
    ensures AtTime(SortEvents(events), t) == AtTime(events, t)
  {
    SortIsInTimeOrder(events);
    Sorting.SortKeepsAll(events, IsNoLater);
    Sorting.SortIsStable(events, IsNoLater, (event: Event) => event.created == t);
  }

  method BuildRevenueMovementEvents(events: seq<Event>, plans: seq<Plan>, options: Options)
    returns (movements: seq<MovementEvent>, skipped: Skipped)
    ensures var p := FollowAll(plans, options, NO_PROGRESS, SortEvents(events));
      movements == p.movements && skipped == p.skipped
  {
    hide ReadEvent, Classify;
    var sorted := SortEvents(events);
    var customerStates: map<string, Tracked> := map[];
    movements, skipped := [], NOTHING_SKIPPED;
    for i := 0 to |sorted|
      invariant Progress(customerStates, movements, skipped) == FollowAll(plans, options, NO_PROGRESS, sorted[..i])
    {
      var event := sorted[i];
      assert sorted[..i + 1][..i] == sorted[..i];
      if event.kind.Unsupported? {
        skipped := skipped.(unsupportedEvent := skipped.unsupportedEvent + 1);
        continue;
      }
      if DayOf(event) > options.to {
        skipped := skipped.(outOfRange := skipped.outOfRange + 1);
        continue;
      }
      if IsBlankId(event.customer) {
        skipped := skipped.(missingCustomer := skipped.missingCustomer + 1);
        continue;
      }
      if !IsConsidered(options, event) {
        skipped := skipped.(outOfRange := skipped.outOfRange + 1);
        continue;
      }
      var isBeforeRange := DayOf(event) < options.from;
      var reading := ReadingOf(plans, options, customerStates, event);
      match reading {
        case Unpriced =>
          skipped := skipped.(missingPlan := skipped.missingPlan + 1);
        case Mismatched =>
          skipped := skipped.(subscriptionMismatch := skipped.subscriptionMismatch + 1);
        case Baseline(next) =>
          customerStates := customerStates[event.customer.value := next];
          if isBeforeRange {
            skipped := skipped.(outOfRange := skipped.outOfRange + 1);
          } else {
            skipped := skipped.(noMovement := skipped.noMovement + 1);
          }
        case Change(current, next) =>
          var movement := Classify(plans, current, next);
          customerStates := customerStates[event.customer.value := next];
          if isBeforeRange {
            skipped := skipped.(outOfRange := skipped.outOfRange + 1);
          } else if !HasMovement(movement) {
            skipped := skipped.(noMovement := skipped.noMovement + 1);
          } else {
            movements :=
              movements + [MovementEvent(event.id, event.kind, DayOf(event), event.customer.value, movement)];
          }
      }
    }
    assert sorted[..|sorted|] == sorted;
  }

  /** What the event's own price brings a month, under the plan of its product. */
  function PriceMrr(plans: seq<Plan>, event: Event): real {
    var item := LicensedItem(event.items);
    PlanMrr(PlanByProductId(plans, ItemProductId(item)), ItemPriceId(item))
  }

  // ---------- every event ends somewhere ----------

  function TotalSkipped(s: Skipped): nat {
    s.missingCustomer + s.missingPlan + s.noMovement + s.outOfRange + s.subscriptionMismatch + s.unsupportedEvent
  }

  /** Every event of a feed is either skipped, for one reason, or emits one movement. */
  lemma {:induction false} EveryEventIsSkippedOrMoves(plans: seq<Plan>, options: Options, events: seq<Event>)
    ensures var p := FollowAll(plans, options, NO_PROGRESS, events);
      TotalSkipped(p.skipped) + |p.movements| == |events|
  {
    hide ReadEvent, Classify, HasMovement, IsConsidered;
    if events != [] {
      EveryEventIsSkippedOrMoves(plans, options, events[..|events| - 1]);
    }
  }

  /** The movement is that of a considered event inside the range. */
  predicate IsOf(m: MovementEvent, event: Event, options: Options) {
    && m.eventId == event.id && m.day == DayOf(event) && event.customer == Some(m.customer)
    && IsConsidered(options, event) && DayOf(event) >= options.from && HasMovement(m.movement)
  }

  lemma {:induction false} MovementsComeFromEvents(plans: seq<Plan>, options: Options, events: seq<Event>,
                                                   m: MovementEvent)
    requires m in FollowAll(plans, options, NO_PROGRESS, events).movements
    ensures exists event :: event in events && IsOf(m, event, options)
  {
    hide ReadEvent, Classify, HasMovement;
    var init, last := events[..|events| - 1], events[|events| - 1];
    var p := FollowAll(plans, options, NO_PROGRESS, init);
    if m in p.movements {
      MovementsComeFromEvents(plans, options, init, m);
      var event :| event in init && IsOf(m, event, options);
      assert event in events;
    } else {
      assert last in events && IsOf(m, last, options);
    }
  }

  /**
   * After an event that says what is paid, that is what is tracked: the event's price, or nothing once a
   * deleted subscription has run out. Before a creation nothing was paid, as far as its movement knows.
   */
  lemma TrackedRevenueIsTheEvents(plans: seq<Plan>, event: Event, tracked: Option<Tracked>, initialPaidAt: Option<int>)
    requires !event.kind.Unsupported?
    ensures var reading := ReadEvent(plans, event, tracked, initialPaidAt);
      var ended := event.kind.SubscriptionDeleted? && !IsActiveUntilPeriodEnd(LicensedItem(event.items), event);
      && (reading.Baseline? || reading.Change? ==>
            && Mrr(plans, reading.next) == (if ended then 0.0 else PriceMrr(plans, event))
            && reading.next.subscriptionId == event.subscriptionId)
      && (reading.Change? && event.kind.SubscriptionCreated? ==> Mrr(plans, reading.current) == 0.0)
      && (reading.Mismatched? ==>
            && event.kind.SubscriptionDeleted? && tracked.Some? && tracked.value.subscriptionId != event.subscriptionId)
  {
    hide PlanByProductId, LicensedItem, ItemPriceId, ItemProductId, PreviousState;
    hide IsActiveUntilPeriodEnd, KnownPaidAtBefore;
  }
}
