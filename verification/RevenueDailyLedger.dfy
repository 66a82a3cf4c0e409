/** The daily rows built from the states of consecutive days, and what they add up to over a range. */
module RevenueDailyLedger {
  import opened Common
  import opened RevenueSnapshot

  const NO_PLAN := ByPlan(0, 0, 0, 0)

  function AddToPlan(byPlan: ByPlan<int>, plan: PlanKey, amount: int): ByPlan<int> {
    match plan
    case Solo => byPlan.(solo := byPlan.solo + amount)
    case Maker => byPlan.(maker := byPlan.maker + amount)
    case Team => byPlan.(team := byPlan.team + amount)
    case Enterprise => byPlan.(enterprise := byPlan.enterprise + amount)
  }

  function Customers(states: Entries<State>): set<string> {
    set id | id in states.at :: states.at[id].customerId
  }

  // ---------- revenue, gained and lost ----------

  function Mrrs(states: Entries<State>): map<string, int> {
    map id | id in states.at :: states.at[id].mrr
  }

  function Mrr(states: Entries<State>): int {
    Sum(states.keys, Mrrs(states))
  }

  /** What a subscription loses from one state to the next: all of it, a part, or nothing. */
  function Lost(previous: State, id: string, current: Entries<State>): int {
    if id !in current.at then previous.mrr
    else if current.at[id].mrr < previous.mrr then previous.mrr - current.at[id].mrr
    else 0
  }

  function Losses(previous: Entries<State>, current: Entries<State>): map<string, int> {
    map id | id in previous.at :: Lost(previous.at[id], id, current)
  }

  /** The losses of subscriptions of one plan, or of those without a plan. */
  function LossesOf(previous: Entries<State>, current: Entries<State>, plan: Option<PlanKey>): map<string, int> {
    map id | id in previous.at && previous.at[id].plan == plan :: Lost(previous.at[id], id, current)
  }

  function Loss(previous: Entries<State>, current: Entries<State>): int {
    Sum(previous.keys, Losses(previous, current))
  }

  function Gains(previous: Entries<State>, current: Entries<State>): map<string, int> {
    map id | id in current.at ::
      if id !in previous.at then current.at[id].mrr
      else if current.at[id].mrr > previous.at[id].mrr then current.at[id].mrr - previous.at[id].mrr
      else 0
  }

  function Gain(previous: Entries<State>, current: Entries<State>): int {
    Sum(current.keys, Gains(previous, current))
  }

  /** What a subscription of both days keeps: the lesser revenue. */
  function Kept(previous: Entries<State>, current: Entries<State>): map<string, int> {
    map id | id in previous.at && id in current.at ::
      if current.at[id].mrr < previous.at[id].mrr then current.at[id].mrr else previous.at[id].mrr
  }

  lemma KeptIsTheRest(previous: Entries<State>, current: Entries<State>)
    requires IsMap(previous) && IsMap(current)
    ensures var kept := Kept(previous, current);
      && (forall k :: k in previous.keys ==>
            At(Mrrs(previous), k) == At(kept, k) + At(Losses(previous, current), k))
      && (forall k :: k in current.keys ==> At(Mrrs(current), k) == At(kept, k) + At(Gains(previous, current), k))
      && (forall k :: k in kept ==> k in previous.keys && k in current.keys)
  {
    hide Distinct;
  }

  /** From one day to the next the revenue grows by the gains and shrinks by the losses. */
  lemma OneDayBalances(previous: Entries<State>, current: Entries<State>)
    requires IsMap(previous) && IsMap(current)
    ensures Mrr(current) == Mrr(previous) + Gain(previous, current) - Loss(previous, current)
  {
    hide Kept, Losses, Gains, Mrrs, At;
    var kept := Kept(previous, current);
    KeptIsTheRest(previous, current);
    SumOfSums(previous.keys, Mrrs(previous), kept, Losses(previous, current));
    SumOfSums(current.keys, Mrrs(current), kept, Gains(previous, current));
    SumIgnoresOrder(previous.keys, current.keys, kept);
  }

  // ---------- the transitions of a day ----------

  datatype Daily = Daily(
    newCustomerIds: set<string>,
    canceledCustomerIds: set<string>,
    upgradedCustomerIds: set<string>,
    churnRevenue: int,
    churnRevenueByPlan: ByPlan<int>)

  predicate IsUpgrade(previous: State, current: State) {
    || (previous.billing == Some(Monthly) && current.billing == Some(Yearly))
    || (previous.mrr > 0 && current.mrr > previous.mrr)
  }

  function Upgraded(previous: Entries<State>, current: Entries<State>): set<string> {
    set id | id in previous.at && id in current.at && IsUpgrade(previous.at[id], current.at[id])
      :: current.at[id].customerId
  }

  /** Customers with a subscription that ended, whatever else they still pay for. */
  function Canceled(previous: Entries<State>, current: Entries<State>): set<string> {
    set id | id in previous.at && id !in current.at :: previous.at[id].customerId
  }

  predicate IsDaily(daily: Daily, previous: Entries<State>, current: Entries<State>, seenPaidCustomerIds: set<string>) {
    && daily.newCustomerIds == Customers(current) - seenPaidCustomerIds
    && daily.canceledCustomerIds == Canceled(previous, current) + (Customers(previous) - Customers(current))
    && daily.upgradedCustomerIds == Upgraded(previous, current)
    && daily.churnRevenue == Loss(previous, current)
    && forall plan :: PartOf(daily.churnRevenueByPlan, plan)
         == Sum(previous.keys, LossesOf(previous, current, Some(plan)))
  }

  method AddNewCustomers(currentActiveCustomers: set<string>, seenPaidCustomerIds: set<string>)
    returns (newCustomerIds: set<string>, seen: set<string>)
    ensures newCustomerIds == currentActiveCustomers - seenPaidCustomerIds
    ensures seen == seenPaidCustomerIds + currentActiveCustomers
  {
    newCustomerIds, seen := {}, seenPaidCustomerIds;
    var rest := currentActiveCustomers;
    while rest != {}
      invariant rest <= currentActiveCustomers
      invariant newCustomerIds == (currentActiveCustomers - rest) - seenPaidCustomerIds
      invariant seen == seenPaidCustomerIds + (currentActiveCustomers - rest)
      decreases |rest|
    {
      var customerId :| customerId in rest;
      rest := rest - {customerId};
      if customerId !in seen {
        newCustomerIds := newCustomerIds + {customerId};
        seen := seen + {customerId};
      }
    }
  }

  /** The losses of the first `i` subscriptions, by plan. */
  predicate PlanSums(byPlan: ByPlan<int>, keys: seq<string>, previous: Entries<State>, current: Entries<State>) {
    forall plan :: PartOf(byPlan, plan) == Sum(keys, LossesOf(previous, current, Some(plan)))
  }

  lemma OneMoreLoss(byPlan: ByPlan<int>, keys: seq<string>, id: string, previous: Entries<State>,
                    current: Entries<State>)
    requires PlanSums(byPlan, keys, previous, current) && id in previous.at
    ensures var plan := previous.at[id].plan;
      PlanSums(if plan.Some? then AddToPlan(byPlan, plan.value, Lost(previous.at[id], id, current)) else byPlan,
               keys + [id], previous, current)
  {
    hide Lost;
    assert (keys + [id])[..|keys|] == keys;
  }

  method RecordDailyTransitions(previousState: Entries<State>, currentState: Entries<State>,
                                seenPaidCustomerIds: set<string>)
    returns (daily: Daily, seen: set<string>)
    requires IsMap(previousState) && IsMap(currentState)
    ensures IsDaily(daily, previousState, currentState, seenPaidCustomerIds)
    ensures seen == seenPaidCustomerIds + Customers(currentState)
  {
    hide Sum, PlanSums, AddToPlan, PartOf;
    var previousActiveCustomers, currentActiveCustomers := Customers(previousState), Customers(currentState);
    var newCustomerIds, seenNow := AddNewCustomers(currentActiveCustomers, seenPaidCustomerIds);
    seen := seenNow;
    var keys := previousState.keys;
    var canceled, upgraded: set<string> := {}, {};
    var churnRevenue, byPlan := 0, NO_PLAN;
    NothingLost(previousState, currentState);
    for i := 0 to |keys|
      invariant canceled == set k | 0 <= k < i && keys[k] !in currentState.at :: previousState.at[keys[k]].customerId
      invariant upgraded == set k | 0 <= k < i && keys[k] in currentState.at
        && IsUpgrade(previousState.at[keys[k]], currentState.at[keys[k]]) :: currentState.at[keys[k]].customerId
      invariant churnRevenue == Sum(keys[..i], Losses(previousState, currentState))
      invariant PlanSums(byPlan, keys[..i], previousState, currentState)
    {
      var id := keys[i];
      var previous := previousState.at[id];
      assert keys[..i + 1] == keys[..i] + [id];
      SumOfOneMore(keys[..i], id, Losses(previousState, currentState));
      OneMoreLoss(byPlan, keys[..i], id, previousState, currentState);
      NoPartNoChange(byPlan, previous.plan);
      if id !in currentState.at {
        canceled := canceled + {previous.customerId};
        churnRevenue := churnRevenue + previous.mrr;
        if previous.plan.Some? {
          byPlan := AddToPlan(byPlan, previous.plan.value, previous.mrr);
        }
        continue;
      }
      var current := currentState.at[id];
      if IsUpgrade(previous, current) {
        upgraded := upgraded + {current.customerId};
      }
      if current.mrr < previous.mrr {
        var lostMrr := previous.mrr - current.mrr;
        churnRevenue := churnRevenue + lostMrr;
        if previous.plan.Some? {
          byPlan := AddToPlan(byPlan, previous.plan.value, lostMrr);
        }
      }
    }
    assert keys[..|keys|] == keys;
    IndexedAreEntries(previousState, currentState);
    var gone, _ := AddNewCustomers(previousActiveCustomers, currentActiveCustomers);
    canceled := canceled + gone;
    daily := Daily(newCustomerIds, canceled, upgraded, churnRevenue, byPlan);
    PlanSumsAreTheParts(byPlan, previousState, currentState);
  }

  lemma NothingLost(previous: Entries<State>, current: Entries<State>)
    ensures Sum([], Losses(previous, current)) == 0 && PlanSums(NO_PLAN, [], previous, current)
  {
  }

  lemma SumOfOneMore(keys: seq<string>, id: string, f: map<string, int>)
    ensures Sum(keys + [id], f) == Sum(keys, f) + At(f, id)
  {
    assert (keys + [id])[..|keys|] == keys;
  }

  lemma NoPartNoChange(byPlan: ByPlan<int>, plan: Option<PlanKey>)
    ensures plan.Some? ==> AddToPlan(byPlan, plan.value, 0) == byPlan
  {
  }

  lemma PlanSumsAreTheParts(byPlan: ByPlan<int>, previous: Entries<State>, current: Entries<State>)
    requires PlanSums(byPlan, previous.keys, previous, current)
    ensures forall plan :: PartOf(byPlan, plan) == Sum(previous.keys, LossesOf(previous, current, Some(plan)))
  {
  }

  lemma IndexedAreEntries(previous: Entries<State>, current: Entries<State>)
    requires IsMap(previous) && IsMap(current)
    ensures var keys := previous.keys;
      && (set k | 0 <= k < |keys| && keys[k] !in current.at :: previous.at[keys[k]].customerId)
           == Canceled(previous, current)
      && (set k | 0 <= k < |keys| && keys[k] in current.at && IsUpgrade(previous.at[keys[k]], current.at[keys[k]])
            :: current.at[keys[k]].customerId) == Upgraded(previous, current)
  {
    hide IsUpgrade;
    var keys := previous.keys;
    var canceled := set k | 0 <= k < |keys| && keys[k] !in current.at :: previous.at[keys[k]].customerId;
    var upgraded := set k | 0 <= k < |keys| && keys[k] in current.at
                            && IsUpgrade(previous.at[keys[k]], current.at[keys[k]])
      :: current.at[keys[k]].customerId;
    forall c | c in Canceled(previous, current) ensures c in canceled {
      var id :| id in previous.at && id !in current.at && previous.at[id].customerId == c;
      var k :| 0 <= k < |keys| && keys[k] == id;
    }
    forall c | c in Upgraded(previous, current) ensures c in upgraded {
      var id :| id in previous.at && id in current.at && IsUpgrade(previous.at[id], current.at[id])
                && current.at[id].customerId == c;
      var k :| 0 <= k < |keys| && keys[k] == id;
    }
    assert canceled == Canceled(previous, current);
    assert upgraded == Upgraded(previous, current);
  }

  // ---------- churn by plan ----------

  /** The churn of the plans adds up to the whole churn, but for subscriptions without a plan. */
  lemma ChurnByPlanAddsUp(daily: Daily, previous: Entries<State>, current: Entries<State>, seen: set<string>)
    requires IsDaily(daily, previous, current, seen)
    ensures var parts := daily.churnRevenueByPlan;
      daily.churnRevenue == parts.solo + parts.maker + parts.team + parts.enterprise
        + Sum(previous.keys, LossesOf(previous, current, None))
    ensures (forall id :: id in previous.at ==> previous.at[id].plan.Some?) ==>
      Sum(previous.keys, LossesOf(previous, current, None)) == 0
  {
    hide Lost, Sum;
    var parts := daily.churnRevenueByPlan;
    assert PartOf(parts, Solo) == parts.solo && PartOf(parts, Maker) == parts.maker;
    assert PartOf(parts, Team) == parts.team && PartOf(parts, Enterprise) == parts.enterprise;
    SumOfFive(previous.keys, previous, current);
    if forall id :: id in previous.at ==> previous.at[id].plan.Some? {
      assert LossesOf(previous, current, None) == map[];
      SumOfNothing(previous.keys);
    }
  }

  lemma {:induction false} SumOfFive(keys: seq<string>, previous: Entries<State>, current: Entries<State>)
    ensures Sum(keys, Losses(previous, current))
      == Sum(keys, LossesOf(previous, current, Some(Solo))) + Sum(keys, LossesOf(previous, current, Some(Maker)))
         + Sum(keys, LossesOf(previous, current, Some(Team))) + Sum(keys, LossesOf(previous, current, Some(Enterprise)))
         + Sum(keys, LossesOf(previous, current, None))
  {
    hide Lost;
    if keys != [] {
      SumOfFive(keys[..|keys| - 1], previous, current);
      OneLossIsInOnePart(keys[|keys| - 1], previous, current);
    }
  }

  lemma OneLossIsInOnePart(id: string, previous: Entries<State>, current: Entries<State>)
    ensures At(Losses(previous, current), id)
      == At(LossesOf(previous, current, Some(Solo)), id) + At(LossesOf(previous, current, Some(Maker)), id)
         + At(LossesOf(previous, current, Some(Team)), id) + At(LossesOf(previous, current, Some(Enterprise)), id)
         + At(LossesOf(previous, current, None), id)
  {
    hide Lost;
    forall plan: Option<PlanKey>
      ensures At(LossesOf(previous, current, plan), id)
        == if id in previous.at && previous.at[id].plan == plan then Lost(previous.at[id], id, current) else 0
    {
    }
    if id in previous.at && previous.at[id].plan.Some? {
      match previous.at[id].plan.value
      case Solo =>
      case Maker =>
      case Team =>
      case Enterprise =>
    }
  }
}
