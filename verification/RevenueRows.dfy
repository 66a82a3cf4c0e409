/** The rows of a date range, and what they add up to. */
module RevenueRows {
  import opened Common
  import opened RevenueSnapshot
  import opened RevenueDailyLedger

  datatype PlanMetrics = PlanMetrics(count: int, monthly: int, yearly: int, revenue: int)

  const NO_PLAN_METRICS := PlanMetrics(0, 0, 0, 0)

  datatype Metrics = Metrics(
    mrr: int,
    totalRevenue: int,
    paying: int,
    payingMonthly: int,
    payingYearly: int,
    newPayingOrgs: int,
    canceledOrgs: int,
    upgradedOrgs: int,
    churnRevenue: int,
    churnRevenueByPlan: ByPlan<int>,
    solo: PlanMetrics,
    maker: PlanMetrics,
    team: PlanMetrics,
    enterprise: PlanMetrics)

  /** A row of the table as it is stored; amounts in cents, like all others. */
  datatype StoredRow = StoredRow(day: int, metrics: Metrics)

  /** `current` is what is stored for the day; `changed` tells whether storing the row would change it. */
  datatype Row = Row(day: int, metrics: Metrics, current: Option<Metrics>, isStored: bool, changed: bool)

  // ---------- one snapshot ----------

  function PlanCells(metrics: Metrics, plan: PlanKey): PlanMetrics {
    match plan
    case Solo => metrics.solo
    case Maker => metrics.maker
    case Team => metrics.team
    case Enterprise => metrics.enterprise
  }

  /** How many of the subscriptions are of the plan and the billing asked for; None asks for any. */
  function Count(keys: seq<string>, at: map<string, State>, plan: Option<PlanKey>, billing: Option<Billing>): int {
    if keys == [] then 0
    else
      var before, last := Count(keys[..|keys| - 1], at, plan, billing), keys[|keys| - 1];
      if && last in at && (plan.None? || at[last].plan == plan) && (billing.None? || at[last].billing == billing)
      then before + 1 else before
  }

  function MrrsOf(at: map<string, State>, plan: Option<PlanKey>): map<string, int> {
    map id | id in at && at[id].plan == plan :: at[id].mrr
  }

  function CountBilling(metrics: PlanMetrics, state: State): PlanMetrics {
    PlanMetrics(metrics.count + 1,
                if state.billing == Some(Monthly) then metrics.monthly + 1 else metrics.monthly,
                if state.billing == Some(Yearly) then metrics.yearly + 1 else metrics.yearly,
                metrics.revenue + state.mrr * 12)
  }

  /** The plan's columns count its subscriptions and add up their yearly revenue. */
  predicate IsPlanMetrics(metrics: PlanMetrics, keys: seq<string>, at: map<string, State>, plan: PlanKey) {
    && metrics.count == Count(keys, at, Some(plan), None)
    && metrics.monthly == Count(keys, at, Some(plan), Some(Monthly))
    && metrics.yearly == Count(keys, at, Some(plan), Some(Yearly))
    && metrics.revenue == 12 * Sum(keys, MrrsOf(at, Some(plan)))
  }

  predicate IsSummary(metrics: Metrics, states: Entries<State>, daily: Daily) {
    && metrics.mrr == Mrr(states)
    && metrics.totalRevenue == 12 * Mrr(states)
    && metrics.paying == |Customers(states)|
    && metrics.payingMonthly == Count(states.keys, states.at, None, Some(Monthly))
    && metrics.payingYearly == Count(states.keys, states.at, None, Some(Yearly))
    && (forall plan :: IsPlanMetrics(PlanCells(metrics, plan), states.keys, states.at, plan))
    && metrics.newPayingOrgs == |daily.newCustomerIds|
    && metrics.canceledOrgs == |daily.canceledCustomerIds|
    && metrics.upgradedOrgs == |daily.upgradedCustomerIds|
    && metrics.churnRevenue == daily.churnRevenue
    && metrics.churnRevenueByPlan == daily.churnRevenueByPlan
  }

  lemma OneMoreCount(keys: seq<string>, id: string, at: map<string, State>, plan: Option<PlanKey>,
                     billing: Option<Billing>)
    requires id in at
    ensures Count(keys + [id], at, plan, billing) == Count(keys, at, plan, billing)
      + if (plan.None? || at[id].plan == plan) && (billing.None? || at[id].billing == billing) then 1 else 0
  {
    assert (keys + [id])[..|keys|] == keys;
  }

  lemma OneMoreOfPlan(metrics: PlanMetrics, keys: seq<string>, id: string, at: map<string, State>, plan: PlanKey)
    requires IsPlanMetrics(metrics, keys, at, plan) && id in at
    ensures IsPlanMetrics(
              if at[id].plan == Some(plan) then CountBilling(metrics, at[id]) else metrics, keys + [id], at, plan)
  {
    hide Count, Sum;
    OneMoreCount(keys, id, at, Some(plan), None);
    OneMoreCount(keys, id, at, Some(plan), Some(Monthly));
    OneMoreCount(keys, id, at, Some(plan), Some(Yearly));
    SumOfOneMore(keys, id, MrrsOf(at, Some(plan)));
  }

  lemma NoneCounted(at: map<string, State>, plan: PlanKey)
    ensures IsPlanMetrics(NO_PLAN_METRICS, [], at, plan)
    ensures Count([], at, None, Some(Monthly)) == 0 && Count([], at, None, Some(Yearly)) == 0
  {
  }

  function CustomersOf(keys: seq<string>, at: map<string, State>): set<string> {
    if keys == [] then {}
    else
      var before, last := CustomersOf(keys[..|keys| - 1], at), keys[|keys| - 1];
      if last in at then before + {at[last].customerId} else before
  }

  lemma {:induction false} CustomersOfKeys(keys: seq<string>, at: map<string, State>)
    ensures CustomersOf(keys, at) == set id | id in keys && id in at :: at[id].customerId
  {
    if keys != [] {
      CustomersOfKeys(keys[..|keys| - 1], at);
    }
  }

  lemma AllCustomers(states: Entries<State>)
    requires IsMap(states)
    ensures CustomersOf(states.keys, states.at) == Customers(states)
  {
    CustomersOfKeys(states.keys, states.at);
  }

  lemma OneMoreCustomer(keys: seq<string>, id: string, at: map<string, State>)
    requires id in at
    ensures CustomersOf(keys + [id], at) == CustomersOf(keys, at) + {at[id].customerId}
  {
    assert (keys + [id])[..|keys|] == keys;
  }

  method SummarizeRevenueSnapshot(states: Entries<State>, daily: Daily) returns (metrics: Metrics)
    requires IsMap(states)
    ensures IsSummary(metrics, states, daily)
  {
    hide Sum, Count, CustomersOf, IsPlanMetrics, CountBilling;
    var keys, at := states.keys, states.at;
    var payingCustomerIds: set<string> := {};
    var mrr, payingMonthly, payingYearly := 0, 0, 0;
    var solo, maker, team, enterprise := NO_PLAN_METRICS, NO_PLAN_METRICS, NO_PLAN_METRICS, NO_PLAN_METRICS;
    NoneCounted(at, Solo);
    NoneCounted(at, Maker);
    NoneCounted(at, Team);
    NoneCounted(at, Enterprise);
    NoneSummed(Mrrs(states), at);
    for i := 0 to |keys|
      invariant payingCustomerIds == CustomersOf(keys[..i], at)
      invariant mrr == Sum(keys[..i], Mrrs(states))
      invariant payingMonthly == Count(keys[..i], at, None, Some(Monthly))
      invariant payingYearly == Count(keys[..i], at, None, Some(Yearly))
      invariant IsPlanMetrics(solo, keys[..i], at, Solo) && IsPlanMetrics(maker, keys[..i], at, Maker)
      invariant IsPlanMetrics(team, keys[..i], at, Team) && IsPlanMetrics(enterprise, keys[..i], at, Enterprise)
    {
      var id := keys[i];
      var state := at[id];
      assert keys[..i + 1] == keys[..i] + [id];
      OneMoreCustomer(keys[..i], id, at);
      SumOfOneMore(keys[..i], id, Mrrs(states));
      OneMoreCount(keys[..i], id, at, None, Some(Monthly));
      OneMoreCount(keys[..i], id, at, None, Some(Yearly));
      OneMoreOfPlan(solo, keys[..i], id, at, Solo);
      OneMoreOfPlan(maker, keys[..i], id, at, Maker);
      OneMoreOfPlan(team, keys[..i], id, at, Team);
      OneMoreOfPlan(enterprise, keys[..i], id, at, Enterprise);
      payingCustomerIds := payingCustomerIds + {state.customerId};
      mrr := mrr + state.mrr;
      if state.billing == Some(Monthly) {
        payingMonthly := payingMonthly + 1;
      } else if state.billing == Some(Yearly) {
        payingYearly := payingYearly + 1;
      }
      if state.plan.None? {
        continue;
      }
      if state.plan.value.Solo? {
        solo := CountBilling(solo, state);
      } else if state.plan.value.Maker? {
        maker := CountBilling(maker, state);
      } else if state.plan.value.Team? {
        team := CountBilling(team, state);
      } else {
        enterprise := CountBilling(enterprise, state);
      }
    }
    assert keys[..|keys|] == keys;
    AllCustomers(states);
    metrics := Metrics(mrr, mrr * 12, |payingCustomerIds|, payingMonthly, payingYearly,
                       |daily.newCustomerIds|, |daily.canceledCustomerIds|, |daily.upgradedCustomerIds|,
                       daily.churnRevenue, daily.churnRevenueByPlan, solo, maker, team, enterprise);
  }

  lemma NoneSummed(f: map<string, int>, at: map<string, State>)
    ensures Sum([], f) == 0 && CustomersOf([], at) == {}
  {
  }

  // ---------- the rows of a range ----------

  /** Customers paying at the end of the day before the range, or of a day of the range before `day`. */
  function SeenBefore(intervals: seq<Interval>, from: int, day: int): set<string>
    decreases day - from
  {
    if day <= from then Customers(StateOn(intervals, from - 1))
    else SeenBefore(intervals, from, day - 1) + Customers(StateOn(intervals, day - 1))
  }

  /** The last stored row of each day. */
  function StoredByDay(existingRows: seq<StoredRow>): map<int, Metrics> {
    if existingRows == [] then map[]
    else
      var init, last := existingRows[..|existingRows| - 1], existingRows[|existingRows| - 1];
      StoredByDay(init)[last.day := last.metrics]
  }

  predicate IsLastStored(existingRows: seq<StoredRow>, day: int, n: nat) {
    && n < |existingRows| && existingRows[n].day == day
    && forall k :: n < k < |existingRows| ==> existingRows[k].day != day
  }

  lemma {:induction false} StoredIsTheLast(existingRows: seq<StoredRow>, day: int)
    ensures day in StoredByDay(existingRows) <==> exists n: nat :: IsLastStored(existingRows, day, n)
    ensures forall n: nat :: IsLastStored(existingRows, day, n) ==>
        StoredByDay(existingRows)[day] == existingRows[n].metrics
  {
    if existingRows != [] {
      var init := existingRows[..|existingRows| - 1];
      StoredIsTheLast(init, day);
      if existingRows[|existingRows| - 1].day == day {
        assert IsLastStored(existingRows, day, |init|);
      } else {
        assert forall n: nat :: IsLastStored(init, day, n) <==> IsLastStored(existingRows, day, n);
      }
    }
  }

  /** The row has what the last stored row of its day holds, if there is one, and says whether any column differs. */
  ghost predicate IsCompared(row: Row, existingRows: seq<StoredRow>) {
    && (row.isStored <==> exists n: nat :: IsLastStored(existingRows, row.day, n))
    && (row.current.Some? <==> row.isStored)
    && (forall n: nat :: IsLastStored(existingRows, row.day, n) ==> row.current == Some(existingRows[n].metrics))
    && (row.changed <==> row.current != Some(row.metrics))
  }

  predicate ValuesChanged(current: Metrics, next: Metrics) {
    || current.mrr != next.mrr || current.totalRevenue != next.totalRevenue
    || current.paying != next.paying
    || current.payingMonthly != next.payingMonthly || current.payingYearly != next.payingYearly
    || current.newPayingOrgs != next.newPayingOrgs || current.canceledOrgs != next.canceledOrgs
    || current.upgradedOrgs != next.upgradedOrgs
    || current.churnRevenue != next.churnRevenue || current.churnRevenueByPlan != next.churnRevenueByPlan
    || current.solo != next.solo || current.maker != next.maker
    || current.team != next.team || current.enterprise != next.enterprise
  }

  /** The row of a day: its state, and the transitions from the state of the day before. */
  ghost predicate IsRowFor(row: Row, intervals: seq<Interval>, from: int, day: int) {
    && row.day == day
    && exists daily ::
      && IsDaily(daily, StateOn(intervals, day - 1), StateOn(intervals, day), SeenBefore(intervals, from, day))
      && IsSummary(row.metrics, StateOn(intervals, day), daily)
  }

  ghost predicate AreRows(rows: seq<Row>, intervals: seq<Interval>, from: int) {
    forall i :: 0 <= i < |rows| ==> IsRowFor(rows[i], intervals, from, from + i)
  }

  method BuildStripeInvoiceRevenueBackfillRows(existingRows: seq<StoredRow>, intervals: seq<Interval>, from: int,
                                               to: int)
    returns (rows: seq<Row>)
    ensures |rows| == if to < from then 0 else to - from + 1
    ensures AreRows(rows, intervals, from)
    ensures forall i :: 0 <= i < |rows| ==> IsCompared(rows[i], existingRows)
  {
    hide StateOn, IsDaily, IsSummary, Customers, StoredByDay, IsLastStored;
    var existingRowsByDay := StoredByDay(existingRows);
    rows := [];
    var previousState := GetStateForDate(intervals, from - 1);
    var seenPaidCustomerIds := Customers(previousState);
    var day := from;
    while day <= to
      invariant from <= day && (day <= to + 1 || day == from)
      invariant |rows| == day - from
      invariant previousState == StateOn(intervals, day - 1)
      invariant seenPaidCustomerIds == SeenBefore(intervals, from, day)
      invariant AreRows(rows, intervals, from)
      invariant forall i :: 0 <= i < |rows| ==> IsCompared(rows[i], existingRows)
    {
      StateOnIsMap(intervals, day - 1);
      StateOnIsMap(intervals, day);
      var currentState := GetStateForDate(intervals, day);
      var daily, seen := RecordDailyTransitions(previousState, currentState, seenPaidCustomerIds);
      var next := SummarizeRevenueSnapshot(currentState, daily);
      var current := if day in existingRowsByDay then Some(existingRowsByDay[day]) else None;
      var row := Row(day, next, current, current.Some?, current.None? || ValuesChanged(current.value, next));
      StoredIsTheLast(existingRows, day);
      assert IsRowFor(row, intervals, from, day);
      rows := rows + [row];
      previousState, seenPaidCustomerIds, day := currentState, seen, day + 1;
    }
  }

  // ---------- what the rows add up to ----------

  function ChurnOver(rows: seq<Row>): int {
    if rows == [] then 0 else ChurnOver(rows[..|rows| - 1]) + rows[|rows| - 1].metrics.churnRevenue
  }

  /** All revenue gained by subscriptions over `n` days from `from`. */
  function GainsOver(intervals: seq<Interval>, from: int, n: nat): int {
    if n == 0 then 0
    else GainsOver(intervals, from, n - 1) + Gain(StateOn(intervals, from + n - 2), StateOn(intervals, from + n - 1))
  }

  lemma RowTellsItsDay(row: Row, intervals: seq<Interval>, from: int, day: int)
    requires IsRowFor(row, intervals, from, day)
    ensures row.metrics.mrr == Mrr(StateOn(intervals, day))
    ensures row.metrics.churnRevenue == Loss(StateOn(intervals, day - 1), StateOn(intervals, day))
    ensures row.metrics.newPayingOrgs == |Customers(StateOn(intervals, day)) - SeenBefore(intervals, from, day)|
  {
    hide StateOn, Customers, Mrr, Loss, SeenBefore, Count, Canceled, Upgraded;
  }

  /** The ledger balances: revenue at the end is that before the range, plus all gains, less all churn. */
  lemma {:induction false} LedgerBalances(rows: seq<Row>, intervals: seq<Interval>, from: int)
    requires AreRows(rows, intervals, from)
    ensures Mrr(StateOn(intervals, from + |rows| - 1))
      == Mrr(StateOn(intervals, from - 1)) + GainsOver(intervals, from, |rows|) - ChurnOver(rows)
    ensures rows != [] ==> rows[|rows| - 1].metrics.mrr == Mrr(StateOn(intervals, from + |rows| - 1))
  {
    hide IsRowFor, StateOn, Mrr, Loss, Gain;
    if rows != [] {
      var init, last := rows[..|rows| - 1], rows[|rows| - 1];
      var day := from + |rows| - 1;
      LedgerBalances(init, intervals, from);
      RowTellsItsDay(last, intervals, from, day);
      StateOnIsMap(intervals, day - 1);
      StateOnIsMap(intervals, day);
      OneDayBalances(StateOn(intervals, day - 1), StateOn(intervals, day));
    }
  }

  function NewPayingOver(rows: seq<Row>): int {
    if rows == [] then 0 else NewPayingOver(rows[..|rows| - 1]) + rows[|rows| - 1].metrics.newPayingOrgs
  }

  /** Customers paying at the end of one of `n` days from `from`. */
  function PayingOver(intervals: seq<Interval>, from: int, n: nat): set<string> {
    if n == 0 then {} else PayingOver(intervals, from, n - 1) + Customers(StateOn(intervals, from + n - 1))
  }

  lemma {:induction false} SeenAreThePaying(intervals: seq<Interval>, from: int, n: nat)
    ensures SeenBefore(intervals, from, from + n)
         == Customers(StateOn(intervals, from - 1)) + PayingOver(intervals, from, n)
  {
    hide StateOn, Customers;
    if n > 0 {
      SeenAreThePaying(intervals, from, n - 1);
    }
  }

  /** A customer is new in a range once: when paying in it but not at the end of the day before it. */
  lemma {:induction false} NewPayingCustomersCountOnce(rows: seq<Row>, intervals: seq<Interval>, from: int)
    requires AreRows(rows, intervals, from)
    ensures NewPayingOver(rows) == |PayingOver(intervals, from, |rows|) - Customers(StateOn(intervals, from - 1))|
  {
    hide IsRowFor, StateOn, Customers, SeenBefore;
    var before := Customers(StateOn(intervals, from - 1));
    if rows == [] {
      assert PayingOver(intervals, from, 0) - before == {};
    } else {
      var init, n := rows[..|rows| - 1], |rows| - 1;
      NewPayingCustomersCountOnce(init, intervals, from);
      RowTellsItsDay(rows[n], intervals, from, from + n);
      SeenAreThePaying(intervals, from, n);
      var earlier := PayingOver(intervals, from, n) - before;
      var newly := Customers(StateOn(intervals, from + n)) - SeenBefore(intervals, from, from + n);
      assert PayingOver(intervals, from, n + 1) - before == earlier + newly;
      assert earlier !! newly;
    }
  }

  // ---------- what a row holds together ----------

  /** Every subscription with a plan is counted under it once, and its revenue with it. */
  lemma PlansAddUp(metrics: Metrics, states: Entries<State>, daily: Daily)
    requires IsMap(states) && IsSummary(metrics, states, daily)
    ensures metrics.solo.count + metrics.maker.count + metrics.team.count + metrics.enterprise.count
      == |states.keys| - WithoutPlan(states.keys, states.at)
    ensures metrics.totalRevenue
         == metrics.solo.revenue + metrics.maker.revenue + metrics.team.revenue + metrics.enterprise.revenue
      + 12 * Sum(states.keys, MrrsOf(states.at, None))
  {
    hide Sum, Count, WithoutPlan;
    assert IsPlanMetrics(PlanCells(metrics, Solo), states.keys, states.at, Solo);
    assert IsPlanMetrics(PlanCells(metrics, Maker), states.keys, states.at, Maker);
    assert IsPlanMetrics(PlanCells(metrics, Team), states.keys, states.at, Team);
    assert IsPlanMetrics(PlanCells(metrics, Enterprise), states.keys, states.at, Enterprise);
    CountsOfFive(states.keys, states.at);
    MrrsOfFive(states.keys, states);
  }

  function WithoutPlan(keys: seq<string>, at: map<string, State>): int {
    if keys == [] then 0
    else
      var before, last := WithoutPlan(keys[..|keys| - 1], at), keys[|keys| - 1];
      if last in at && at[last].plan.None? then before + 1 else before
  }

  lemma {:induction false} CountsOfFive(keys: seq<string>, at: map<string, State>)
    requires forall id :: id in keys ==> id in at
    ensures Count(keys, at, Some(Solo), None) + Count(keys, at, Some(Maker), None) + Count(keys, at, Some(Team), None)
      + Count(keys, at, Some(Enterprise), None) + WithoutPlan(keys, at) == |keys|
  {
    if keys != [] {
      CountsOfFive(keys[..|keys| - 1], at);
      var plan := at[keys[|keys| - 1]].plan;
      assert plan.Some? ==> plan.value.Solo? || plan.value.Maker? || plan.value.Team? || plan.value.Enterprise?;
    }
  }

  lemma {:induction false} MrrsOfFive(keys: seq<string>, states: Entries<State>)
    ensures Sum(keys, Mrrs(states))
      == Sum(keys, MrrsOf(states.at, Some(Solo))) + Sum(keys, MrrsOf(states.at, Some(Maker)))
         + Sum(keys, MrrsOf(states.at, Some(Team))) + Sum(keys, MrrsOf(states.at, Some(Enterprise)))
         + Sum(keys, MrrsOf(states.at, None))
  {
    if keys != [] {
      MrrsOfFive(keys[..|keys| - 1], states);
      OneMrrIsInOnePart(keys[|keys| - 1], states);
    }
  }

  lemma OneMrrIsInOnePart(id: string, states: Entries<State>)
    ensures At(Mrrs(states), id)
      == At(MrrsOf(states.at, Some(Solo)), id) + At(MrrsOf(states.at, Some(Maker)), id)
         + At(MrrsOf(states.at, Some(Team)), id)
         + At(MrrsOf(states.at, Some(Enterprise)), id) + At(MrrsOf(states.at, None), id)
  {
    forall plan: Option<PlanKey>
      ensures At(MrrsOf(states.at, plan), id)
           == if id in states.at && states.at[id].plan == plan then states.at[id].mrr else 0
    {
    }
    if id in states.at && states.at[id].plan.Some? {
      match states.at[id].plan.value
      case Solo =>
      case Maker =>
      case Team =>
      case Enterprise =>
    }
  }
}
