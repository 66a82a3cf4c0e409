/** What several modules share: optional values, lists without repetitions, and breakdowns by plan. */
module Common {
  datatype Option<+T> = None | Some(value: T)

  predicate Distinct<T(==)>(keys: seq<T>) {
    forall i, j :: 0 <= i < j < |keys| ==> keys[i] != keys[j]
  }

  /** The paid plans revenue is broken down by. */
  datatype PlanKey = Solo | Maker | Team | Enterprise

  datatype ByPlan<+T> = ByPlan(solo: T, maker: T, team: T, enterprise: T)

  function PartOf<T>(byPlan: ByPlan<T>, plan: PlanKey): T {
    match plan
    case Solo => byPlan.solo
    case Maker => byPlan.maker
    case Team => byPlan.team
    case Enterprise => byPlan.enterprise
  }
}
