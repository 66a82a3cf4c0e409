/** The daily revenue snapshots rebuilt from paid subscription intervals. Money is in cents. */
module RevenueSnapshot {
  import opened Common

  // ---------- a map that is iterated in the order of first insertion ----------

  datatype Entries<V> = Entries(keys: seq<string>, at: map<string, V>)

  ghost predicate IsMap<V>(entries: Entries<V>) {
    Distinct(entries.keys) && forall k :: k in entries.keys <==> k in entries.at
  }

  function SetEntry<V>(entries: Entries<V>, key: string, value: V): Entries<V> {
    Entries(if key in entries.at then entries.keys else entries.keys + [key], entries.at[key := value])
  }

  function At(f: map<string, int>, key: string): int {
    if key in f then f[key] else 0
  }

  function Sum(keys: seq<string>, f: map<string, int>): int {
    if keys == [] then 0 else Sum(keys[..|keys| - 1], f) + At(f, keys[|keys| - 1])
  }

  lemma {:induction false} SumOfSums(keys: seq<string>, f: map<string, int>, g: map<string, int>, h: map<string, int>)
    requires forall k :: k in keys ==> At(f, k) == At(g, k) + At(h, k)
    ensures Sum(keys, f) == Sum(keys, g) + Sum(keys, h)
  {
    if keys != [] {
      SumOfSums(keys[..|keys| - 1], f, g, h);
    }
  }

  lemma {:induction false} SumWithout(keys: seq<string>, f: map<string, int>, key: string)
    requires key !in keys
    ensures Sum(keys, f) == Sum(keys, f - {key})
  {
    if keys != [] {
      SumWithout(keys[..|keys| - 1], f, key);
    }
  }

  lemma {:induction false} SumTakesOut(keys: seq<string>, f: map<string, int>, key: string)
    requires Distinct(keys) && key in keys
    ensures Sum(keys, f) == Sum(keys, f - {key}) + At(f, key)
  {
    var init, last := keys[..|keys| - 1], keys[|keys| - 1];
    if last == key {
      SumWithout(init, f, key);
    } else {
      assert key in init;
      SumTakesOut(init, f, key);
    }
  }

  lemma {:induction false} SumOfNothing(keys: seq<string>)
    ensures Sum(keys, map[]) == 0
  {
    if keys != [] {
      SumOfNothing(keys[..|keys| - 1]);
    }
  }

  /** A sum does not depend on the order in which a map is iterated, nor on keys it has nothing for. */
  lemma {:induction false} SumIgnoresOrder(keys: seq<string>, others: seq<string>, f: map<string, int>)
    requires Distinct(keys) && Distinct(others)
    requires forall k :: k in f ==> k in keys && k in others
    ensures Sum(keys, f) == Sum(others, f)
    decreases |f|
  {
    if f == map[] {
      SumOfNothing(keys);
      SumOfNothing(others);
    } else {
      var k :| k in f;
      SumTakesOut(keys, f, k);
      SumTakesOut(others, f, k);
      assert |(f - {k}).Keys| < |f.Keys| by {
        assert f.Keys == (f - {k}).Keys + {k};
      }
      SumIgnoresOrder(keys, others, f - {k});
    }
  }

  // ---------- the paid intervals ----------

  datatype Billing = Monthly | Yearly

  datatype Interval = Interval(
    subscriptionId: string,
    customerId: string,
    priceId: Option<string>,
    startMs: int,
    endMs: int,
    billing: Option<Billing>,
    mrr: int,
    plan: Option<PlanKey>)

  datatype State = State(customerId: string, billing: Option<Billing>, mrr: int, plan: Option<PlanKey>)

  const DAY_MS := 86_400_000

  /** The last millisecond of a day, counted from the epoch. */
  function DayEndMs(day: int): int {
    (day + 1) * DAY_MS - 1
  }

  predicate IsActive(interval: Interval, ms: int) {
    interval.startMs <= ms < interval.endMs
  }

  predicate Supersedes(interval: Interval, existing: Interval) {
    || interval.startMs > existing.startMs
    || (interval.startMs == existing.startMs && interval.endMs > existing.endMs)
  }

  function Choose(chosen: Entries<Interval>, interval: Interval, ms: int): Entries<Interval> {
    var id := interval.subscriptionId;
    if !IsActive(interval, ms) then chosen
    else if id !in chosen.at || Supersedes(interval, chosen.at[id]) then SetEntry(chosen, id, interval)
    else chosen
  }

  function Chosen(intervals: seq<Interval>, ms: int): Entries<Interval> {
    if intervals == [] then Entries([], map[])
    else Choose(Chosen(intervals[..|intervals| - 1], ms), intervals[|intervals| - 1], ms)
  }

  function StateFrom(interval: Interval): State {
    State(interval.customerId, interval.billing, interval.mrr, interval.plan)
  }

  function StatesOf(chosen: Entries<Interval>): Entries<State> {
    Entries(chosen.keys, map id | id in chosen.at :: StateFrom(chosen.at[id]))
  }

  /** The subscriptions paid for at the end of a day. */
  function StateOn(intervals: seq<Interval>, day: int): Entries<State> {
    StatesOf(Chosen(intervals, DayEndMs(day)))
  }

  method GetStateForDate(intervals: seq<Interval>, day: int) returns (states: Entries<State>)
    ensures states == StateOn(intervals, day)
  {
    var dayEndMs := DayEndMs(day);
    var activeBySubscriptionId: Entries<Interval> := Entries([], map[]);
    for i := 0 to |intervals|
      invariant activeBySubscriptionId == Chosen(intervals[..i], dayEndMs)
    {
      var interval := intervals[i];
      assert intervals[..i + 1][..i] == intervals[..i];
      if interval.startMs > dayEndMs || interval.endMs <= dayEndMs {
        continue;
      }
      var id := interval.subscriptionId;
      if id !in activeBySubscriptionId.at || Supersedes(interval, activeBySubscriptionId.at[id]) {
        activeBySubscriptionId := SetEntry(activeBySubscriptionId, id, interval);
      }
    }
    assert intervals[..|intervals|] == intervals;
    states := StatesOf(activeBySubscriptionId);
  }

  predicate IsCandidate(intervals: seq<Interval>, ms: int, id: string, n: nat) {
    n < |intervals| && IsActive(intervals[n], ms) && intervals[n].subscriptionId == id
  }

  /** The `n`-th interval beats every other active one of its subscription, and is the first to do so. */
  ghost predicate IsLatest(intervals: seq<Interval>, ms: int, id: string, n: nat) {
    && IsCandidate(intervals, ms, id, n)
    && (forall k: nat :: IsCandidate(intervals, ms, id, k) ==> !Supersedes(intervals[k], intervals[n]))
    && (forall k: nat :: k < n && IsCandidate(intervals, ms, id, k) ==> Supersedes(intervals[n], intervals[k]))
  }

  lemma {:induction false} ChosenIsMap(intervals: seq<Interval>, ms: int)
    ensures IsMap(Chosen(intervals, ms))
  {
    if intervals != [] {
      ChosenIsMap(intervals[..|intervals| - 1], ms);
    }
  }

  lemma CandidatesOfLonger(init: seq<Interval>, last: Interval, ms: int, id: string, n: nat)
    ensures IsCandidate(init + [last], ms, id, n)
      <==> IsCandidate(init, ms, id, n) || (n == |init| && IsActive(last, ms) && last.subscriptionId == id)
  {
  }

  /** A subscription has a state exactly when one of its intervals is active, and then from the latest of them. */
  lemma {:induction false} ChosenIsLatest(intervals: seq<Interval>, ms: int, id: string)
    ensures id in Chosen(intervals, ms).at <==> exists n: nat :: IsCandidate(intervals, ms, id, n)
    ensures id in Chosen(intervals, ms).at ==>
      exists n: nat :: IsLatest(intervals, ms, id, n) && Chosen(intervals, ms).at[id] == intervals[n]
  {
    if intervals != [] {
      var init, last := intervals[..|intervals| - 1], intervals[|intervals| - 1];
      assert intervals == init + [last];
      var before := Chosen(init, ms);
      ChosenIsLatest(init, ms, id);
      forall n: nat {
        CandidatesOfLonger(init, last, ms, id, n);
      }
      if IsActive(last, ms) && last.subscriptionId == id && (id !in before.at || Supersedes(last, before.at[id])) {
        LastIsLatest(init, last, ms, id);
        assert Chosen(intervals, ms).at[id] == intervals[|init|];
      } else if id in before.at {
        var n: nat :| IsLatest(init, ms, id, n) && before.at[id] == init[n];
        EarlierStaysLatest(init, last, ms, id, n);
        assert Chosen(intervals, ms).at[id] == intervals[n];
      }
    }
  }

  lemma LastIsLatest(init: seq<Interval>, last: Interval, ms: int, id: string)
    requires IsActive(last, ms) && last.subscriptionId == id
    requires forall n: nat :: IsLatest(init, ms, id, n) ==> Supersedes(last, init[n])
    requires (exists n: nat :: IsCandidate(init, ms, id, n)) ==> exists n: nat :: IsLatest(init, ms, id, n)
    ensures IsLatest(init + [last], ms, id, |init|)
  {
    var all := init + [last];
    forall k: nat | IsCandidate(all, ms, id, k)
      ensures !Supersedes(all[k], last) && (k < |init| ==> Supersedes(last, all[k]))
    {
      CandidatesOfLonger(init, last, ms, id, k);
      if k < |init| {
        var n: nat :| IsLatest(init, ms, id, n);
      }
    }
    CandidatesOfLonger(init, last, ms, id, |init|);
  }

  lemma EarlierStaysLatest(init: seq<Interval>, last: Interval, ms: int, id: string, n: nat)
    requires IsLatest(init, ms, id, n)
    requires IsActive(last, ms) && last.subscriptionId == id ==> !Supersedes(last, init[n])
    ensures IsLatest(init + [last], ms, id, n)
  {
    var all := init + [last];
    forall k: nat {
      CandidatesOfLonger(init, last, ms, id, k);
    }
  }

  lemma StateOnIsMap(intervals: seq<Interval>, day: int)
    ensures IsMap(StateOn(intervals, day))
  {
    ChosenIsMap(intervals, DayEndMs(day));
  }

  // ---------- collecting the intervals ----------

  function Decimal(n: nat): string {
    var digit := [(n % 10) as char + '0'];
    if n < 10 then digit else Decimal(n / 10) + digit
  }

  function Millis(ms: int): string {
    if ms < 0 then "-" + Decimal(-ms) else Decimal(ms)
  }

  function IntervalKey(interval: Interval): string {
    interval.subscriptionId + ":" + (if interval.priceId.Some? then interval.priceId.value else "unknown")
    + ":" + Millis(interval.startMs) + ":" + Millis(interval.endMs)
  }

  predicate IsSound(interval: Interval) {
    interval.startMs < interval.endMs && interval.mrr >= 0
  }

  /** Keeps the first sound interval of each key. */
  function AddInterval(intervalsByKey: Entries<Interval>, interval: Interval): Entries<Interval> {
    if interval.endMs <= interval.startMs || interval.mrr < 0 then intervalsByKey
    else if IntervalKey(interval) in intervalsByKey.at then intervalsByKey
    else SetEntry(intervalsByKey, IntervalKey(interval), interval)
  }

  function Collected(intervals: seq<Interval>): Entries<Interval> {
    if intervals == [] then Entries([], map[])
    else AddInterval(Collected(intervals[..|intervals| - 1]), intervals[|intervals| - 1])
  }

  predicate IsFirstSound(intervals: seq<Interval>, key: string, n: nat) {
    && n < |intervals| && IsSound(intervals[n]) && IntervalKey(intervals[n]) == key
    && forall k :: 0 <= k < n && IsSound(intervals[k]) ==> IntervalKey(intervals[k]) != key
  }

  /** What is collected under a key is the first sound interval with that key, if there is one. */
  lemma {:induction false} CollectedAreTheFirst(intervals: seq<Interval>, key: string)
    ensures IsMap(Collected(intervals))
    ensures key in Collected(intervals).at <==> exists n: nat :: IsFirstSound(intervals, key, n)
    ensures forall n: nat :: IsFirstSound(intervals, key, n) ==> Collected(intervals).at[key] == intervals[n]
  {
    hide IntervalKey;
    if intervals != [] {
      var init, last := intervals[..|intervals| - 1], intervals[|intervals| - 1];
      CollectedAreTheFirst(init, key);
      assert forall n: nat :: IsFirstSound(init, key, n) ==> IsFirstSound(intervals, key, n);
      assert forall n: nat :: IsFirstSound(intervals, key, n) && n < |init| ==> IsFirstSound(init, key, n);
      if key !in Collected(init).at && IsSound(last) && IntervalKey(last) == key {
        NoSoundBefore(init, key);
        assert IsFirstSound(intervals, key, |init|);
      }
    }
  }

  lemma {:induction false} NoSoundBefore(intervals: seq<Interval>, key: string)
    requires forall n: nat :: !IsFirstSound(intervals, key, n)
    ensures forall k :: 0 <= k < |intervals| && IsSound(intervals[k]) ==> IntervalKey(intervals[k]) != key
  {
    hide IntervalKey;
    if intervals != [] {
      var init := intervals[..|intervals| - 1];
      assert forall n: nat :: IsFirstSound(init, key, n) ==> IsFirstSound(intervals, key, n);
      NoSoundBefore(init, key);
      assert !IsFirstSound(intervals, key, |init|);
    }
  }
}
