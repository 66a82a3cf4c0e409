/** Requests tried on regional workers in turn, behind a circuit breaker and two response caches. */
module EdgeFallback {
  import opened Common

  const CIRCUIT_RESET_MS := 5 * 60 * 1000

  // ---------- requests, workers and answers ----------

  /** A response body: parsed as far as the fallback looks at it. */
  datatype Body = NotJson | Json(error: Option<string>, isOnprem: bool)

  /** `ttlSeconds` is what the Cache-Control header allows, if anything. */
  datatype Answer = Answer(status: int, body: Body, ttlSeconds: Option<nat>)

  datatype Outcome = Threw | Answered(answer: Answer)

  /** One turn of a worker: when its breaker is looked up, what contacting it gives, and when that is known. */
  datatype Attempt = Attempt(checkedAt: int, outcome: Outcome, endedAt: int)

  datatype Request = Request(
    hostname: string,
    colo: string,
    appId: Option<string>,
    endpoint: Option<string>,
    httpMethod: string,
    receivedAt: int,
    workers: seq<string>,
    attempts: seq<Attempt>)
  {
    ghost predicate Valid() {
      |attempts| == |workers|
    }
  }

  datatype Reply =
    | FromCache(answer: Answer)
    | FromWorker(worker: string, answer: Answer)
    | PlanUpgrade(answer: Answer)
    | OnPrem(answer: Answer)
    | FromOrigin

  datatype BreakerKey = BreakerKey(hostname: string, colo: string, worker: string)

  datatype CacheKey = CacheKey(hostname: string, appId: string, endpoint: string, httpMethod: string)

  datatype Entry = Entry(answer: Answer, storedAt: int, ttlSeconds: nat)

  /** When a worker was marked unhealthy, and the two response caches. */
  datatype Edge = Edge(breaker: map<BreakerKey, int>, planUpgrades: map<CacheKey, Entry>, onPrems: map<CacheKey, Entry>)

  const EMPTY := Edge(map[], map[], map[])

  predicate IsOnPremAnswer(answer: Answer) {
    && answer.body.Json?
    && ((answer.status == 429 && answer.body.error == Some("on_premise_app")) || answer.body.isOnprem)
  }

  predicate IsPlanUpgradeAnswer(answer: Answer) {
    answer.body.Json? && answer.status == 429 && answer.body.error == Some("need_plan_upgrade")
  }

  /** Whether answers to the request may be cached: an app id and a cacheable endpoint are known. */
  predicate IsCacheable(r: Request) {
    r.appId.Some? && r.appId.value != "" && r.endpoint.Some?
  }

  function KeyOf(r: Request): CacheKey
    requires IsCacheable(r)
  {
    CacheKey(r.hostname, r.appId.value, r.endpoint.value, r.httpMethod)
  }

  function BreakerKeyOf(r: Request, worker: string): BreakerKey {
    BreakerKey(r.hostname, r.colo, worker)
  }

  /** A worker is healthy unless marked less than the reset time ago; an entry the cache has expired is that old. */
  predicate IsHealthy(breaker: map<BreakerKey, int>, key: BreakerKey, now: int) {
    key !in breaker || now - breaker[key] >= CIRCUIT_RESET_MS
  }

  predicate IsHit(cache: map<CacheKey, Entry>, key: CacheKey, now: int) {
    key in cache && now < cache[key].storedAt + cache[key].ttlSeconds * 1000
  }

  // ---------- the turns of the workers ----------

  datatype Contact = Contact(key: BreakerKey, at: int, outcome: Outcome, endedAt: int)

  predicate Failed(c: Contact) {
    c.outcome.Threw? || c.outcome.answer.status >= 500
  }

  predicate Agreed(c: Contact) {
    !Failed(c) && IsOnPremAnswer(c.outcome.answer)
  }

  datatype Progress = Progress(
    breaker: map<BreakerKey, int>,
    contacts: seq<Contact>,
    pendingOnPrem: Option<Answer>,
    onPremConfirmations: nat,
    successfulFallbacks: nat,
    fallbackFailure: bool,
    reply: Option<Reply>)

  function Start(breaker: map<BreakerKey, int>): Progress {
    Progress(breaker, [], None, 0, 0, false, None)
  }

  function Contacted(r: Request, p: Progress, worker: string, attempt: Attempt): Progress {
    var key := BreakerKeyOf(r, worker);
    var q := p.(contacts := p.contacts + [Contact(key, attempt.checkedAt, attempt.outcome, attempt.endedAt)]);
    if attempt.outcome.Threw? || attempt.outcome.answer.status >= 500 then
      q.(fallbackFailure := true, breaker := p.breaker[key := attempt.endedAt])
    else
      var answer := attempt.outcome.answer;
      var ok := q.(breaker := p.breaker - {key}, successfulFallbacks := p.successfulFallbacks + 1);
      if IsCacheable(r) && IsOnPremAnswer(answer) then
        ok.(onPremConfirmations := p.onPremConfirmations + 1, pendingOnPrem := Some(answer))
      else if IsCacheable(r) && IsPlanUpgradeAnswer(answer) then ok.(reply := Some(PlanUpgrade(answer)))
      else ok.(reply := Some(FromWorker(worker, answer)))
  }

  function Tried(r: Request, p: Progress, i: nat): Progress
    requires r.Valid() && i < |r.workers|
  {
    if p.reply.Some? then p
    else if !IsHealthy(p.breaker, BreakerKeyOf(r, r.workers[i]), r.attempts[i].checkedAt)
      then p.(fallbackFailure := true)
    else Contacted(r, p, r.workers[i], r.attempts[i])
  }

  function TriedFirst(r: Request, breaker: map<BreakerKey, int>, n: nat): Progress
    requires r.Valid() && n <= |r.workers|
  {
    if n == 0 then Start(breaker) else Tried(r, TriedFirst(r, breaker, n - 1), n - 1)
  }

  function TriedAll(r: Request, breaker: map<BreakerKey, int>): Progress
    requires r.Valid()
  {
    TriedFirst(r, breaker, |r.workers|)
  }

  predicate IsUnanimous(p: Progress) {
    && p.pendingOnPrem.Some? && !p.fallbackFailure && p.successfulFallbacks > 0
    && p.onPremConfirmations == p.successfulFallbacks
  }

  // ---------- a request ----------

  function Stored(cache: map<CacheKey, Entry>, key: CacheKey, answer: Answer, now: int): map<CacheKey, Entry> {
    if answer.ttlSeconds.None? || answer.ttlSeconds.value == 0 then cache
    else cache[key := Entry(answer, now, answer.ttlSeconds.value)]
  }

  /** The time of the last contact of a request so far. */
  function LastTime(r: Request, contacts: seq<Contact>): int {
    if contacts == [] then r.receivedAt else contacts[|contacts| - 1].endedAt
  }

  function EndOf(r: Request): int
    requires r.Valid()
  {
    if r.attempts == [] then r.receivedAt else r.attempts[|r.attempts| - 1].endedAt
  }

  predicate IsServedFromCache(edge: Edge, r: Request) {
    IsCacheable(r) && (IsHit(edge.planUpgrades, KeyOf(r), r.receivedAt) || IsHit(edge.onPrems, KeyOf(r), r.receivedAt))
  }

  function CachedAnswer(edge: Edge, r: Request): Answer
    requires IsServedFromCache(edge, r)
  {
    if IsHit(edge.planUpgrades, KeyOf(r), r.receivedAt) then edge.planUpgrades[KeyOf(r)].answer
    else edge.onPrems[KeyOf(r)].answer
  }

  datatype Handling = Handling(edge: Edge, reply: Reply, contacts: seq<Contact>)

  function Handled(edge: Edge, r: Request): Handling
    requires r.Valid()
  {
    if IsServedFromCache(edge, r) then Handling(edge, FromCache(CachedAnswer(edge, r)), [])
    else
      var p := TriedAll(r, edge.breaker);
      var tried := edge.(breaker := p.breaker);
      if p.reply.Some? then
        if p.reply.value.PlanUpgrade? && IsCacheable(r) then
          var planUpgrades := Stored(edge.planUpgrades, KeyOf(r), p.reply.value.answer, LastTime(r, p.contacts));
          Handling(tried.(planUpgrades := planUpgrades), p.reply.value, p.contacts)
        else Handling(tried, p.reply.value, p.contacts)
      else if IsUnanimous(p) && IsCacheable(r) then
        var onPrems := Stored(edge.onPrems, KeyOf(r), p.pendingOnPrem.value, LastTime(r, p.contacts));
        Handling(tried.(onPrems := onPrems), OnPrem(p.pendingOnPrem.value), p.contacts)
      else Handling(tried, FromOrigin, p.contacts)
  }

  // ---------- the program ----------

  class EdgeCache {
    var breaker: map<BreakerKey, int>
    var planUpgrades: map<CacheKey, Entry>
    var onPrems: map<CacheKey, Entry>

    ghost function Contents(): Edge
      reads this
    {
      Edge(breaker, planUpgrades, onPrems)
    }

    constructor ()
      ensures Contents() == EMPTY
    {
      breaker, planUpgrades, onPrems := map[], map[], map[];
    }

    method MarkUnhealthy(key: BreakerKey, now: int)
      modifies `breaker
      ensures breaker == old(breaker)[key := now]
    {
      breaker := breaker[key := now];
    }

    method MarkHealthy(key: BreakerKey)
      modifies `breaker
      ensures breaker == old(breaker) - {key}
    {
      breaker := breaker - {key};
    }

    /** Answers a request: from a cache, a worker, all workers agreeing, or at last the origin. */
    method Fetch(r: Request) returns (reply: Reply, contacts: seq<Contact>)
      requires r.Valid()
      modifies this
      ensures Handling(Contents(), reply, contacts) == Handled(old(Contents()), r)
    {
      hide IsOnPremAnswer, IsPlanUpgradeAnswer, IsHit, IsHealthy;
      contacts := [];
      if IsCacheable(r) {
        var key := KeyOf(r);
        if IsHit(planUpgrades, key, r.receivedAt) {
          reply := FromCache(planUpgrades[key].answer) by { HitsAreThere(planUpgrades, key, r.receivedAt); }
          return;
        }
        if IsHit(onPrems, key, r.receivedAt) {
          reply := FromCache(onPrems[key].answer) by { HitsAreThere(onPrems, key, r.receivedAt); }
          return;
        }
      }
      var pendingOnPrem: Option<Answer> := None;
      var onPremConfirmations, successfulFallbacks: nat, fallbackFailure := 0, 0, false;
      for index := 0 to |r.workers|
        invariant planUpgrades == old(planUpgrades) && onPrems == old(onPrems)
        invariant Progress(breaker, contacts, pendingOnPrem, onPremConfirmations, successfulFallbacks,
                           fallbackFailure, None)
          == TriedFirst(r, old(breaker), index)
      {
        var worker, attempt := r.workers[index], r.attempts[index];
        var key := BreakerKeyOf(r, worker);
        ReplyIsFinal(r, old(breaker), index + 1);
        var healthy := IsHealthy(breaker, key, attempt.checkedAt);
        if !healthy {
          fallbackFailure := true;
          continue;
        }
        contacts := contacts + [Contact(key, attempt.checkedAt, attempt.outcome, attempt.endedAt)];
        if attempt.outcome.Threw? || attempt.outcome.answer.status >= 500 {
          fallbackFailure := true;
          MarkUnhealthy(key, attempt.endedAt);
          continue;
        }
        MarkHealthy(key);
        successfulFallbacks := successfulFallbacks + 1;
        var answer := attempt.outcome.answer;
        if IsCacheable(r) {
          if IsOnPremAnswer(answer) {
            onPremConfirmations := onPremConfirmations + 1;
            pendingOnPrem := Some(answer);
            continue;
          }
          if IsPlanUpgradeAnswer(answer) {
            planUpgrades := Stored(planUpgrades, KeyOf(r), answer, LastTime(r, contacts));
            return PlanUpgrade(answer), contacts;
          }
        }
        return FromWorker(worker, answer), contacts;
      }
      var isUnanimous := successfulFallbacks > 0 && onPremConfirmations == successfulFallbacks;
      if pendingOnPrem.Some? && !fallbackFailure && isUnanimous {
        OnlyCacheableArePending(r, old(breaker), |r.workers|);
        onPrems := Stored(onPrems, KeyOf(r), pendingOnPrem.value, LastTime(r, contacts));
        return OnPrem(pendingOnPrem.value), contacts;
      }
      reply := FromOrigin;
    }
  }

  lemma HitsAreThere(cache: map<CacheKey, Entry>, key: CacheKey, now: int)
    ensures IsHit(cache, key, now) ==> key in cache
  {
  }

  /** Once a reply is found, the remaining workers are not tried. */
  lemma {:induction false} ReplyIsFinal(r: Request, breaker: map<BreakerKey, int>, n: nat)
    requires r.Valid() && n <= |r.workers|
    ensures TriedFirst(r, breaker, n).reply.Some? ==> TriedAll(r, breaker) == TriedFirst(r, breaker, n)
    decreases |r.workers| - n
  {
    hide Contacted, IsHealthy;
    if n < |r.workers| {
      ReplyIsFinal(r, breaker, n + 1);
    }
  }

  lemma {:induction false} OnlyCacheableArePending(r: Request, breaker: map<BreakerKey, int>, n: nat)
    requires r.Valid() && n <= |r.workers|
    ensures TriedFirst(r, breaker, n).pendingOnPrem.Some? ==> IsCacheable(r)
  {
    hide IsHealthy, IsOnPremAnswer, IsPlanUpgradeAnswer;
    if n > 0 {
      OnlyCacheableArePending(r, breaker, n - 1);
    }
  }

  function ContactOf(r: Request, i: nat): Contact
    requires r.Valid() && i < |r.workers|
  {
    var attempt := r.attempts[i];
    Contact(BreakerKeyOf(r, r.workers[i]), attempt.checkedAt, attempt.outcome, attempt.endedAt)
  }

  // ---------- on-prem answers are unanimous ----------

  /** The first `n` workers were all contacted, in order, and all answered on-prem. */
  predicate AllAgreed(r: Request, contacts: seq<Contact>, n: nat) {
    && |contacts| == n <= |r.workers|
    && forall i :: 0 <= i < n ==> contacts[i].key == BreakerKeyOf(r, r.workers[i]) && Agreed(contacts[i])
  }

  lemma OneMoreAgreed(r: Request, contacts: seq<Contact>, c: Contact, i: nat)
    requires r.Valid() && i < |r.workers| && |contacts| <= i && c.key == BreakerKeyOf(r, r.workers[i])
    ensures AllAgreed(r, contacts + [c], i + 1) <==> AllAgreed(r, contacts, i) && Agreed(c)
  {
    hide Agreed;
    var all := contacts + [c];
    assert all[..|contacts|] == contacts;
    if AllAgreed(r, all, i + 1) {
      assert forall k :: 0 <= k < i ==> contacts[k] == all[k];
      assert all[i] == c;
    }
  }

  /** What contacting a worker does to the counts, by whether it failed, agreed or replied. */
  lemma CountsOfContact(r: Request, p: Progress, i: nat)
    requires r.Valid() && i < |r.workers| && IsCacheable(r) && p.reply.None?
    ensures var c, q := ContactOf(r, i), Contacted(r, p, r.workers[i], r.attempts[i]);
      && q.contacts == p.contacts + [c] && c.key == BreakerKeyOf(r, r.workers[i])
      && (q.fallbackFailure <==> p.fallbackFailure || Failed(c))
      && (q.reply.Some? <==> !Failed(c) && !Agreed(c))
      && (Failed(c) ==>
            && q.onPremConfirmations == p.onPremConfirmations && q.successfulFallbacks == p.successfulFallbacks
            && q.pendingOnPrem == p.pendingOnPrem)
      && (Agreed(c) ==>
            && q.onPremConfirmations == p.onPremConfirmations + 1
            && q.successfulFallbacks == p.successfulFallbacks + 1 && q.pendingOnPrem.Some?)
  {
    hide IsOnPremAnswer, IsPlanUpgradeAnswer, IsCacheable, BreakerKeyOf;
  }

  lemma FailedDoNotAgree(c: Contact)
    ensures Agreed(c) ==> !Failed(c)
  {
  }

  lemma TooFewDoNotAgree(r: Request, contacts: seq<Contact>, n: nat)
    requires |contacts| < n
    ensures !AllAgreed(r, contacts, n)
  {
  }

  lemma AgreementOfOneMore(r: Request, p: Progress, i: nat)
    requires r.Valid() && i < |r.workers| && IsCacheable(r) && p.reply.None?
    requires p.onPremConfirmations == p.successfulFallbacks && |p.contacts| <= i
    requires AllAgreed(r, p.contacts, i) <==> !p.fallbackFailure
    requires !p.fallbackFailure ==> p.onPremConfirmations == i
    requires p.pendingOnPrem.Some? <==> p.onPremConfirmations > 0
    ensures var q := Tried(r, p, i);
      && |q.contacts| <= i + 1
      && (AllAgreed(r, q.contacts, i + 1) <==> q.reply.None? && !q.fallbackFailure)
      && (q.reply.None? ==>
            && q.onPremConfirmations == q.successfulFallbacks
            && (!q.fallbackFailure ==> q.onPremConfirmations == i + 1)
            && (q.pendingOnPrem.Some? <==> q.onPremConfirmations > 0))
  {
    hide Contacted, Agreed, Failed, IsHealthy, IsCacheable, ContactOf, AllAgreed;
    var q := Tried(r, p, i);
    if IsHealthy(p.breaker, BreakerKeyOf(r, r.workers[i]), r.attempts[i].checkedAt) {
      CountsOfContact(r, p, i);
      OneMoreAgreed(r, p.contacts, ContactOf(r, i), i);
      FailedDoNotAgree(ContactOf(r, i));
    } else {
      TooFewDoNotAgree(r, p.contacts, i + 1);
    }
  }

  lemma {:induction false} Agreement(r: Request, breaker: map<BreakerKey, int>, n: nat)
    requires r.Valid() && n <= |r.workers| && IsCacheable(r)
    ensures var p := TriedFirst(r, breaker, n);
      && |p.contacts| <= n
      && (AllAgreed(r, p.contacts, n) <==> p.reply.None? && !p.fallbackFailure)
      && (p.reply.None? ==>
            && p.onPremConfirmations == p.successfulFallbacks
            && (!p.fallbackFailure ==> p.onPremConfirmations == n)
            && (p.pendingOnPrem.Some? <==> p.onPremConfirmations > 0))
  {
    hide Contacted, IsHealthy, IsCacheable, Agreed, BreakerKeyOf;
    if n > 0 {
      var p := TriedFirst(r, breaker, n - 1);
      Agreement(r, breaker, n - 1);
      if p.reply.None? {
        AgreementOfOneMore(r, p, n - 1);
      }
    }
  }

  /**
   * A request not served from a cache is answered on-prem exactly when it is cacheable, has workers, and
   * every one of them was contacted and answered on-prem; the answer is that of the last. It is stored
   * exactly then, if its headers allow a time to live; nothing else is.
   */
  lemma OnPremMeansUnanimous(edge: Edge, r: Request)
    requires r.Valid() && !IsServedFromCache(edge, r)
    ensures var h := Handled(edge, r);
      && (h.reply.OnPrem? <==> IsCacheable(r) && r.workers != [] && AllAgreed(r, h.contacts, |r.workers|))
      && (h.reply.OnPrem? ==> h.reply.answer == h.contacts[|r.workers| - 1].outcome.answer)
      && h.edge.onPrems
           == if h.reply.OnPrem? then Stored(edge.onPrems, KeyOf(r), h.reply.answer, LastTime(r, h.contacts))
              else edge.onPrems
  {
    hide Stored, LastTime, Tried, IsHealthy, Agreed, BreakerKeyOf;
    if IsCacheable(r) {
      Agreement(r, edge.breaker, |r.workers|);
      LastAnswerIsPending(r, edge.breaker, |r.workers|);
    }
    OnlyCacheableArePending(r, edge.breaker, |r.workers|);
    RepliesAreNotOnPrem(r, edge.breaker, |r.workers|);
  }

  lemma {:induction false} RepliesAreNotOnPrem(r: Request, breaker: map<BreakerKey, int>, n: nat)
    requires r.Valid() && n <= |r.workers|
    ensures TriedFirst(r, breaker, n).reply.Some? ==> !TriedFirst(r, breaker, n).reply.value.OnPrem?
  {
    hide IsHealthy, IsOnPremAnswer, IsPlanUpgradeAnswer;
    if n > 0 {
      RepliesAreNotOnPrem(r, breaker, n - 1);
    }
  }

  lemma {:induction false} LastAnswerIsPending(r: Request, breaker: map<BreakerKey, int>, n: nat)
    requires r.Valid() && n <= |r.workers| && IsCacheable(r)
    ensures var p := TriedFirst(r, breaker, n);
      n > 0 && p.reply.None? && !p.fallbackFailure ==>
        && p.contacts != [] && p.contacts[|p.contacts| - 1].outcome.Answered?
        && p.pendingOnPrem == Some(p.contacts[|p.contacts| - 1].outcome.answer)
  {
    hide IsHealthy, IsOnPremAnswer, IsPlanUpgradeAnswer, IsCacheable;
  }

  // ---------- which worker answers ----------

  /** Contacts after which the request goes on to the next worker. */
  predicate GoesOn(r: Request, c: Contact) {
    Failed(c) || (IsCacheable(r) && IsOnPremAnswer(c.outcome.answer))
  }

  /** The contact that a reply comes from, if the reply is a worker's own. */
  predicate IsReplyOf(r: Request, reply: Reply, c: Contact) {
    && !GoesOn(r, c)
    && reply == if IsCacheable(r) && IsPlanUpgradeAnswer(c.outcome.answer) then PlanUpgrade(c.outcome.answer)
      else FromWorker(c.key.worker, c.outcome.answer)
  }

  /** The breaker after some contacts: a failure opens it, an answer closes it. */
  function BreakerAfter(breaker: map<BreakerKey, int>, contacts: seq<Contact>): map<BreakerKey, int> {
    if contacts == [] then breaker
    else
      var before, last := BreakerAfter(breaker, contacts[..|contacts| - 1]), contacts[|contacts| - 1];
      if Failed(last) then before[last.key := last.endedAt] else before - {last.key}
  }

  /** After these contacts the breaker of worker `i` is open at the time of its turn. */
  predicate WasOpen(r: Request, breaker: map<BreakerKey, int>, contacts: seq<Contact>, i: nat)
    requires r.Valid() && i < |r.workers|
  {
    !IsHealthy(BreakerAfter(breaker, contacts), BreakerKeyOf(r, r.workers[i]), r.attempts[i].checkedAt)
  }

  /** Worker `i` was contacted, or its breaker was open when its turn came, after `m` contacts. */
  predicate HadItsTurn(r: Request, breaker: map<BreakerKey, int>, contacts: seq<Contact>, i: nat)
    requires r.Valid() && i < |r.workers|
  {
    ContactOf(r, i) in contacts || exists m :: 0 <= m <= |contacts| && WasOpen(r, breaker, contacts[..m], i)
  }

  predicate AllHadTheirTurn(r: Request, breaker: map<BreakerKey, int>, contacts: seq<Contact>, n: nat)
    requires r.Valid() && n <= |r.workers|
  {
    forall i :: 0 <= i < n ==> HadItsTurn(r, breaker, contacts, i)
  }

  lemma TurnsAreKept(r: Request, breaker: map<BreakerKey, int>, contacts: seq<Contact>, c: Contact, n: nat)
    requires r.Valid() && n <= |r.workers| && AllHadTheirTurn(r, breaker, contacts, n)
    ensures AllHadTheirTurn(r, breaker, contacts + [c], n)
  {
    hide IsHealthy, BreakerAfter, ContactOf;
    var all := contacts + [c];
    forall i | 0 <= i < n ensures HadItsTurn(r, breaker, all, i) {
      assert HadItsTurn(r, breaker, contacts, i);
      if ContactOf(r, i) !in contacts {
        var m :| 0 <= m <= |contacts| && WasOpen(r, breaker, contacts[..m], i);
        assert all[..m] == contacts[..m];
      }
    }
  }

  /** One turn: contacted and on to the next worker, contacted and answered, or skipped with an open breaker. */
  lemma OneTurn(r: Request, p: Progress, i: nat)
    requires r.Valid() && i < |r.workers| && p.reply.None?
    ensures var q := Tried(r, p, i);
      if IsHealthy(p.breaker, BreakerKeyOf(r, r.workers[i]), r.attempts[i].checkedAt) then
        && q.contacts == p.contacts + [ContactOf(r, i)]
        && q.breaker == BreakerAfter(p.breaker, [ContactOf(r, i)])
        && (if q.reply.None? then GoesOn(r, ContactOf(r, i)) else IsReplyOf(r, q.reply.value, ContactOf(r, i)))
      else q.contacts == p.contacts && q.breaker == p.breaker && q.reply.None?
  {
    hide IsHealthy, IsOnPremAnswer, IsPlanUpgradeAnswer, IsCacheable;
    assert [ContactOf(r, i)][..0] == [];
  }

  /** How far a request has come: all workers before `n` had their turn, and only the last contact may reply. */
  predicate CameTo(r: Request, breaker: map<BreakerKey, int>, p: Progress, n: nat)
    requires r.Valid() && n <= |r.workers|
  {
    var last := |p.contacts| - 1;
    && p.breaker == BreakerAfter(breaker, p.contacts)
    && AllHadTheirTurn(r, breaker, p.contacts, n)
    && (if p.reply.None? then forall i :: 0 <= i < |p.contacts| ==> GoesOn(r, p.contacts[i])
        else
          && 0 < n && p.contacts != [] && p.contacts[last] == ContactOf(r, n - 1)
          && IsReplyOf(r, p.reply.value, p.contacts[last])
          && forall i :: 0 <= i < last ==> GoesOn(r, p.contacts[i]))
  }

  lemma OneTurnComesFurther(r: Request, breaker: map<BreakerKey, int>, p: Progress, n: nat)
    requires r.Valid() && n < |r.workers| && p.reply.None? && CameTo(r, breaker, p, n)
    ensures CameTo(r, breaker, Tried(r, p, n), n + 1)
  {
    hide Tried, IsHealthy, GoesOn, IsReplyOf, ContactOf, BreakerKeyOf;
    OneTurn(r, p, n);
    var q := Tried(r, p, n);
    if IsHealthy(p.breaker, BreakerKeyOf(r, r.workers[n]), r.attempts[n].checkedAt) {
      TurnsAreKept(r, breaker, p.contacts, ContactOf(r, n), n);
      assert q.contacts[..|p.contacts|] == p.contacts;
      assert [ContactOf(r, n)][..0] == [] && BreakerAfter(p.breaker, []) == p.breaker;
      assert q.contacts[|p.contacts|] == ContactOf(r, n);
    } else {
      assert p.contacts[..|p.contacts|] == p.contacts;
      assert WasOpen(r, breaker, p.contacts, n);
    }
  }

  /** The workers tried until there is a reply, or all of them. */
  lemma {:induction false} FirstUsableAnswerWins(r: Request, breaker: map<BreakerKey, int>, n: nat) returns (tried: nat)
    requires r.Valid() && n <= |r.workers|
    ensures tried <= n && (TriedFirst(r, breaker, n).reply.None? ==> tried == n)
    ensures CameTo(r, breaker, TriedFirst(r, breaker, n), tried)
  {
    hide CameTo, Contacted, IsHealthy;
    if n == 0 {
      tried := 0;
      NothingTried(r, breaker);
    } else {
      tried := FirstUsableAnswerWins(r, breaker, n - 1);
      if TriedFirst(r, breaker, n - 1).reply.None? {
        OneTurnComesFurther(r, breaker, TriedFirst(r, breaker, n - 1), n - 1);
        tried := n;
      }
    }
  }

  lemma NothingTried(r: Request, breaker: map<BreakerKey, int>)
    requires r.Valid()
    ensures CameTo(r, breaker, Start(breaker), 0)
  {
  }

  /**
   * A request not served from a cache gets the answer of the first worker that neither failed nor answered
   * on-prem, every worker before it having been contacted or found with an open breaker; only if that is so
   * of all workers does it get an on-prem answer or go to the origin.
   */
  lemma RepliesAreOfTheFirstUsableWorker(edge: Edge, r: Request) returns (tried: nat)
    requires r.Valid() && !IsServedFromCache(edge, r)
    ensures var h := Handled(edge, r);
      var last := |h.contacts| - 1;
      && tried <= |r.workers| && AllHadTheirTurn(r, edge.breaker, h.contacts, tried)
      && (if h.reply.OnPrem? || h.reply.FromOrigin?
          then tried == |r.workers| && forall i :: 0 <= i < |h.contacts| ==> GoesOn(r, h.contacts[i])
          else
            && 0 < tried && h.contacts != [] && h.contacts[last] == ContactOf(r, tried - 1)
            && IsReplyOf(r, h.reply, h.contacts[last])
            && forall i :: 0 <= i < last ==> GoesOn(r, h.contacts[i]))
  {
    hide Tried, IsHealthy, GoesOn, Stored, LastTime, AllHadTheirTurn, BreakerAfter, ContactOf;
    tried := FirstUsableAnswerWins(r, edge.breaker, |r.workers|);
    RepliesAreNotOnPrem(r, edge.breaker, |r.workers|);
  }

  // ---------- any sequence of requests ----------

  ghost predicate AllValid(requests: seq<Request>) {
    forall i :: 0 <= i < |requests| ==> requests[i].Valid()
  }

  function Run(edge: Edge, requests: seq<Request>): Edge
    requires AllValid(requests)
  {
    if requests == [] then edge
    else Handled(Run(edge, requests[..|requests| - 1]), requests[|requests| - 1]).edge
  }

  /** All contacts with workers, in order. */
  function Contacts(edge: Edge, requests: seq<Request>): seq<Contact>
    requires AllValid(requests)
  {
    if requests == [] then []
    else
      var init := requests[..|requests| - 1];
      Contacts(edge, init) + Handled(Run(edge, init), requests[|requests| - 1]).contacts
  }

  /** The `i`-th request found every worker of its list, and all of them answered on-prem. */
  ghost predicate StoredBy(requests: seq<Request>, i: nat, key: CacheKey, entry: Entry)
    requires AllValid(requests)
  {
    && i < |requests| && IsCacheable(requests[i]) && KeyOf(requests[i]) == key && requests[i].workers != []
    && var h := Handled(Run(EMPTY, requests[..i]), requests[i]);
       AllAgreed(requests[i], h.contacts, |requests[i].workers|) && h.reply == OnPrem(entry.answer)
  }

  /** Every cached on-prem answer was given, in one request, by every worker of the request's list. */
  lemma {:induction false} CachedOnPremIsUnanimous(requests: seq<Request>, key: CacheKey)
    requires AllValid(requests)
    requires key in Run(EMPTY, requests).onPrems
    ensures exists i: nat :: StoredBy(requests, i, key, Run(EMPTY, requests).onPrems[key])
  {
    hide Handled, AllAgreed, IsCacheable;
    var init, last := requests[..|requests| - 1], requests[|requests| - 1];
    var before := Run(EMPTY, init);
    LastRequestStores(before, last, key);
    if key in before.onPrems && Run(EMPTY, requests).onPrems[key] == before.onPrems[key] {
      CachedOnPremIsUnanimous(init, key);
      var i: nat :| StoredBy(init, i, key, before.onPrems[key]);
      assert requests[..i] == init[..i] && requests[i] == init[i];
      assert StoredBy(requests, i, key, before.onPrems[key]);
    } else {
      assert StoredBy(requests, |init|, key, Run(EMPTY, requests).onPrems[key]);
    }
  }

  lemma LastRequestStores(before: Edge, last: Request, key: CacheKey)
    requires last.Valid()
    ensures var h := Handled(before, last);
      key in h.edge.onPrems ==>
        || (key in before.onPrems && h.edge.onPrems[key] == before.onPrems[key])
        || (&& IsCacheable(last) && KeyOf(last) == key && last.workers != []
            && AllAgreed(last, h.contacts, |last.workers|) && h.reply == OnPrem(h.edge.onPrems[key].answer))
  {
    hide TriedFirst, AllAgreed, IsHit;
    if !IsServedFromCache(before, last) {
      OnPremMeansUnanimous(before, last);
    }
  }
}
