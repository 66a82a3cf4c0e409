/** The circuit breaker over any sequence of requests: a worker that failed is left alone for the reset time. */
module EdgeCircuitBreaker {
  import opened Common
  import opened EdgeFallback

  /** The clock never goes back within a request. */
  predicate IsTimely(r: Request)
    requires |r.attempts| == |r.workers|
  {
    && (forall i :: 0 <= i < |r.attempts| ==> r.receivedAt <= r.attempts[i].checkedAt <= r.attempts[i].endedAt)
    && (forall i :: 0 < i < |r.attempts| ==> r.attempts[i - 1].endedAt <= r.attempts[i].checkedAt)
  }

  /** Each request starts after the one before it has ended. */
  ghost predicate DoNotOverlap(requests: seq<Request>)
    requires AllValid(requests)
  {
    && (forall i :: 0 <= i < |requests| ==> IsTimely(requests[i]))
    && (forall i :: 0 < i < |requests| ==> EndOf(requests[i - 1]) <= requests[i].receivedAt)
  }

  /** A failed worker is contacted again only after the reset time. */
  predicate AreSpaced(log: seq<Contact>) {
    forall i, j :: 0 <= i < j < |log| && log[i].key == log[j].key && Failed(log[i]) ==>
      log[j].at >= log[i].endedAt + CIRCUIT_RESET_MS
  }

  /** The breaker still remembers every failure less than the reset time ago. */
  predicate Remembers(breaker: map<BreakerKey, int>, log: seq<Contact>, now: int) {
    forall i :: 0 <= i < |log| && Failed(log[i]) ==>
      || now >= log[i].endedAt + CIRCUIT_RESET_MS
      || (log[i].key in breaker && breaker[log[i].key] >= log[i].endedAt)
  }

  predicate Guarded(breaker: map<BreakerKey, int>, log: seq<Contact>, now: int) {
    AreSpaced(log) && Remembers(breaker, log, now)
  }

  lemma LaterIsGuarded(breaker: map<BreakerKey, int>, log: seq<Contact>, now: int, later: int)
    requires Guarded(breaker, log, now) && now <= later
    ensures Guarded(breaker, log, later)
  {
  }

  /** Contacting a healthy worker is late enough, and its failure is remembered. */
  lemma ContactIsGuarded(breaker: map<BreakerKey, int>, log: seq<Contact>, c: Contact)
    requires Guarded(breaker, log, c.at) && c.at <= c.endedAt && IsHealthy(breaker, c.key, c.at)
    ensures Guarded(if Failed(c) then breaker[c.key := c.endedAt] else breaker - {c.key}, log + [c], c.endedAt)
  {
    hide Failed;
    var all := log + [c];
    forall i | 0 <= i < |log| && Failed(log[i]) && log[i].key == c.key
      ensures c.at >= log[i].endedAt + CIRCUIT_RESET_MS
    {
    }
  }

  lemma TryIsGuarded(r: Request, p: Progress, log: seq<Contact>, i: nat)
    requires r.Valid() && i < |r.workers| && r.attempts[i].checkedAt <= r.attempts[i].endedAt
    requires Guarded(p.breaker, log + p.contacts, r.attempts[i].checkedAt)
    ensures var q := Tried(r, p, i);
      Guarded(q.breaker, log + q.contacts, r.attempts[i].endedAt)
  {
    hide Guarded, IsOnPremAnswer, IsPlanUpgradeAnswer, IsCacheable, IsHealthy;
    var worker, attempt := r.workers[i], r.attempts[i];
    var c := Contact(BreakerKeyOf(r, worker), attempt.checkedAt, attempt.outcome, attempt.endedAt);
    var q := Tried(r, p, i);
    if p.reply.None? && IsHealthy(p.breaker, c.key, c.at) {
      ContactIsGuarded(p.breaker, log + p.contacts, c);
      assert log + q.contacts == log + p.contacts + [c];
    } else {
      LaterIsGuarded(p.breaker, log + p.contacts, attempt.checkedAt, attempt.endedAt);
    }
  }

  lemma {:induction false} TriesAreGuarded(r: Request, breaker: map<BreakerKey, int>, log: seq<Contact>, n: nat)
    requires r.Valid() && IsTimely(r) && n <= |r.workers|
    requires Guarded(breaker, log, r.receivedAt)
    ensures var p := TriedFirst(r, breaker, n);
      Guarded(p.breaker, log + p.contacts, if n == 0 then r.receivedAt else r.attempts[n - 1].endedAt)
  {
    hide Guarded, Tried;
    if n == 0 {
      assert log + [] == log;
    } else {
      TriesAreGuarded(r, breaker, log, n - 1);
      var p := TriedFirst(r, breaker, n - 1);
      var now := if n == 1 then r.receivedAt else r.attempts[n - 2].endedAt;
      LaterIsGuarded(p.breaker, log + p.contacts, now, r.attempts[n - 1].checkedAt);
      TryIsGuarded(r, p, log, n - 1);
    }
  }

  lemma RequestIsGuarded(edge: Edge, r: Request, log: seq<Contact>)
    requires r.Valid() && IsTimely(r) && Guarded(edge.breaker, log, r.receivedAt)
    ensures var h := Handled(edge, r);
      Guarded(h.edge.breaker, log + h.contacts, EndOf(r))
  {
    hide Guarded, TriedFirst, IsUnanimous, Stored, IsServedFromCache, IsCacheable;
    if IsServedFromCache(edge, r) {
      assert log + [] == log;
      EndIsLater(r);
      LaterIsGuarded(edge.breaker, log, r.receivedAt, EndOf(r));
    } else {
      TriesAreGuarded(r, edge.breaker, log, |r.workers|);
    }
  }

  lemma {:induction false} EndIsLater(r: Request)
    requires r.Valid() && IsTimely(r)
    ensures r.receivedAt <= EndOf(r)
  {
    if r.attempts != [] {
      assert r.attempts[|r.attempts| - 1].checkedAt <= r.attempts[|r.attempts| - 1].endedAt;
    }
  }

  lemma {:induction false} RunIsGuarded(requests: seq<Request>, now: int)
    requires AllValid(requests) && DoNotOverlap(requests)
    requires requests != [] ==> EndOf(requests[|requests| - 1]) <= now
    ensures Guarded(Run(EMPTY, requests).breaker, Contacts(EMPTY, requests), now)
  {
    hide Handled, IsTimely, EndOf, Guarded;
    if requests == [] {
      NothingToRemember(now);
    } else {
      var init, last := requests[..|requests| - 1], requests[|requests| - 1];
      RunIsGuarded(init, last.receivedAt);
      RequestIsGuarded(Run(EMPTY, init), last, Contacts(EMPTY, init));
      LaterIsGuarded(Run(EMPTY, requests).breaker, Contacts(EMPTY, requests), EndOf(last), now);
    }
  }

  lemma NothingToRemember(now: int)
    ensures Guarded(EMPTY.breaker, [], now)
  {
  }

  function Latest(requests: seq<Request>): int
    requires AllValid(requests)
  {
    if requests == [] then 0 else EndOf(requests[|requests| - 1])
  }

  /**
   * Over any requests that do not overlap, of any hosts and workers, a worker that failed at some time for
   * a host is not contacted for that host again before five minutes have passed.
   */
  lemma FailedWorkersAreLeftAlone(requests: seq<Request>)
    requires AllValid(requests) && DoNotOverlap(requests)
    ensures AreSpaced(Contacts(EMPTY, requests))
  {
    hide Contacts, Run, Remembers, AreSpaced, DoNotOverlap;
    RunIsGuarded(requests, Latest(requests));
  }

  /** Within the reset time a failed worker is contacted again only for another host or data centre. */
  lemma ContactedAgainOnlyElsewhere(requests: seq<Request>, i: nat, j: nat)
    requires AllValid(requests) && DoNotOverlap(requests)
    requires i < j < |Contacts(EMPTY, requests)|
    ensures var first, second := Contacts(EMPTY, requests)[i], Contacts(EMPTY, requests)[j];
      Failed(first) && second.key.worker == first.key.worker && second.at < first.endedAt + CIRCUIT_RESET_MS
      ==> second.key.hostname != first.key.hostname || second.key.colo != first.key.colo
  {
    hide Contacts, DoNotOverlap;
    FailedWorkersAreLeftAlone(requests);
  }

  // ---------- when a worker is skipped ----------

  /** The last contact under a key. */
  function LastUnder(log: seq<Contact>, key: BreakerKey): Option<Contact> {
    if log == [] then None
    else if log[|log| - 1].key == key then Some(log[|log| - 1])
    else LastUnder(log[..|log| - 1], key)
  }

  /** The last contact under the key failed less than the reset time ago. */
  predicate HasJustFailed(log: seq<Contact>, key: BreakerKey, now: int) {
    var last := LastUnder(log, key);
    last.Some? && Failed(last.value) && now - last.value.endedAt < CIRCUIT_RESET_MS
  }

  lemma {:induction false} BreakerIsOfTheLog(log: seq<Contact>, key: BreakerKey)
    ensures var breaker, last := BreakerAfter(map[], log), LastUnder(log, key);
      if last.Some? && Failed(last.value)
      then key in breaker && breaker[key] == last.value.endedAt
      else key !in breaker
  {
    hide Failed;
    if log != [] { BreakerIsOfTheLog(log[..|log| - 1], key); }
  }

  lemma {:induction false} BreakerAfterBoth(breaker: map<BreakerKey, int>, first: seq<Contact>, second: seq<Contact>)
    ensures BreakerAfter(breaker, first + second) == BreakerAfter(BreakerAfter(breaker, first), second)
  {
    hide Failed;
    if second == [] {
      assert first + second == first;
    } else {
      assert (first + second)[..|first + second| - 1] == first + second[..|second| - 1];
      BreakerAfterBoth(breaker, first, second[..|second| - 1]);
    }
  }

  lemma TriesLeaveTheLog(r: Request, breaker: map<BreakerKey, int>, n: nat)
    requires r.Valid() && n <= |r.workers|
    ensures TriedFirst(r, breaker, n).breaker == BreakerAfter(breaker, TriedFirst(r, breaker, n).contacts)
  {
    hide TriedFirst, AllHadTheirTurn, GoesOn, IsReplyOf, ContactOf;
    var tried := FirstUsableAnswerWins(r, breaker, n);
  }

  lemma {:induction false} RunLeavesTheLog(requests: seq<Request>)
    requires AllValid(requests)
    ensures Run(EMPTY, requests).breaker == BreakerAfter(map[], Contacts(EMPTY, requests))
  {
    hide TriedFirst, IsUnanimous, Stored, IsServedFromCache, IsCacheable, CachedAnswer, BreakerAfter;
    if requests == [] {
      NothingIsLeft();
    } else {
      var init, last := requests[..|requests| - 1], requests[|requests| - 1];
      RunLeavesTheLog(init);
      var edge := Run(EMPTY, init);
      TriesLeaveTheLog(last, edge.breaker, |last.workers|);
      BreakerAfterBoth(map[], Contacts(EMPTY, init), Handled(edge, last).contacts);
      NothingChanges(edge.breaker);
    }
  }

  lemma NothingIsLeft()
    ensures EMPTY.breaker == BreakerAfter(map[], [])
  {
  }

  lemma NothingChanges(breaker: map<BreakerKey, int>)
    ensures BreakerAfter(breaker, []) == breaker
  {
  }

  /** The turn of worker `i` comes: the caches have no answer, and no worker before it has replied. */
  predicate IsItsTurn(edge: Edge, r: Request, i: nat)
    requires r.Valid() && i < |r.workers|
  {
    !IsServedFromCache(edge, r) && TriedFirst(r, edge.breaker, i).reply.None?
  }

  /**
   * After any requests, a worker whose turn comes is skipped exactly when the last contact under its own
   * key, by an earlier request or this one, failed less than the reset time before; otherwise it is contacted.
   */
  lemma SkippedExactlyWhen(requests: seq<Request>, r: Request, i: nat)
    requires AllValid(requests) && r.Valid() && i < |r.workers| && IsItsTurn(Run(EMPTY, requests), r, i)
    ensures var breaker := Run(EMPTY, requests).breaker;
      var before, after := TriedFirst(r, breaker, i).contacts, TriedFirst(r, breaker, i + 1).contacts;
      var log, key := Contacts(EMPTY, requests) + before, BreakerKeyOf(r, r.workers[i]);
      after == if HasJustFailed(log, key, r.attempts[i].checkedAt) then before else before + [ContactOf(r, i)]
  {
    hide Run, Contacts, BreakerAfter, IsServedFromCache, LastUnder, Failed, ContactOf, GoesOn, IsReplyOf;
    var breaker := Run(EMPTY, requests).breaker;
    var p := TriedFirst(r, breaker, i);
    OneTurnOf(r, p, i);
    RunLeavesTheLog(requests);
    TriesLeaveTheLog(r, breaker, i);
    BreakerAfterBoth(map[], Contacts(EMPTY, requests), p.contacts);
    BreakerIsOfTheLog(Contacts(EMPTY, requests) + p.contacts, BreakerKeyOf(r, r.workers[i]));
  }

  lemma OneTurnOf(r: Request, p: Progress, i: nat)
    requires r.Valid() && i < |r.workers| && p.reply.None?
    ensures Tried(r, p, i).contacts
         == if IsHealthy(p.breaker, BreakerKeyOf(r, r.workers[i]), r.attempts[i].checkedAt)
            then p.contacts + [ContactOf(r, i)] else p.contacts
  {
    hide IsHealthy;
    OneTurn(r, p, i);
  }

  function OneWorkerRequest(hostname: string, at: int): Request {
    Request(hostname, "CDG", None, None, "GET", at, ["eu"], [Attempt(at, Threw, at)])
  }

  lemma FreshHostIsContacted(edge: Edge, hostname: string, at: int)
    requires BreakerKey(hostname, "CDG", "eu") !in edge.breaker
    ensures var h := Handled(edge, OneWorkerRequest(hostname, at));
      && h.contacts == [Contact(BreakerKey(hostname, "CDG", "eu"), at, Threw, at)]
      && h.edge.breaker == edge.breaker[BreakerKey(hostname, "CDG", "eu") := at]
  {
    var r := OneWorkerRequest(hostname, at);
    assert TriedFirst(r, edge.breaker, 1) == Tried(r, TriedFirst(r, edge.breaker, 0), 0);
  }

  /** The breaker is kept per host: a worker that failed for one host is contacted at once for another. */
  lemma OtherHostsDoNotKnow()
    ensures var requests := [OneWorkerRequest("a", 0), OneWorkerRequest("b", 1)];
      && AllValid(requests) && DoNotOverlap(requests)
      && var log := Contacts(EMPTY, requests);
         |log| == 2 && log[0].key.worker == log[1].key.worker && Failed(log[0]) && log[1].at == log[0].endedAt + 1
  {
    hide Handled;
    var a, b := OneWorkerRequest("a", 0), OneWorkerRequest("b", 1);
    var requests := [a, b];
    assert requests[..1] == [a] && [a][..0] == [];
    assert Run(EMPTY, []) == EMPTY && Contacts(EMPTY, []) == [];
    FreshHostIsContacted(EMPTY, "a", 0);
    assert Run(EMPTY, [a]) == Handled(EMPTY, a).edge && Contacts(EMPTY, [a]) == Handled(EMPTY, a).contacts;
    FreshHostIsContacted(Run(EMPTY, [a]), "b", 1);
    assert Contacts(EMPTY, requests) == Contacts(EMPTY, [a]) + Handled(Run(EMPTY, [a]), b).contacts;
  }
}
