/** How a claim is taken away before its lease is over: every threat to it is a real one. */
module TranslationTakeovers {
  import opened Common
  import opened Batching
  import opened TranslationStore
  import opened TranslationMachine
  import opened TranslationSafety
  import opened TranslationTrace
  import opened TranslationSteps
  import opened TranslationRecovery
  import opened TranslationClaims

  predicate NoneBy(w: nat, actions: seq<Action>) {
    forall i :: 0 <= i < |actions| ==> !IsBy(w, actions[i])
  }

  /** In less than `seconds`, and without `w` doing anything, another worker comes to translate the batch. */
  ghost predicate TakesAway(catalogs: Catalogs, s: State, w: nat, key: Key, k: nat, seconds: nat,
                            actions: seq<Action>) {
    && NoneBy(w, actions)
    && var t := Run(catalogs, s, actions);
       t.now < s.now + seconds && !NoOtherTranslates(t, w, key, k)
  }

  lemma TakingAwayRefutes(catalogs: Catalogs, s: State, w: nat, key: Key, k: nat, actions: seq<Action>)
    requires w in s.workers && IsTranslating(s.workers[w], key, k)
    requires TakesAway(catalogs, s, w, key, k, BATCH_LEASE_SECONDS, actions)
    ensures !KeepsOthersOut(catalogs, s, w, key, k)
  {
    hide Run, NoOtherTranslates;
    forall n | 0 <= n <= |actions|
      ensures var t := Run(catalogs, s, actions[..n]);
        w in t.workers ==> !IsAbandoning(t.workers[w], key, k)
    {
      OthersRunLeavesWorker(catalogs, s, w, actions[..n]);
    }
    assert IsWithinLease(catalogs, s, w, key, k, actions);
  }

  /** A first action that leaves `w` alone, and what takes the claim away after it. */
  lemma FirstThenTakesAway(catalogs: Catalogs, s: State, w: nat, key: Key, k: nat, first: Action, seconds: nat,
                           rest: seq<Action>)
    requires !IsBy(w, first) && seconds < BATCH_LEASE_SECONDS
    requires var t := Apply(catalogs, s, first);
      t.now <= s.now + seconds && TakesAway(catalogs, t, w, key, k, BATCH_LEASE_SECONDS - seconds, rest)
    ensures TakesAway(catalogs, s, w, key, k, BATCH_LEASE_SECONDS, [first] + rest)
  {
    hide Apply, Run, NoOtherTranslates;
    RunFirstAction(catalogs, s, first, rest);
  }

  lemma LessTimeIsEnough(catalogs: Catalogs, s: State, w: nat, key: Key, k: nat, seconds: nat, more: nat,
                         actions: seq<Action>)
    requires seconds <= more && TakesAway(catalogs, s, w, key, k, seconds, actions)
    ensures TakesAway(catalogs, s, w, key, k, more, actions)
  {
  }

  // ---------- a worker that is about to release the claim ----------

  lemma ReleaserReleases(catalogs: Catalogs, s: State, v: nat, key: Key, model: string, k: nat, messages: Messages)
    requires v in s.workers && s.workers[v] == JobReleasing(key, model, k, messages)
    requires IsReleasable(s.rows, key, k) && k < |BatchesOf(catalogs, key)|
    ensures var t := Apply(catalogs, s, Advance(v, Succeed));
      && v in t.workers && t.workers[v] == JobClaiming(key, model, k, messages)
      && t.now == s.now && IsClaimable(t.rows, t.now, key, k)
  {
    hide BatchesOf;
  }

  lemma ClaimerTranslates(catalogs: Catalogs, s: State, v: nat, key: Key, model: string, k: nat, messages: Messages)
    requires v in s.workers && s.workers[v] == JobClaiming(key, model, k, messages)
    requires IsClaimable(s.rows, s.now, key, k)
    ensures var t := Apply(catalogs, s, Advance(v, Succeed));
      && v in t.workers && t.workers[v] == JobTranslating(key, model, k, messages) && t.now == s.now
      && JustClaimed(t, v, key, k)
  {
  }

  /** The claim is released and taken at once. */
  lemma ReleaserTakesAway(catalogs: Catalogs, s: State, w: nat, v: nat, key: Key, k: nat) returns (actions: seq<Action>)
    requires v in s.workers && v != w && s.workers[v].JobReleasing? && s.workers[v].key == key
    requires s.workers[v].batchIndex == k
    requires IsReleasable(s.rows, key, k) && k < |BatchesOf(catalogs, key)|
    ensures TakesAway(catalogs, s, w, key, k, 1, actions)
  {
    hide Run, Apply, BatchesOf, IsReleasable, IsClaimable, JustClaimed;
    var worker := s.workers[v];
    var step := Advance(v, Succeed);
    ReleaserReleases(catalogs, s, v, key, worker.model, k, worker.messages);
    var s1 := Apply(catalogs, s, step);
    ClaimerTranslates(catalogs, s1, v, key, worker.model, k, worker.messages);
    RunFirstAction(catalogs, s, step, [step]);
    RunOneAction(catalogs, s1, step);
    actions := [step] + [step];
  }

  // ---------- a worker that has read an earlier claim ----------

  lemma ReaderReleases(catalogs: Catalogs, s: State, v: nat, key: Key, k: nat)
    requires v in s.workers && s.workers[v].JobRead? && s.workers[v].key == key && s.workers[v].batchIndex == k
    requires ClaimedBatchIndex(s.workers[v].entry.nextBatchIndex) == Some(k)
    requires IsLeaseExpired(s.workers[v].entry, s.now)
    ensures var t := Apply(catalogs, s, Advance(v, Succeed));
      && v in t.workers && t.workers[v].JobReleasing? && t.workers[v].key == key && t.workers[v].batchIndex == k
      && t.now == s.now && t.rows == s.rows
  {
    hide BatchesOf;
  }

  /** The worker waits until the claim it has read is out of its lease, which is before the new one is. */
  lemma ReaderTakesAway(catalogs: Catalogs, s: State, w: nat, v: nat, key: Key, k: nat) returns (actions: seq<Action>)
    requires v in s.workers && v != w && s.workers[v].JobRead? && s.workers[v].key == key
    requires s.workers[v].batchIndex == k
    requires s.workers[v].entry.status.Pending? && s.workers[v].entry.updatedAt < s.now
    requires ClaimedBatchIndex(s.workers[v].entry.nextBatchIndex) == Some(k)
    requires IsReleasable(s.rows, key, k) && k < |BatchesOf(catalogs, key)|
    ensures TakesAway(catalogs, s, w, key, k, BATCH_LEASE_SECONDS, actions)
  {
    hide BatchesOf, IsReleasable, AdvanceJob, AdvanceRequest, TakesAway;
    var entry := s.workers[v].entry;
    var wait := if IsLeaseExpired(entry, s.now) then 0 else entry.updatedAt + BATCH_LEASE_SECONDS - s.now;
    var s1 := Apply(catalogs, s, Tick(wait));
    ReaderReleases(catalogs, s1, v, key, k);
    var s2 := Apply(catalogs, s1, Advance(v, Succeed));
    var rest := ReleaserTakesAway(catalogs, s2, w, v, key, k);
    RestTakesAway(catalogs, s1, w, v, key, k, BATCH_LEASE_SECONDS - wait, rest);
    FirstThenTakesAway(catalogs, s, w, key, k, Tick(wait), wait, [Advance(v, Succeed)] + rest);
    actions := [Tick(wait)] + ([Advance(v, Succeed)] + rest);
  }

  lemma RestTakesAway(catalogs: Catalogs, s: State, w: nat, v: nat, key: Key, k: nat, seconds: nat, rest: seq<Action>)
    requires v != w && seconds >= 1
    requires var t := Apply(catalogs, s, Advance(v, Succeed));
      t.now == s.now && TakesAway(catalogs, t, w, key, k, 1, rest)
    ensures TakesAway(catalogs, s, w, key, k, seconds, [Advance(v, Succeed)] + rest)
  {
    hide Apply, Run, NoOtherTranslates;
    RunFirstAction(catalogs, s, Advance(v, Succeed), rest);
  }

  // ---------- a row that anyone may claim ----------

  /** A new worker can get to batch `k` of the row. */
  predicate IsOpen(s: State, key: Key, k: nat) {
    && Live(s.rows, s.now, key) && s.rows[key].status.Pending?
    && BatchIndexFromStore(s.rows[key].nextBatchIndex) == k
    && (ClaimedBatchIndex(s.rows[key].nextBatchIndex).Some? ==> s.now - s.rows[key].updatedAt >= BATCH_LEASE_SECONDS)
  }

  lemma OpenRowIsDeliverable(catalogs: Catalogs, s: State, key: Key, k: nat)
    requires IsOpen(s, key, k)
    ensures var t := Apply(catalogs, Apply(catalogs, s, Evict(key)), Inject(QueueMessage(key, "", k)));
      && Deliverable(t, key, k) && QueueMessage(key, "", k) in t.sent
      && t.workers == s.workers && t.now == s.now
  {
  }

  lemma DeliveryClaims(catalogs: Catalogs, s: State, u: nat, key: Key, k: nat) returns (actions: seq<Action>)
    requires Deliverable(s, key, k) && QueueMessage(key, "", k) in s.sent && u !in s.workers
    requires key.language in ALLOWED_LANGUAGES && k < |BatchesOf(catalogs, key)|
    ensures Ordinary(u, actions)
    ensures var t := Run(catalogs, s, actions);
      t.now == s.now && u in t.workers && IsTranslating(t.workers[u], key, k)
  {
    hide Run, Apply, BatchesOf, Steps, ReadyToClaim, Deliverable, Claimed, IsClaimable;
    var outcome := Answers([]);
    SnapshotIsThere(s, key, k);
    var messages := s.rows[key].messages;
    var s0 := Goto(s, u, JobStarted(key, "", k));
    var n := JobGetsToTheBatch(catalogs, s, u, key, "", k, outcome);
    ReadyRowIsClaimable(s, u, key, k);
    ReadyKeepsWorkers(s, u, key, k);
    OneMoreStep(catalogs, s0, u, outcome, n);
    JobClaims(catalogs, ReadyToClaim(s, u, key, k), u, key, "", k, messages, outcome);
    RunDelivery(catalogs, s, u, QueueMessage(key, "", k), Steps(u, outcome, n + 1));
    StepsAreOrdinary(u, outcome, n + 1);
    actions := [Deliver(u, QueueMessage(key, "", k), key.checksum)] + Steps(u, outcome, n + 1);
  }

  lemma OrdinaryIsNotByOthers(u: nat, w: nat, actions: seq<Action>)
    requires u != w && Ordinary(u, actions)
    ensures NoneBy(w, actions)
  {
  }

  /** An open row is claimed at once. */
  lemma AnyoneTakesAway(catalogs: Catalogs, s: State, w: nat, key: Key, k: nat) returns (actions: seq<Action>)
    requires w in s.workers && IsOpen(s, key, k) && key.language in ALLOWED_LANGUAGES && k < |BatchesOf(catalogs, key)|
    ensures TakesAway(catalogs, s, w, key, k, 1, actions)
  {
    hide Run, Apply, BatchesOf, Deliverable, IsOpen, IsTranslating;
    OpenRowIsDeliverable(catalogs, s, key, k);
    var evict, inject := Evict(key), Inject(QueueMessage(key, "", k));
    var s1 := Apply(catalogs, s, evict);
    var s2 := Apply(catalogs, s1, inject);
    var u := SomeWorkerIsFree(s.workers);
    var rest := DeliveryClaims(catalogs, s2, u, key, k);
    OrdinaryIsNotByOthers(u, w, rest);
    RunFirstAction(catalogs, s1, inject, rest);
    RunFirstAction(catalogs, s, evict, [inject] + rest);
    actions := [evict] + ([inject] + rest);
  }

  lemma AbandonerTakesAway(catalogs: Catalogs, s: State, w: nat, v: nat, key: Key, k: nat)
    returns (actions: seq<Action>)
    requires v in s.workers && v != w && IsAbandoning(s.workers[v], key, k) && w in s.workers
    requires IsReleasable(s.rows, key, k) && k < |BatchesOf(catalogs, key)| && k < CLAIM_OFFSET
    requires key.language in ALLOWED_LANGUAGES
    ensures TakesAway(catalogs, s, w, key, k, 1, actions)
  {
    hide Apply, BatchesOf, IsReleasable, TakesAway, IsOpen;
    AbandonedRowIsOpen(catalogs, s, w, v, key, k);
    var rest := AnyoneTakesAway(catalogs, Apply(catalogs, s, Advance(v, Succeed)), w, key, k);
    RestTakesAway(catalogs, s, w, v, key, k, 1, rest);
    actions := [Advance(v, Succeed)] + rest;
  }

  lemma AbandonedRowIsOpen(catalogs: Catalogs, s: State, w: nat, v: nat, key: Key, k: nat)
    requires v in s.workers && v != w && IsAbandoning(s.workers[v], key, k) && w in s.workers
    requires IsReleasable(s.rows, key, k) && k < CLAIM_OFFSET
    ensures var t := Apply(catalogs, s, Advance(v, Succeed));
      IsOpen(t, key, k) && w in t.workers && t.now == s.now
  {
  }

  // ---------- a request that may delete the row ----------

  /** When a row has been deleted, another request and its deliveries soon get to the same batch. */
  lemma DeletedRowIsInsertedAgain(catalogs: Catalogs, s: State, u: nat, key: Key, k: nat) returns (actions: seq<Action>)
    requires Manageable(catalogs) && RowsOk(catalogs, s.now - CACHE_TTL_SECONDS, s.rows) && s.cache == s.cache - {key}
    requires key !in s.rows && u !in s.workers && key.language in ALLOWED_LANGUAGES && k < |BatchesOf(catalogs, key)|
    ensures Ordinary(u, actions)
    ensures var t := Run(catalogs, s, actions);
      t.now == s.now && t.workers == s.workers && Deliverable(t, key, k)
  {
    hide Run, Apply, BatchesOf, Steps, WithNewRow, Deliverable, IsQueued, IsLatestReady, Live;
    var newest := SomeAnswerIsLatest(s.rows, s.now, key.language);
    NothingIsFresh(catalogs, s, key, newest);
    RequestStartsRow(catalogs, s, u, key, "", newest);
    var request := [Request(u, key, "")] + Steps(u, Latest(newest), 6);
    StepsAreOrdinary(u, Latest(newest), 6);
    var s1 := Run(catalogs, s, request);
    NewRowIsQueued(s, key, "", LatestOf(s, newest));
    var rest := BatchesAreStoredUpTo(catalogs, s1, u, key, 0, k);
    RunConcat(catalogs, s, request, rest);
    actions := request + rest;
  }

  lemma NothingIsFresh(catalogs: Catalogs, s: State, key: Key, newest: Option<Key>)
    requires RowsOk(catalogs, s.now - CACHE_TTL_SECONDS, s.rows) && key !in s.rows && s.cache == s.cache - {key}
    requires IsLatestReady(s.rows, s.now, key.language, newest)
    ensures IsNothingFresh(s, newest) && !Live(s.rows, s.now, key) && !CacheHit(s, key)
  {
    hide ContentOk;
    assert key !in s.cache - {key};
    if newest.Some? {
      assert RowOk(catalogs, s.now - CACHE_TTL_SECONDS, newest.value, s.rows[newest.value]);
    }
  }

  lemma NewRowIsQueued(s: State, key: Key, model: string, latest: Option<Snapshot>)
    requires !Live(s.rows, s.now, key) && !CacheHit(s, key)
    ensures var t := AnsweredPending(WithNewRow(s, key, model), key, latest);
      Deliverable(t, key, 0) && IsQueued(t, key, 0) && t.workers == s.workers && t.now == s.now
  {
    assert QueueMessage(key, model, 0) in WithNewRow(s, key, model).sent;
  }

  lemma UndoingDeletes(catalogs: Catalogs, s: State, w: nat, v: nat, key: Key)
    requires v in s.workers && v != w && w in s.workers
    requires s.workers[v].RequestUndoing? && s.workers[v].key == key
    ensures var t := Apply(catalogs, s, Advance(v, Succeed));
      && t.now == s.now && w in t.workers && t.rows == s.rows - {key}
  {
    hide AdvanceJob, PayloadOf;
  }

  lemma UndoneRowIsGone(catalogs: Catalogs, s: State, w: nat, v: nat, key: Key)
    requires Safe(catalogs, s) && v in s.workers && v != w && w in s.workers
    requires s.workers[v].RequestUndoing? && s.workers[v].key == key
    ensures var s1 := Apply(catalogs, s, Advance(v, Succeed));
      var t := Apply(catalogs, Apply(catalogs, s1, Evict(key)), Tick(CACHE_TTL_SECONDS));
      && s1.now == s.now && t.now == s.now + CACHE_TTL_SECONDS && w in t.workers
      && key !in t.rows && RowsOk(catalogs, t.now - CACHE_TTL_SECONDS, t.rows) && t.cache == t.cache - {key}
  {
    hide RowOk, AdvanceRequest, AdvanceJob;
    UndoingDeletes(catalogs, s, w, v, key);
  }

  /** The row is deleted, and inserted and brought to the same batch again five minutes later. */
  lemma UndoerTakesAway(catalogs: Catalogs, s: State, w: nat, v: nat, key: Key, k: nat) returns (actions: seq<Action>)
    requires Manageable(catalogs) && Safe(catalogs, s) && v in s.workers && v != w && w in s.workers
    requires s.workers[v].RequestUndoing? && s.workers[v].key == key
    requires key.language in ALLOWED_LANGUAGES && k < |BatchesOf(catalogs, key)|
    ensures TakesAway(catalogs, s, w, key, k, CACHE_TTL_SECONDS + 1, actions)
  {
    hide Run, Apply, BatchesOf, Safe, RowsOk, Deliverable, IsOpen, NoOtherTranslates;
    var undo, evict, wait := Advance(v, Succeed), Evict(key), Tick(CACHE_TTL_SECONDS);
    UndoneRowIsGone(catalogs, s, w, v, key);
    var s1 := Apply(catalogs, s, undo);
    var s2 := Apply(catalogs, s1, evict);
    var s3 := Apply(catalogs, s2, wait);
    var u := SomeWorkerIsFree(s3.workers);
    var again := DeletedRowIsInsertedAgain(catalogs, s3, u, key, k);
    OrdinaryIsNotByOthers(u, w, again);
    var s4 := Run(catalogs, s3, again);
    DeliverableRowIsOpen(s4, key, k);
    var rest := AnyoneTakesAway(catalogs, s4, w, key, k);
    RunConcat(catalogs, s3, again, rest);
    RunFirstAction(catalogs, s2, wait, again + rest);
    RunFirstAction(catalogs, s1, evict, [wait] + (again + rest));
    RunFirstAction(catalogs, s, undo, [evict] + ([wait] + (again + rest)));
    actions := [undo] + ([evict] + ([wait] + (again + rest)));
  }

  lemma DeliverableRowIsOpen(s: State, key: Key, k: nat)
    requires Deliverable(s, key, k)
    ensures IsOpen(s, key, k)
  {
  }

  lemma RefusedRequestUndoes(catalogs: Catalogs, s: State, w: nat, v: nat, key: Key)
    requires v in s.workers && v != w && w in s.workers
    requires s.workers[v].RequestInserted? && s.workers[v].key == key
    ensures var t := Apply(catalogs, s, Advance(v, Fault));
      && v in t.workers && t.workers[v].RequestUndoing? && t.workers[v].key == key
      && w in t.workers && t.now == s.now
  {
  }

  /** The queue refuses the first message, so the row is deleted. */
  lemma InserterTakesAway(catalogs: Catalogs, s: State, w: nat, v: nat, key: Key, k: nat) returns (actions: seq<Action>)
    requires Manageable(catalogs) && Safe(catalogs, s) && v in s.workers && v != w && w in s.workers
    requires s.workers[v].RequestInserted? && s.workers[v].key == key
    requires key.language in ALLOWED_LANGUAGES && k < |BatchesOf(catalogs, key)|
    ensures TakesAway(catalogs, s, w, key, k, BATCH_LEASE_SECONDS, actions)
  {
    hide Apply, BatchesOf, Safe, TakesAway;
    var refuse := Advance(v, Fault);
    RefusedRequestUndoes(catalogs, s, w, v, key);
    ActionKeepsSafe(catalogs, s, refuse);
    var s1 := Apply(catalogs, s, refuse);
    var rest := UndoerTakesAway(catalogs, s1, w, v, key, k);
    LessTimeIsEnough(catalogs, s1, w, key, k, CACHE_TTL_SECONDS + 1, BATCH_LEASE_SECONDS, rest);
    FirstThenTakesAway(catalogs, s, w, key, k, refuse, 0, rest);
    actions := [refuse] + rest;
  }

  // ---------- the theorem ----------

  lemma NothingTakesAway(catalogs: Catalogs, s: State, w: nat, v: nat, key: Key, k: nat)
    requires v in s.workers && v != w && IsTranslating(s.workers[v], key, k)
    ensures TakesAway(catalogs, s, w, key, k, 1, [])
  {
  }

  /** Whoever threatens a new claim can take it away before its lease is over. */
  lemma ThreatIsReal(catalogs: Catalogs, s: State, w: nat, v: nat, key: Key, k: nat) returns (actions: seq<Action>)
    requires Manageable(catalogs) && Safe(catalogs, s) && JustClaimed(s, w, key, k)
    requires v in s.workers && v != w && Threatens(s.workers[v], key, k, s.now)
    ensures TakesAway(catalogs, s, w, key, k, BATCH_LEASE_SECONDS, actions)
  {
    hide Safe, BatchesOf, TakesAway, IsReleasable, ClaimedBatchIndex;
    ClaimantKnowsBatch(catalogs, s, w, key, k);
    var worker := s.workers[v];
    var seconds := 1;
    if worker.JobTranslating? {
      actions := [];
      NothingTakesAway(catalogs, s, w, v, key, k);
    } else if worker.JobAbandoning? {
      actions := AbandonerTakesAway(catalogs, s, w, v, key, k);
    } else if worker.JobReleasing? {
      actions := ReleaserTakesAway(catalogs, s, w, v, key, k);
    } else if worker.RequestUndoing? {
      actions := UndoerTakesAway(catalogs, s, w, v, key, k);
      seconds := CACHE_TTL_SECONDS + 1;
    } else if worker.RequestInserted? {
      actions := InserterTakesAway(catalogs, s, w, v, key, k);
      seconds := BATCH_LEASE_SECONDS;
    } else {
      ReadersKnowPendingRows(catalogs, s, v);
      actions := ReaderTakesAway(catalogs, s, w, v, key, k);
      seconds := BATCH_LEASE_SECONDS;
    }
    LessTimeIsEnough(catalogs, s, w, key, k, seconds, BATCH_LEASE_SECONDS, actions);
  }

  lemma ClaimantKnowsBatch(catalogs: Catalogs, s: State, w: nat, key: Key, k: nat)
    requires Manageable(catalogs) && Safe(catalogs, s) && JustClaimed(s, w, key, k)
    ensures k < |BatchesOf(catalogs, key)| && k < CLAIM_OFFSET && key.language in ALLOWED_LANGUAGES
    ensures Guarded(s.rows, key, k, s.now)
  {
    hide TranslatesUpTo, Batches, ContentOk;
    assert WorkerOk(catalogs, s.workers[w]);
    NextIndexIsUnclaimed(catalogs, key, k);
    assert RowOk(catalogs, s.now, key, s.rows[key]);
  }

  lemma ReadersKnowPendingRows(catalogs: Catalogs, s: State, v: nat)
    requires Safe(catalogs, s) && v in s.workers && s.workers[v].JobRead?
    ensures s.workers[v].entry.status.Pending?
  {
    hide SnapshotOk;
    assert WorkerOk(catalogs, s.workers[v]);
  }

  /**
   * A claim keeps every other worker from translating the batch until its lease of 15 minutes is over, or
   * it is given back, exactly when at the time of the claim no other worker translates the batch, is about
   * to release a claim on it, has read an earlier claim on it, or has inserted the row and may delete it.
   */
  lemma ClaimKeepsOthersOutExactlyWhen(catalogs: Catalogs, run: seq<Action>, w: nat, key: Key, k: nat)
    requires Manageable(catalogs) && JustClaimed(Run(catalogs, INITIAL, run), w, key, k)
    ensures var s := Run(catalogs, INITIAL, run);
      KeepsOthersOut(catalogs, s, w, key, k) <==> NobodyThreatens(s, w, key, k, s.now)
  {
    hide Run, Safe, BatchesOf, Threatens, Guarded, IsReleasable;
    var s := Run(catalogs, INITIAL, run);
    EveryRunIsSafe(catalogs, run);
    ClaimantKnowsBatch(catalogs, s, w, key, k);
    if NobodyThreatens(s, w, key, k, s.now) {
      forall actions | IsWithinLease(catalogs, s, w, key, k, actions)
        ensures NoOtherTranslates(Run(catalogs, s, actions), w, key, k)
      {
        ClaimIsKept(catalogs, s, w, key, k, actions);
        KeptMeansAlone(Run(catalogs, s, actions), w, key, k, s.now);
      }
    } else {
      var v :| v in s.workers && v != w && Threatens(s.workers[v], key, k, s.now);
      var actions := ThreatIsReal(catalogs, s, w, v, key, k);
      TakingAwayRefutes(catalogs, s, w, key, k, actions);
    }
  }

  lemma KeptMeansAlone(s: State, w: nat, key: Key, k: nat, claimedAt: int)
    requires Kept(s, w, key, k, claimedAt)
    ensures NoOtherTranslates(s, w, key, k)
  {
    hide Guarded;
  }

  // ---------- a claim made this very second ----------

  /** The row of a first request, claimed by worker 3, and 15 minutes later about to be released by 1 and 2. */
  lemma TwoWorkersGetToRelease(catalogs: Catalogs, key: Key, model: string) returns (run: seq<Action>)
    requires key.language in ALLOWED_LANGUAGES && BatchesOf(catalogs, key) != []
    ensures var s := Run(catalogs, INITIAL, run);
      && IsReleasable(s.rows, key, 0)
      && 1 in s.workers && s.workers[1] == JobReleasing(key, model, 0, map[])
      && 2 in s.workers && s.workers[2] == JobReleasing(key, model, 0, map[])
  {
    hide Run, Apply, Steps, BatchesOf, WithNewRow, Deliverable;
    NothingIsReadyAtFirst(key);
    RequestStartsRow(catalogs, INITIAL, 0, key, model, None);
    var request := [Request(0, key, model)] + Steps(0, Latest(None), 6);
    var s1 := Run(catalogs, INITIAL, request);
    FirstRowIsQueued(key, model);
    var claim := WorkerClaims(catalogs, s1, 3, key, model);
    RunConcat(catalogs, INITIAL, request, claim);
    var s2 := Run(catalogs, s1, claim);
    RunOneAction(catalogs, s2, Tick(BATCH_LEASE_SECONDS));
    RunConcat(catalogs, INITIAL, request + claim, [Tick(BATCH_LEASE_SECONDS)]);
    var s3 := Apply(catalogs, s2, Tick(BATCH_LEASE_SECONDS));
    WaitingEndsLease(catalogs, s2, key, model);
    var first := WorkerGetsToRelease(catalogs, s3, 1, key, model);
    RunConcat(catalogs, INITIAL, request + claim + [Tick(BATCH_LEASE_SECONDS)], first);
    var s4 := Run(catalogs, s3, first);
    var second := WorkerGetsToRelease(catalogs, s4, 2, key, model);
    RunConcat(catalogs, INITIAL, request + claim + [Tick(BATCH_LEASE_SECONDS)] + first, second);
    run := request + claim + [Tick(BATCH_LEASE_SECONDS)] + first + second;
  }

  lemma NothingIsReadyAtFirst(key: Key)
    ensures IsLatestReady(INITIAL.rows, INITIAL.now, key.language, None)
    ensures !Live(INITIAL.rows, INITIAL.now, key) && !CacheHit(INITIAL, key)
  {
  }

  /** The row waits for its first batch, and the message for it has been sent. */
  predicate IsFirstRow(s: State, key: Key, model: string) {
    && key in s.rows && s.rows[key].status.Pending? && s.rows[key].messages == map[]
    && BatchIndexFromStore(s.rows[key].nextBatchIndex) == 0
    && QueueMessage(key, model, 0) in s.sent && s.cache == map[]
  }

  lemma FirstRowIsQueued(key: Key, model: string)
    ensures var t := AnsweredPending(WithNewRow(INITIAL, key, model), key, None);
      IsFirstRow(t, key, model) && Deliverable(t, key, 0) && t.workers == map[]
  {
    assert QueueMessage(key, model, 0) in WithNewRow(INITIAL, key, model).sent;
  }

  lemma WorkerClaims(catalogs: Catalogs, s: State, w: nat, key: Key, model: string) returns (actions: seq<Action>)
    requires IsFirstRow(s, key, model) && Deliverable(s, key, 0) && w !in s.workers
    requires key.language in ALLOWED_LANGUAGES && BatchesOf(catalogs, key) != []
    ensures var t := Run(catalogs, s, actions);
      && IsFirstRow(t, key, model) && IsReleasable(t.rows, key, 0) && Live(t.rows, t.now + BATCH_LEASE_SECONDS, key)
      && t.rows[key].updatedAt == t.now && t.workers.Keys == s.workers.Keys + {w}
  {
    hide Run, Apply, Steps, BatchesOf;
    var outcome := Answers([]);
    var n := JobGetsToTheBatch(catalogs, s, w, key, model, 0, outcome);
    ReadyRowIsClaimable(s, w, key, 0);
    OneMoreStep(catalogs, Goto(s, w, JobStarted(key, model, 0)), w, outcome, n);
    JobClaims(catalogs, ReadyToClaim(s, w, key, 0), w, key, model, 0, map[], outcome);
    RunDelivery(catalogs, s, w, QueueMessage(key, model, 0), Steps(w, outcome, n + 1));
    actions := [Deliver(w, QueueMessage(key, model, 0), key.checksum)] + Steps(w, outcome, n + 1);
  }

  /** The row is claimed, and the lease is over. */
  ghost predicate IsLeftClaimed(s: State, key: Key, model: string) {
    IsFirstRow(s, key, model) && IsReleasable(s.rows, key, 0) && Deliverable(s, key, 0)
  }

  lemma WaitingEndsLease(catalogs: Catalogs, s: State, key: Key, model: string)
    requires IsFirstRow(s, key, model) && IsReleasable(s.rows, key, 0) && Live(s.rows, s.now + BATCH_LEASE_SECONDS, key)
    requires s.rows[key].updatedAt == s.now
    ensures var t := Apply(catalogs, s, Tick(BATCH_LEASE_SECONDS));
      IsLeftClaimed(t, key, model) && t.workers == s.workers
  {
  }

  lemma WorkerGetsToRelease(catalogs: Catalogs, s: State, w: nat, key: Key, model: string)
    returns (actions: seq<Action>)
    requires IsLeftClaimed(s, key, model) && w !in s.workers && key.language in ALLOWED_LANGUAGES
    ensures var t := Run(catalogs, s, actions);
      && IsLeftClaimed(t, key, model)
      && t.workers == s.workers[w := JobReleasing(key, model, 0, map[])]
  {
    hide Run, Apply, Steps, BatchesOf, Proceed;
    var outcome := Answers([]);
    var s0 := Goto(s, w, JobStarted(key, model, 0));
    JobReadsRow(catalogs, s, w, key, model, 0, outcome);
    JobUsesRow(catalogs, Noted(s, w, key), w, key, model, 0, outcome);
    OneMoreStep(catalogs, s0, w, outcome, 2);
    RunDelivery(catalogs, s, w, QueueMessage(key, model, 0), Steps(w, outcome, 3));
    actions := [Deliver(w, QueueMessage(key, model, 0), key.checksum)] + Steps(w, outcome, 3);
  }

  /**
   * Two workers that have read the same expired claim take each other's fresh one: worker 1 releases and
   * claims the batch, and in the same second worker 2 releases that claim and makes its own.
   */
  lemma TwoWorkersMayHoldTheSameClaim(catalogs: Catalogs, key: Key, model: string)
    returns (run: seq<Action>, actions: seq<Action>)
    requires key.language in ALLOWED_LANGUAGES && BatchesOf(catalogs, key) != []
    ensures JustClaimed(Run(catalogs, INITIAL, run), 1, key, 0)
    ensures var s := Run(catalogs, INITIAL, run);
      var t := Run(catalogs, s, actions);
      && t.now == s.now
      && 1 in t.workers && IsTranslating(t.workers[1], key, 0)
      && 2 in t.workers && IsTranslating(t.workers[2], key, 0)
  {
    hide Run, Apply, BatchesOf, JustClaimed, IsReleasable, IsClaimable;
    var before := TwoWorkersGetToRelease(catalogs, key, model);
    var s0 := Run(catalogs, INITIAL, before);
    actions := ReleaseAndClaim(catalogs, s0, 1, 2, key, model);
    RunConcat(catalogs, INITIAL, before, actions);
    run := before + actions;
    var s := Run(catalogs, INITIAL, run);
    ClaimedIsReleasable(s, 1, key, 0);
    actions := ReleaseAndClaim(catalogs, s, 2, 1, key, model);
    ClaimedIsReleasable(Run(catalogs, s, actions), 2, key, 0);
  }

  lemma ClaimedIsReleasable(s: State, w: nat, key: Key, k: nat)
    requires JustClaimed(s, w, key, k)
    ensures IsReleasable(s.rows, key, k) && w in s.workers && IsTranslating(s.workers[w], key, k)
  {
  }

  /** Worker `v` releases the claim and claims the batch in the same second, and `w` stays where it is. */
  lemma ReleaseAndClaim(catalogs: Catalogs, s: State, v: nat, w: nat, key: Key, model: string)
    returns (actions: seq<Action>)
    requires v in s.workers && s.workers[v] == JobReleasing(key, model, 0, map[])
    requires IsReleasable(s.rows, key, 0) && BatchesOf(catalogs, key) != [] && v != w && w in s.workers
    ensures var t := Run(catalogs, s, actions);
      JustClaimed(t, v, key, 0) && t.now == s.now && w in t.workers && t.workers[w] == s.workers[w]
  {
    hide Run, Apply, BatchesOf, JustClaimed, IsReleasable, IsClaimable;
    var step := Advance(v, Succeed);
    ReleaserReleases(catalogs, s, v, key, model, 0, map[]);
    OthersLeaveWorker(catalogs, s, w, step);
    var s1 := Apply(catalogs, s, step);
    ClaimerTranslates(catalogs, s1, v, key, model, 0, map[]);
    OthersLeaveWorker(catalogs, s1, w, step);
    RunFirstAction(catalogs, s, step, [step]);
    RunOneAction(catalogs, s1, step);
    actions := [step] + [step];
  }
}
