/** Every pending row can still be finished, whoever has crashed. */
module TranslationRecovery {
  import opened Common
  import opened Batching
  import opened Placeholders
  import opened TranslationStore
  import opened TranslationMachine
  import opened TranslationSafety
  import opened TranslationSteps

  /** A request, a delivery of a sent message or a step without failure, all by worker `w`, in no time. */
  predicate IsOrdinary(w: nat, action: Action) {
    match action
    case Request(worker, _, _) => worker == w
    case Deliver(worker, _, _) => worker == w
    case Advance(worker, outcome) => worker == w && !outcome.Fault?
    case _ => false
  }

  predicate Ordinary(w: nat, actions: seq<Action>) {
    forall i :: 0 <= i < |actions| ==> IsOrdinary(w, actions[i])
  }

  lemma StepsAreOrdinary(w: nat, outcome: Outcome, n: nat)
    requires !outcome.Fault?
    ensures Ordinary(w, Steps(w, outcome, n)) && |Steps(w, outcome, n)| == n
  {
    StepsAreAsMany(w, outcome, n);
  }

  // ---------- one delivery, the last one included ----------

  ghost predicate IsQueued(s: State, key: Key, k: nat) {
    exists model :: QueueMessage(key, model, k) in s.sent
  }

  ghost predicate IsDone(s: State, key: Key) {
    key in s.rows && s.rows[key].status.Ready?
  }

  /** What the table and the queue look like when batch `k` has been stored. */
  ghost predicate Moved(catalogs: Catalogs, s: State, t: State, key: Key, k: nat) {
    && t.workers == s.workers && t.now == s.now
    && if k + 1 >= |BatchesOf(catalogs, key)|
       then IsDone(t, key)
       else Deliverable(t, key, k + 1) && IsQueued(t, key, k + 1)
  }

  lemma DeliveredIsMoved(catalogs: Catalogs, s: State, w: nat, key: Key, model: string, k: nat, messages: Messages)
    requires Deliverable(s, key, k) && k + 1 < |BatchesOf(catalogs, key)| && k + 1 < CLAIM_OFFSET
    ensures Moved(catalogs, s, Delivered(catalogs, ReadyToClaim(s, w, key, k), w, key, model, k, messages), key, k)
  {
    hide Batches;
    ReadyRowIsClaimable(s, w, key, k);
    var t := Delivered(catalogs, ReadyToClaim(s, w, key, k), w, key, model, k, messages);
    assert QueueMessage(key, model, k + 1) in t.sent;
  }

  lemma LastBatchIsPublished(catalogs: Catalogs, s: State, w: nat, key: Key, model: string, k: nat,
                             messages: Messages, outcome: Outcome)
    requires IsClaimable(s.rows, s.now, key, k) && w !in s.workers && k + 1 == |BatchesOf(catalogs, key)|
    requires outcome.Answers? && TranslateBatch(BatchesOf(catalogs, key)[k], outcome.replies).Some?
    ensures var t := Run(catalogs, Goto(s, w, JobClaiming(key, model, k, messages)), Steps(w, outcome, 4));
      t.workers == s.workers && t.now == s.now && IsDone(t, key)
  {
    hide Run, Apply, Batches, TranslateBatch, Steps, Goto;
    var s0 := Goto(s, w, JobClaiming(key, model, k, messages));
    var claimed := WithClaim(s, key, k);
    var merged := messages + TranslateBatch(BatchesOf(catalogs, key)[k], outcome.replies).value;
    var stored := WithBatch(catalogs, claimed, w, key, model, k, merged);
    JobClaims(catalogs, s, w, key, model, k, messages, outcome);
    JobTranslates(catalogs, claimed, w, key, model, k, messages, outcome);
    JobStores(catalogs, claimed, w, key, model, k, merged, outcome);
    JobPublishes(catalogs, stored, w, key, Snapshot(key, model, Ready, merged, k + 1, s.now), outcome);
    OneMoreStep(catalogs, s0, w, outcome, 0);
    OneMoreStep(catalogs, s0, w, outcome, 1);
    OneMoreStep(catalogs, s0, w, outcome, 2);
    OneMoreStep(catalogs, s0, w, outcome, 3);
  }

  lemma LastDeliveryFinishes(catalogs: Catalogs, s: State, w: nat, key: Key, model: string, k: nat, replies: seq<Reply>)
    returns (n: nat)
    requires Deliverable(s, key, k) && w !in s.workers && k + 1 == |BatchesOf(catalogs, key)|
    requires QueueMessage(key, model, k) in s.sent && key.language in ALLOWED_LANGUAGES
    requires TranslateBatch(BatchesOf(catalogs, key)[k], replies).Some?
    ensures n <= 8
    ensures Moved(catalogs, s,
      Run(catalogs, s, [Deliver(w, QueueMessage(key, model, k), key.checksum)] + Steps(w, Answers(replies), n)), key, k)
  {
    hide Run, Batches, TranslateBatch, Steps, ReadyToClaim;
    var outcome := Answers(replies);
    var m := JobGetsToTheBatch(catalogs, s, w, key, model, k, outcome);
    ReadyRowIsClaimable(s, w, key, k);
    ReadyKeepsWorkers(s, w, key, k);
    LastBatchIsPublished(catalogs, ReadyToClaim(s, w, key, k), w, key, model, k, s.rows[key].messages, outcome);
    MoreSteps(catalogs, Goto(s, w, JobStarted(key, model, k)), w, outcome, m, 4);
    n := m + 4;
    RunDelivery(catalogs, s, w, QueueMessage(key, model, k), Steps(w, outcome, n));
  }

  /** The model echoes the first text of the batch, which is enough. */
  lemma EchoIsEnough(catalogs: Catalogs, key: Key, k: nat) returns (replies: seq<Reply>)
    requires k < |BatchesOf(catalogs, key)|
    ensures TranslateBatch(BatchesOf(catalogs, key)[k], replies).Some?
  {
    hide TranslateBatch, Batches;
    var batch := BatchesOf(catalogs, key)[k];
    BatchesAreASplit(catalogs(key.checksum));
    EchoSucceeds(batch);
    replies := [Some(map[batch[0].key := batch[0].text])];
  }

  lemma OneDelivery(catalogs: Catalogs, s: State, w: nat, key: Key, k: nat) returns (actions: seq<Action>)
    requires Manageable(catalogs) && Deliverable(s, key, k) && IsQueued(s, key, k) && w !in s.workers
    requires key.language in ALLOWED_LANGUAGES && k < |BatchesOf(catalogs, key)|
    ensures Ordinary(w, actions) && |actions| <= 9
    ensures Moved(catalogs, s, Run(catalogs, s, actions), key, k)
  {
    hide Run, Steps, Batches, TranslateBatch, Deliverable, Moved, Delivered;
    assert |Batches(catalogs(key.checksum))| < CLAIM_OFFSET;
    var model :| QueueMessage(key, model, k) in s.sent;
    var replies := EchoIsEnough(catalogs, key, k);
    var n: nat;
    if k + 1 < |BatchesOf(catalogs, key)| {
      n := DeliveryStores(catalogs, s, w, key, model, k, replies);
      SnapshotIsThere(s, key, k);
      DeliveredIsMoved(catalogs, s, w, key, model, k,
                       s.rows[key].messages + TranslateBatch(BatchesOf(catalogs, key)[k], replies).value);
    } else {
      n := LastDeliveryFinishes(catalogs, s, w, key, model, k, replies);
    }
    StepsAreOrdinary(w, Answers(replies), n);
    actions := [Deliver(w, QueueMessage(key, model, k), key.checksum)] + Steps(w, Answers(replies), n);
  }

  lemma SnapshotIsThere(s: State, key: Key, k: nat)
    requires Deliverable(s, key, k)
    ensures key in s.rows
  {
  }

  // ---------- from one batch to the next ----------

  /** Undisturbed deliveries take a row from batch `k` to batch `last`, which is then deliverable and queued. */
  lemma {:induction false} BatchesAreStoredUpTo(catalogs: Catalogs, s: State, w: nat, key: Key, k: nat, last: nat)
    returns (actions: seq<Action>)
    requires Manageable(catalogs) && Deliverable(s, key, k) && IsQueued(s, key, k) && w !in s.workers
    requires key.language in ALLOWED_LANGUAGES && k <= last < |BatchesOf(catalogs, key)|
    ensures Ordinary(w, actions) && |actions| <= 9 * (last - k)
    ensures var t := Run(catalogs, s, actions);
      t.workers == s.workers && t.now == s.now && Deliverable(t, key, last) && IsQueued(t, key, last)
    decreases last - k
  {
    hide Batches, Run, Deliverable, IsQueued;
    actions := [];
    NothingRuns(catalogs, s);
    if k < last {
      actions := OneDelivery(catalogs, s, w, key, k);
      var t := Run(catalogs, s, actions);
      var rest := BatchesAreStoredUpTo(catalogs, t, w, key, k + 1, last);
      RunConcat(catalogs, s, actions, rest);
      actions := actions + rest;
    }
  }

  lemma NothingRuns(catalogs: Catalogs, s: State)
    ensures Run(catalogs, s, []) == s
  {
  }

  lemma BatchesAreSentOneByOne(catalogs: Catalogs, s: State, w: nat, key: Key, k: nat) returns (actions: seq<Action>)
    requires Manageable(catalogs) && Deliverable(s, key, k) && IsQueued(s, key, k) && w !in s.workers
    requires key.language in ALLOWED_LANGUAGES && k < |BatchesOf(catalogs, key)|
    ensures Ordinary(w, actions) && |actions| <= 9 * (|BatchesOf(catalogs, key)| - k)
    ensures IsDone(Run(catalogs, s, actions), key)
  {
    hide Batches, Run, Deliverable, IsQueued;
    var last: nat := |BatchesOf(catalogs, key)| - 1;
    actions := BatchesAreStoredUpTo(catalogs, s, w, key, k, last);
    var t := Run(catalogs, s, actions);
    var rest := OneDelivery(catalogs, t, w, key, last);
    RunConcat(catalogs, s, actions, rest);
    actions := actions + rest;
  }

  lemma EmptyCatalogIsFinished(catalogs: Catalogs, s: State, w: nat, key: Key) returns (actions: seq<Action>)
    requires Deliverable(s, key, 0) && IsQueued(s, key, 0) && w !in s.workers
    requires key.language in ALLOWED_LANGUAGES && |BatchesOf(catalogs, key)| == 0
    ensures Ordinary(w, actions) && |actions| <= 6
    ensures IsDone(Run(catalogs, s, actions), key)
  {
    hide Run, Steps, Batches, ReadyToClaim;
    var model :| QueueMessage(key, model, 0) in s.sent;
    var outcome := Answers([]);
    var m := JobGetsToTheBatch(catalogs, s, w, key, model, 0, outcome);
    ReadyKeepsWorkers(s, w, key, 0);
    JobFinishesEmpty(catalogs, ReadyToClaim(s, w, key, 0), w, key, model, s.rows[key].messages, outcome);
    MoreSteps(catalogs, Goto(s, w, JobStarted(key, model, 0)), w, outcome, m, 1);
    StepsAreOrdinary(w, outcome, m + 1);
    RunDelivery(catalogs, s, w, QueueMessage(key, model, 0), Steps(w, outcome, m + 1));
    actions := [Deliver(w, QueueMessage(key, model, 0), key.checksum)] + Steps(w, outcome, m + 1);
  }

  lemma JobFinishesEmpty(catalogs: Catalogs, s: State, w: nat, key: Key, model: string, messages: Messages,
                         outcome: Outcome)
    requires w !in s.workers && outcome.Answers?
    ensures IsDone(Run(catalogs, Goto(s, w, JobFinishing(key, model, 0, messages)), Steps(w, outcome, 1)), key)
  {
    hide Run;
    OneMoreStep(catalogs, Goto(s, w, JobFinishing(key, model, 0, messages)), w, outcome, 0);
  }

  // ---------- a request sends the row again ----------

  /** A request now would not be answered early, and would send the pending row again if it is still live. */
  ghost predicate IsSettled(s: State, key: Key) {
    && key in s.rows && s.rows[key].status.Pending? && !CacheHit(s, key)
    && (forall other :: other in s.rows && IsReadyIn(s.rows, s.now, key.language, other) ==>
          !IsReadyFresh(SnapshotOf(s.rows, other), s.now))
    && (Live(s.rows, s.now, key) ==> IsDue(s, key))
  }

  /** What the request leaves behind: the message for the batch the row waits for. */
  ghost predicate Sent(s: State, t: State, key: Key) {
    && t.workers == s.workers && t.now == s.now
    && key in t.rows && t.rows[key].status.Pending?
    && Deliverable(t, key, BatchIndexFromStore(t.rows[key].nextBatchIndex))
    && IsQueued(t, key, BatchIndexFromStore(t.rows[key].nextBatchIndex))
  }

  lemma NewRowIsSent(s: State, key: Key, model: string, latest: Option<Snapshot>)
    requires !Live(s.rows, s.now, key) && !CacheHit(s, key)
    ensures Sent(s, AnsweredPending(WithNewRow(s, key, model), key, latest), key)
  {
    assert QueueMessage(key, model, 0) in WithNewRow(s, key, model).sent;
  }

  lemma ResentRowIsSent(s: State, key: Key, latest: Option<Snapshot>)
    requires Live(s.rows, s.now, key) && s.rows[key].status.Pending? && IsDue(s, key) && !CacheHit(s, key)
    ensures Sent(s, AnsweredPending(Resent(s, key), key, latest), key)
  {
    assert ResentMessage(s, key) in Resent(s, key).sent;
  }

  lemma RequestSendsRow(catalogs: Catalogs, s: State, w: nat, key: Key, model: string) returns (actions: seq<Action>)
    requires IsSettled(s, key) && w !in s.workers && key.language in ALLOWED_LANGUAGES
    ensures Ordinary(w, actions) && |actions| <= 9
    ensures Sent(s, Run(catalogs, s, actions), key)
  {
    hide Steps, Sent, Run, IsDue, Resent, WithNewRow;
    var newest := SomeAnswerIsLatest(s.rows, s.now, key.language);
    var outcome := Latest(newest);
    if Live(s.rows, s.now, key) {
      RequestRunsOnPendingRow(catalogs, s, w, key, model, newest);
      ResentRowIsSent(s, key, LatestOf(s, newest));
      StepsAreOrdinary(w, outcome, 8);
      actions := [Request(w, key, model)] + Steps(w, outcome, 8);
    } else {
      RequestStartsRow(catalogs, s, w, key, model, newest);
      NewRowIsSent(s, key, model, LatestOf(s, newest));
      StepsAreOrdinary(w, outcome, 6);
      actions := [Request(w, key, model)] + Steps(w, outcome, 6);
    }
  }

  // ---------- from any reachable state ----------

  lemma SomeWorkerIsFree(workers: map<nat, Worker>) returns (w: nat)
    ensures w !in workers
  {
    w := 0;
    var busy := workers.Keys;
    while busy != {}
      invariant busy <= workers.Keys
      invariant forall v :: v in workers && v !in busy ==> v < w
    {
      var v :| v in busy;
      w := if v < w then w else v + 1;
      busy := busy - {v};
    }
  }

  function Later(s: State, seconds: nat): State {
    s.(now := s.now + seconds)
  }

  lemma SentRowIsFinished(catalogs: Catalogs, s: State, t: State, w: nat, key: Key) returns (actions: seq<Action>)
    requires Manageable(catalogs) && Safe(catalogs, t) && Sent(s, t, key) && w !in t.workers
    ensures Ordinary(w, actions) && |actions| <= 9 * |BatchesOf(catalogs, key)| + 6
    ensures IsDone(Run(catalogs, t, actions), key)
  {
    hide TranslatesUpTo, Batches, Run, Deliverable, IsQueued;
    assert RowOk(catalogs, t.now, key, t.rows[key]);
    var k := BatchIndexFromStore(t.rows[key].nextBatchIndex);
    if |BatchesOf(catalogs, key)| == 0 {
      actions := EmptyCatalogIsFinished(catalogs, t, w, key);
    } else {
      actions := BatchesAreSentOneByOne(catalogs, t, w, key, k);
    }
  }

  lemma SettledRowIsFinished(catalogs: Catalogs, s: State, w: nat, key: Key) returns (actions: seq<Action>)
    requires Manageable(catalogs) && Safe(catalogs, s) && IsSettled(s, key) && w !in s.workers
    ensures Ordinary(w, actions) && |actions| <= 9 * |BatchesOf(catalogs, key)| + 15
    ensures IsDone(Run(catalogs, s, actions), key)
  {
    hide Batches, Run, Safe, IsSettled, IsDone, Deliverable, IsQueued;
    PendingRowsHaveAllowedLanguages(catalogs, s, key) by { SettledIsThere(s, key); }
    var request := RequestSendsRow(catalogs, s, w, key, "");
    RunKeepsSafe(catalogs, s, request);
    var t := Run(catalogs, s, request);
    var rest := SentRowIsFinished(catalogs, s, t, w, key);
    RunConcat(catalogs, s, request, rest);
    actions := request + rest;
  }

  lemma SettledIsThere(s: State, key: Key)
    requires IsSettled(s, key)
    ensures key in s.rows
  {
  }

  lemma PendingRowsHaveAllowedLanguages(catalogs: Catalogs, s: State, key: Key)
    requires Safe(catalogs, s) && key in s.rows
    ensures key.language in ALLOWED_LANGUAGES
  {
    hide ContentOk;
    assert RowOk(catalogs, s.now, key, s.rows[key]);
  }

  /** A new worker `w`, after waiting so many seconds, alone takes the row to its end in no more time. */
  ghost predicate Finishes(catalogs: Catalogs, run: seq<Action>, key: Key, seconds: nat, w: nat, actions: seq<Action>) {
    && w !in Run(catalogs, INITIAL, run).workers
    && Ordinary(w, actions)
    && IsDone(Run(catalogs, INITIAL, run + [Tick(seconds)] + actions), key)
  }

  /**
   * From every reachable state a pending row is finished by waiting until a request would send it again,
   * one request, and one delivery for each batch still missing; every other worker may have crashed.
   */
  lemma EveryPendingRowCanBeFinished(catalogs: Catalogs, run: seq<Action>, key: Key, seconds: nat)
    requires Manageable(catalogs) && IsSettled(Later(Run(catalogs, INITIAL, run), seconds), key)
    ensures exists w, actions ::
              && Finishes(catalogs, run, key, seconds, w, actions)
              && |actions| <= 9 * |BatchesOf(catalogs, key)| + 15
  {
    hide Run, Batches, IsDone, IsSettled;
    var s := Run(catalogs, INITIAL, run);
    RunConcat(catalogs, INITIAL, run, [Tick(seconds)]);
    RunOneAction(catalogs, s, Tick(seconds));
    EveryRunIsSafe(catalogs, run + [Tick(seconds)]);
    var w := SomeWorkerIsFree(s.workers);
    var actions := SettledRowIsFinished(catalogs, Later(s, seconds), w, key);
    RunConcat(catalogs, INITIAL, run + [Tick(seconds)], actions);
    assert Finishes(catalogs, run, key, seconds, w, actions);
  }

  /**
   * The lease of 15 minutes is always long enough to wait. An unclaimed row needs only the minute, if by
   * then the cache has nothing and no other ready row of the language is fresh.
   */
  lemma HowLongToWait(catalogs: Catalogs, run: seq<Action>, key: Key)
    requires Manageable(catalogs)
    requires key in Run(catalogs, INITIAL, run).rows && Run(catalogs, INITIAL, run).rows[key].status.Pending?
    ensures var s := Run(catalogs, INITIAL, run);
      && IsSettled(Later(s, BATCH_LEASE_SECONDS), key)
      && var soon := Later(s, REQUEUE_AFTER_SECONDS);
         ClaimedBatchIndex(s.rows[key].nextBatchIndex).None? && !CacheHit(soon, key)
         && (forall other :: other in s.rows && IsReadyIn(s.rows, soon.now, key.language, other) ==>
               soon.now - s.rows[other].updatedAt >= CACHE_TTL_SECONDS)
         ==> IsSettled(soon, key)
  {
    hide ContentOk, PayloadOk, Run;
    EveryRunIsSafe(catalogs, run);
    var s := Run(catalogs, INITIAL, run);
    assert forall other :: other in s.rows ==> RowOk(catalogs, s.now, other, s.rows[other]);
  }

  /** The lease of a claim always ends, with 45 minutes to spare, before the claimed row expires. */
  lemma ClaimsExpireBeforeTheirRows(catalogs: Catalogs, run: seq<Action>, key: Key, later: int)
    requires Manageable(catalogs)
    requires var s := Run(catalogs, INITIAL, run);
      key in s.rows && s.rows[key].status.Pending? && later >= s.now
    ensures var s := Run(catalogs, INITIAL, run);
      var row := s.rows[key];
      && row.updatedAt + BATCH_LEASE_SECONDS + 45 * 60 <= row.expiresAt
      && (row.updatedAt + BATCH_LEASE_SECONDS <= later < row.expiresAt && !CacheHit(s.(now := later), key) ==>
            Deliverable(s.(now := later), key, BatchIndexFromStore(row.nextBatchIndex)))
  {
    hide ContentOk;
    EveryRunIsSafe(catalogs, run);
    var s := Run(catalogs, INITIAL, run);
    assert RowOk(catalogs, s.now, key, s.rows[key]);
  }
}
