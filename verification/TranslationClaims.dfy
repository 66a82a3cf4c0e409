/** When exactly a claim on a batch keeps other workers away from it for the length of its lease. */
module TranslationClaims {
  import opened Common
  import opened Batching
  import opened TranslationStore
  import opened TranslationMachine
  import opened TranslationSafety
  import opened TranslationTrace

  predicate IsTranslating(worker: Worker, key: Key, k: nat) {
    worker.JobTranslating? && worker.key == key && worker.batchIndex == k
  }

  predicate IsAbandoning(worker: Worker, key: Key, k: nat) {
    worker.JobAbandoning? && worker.key == key && worker.batchIndex == k
  }

  /** Worker `w` has claimed batch `k` in this very second. */
  predicate JustClaimed(s: State, w: nat, key: Key, k: nat) {
    && w in s.workers && IsTranslating(s.workers[w], key, k)
    && IsReleasable(s.rows, key, k) && s.rows[key].updatedAt == s.now
  }

  /** The lease outlasts the actions, and `w` does not give the claim back. */
  ghost predicate IsWithinLease(catalogs: Catalogs, s: State, w: nat, key: Key, k: nat, actions: seq<Action>) {
    && Run(catalogs, s, actions).now < s.now + BATCH_LEASE_SECONDS
    && forall n :: 0 <= n <= |actions| ==>
         var t := Run(catalogs, s, actions[..n]);
         w in t.workers ==> !IsAbandoning(t.workers[w], key, k)
  }

  predicate NoOtherTranslates(s: State, w: nat, key: Key, k: nat) {
    forall v :: v in s.workers && v != w ==> !IsTranslating(s.workers[v], key, k)
  }

  /** Whatever happens before the lease is over, nobody but `w` gets to translate the batch. */
  ghost predicate KeepsOthersOut(catalogs: Catalogs, s: State, w: nat, key: Key, k: nat) {
    forall actions :: IsWithinLease(catalogs, s, w, key, k, actions) ==>
        NoOtherTranslates(Run(catalogs, s, actions), w, key, k)
  }

  /**
   * A worker that need not respect a claim made at `claimedAt`: it translates the batch already, is about
   * to release the claim, has read an earlier claim on the batch, or can still delete the row.
   */
  predicate Threatens(worker: Worker, key: Key, k: nat, claimedAt: int) {
    worker.key == key
    && match worker
       case JobTranslating(_, _, batchIndex, _) => batchIndex == k
       case JobAbandoning(_, batchIndex) => batchIndex == k
       case JobReleasing(_, _, batchIndex, _) => batchIndex == k
       case JobRead(_, _, batchIndex, entry) =>
         batchIndex == k && ClaimedBatchIndex(entry.nextBatchIndex) == Some(k) && entry.updatedAt < claimedAt
       case RequestInserted(_, _, _) => true
       case RequestUndoing(_, _) => true
       case _ => false
  }

  predicate NobodyThreatens(s: State, w: nat, key: Key, k: nat, claimedAt: int) {
    forall v :: v in s.workers && v != w ==> !Threatens(s.workers[v], key, k, claimedAt)
  }

  // ---------- the row is guarded by every statement ----------

  /** The row carries the claim or has moved on, and will be there when the lease is over. */
  predicate Guarded(rows: Rows, key: Key, k: nat, claimedAt: int) {
    && key in rows && rows[key].updatedAt >= claimedAt && rows[key].expiresAt >= claimedAt + PENDING_TTL_SECONDS
    && (rows[key].status.Pending? ==>
          rows[key].nextBatchIndex == ClaimMarker(k) || BatchIndexFromStore(rows[key].nextBatchIndex) > k)
  }

  predicate IsInLease(now: int, claimedAt: int) {
    claimedAt <= now < claimedAt + BATCH_LEASE_SECONDS
  }

  lemma GuardedRowIsNotReplaced(rows: Rows, now: int, key: Key, k: nat, claimedAt: int, other: Key, model: string,
                                ttlSeconds: int)
    requires Guarded(rows, key, k, claimedAt) && IsInLease(now, claimedAt) && ttlSeconds >= PENDING_TTL_SECONDS
    ensures Live(rows, now, key)
    ensures Guarded(WithoutExpired(rows, now), key, k, claimedAt)
    ensures Guarded(Inserted(rows, now, other, model), key, k, claimedAt)
    ensures Guarded(Touched(rows, now, other, ttlSeconds), key, k, claimedAt)
  {
  }

  lemma GuardedRowIsNotClaimed(rows: Rows, now: int, key: Key, k: nat, claimedAt: int, other: Key, j: nat)
    requires Guarded(rows, key, k, claimedAt) && IsInLease(now, claimedAt) && j < CLAIM_OFFSET && k < CLAIM_OFFSET
    ensures !IsClaimable(rows, now, key, k)
    ensures Guarded(Claimed(rows, now, other, j), key, k, claimedAt)
    ensures other != key || j != k ==> Guarded(Released(rows, now, other, j), key, k, claimedAt)
  {
  }

  lemma GuardedRowIsWritten(catalogs: Catalogs, rows: Rows, now: int, key: Key, k: nat, claimedAt: int, other: Key,
                            j: nat, model: string, messages: Messages)
    requires Guarded(rows, key, k, claimedAt) && IsInLease(now, claimedAt)
    requires Manageable(catalogs) && j < |BatchesOf(catalogs, other)| && k < CLAIM_OFFSET
    ensures Guarded(Written(rows, now, other, j, model, StatusAfter(catalogs, other, j), messages, j + 1), key, k,
                    claimedAt)
  {
    hide Batches;
    assert |Batches(catalogs(other.checksum))| < CLAIM_OFFSET;
  }

  // ---------- what one step keeps ----------

  /** What holds from the claim to the end of its lease. */
  predicate Kept(s: State, w: nat, key: Key, k: nat, claimedAt: int) {
    && IsInLease(s.now, claimedAt) && Guarded(s.rows, key, k, claimedAt)
    && NobodyThreatens(s, w, key, k, claimedAt)
    && (w in s.workers ==> IsHarmless(s.workers[w], key, k, claimedAt))
  }

  /** Not a threat, unless by translating under the claim itself. */
  predicate IsHarmless(worker: Worker, key: Key, k: nat, claimedAt: int) {
    IsTranslating(worker, key, k) || !Threatens(worker, key, k, claimedAt)
  }

  /** After its step, worker `v` threatens nothing, and the row is still guarded. */
  predicate StaysHarmless(t: State, v: nat, key: Key, k: nat, claimedAt: int) {
    && Guarded(t.rows, key, k, claimedAt)
    && (v in t.workers ==> !Threatens(t.workers[v], key, k, claimedAt))
  }

  lemma GotoIsHarmless(s: State, v: nat, place: Worker, key: Key, k: nat, claimedAt: int)
    requires Guarded(s.rows, key, k, claimedAt) && !Threatens(place, key, k, claimedAt)
    ensures StaysHarmless(Goto(s, v, place), v, key, k, claimedAt)
  {
    hide Guarded, Threatens;
  }

  lemma FinishIsHarmless(s: State, v: nat, key: Key, k: nat, claimedAt: int)
    requires Guarded(s.rows, key, k, claimedAt)
    ensures StaysHarmless(Finish(s, v), v, key, k, claimedAt)
  {
    hide Guarded, Threatens;
  }

  lemma AnswersAreHarmless(s: State, v: nat, at: Key, latest: Option<Snapshot>, key: Key, k: nat, claimedAt: int)
    requires Guarded(s.rows, key, k, claimedAt)
    ensures StaysHarmless(FallBack(s, v, at, latest), v, key, k, claimedAt)
    ensures StaysHarmless(AnswerPending(s, v, at, latest), v, key, k, claimedAt)
  {
    hide Guarded;
  }

  lemma UseLatestIsHarmless(s: State, v: nat, at: Key, model: string, latest: Option<Snapshot>, key: Key, k: nat,
                            claimedAt: int)
    requires Guarded(s.rows, key, k, claimedAt)
    ensures StaysHarmless(UseLatest(s, v, at, model, latest), v, key, k, claimedAt)
  {
    hide Guarded, IsReadyFresh, PayloadOf;
  }

  lemma InsertIsHarmless(s: State, v: nat, at: Key, model: string, latest: Option<Snapshot>, startedAt: int,
                         key: Key, k: nat, claimedAt: int)
    requires Guarded(s.rows, key, k, claimedAt) && IsInLease(s.now, claimedAt)
    ensures StaysHarmless(Insert(s, v, at, model, latest, startedAt), v, key, k, claimedAt)
  {
    hide Guarded, Inserted, Live, NextGeneration;
    GuardedRowIsNotReplaced(s.rows, s.now, key, k, claimedAt, at, model, PENDING_TTL_SECONDS);
  }

  lemma DecisionsAreHarmless(s: State, v: nat, at: Key, latest: Option<Snapshot>, entry: Snapshot, key: Key, k: nat,
                             claimedAt: int)
    requires Guarded(s.rows, key, k, claimedAt)
    ensures StaysHarmless(UseQueued(s, v, at, latest, entry), v, key, k, claimedAt)
    ensures StaysHarmless(Requeue(s, v, at, latest, entry), v, key, k, claimedAt)
  {
    hide Guarded, IsPendingStale, IsLeaseExpired, ClaimedBatchIndex, BatchIndexFromStore, FallBack, AnswerPending;
    AnswersAreHarmless(s, v, at, latest, key, k, claimedAt);
    var message := QueueMessage(at, entry.model, BatchIndexFromStore(entry.nextBatchIndex));
    AnswersAreHarmless(s.(sent := s.sent + {message}), v, at, latest, key, k, claimedAt);
  }

  lemma StartingIsHarmless(s: State, v: nat, worker: Worker, outcome: Outcome, key: Key, k: nat, claimedAt: int)
    requires Guarded(s.rows, key, k, claimedAt) && IsInLease(s.now, claimedAt)
    requires v in s.workers && s.workers[v] == worker && !Threatens(worker, key, k, claimedAt)
    requires IsStarting(worker)
    ensures StaysHarmless(AdvanceRequest(s, v, worker, outcome), v, key, k, claimedAt)
  {
    hide UseLatest, IsLatestReady, Touched, PayloadOf, CacheHit, SnapshotOf, Guarded, IsInLease;
    if worker.RequestReadLatest? {
      UseLatestIsHarmless(s, v, worker.key, worker.model, worker.latest, key, k, claimedAt);
    } else if worker.RequestRefreshing? {
      GuardedRowIsNotReplaced(s.rows, s.now, key, k, claimedAt, worker.entry.key, "", TtlSeconds(worker.entry.status));
    }
  }

  lemma InsertingIsHarmless(s: State, v: nat, worker: Worker, outcome: Outcome, key: Key, k: nat, claimedAt: int)
    requires Guarded(s.rows, key, k, claimedAt) && IsInLease(s.now, claimedAt) && !Threatens(worker, key, k, claimedAt)
    requires IsInserting(worker)
    ensures StaysHarmless(AdvanceRequest(s, v, worker, outcome), v, key, k, claimedAt)
  {
    hide Insert, FallBack, Live, SnapshotOf, IsInLease, Goto, StaysHarmless;
    AnswersAreHarmless(s, v, worker.key, worker.latest, key, k, claimedAt);
    match worker
    case RequestInserting(at, model, latest, startedAt) =>
      InsertIsHarmless(s, v, at, model, latest, startedAt, key, k, claimedAt);
    case RequestInserted(at, latest, entry) =>
      GotoIsHarmless(s, v, RequestUndoing(at, latest), key, k, claimedAt);
      var queued := s.(sent := s.sent + {QueueMessage(at, entry.model, 0)});
      GotoIsHarmless(queued, v, RequestQueued(at, latest, entry), key, k, claimedAt);
    case RequestUndoing(at, latest) =>
      AnswersAreHarmless(s.(rows := s.rows - {at}), v, at, latest, key, k, claimedAt);
    case RequestLostInsert(at, latest) =>
      if Live(s.rows, s.now, at) {
        LiveIsInTable(s, at);
        GotoIsHarmless(s, v, RequestQueued(at, latest, SnapshotOf(s.rows, at)), key, k, claimedAt);
      }
  }

  lemma QueueingIsHarmless(s: State, v: nat, worker: Worker, outcome: Outcome, key: Key, k: nat, claimedAt: int)
    requires Guarded(s.rows, key, k, claimedAt) && IsInLease(s.now, claimedAt)
    requires IsQueueing(worker)
    ensures StaysHarmless(AdvanceRequest(s, v, worker, outcome), v, key, k, claimedAt)
  {
    hide UseQueued, Requeue, FallBack, AnswerPending, Touched, Guarded, IsInLease;
    AnswersAreHarmless(s, v, worker.key, worker.latest, key, k, claimedAt);
    GuardedRowIsNotReplaced(s.rows, s.now, key, k, claimedAt, worker.key, "", PENDING_TTL_SECONDS);
    GuardedRowIsNotReplaced(s.rows, s.now, key, k, claimedAt, worker.key, "", READY_TTL_SECONDS);
    if worker.RequestTouchingPending? {
      var touched := s.(rows := Touched(s.rows, s.now, worker.key, PENDING_TTL_SECONDS));
      AnswersAreHarmless(touched, v, worker.key, worker.latest, key, k, claimedAt);
    } else {
      DecisionsAreHarmless(s, v, worker.key, worker.latest, worker.entry, key, k, claimedAt);
    }
  }

  lemma RequestStepIsHarmless(s: State, v: nat, worker: Worker, outcome: Outcome, key: Key, k: nat, claimedAt: int)
    requires Guarded(s.rows, key, k, claimedAt) && IsInLease(s.now, claimedAt)
    requires IsRequest(worker) && v in s.workers && s.workers[v] == worker && !Threatens(worker, key, k, claimedAt)
    ensures StaysHarmless(AdvanceRequest(s, v, worker, outcome), v, key, k, claimedAt)
  {
    hide AdvanceRequest, Guarded, IsInLease, StaysHarmless, Threatens;
    if IsInserting(worker) {
      InsertingIsHarmless(s, v, worker, outcome, key, k, claimedAt);
    } else if IsQueueing(worker) {
      QueueingIsHarmless(s, v, worker, outcome, key, k, claimedAt);
    } else {
      StartingIsHarmless(s, v, worker, outcome, key, k, claimedAt);
    }
  }

  lemma ProceedIsHarmless(catalogs: Catalogs, s: State, v: nat, at: Key, model: string, j: nat, next: nat,
                          messages: Messages, key: Key, k: nat, claimedAt: int)
    requires Guarded(s.rows, key, k, claimedAt)
    ensures StaysHarmless(Proceed(catalogs, s, v, at, model, j, next, messages), v, key, k, claimedAt)
  {
    hide BatchesOf, Guarded;
  }

  lemma ReadRowIsHarmless(s: State, v: nat, at: Key, model: string, j: nat, key: Key, k: nat, claimedAt: int)
    requires Guarded(s.rows, key, k, claimedAt)
    ensures StaysHarmless(ReadRow(s, v, at, model, j), v, key, k, claimedAt)
  {
    hide Generation, ClaimedBatchIndex;
  }

  lemma UseRowIsHarmless(catalogs: Catalogs, s: State, v: nat, at: Key, model: string, j: nat, entry: Snapshot,
                         key: Key, k: nat, claimedAt: int)
    requires Guarded(s.rows, key, k, claimedAt) && IsInLease(s.now, claimedAt)
    requires !Threatens(JobRead(at, model, j, entry), key, k, claimedAt)
    ensures StaysHarmless(UseRow(catalogs, s, v, at, model, j, entry), v, key, k, claimedAt)
  {
    hide Proceed, Guarded;
    ProceedIsHarmless(catalogs, s, v, at, model, j, entry.nextBatchIndex, entry.messages, key, k, claimedAt);
  }

  lemma TakeOverIsHarmless(catalogs: Catalogs, s: State, v: nat, at: Key, model: string, j: nat, messages: Messages,
                           key: Key, k: nat, claimedAt: int)
    requires Guarded(s.rows, key, k, claimedAt) && IsInLease(s.now, claimedAt) && j < CLAIM_OFFSET && k < CLAIM_OFFSET
    requires at != key || j != k
    ensures StaysHarmless(TakeOver(catalogs, s, v, at, model, j, messages), v, key, k, claimedAt)
  {
    hide Proceed, Guarded, Released, IsReleasable, IsInLease;
    GuardedRowIsNotClaimed(s.rows, s.now, key, k, claimedAt, at, j);
    var released := s.(rows := Released(s.rows, s.now, at, j));
    ProceedIsHarmless(catalogs, released, v, at, model, j, j, messages, key, k, claimedAt);
  }

  lemma ClaimIsHarmless(s: State, v: nat, at: Key, model: string, j: nat, messages: Messages, key: Key, k: nat,
                        claimedAt: int)
    requires Guarded(s.rows, key, k, claimedAt) && IsInLease(s.now, claimedAt) && j < CLAIM_OFFSET && k < CLAIM_OFFSET
    ensures StaysHarmless(ClaimBatch(s, v, at, model, j, messages), v, key, k, claimedAt)
  {
    hide Guarded, Claimed, IsClaimable, IsInLease;
    GuardedRowIsNotClaimed(s.rows, s.now, key, k, claimedAt, at, j);
  }

  lemma AbandonIsHarmless(s: State, v: nat, at: Key, j: nat, outcome: Outcome, key: Key, k: nat, claimedAt: int)
    requires Guarded(s.rows, key, k, claimedAt) && IsInLease(s.now, claimedAt) && j < CLAIM_OFFSET && k < CLAIM_OFFSET
    requires at != key || j != k
    ensures StaysHarmless(Abandon(s, v, at, j, outcome), v, key, k, claimedAt)
  {
    hide Guarded, Released, IsInLease;
    GuardedRowIsNotClaimed(s.rows, s.now, key, k, claimedAt, at, j);
  }

  lemma FinishRowIsHarmless(s: State, v: nat, at: Key, model: string, next: nat, messages: Messages, key: Key,
                            k: nat, claimedAt: int)
    requires Guarded(s.rows, key, k, claimedAt) && at != key
    ensures StaysHarmless(FinishRow(s, v, at, model, next, messages), v, key, k, claimedAt)
  {
    hide NextGeneration;
  }

  lemma WriteIsHarmless(catalogs: Catalogs, s: State, v: nat, at: Key, model: string, j: nat, messages: Messages,
                        key: Key, k: nat, claimedAt: int)
    requires Guarded(s.rows, key, k, claimedAt) && IsInLease(s.now, claimedAt)
    requires Manageable(catalogs) && j < |BatchesOf(catalogs, at)| && k < CLAIM_OFFSET
    ensures StaysHarmless(WriteBatch(catalogs, s, v, at, model, j, messages), v, key, k, claimedAt)
  {
    hide Guarded, Written, IsWritable, StatusAfter, Generation, ReadGeneration, IsInLease, Goto, Finish, StaysHarmless;
    GuardedRowIsWritten(catalogs, s.rows, s.now, key, k, claimedAt, at, j, model, messages);
    FinishIsHarmless(s, v, key, k, claimedAt);
    if IsWritable(s.rows, s.now, at, j) {
      var status := StatusAfter(catalogs, at, j);
      var write := Write(at, Generation(s, at), j, ReadGeneration(s, v), messages);
      var written := s.(rows := Written(s.rows, s.now, at, j, model, status, messages, j + 1),
                        writes := s.writes + [write]);
      var entry := Snapshot(at, model, Ready, messages, j + 1, s.now);
      GotoIsHarmless(written, v, JobPublishing(at, entry), key, k, claimedAt);
      GotoIsHarmless(written, v, JobEnqueueing(at, model, j + 1), key, k, claimedAt);
    }
  }

  lemma TranslateIsHarmless(catalogs: Catalogs, s: State, v: nat, at: Key, model: string, j: nat, messages: Messages,
                            outcome: Outcome, key: Key, k: nat, claimedAt: int)
    requires Guarded(s.rows, key, k, claimedAt)
    ensures var t := Translate(catalogs, s, v, at, model, j, messages, outcome);
      Guarded(t.rows, key, k, claimedAt)
      && (v in t.workers ==>
            Threatens(t.workers[v], key, k, claimedAt) ==> IsAbandoning(t.workers[v], at, j) && at == key && j == k)
  {
    hide Guarded, BatchesOf;
  }

  /** The steps of a delivery in which it reads or sends. */
  lemma ReadingIsHarmless(catalogs: Catalogs, s: State, v: nat, worker: Worker, outcome: Outcome, key: Key, k: nat,
                          claimedAt: int)
    requires Guarded(s.rows, key, k, claimedAt) && IsInLease(s.now, claimedAt) && !Threatens(worker, key, k, claimedAt)
    requires IsReading(worker)
    ensures StaysHarmless(AdvanceJob(catalogs, s, v, worker, outcome), v, key, k, claimedAt)
  {
    hide ReadRow, UseRow, PayloadOf, CacheHit, Guarded, IsInLease, Goto, Finish, StaysHarmless;
    FinishIsHarmless(s, v, key, k, claimedAt);
    match worker
    case JobStarted(at, model, j) => GotoIsHarmless(s, v, JobMissedCache(at, model, j), key, k, claimedAt);
    case JobMissedCache(at, model, j) => ReadRowIsHarmless(s, v, at, model, j, key, k, claimedAt);
    case JobRead(at, model, j, entry) => UseRowIsHarmless(catalogs, s, v, at, model, j, entry, key, k, claimedAt);
    case JobForwarding(at, model, next) =>
      FinishIsHarmless(s.(sent := s.sent + {QueueMessage(at, model, next)}), v, key, k, claimedAt);
    case JobEnqueueing(at, model, next) =>
      FinishIsHarmless(s.(sent := s.sent + {QueueMessage(at, model, next)}), v, key, k, claimedAt);
    case JobPublishing(at, entry) => FinishIsHarmless(PutInCache(s, at, PayloadOf(entry)), v, key, k, claimedAt);
  }

  /** The steps of a delivery in which it changes the row. */
  lemma ChangingIsHarmless(catalogs: Catalogs, s: State, v: nat, worker: Worker, outcome: Outcome, key: Key, k: nat,
                           claimedAt: int)
    requires Manageable(catalogs) && WorkerOk(catalogs, worker) && k < |BatchesOf(catalogs, key)|
    requires Guarded(s.rows, key, k, claimedAt) && IsInLease(s.now, claimedAt) && !Threatens(worker, key, k, claimedAt)
    requires IsChanging(worker) || worker.JobWriting?
    ensures StaysHarmless(AdvanceJob(catalogs, s, v, worker, outcome), v, key, k, claimedAt)
  {
    hide TakeOver, FinishRow, ClaimBatch, Abandon, WriteBatch, Batches, TranslatesUpTo;
    hide Guarded, IsInLease, StaysHarmless;
    NextIndexIsUnclaimed(catalogs, key, k);
    match worker
    case JobReleasing(at, model, j, messages) =>
      NextIndexIsUnclaimed(catalogs, at, j);
      TakeOverIsHarmless(catalogs, s, v, at, model, j, messages, key, k, claimedAt);
    case JobFinishing(at, model, next, messages) =>
      FinishRowIsHarmless(s, v, at, model, next, messages, key, k, claimedAt);
    case JobClaiming(at, model, j, messages) =>
      NextIndexIsUnclaimed(catalogs, at, j);
      ClaimIsHarmless(s, v, at, model, j, messages, key, k, claimedAt);
    case JobAbandoning(at, j) =>
      NextIndexIsUnclaimed(catalogs, at, j);
      AbandonIsHarmless(s, v, at, j, outcome, key, k, claimedAt);
    case JobWriting(at, model, j, messages) =>
      WriteIsHarmless(catalogs, s, v, at, model, j, messages, key, k, claimedAt);
  }

  /** A harmless worker's step leaves it harmless, unless it gives up the claim it translates under. */
  lemma OwnStepIsHarmless(catalogs: Catalogs, s: State, v: nat, outcome: Outcome, key: Key, k: nat, claimedAt: int)
    requires Manageable(catalogs) && v in s.workers && WorkerOk(catalogs, s.workers[v])
    requires k < |BatchesOf(catalogs, key)|
    requires Guarded(s.rows, key, k, claimedAt) && IsInLease(s.now, claimedAt)
    requires IsHarmless(s.workers[v], key, k, claimedAt)
    ensures var t := Apply(catalogs, s, Advance(v, outcome));
      && Guarded(t.rows, key, k, claimedAt)
      && (v in t.workers ==> Threatens(t.workers[v], key, k, claimedAt) ==>
            IsTranslating(s.workers[v], key, k) && IsAbandoning(t.workers[v], key, k))
  {
    hide AdvanceRequest, Guarded, IsInLease, WorkerOk, Translate, BatchesOf;
    var worker := s.workers[v];
    if IsRequest(worker) {
      RequestStepIsHarmless(s, v, worker, outcome, key, k, claimedAt);
    } else if worker.JobTranslating? {
      TranslateIsHarmless(catalogs, s, v, worker.key, worker.model, worker.batchIndex, worker.messages, outcome, key,
                          k, claimedAt);
    } else {
      hide AdvanceJob;
      if IsChanging(worker) || worker.JobWriting? {
        ChangingIsHarmless(catalogs, s, v, worker, outcome, key, k, claimedAt);
      } else {
        ReadingIsHarmless(catalogs, s, v, worker, outcome, key, k, claimedAt);
      }
    }
  }

  lemma OthersKeepGuard(catalogs: Catalogs, s: State, action: Action, key: Key, k: nat, claimedAt: int)
    requires !action.Advance? && Guarded(s.rows, key, k, claimedAt) && IsInLease(s.now, claimedAt)
    ensures Guarded(Apply(catalogs, s, action).rows, key, k, claimedAt)
    ensures forall v :: IsBy(v, action) && v in Apply(catalogs, s, action).workers && v !in s.workers ==>
              !Threatens(Apply(catalogs, s, action).workers[v], key, k, claimedAt)
    ensures forall v :: v in s.workers && v in Apply(catalogs, s, action).workers ==>
              Apply(catalogs, s, action).workers[v] == s.workers[v]
  {
    hide Guarded, IsInLease, WithoutExpired;
    GuardedRowIsNotReplaced(s.rows, s.now, key, k, claimedAt, key, "", PENDING_TTL_SECONDS);
  }

  /** The worker that acts threatens nobody afterwards, or goes on translating under the claim. */
  lemma ActorStaysHarmless(catalogs: Catalogs, s: State, v: nat, action: Action, key: Key, k: nat, claimedAt: int)
    requires Manageable(catalogs) && Safe(catalogs, s) && k < |BatchesOf(catalogs, key)|
    requires Guarded(s.rows, key, k, claimedAt) && IsInLease(s.now, claimedAt)
    requires IsBy(v, action) && (v in s.workers ==> IsHarmless(s.workers[v], key, k, claimedAt))
    ensures var t := Apply(catalogs, s, action);
      && Guarded(t.rows, key, k, claimedAt)
      && (v in t.workers ==>
            || !Threatens(t.workers[v], key, k, claimedAt)
            || (v in s.workers && IsTranslating(s.workers[v], key, k)
                && (IsAbandoning(t.workers[v], key, k) || t.workers[v] == s.workers[v])))
  {
    hide Apply, Guarded, IsInLease, Threatens, IsTranslating, IsAbandoning;
    hide WorkerOk, RowsOk, CacheOk, ResponsesOk, BatchesOf;
    if action.Advance? && v in s.workers {
      OwnStepIsHarmless(catalogs, s, v, action.outcome, key, k, claimedAt);
    } else if action.Advance? {
      NothingAdvances(catalogs, s, action);
    } else {
      OthersKeepGuard(catalogs, s, action, key, k, claimedAt);
    }
  }

  lemma NothingAdvances(catalogs: Catalogs, s: State, action: Action)
    requires action.Advance? && action.worker !in s.workers
    ensures Apply(catalogs, s, action) == s
  {
    hide AdvanceRequest, AdvanceJob;
  }

  lemma TranslatingThreatens(worker: Worker, key: Key, k: nat, claimedAt: int)
    requires IsTranslating(worker, key, k)
    ensures Threatens(worker, key, k, claimedAt)
  {
  }

  /** Who acts, if anyone. */
  function Actor(action: Action): Option<nat> {
    match action
    case Request(w, _, _) => Some(w)
    case Deliver(w, _, _) => Some(w)
    case Advance(w, _) => Some(w)
    case Crash(w) => Some(w)
    case _ => None
  }

  lemma ActionKeepsGuard(catalogs: Catalogs, s: State, w: nat, action: Action, key: Key, k: nat, claimedAt: int)
    requires Manageable(catalogs) && Safe(catalogs, s) && k < |BatchesOf(catalogs, key)|
    requires Kept(s, w, key, k, claimedAt)
    ensures Guarded(Apply(catalogs, s, action).rows, key, k, claimedAt)
  {
    hide Apply, Guarded, IsInLease, Threatens, Safe, BatchesOf;
    if Actor(action).Some? {
      var v := Actor(action).value;
      ActorStaysHarmless(catalogs, s, v, action, key, k, claimedAt);
    } else {
      OthersKeepGuard(catalogs, s, action, key, k, claimedAt);
    }
  }

  lemma ActionKeepsClaim(catalogs: Catalogs, s: State, w: nat, action: Action, key: Key, k: nat, claimedAt: int)
    requires Manageable(catalogs) && Safe(catalogs, s) && k < |BatchesOf(catalogs, key)|
    requires Kept(s, w, key, k, claimedAt)
    requires var t := Apply(catalogs, s, action);
      IsInLease(t.now, claimedAt) && (w in t.workers ==> !IsAbandoning(t.workers[w], key, k))
    ensures Kept(Apply(catalogs, s, action), w, key, k, claimedAt)
  {
    hide Apply, Guarded, IsInLease, Threatens, IsTranslating, IsAbandoning, Safe, BatchesOf;
    var t := Apply(catalogs, s, action);
    ActionKeepsGuard(catalogs, s, w, action, key, k, claimedAt);
    forall v | v in t.workers
      ensures v != w ==> !Threatens(t.workers[v], key, k, claimedAt)
      ensures v == w ==> IsHarmless(t.workers[v], key, k, claimedAt)
    {
      if IsBy(v, action) {
        ActorStaysHarmless(catalogs, s, v, action, key, k, claimedAt);
        if v in s.workers && IsTranslating(s.workers[v], key, k) {
          TranslatingThreatens(s.workers[v], key, k, claimedAt);
        }
      } else {
        OthersLeaveWorker(catalogs, s, v, action);
      }
    }
  }

  /** A claim that nobody threatens when it is made is kept to the end of its lease. */
  lemma {:induction false} ClaimIsKept(catalogs: Catalogs, s: State, w: nat, key: Key, k: nat, actions: seq<Action>)
    requires Manageable(catalogs) && Safe(catalogs, s) && k < |BatchesOf(catalogs, key)|
    requires Kept(s, w, key, k, s.now) && IsWithinLease(catalogs, s, w, key, k, actions)
    ensures Kept(Run(catalogs, s, actions), w, key, k, s.now)
  {
    hide Apply, Safe, Guarded, IsAbandoning, NobodyThreatens, IsHarmless, BatchesOf;
    if actions != [] {
      var before, action := actions[..|actions| - 1], actions[|actions| - 1];
      TimeGoesOn(catalogs, Run(catalogs, s, before), action);
      assert forall n :: 0 <= n <= |before| ==> before[..n] == actions[..n];
      ClaimIsKept(catalogs, s, w, key, k, before);
      RunKeepsSafe(catalogs, s, before);
      assert actions[..|actions|] == actions;
      ActionKeepsClaim(catalogs, Run(catalogs, s, before), w, action, key, k, s.now);
      TimeOnlyPasses(catalogs, s, actions);
    }
  }
}
