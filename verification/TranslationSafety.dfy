/** What every reachable state of the translation machine satisfies. */
module TranslationSafety {
  import opened Common
  import opened Batching
  import opened Placeholders
  import opened TranslationStore
  import opened TranslationMachine

  // ---------- the invariant ----------

  /** `messages` translates exactly the batches before batch `k`. */
  ghost predicate TranslatesUpTo(batches: seq<Batch>, k: nat, messages: Messages) {
    k <= |batches| && Translates(Flatten(batches[..k]), messages)
  }

  /** Batch `k` is still to be translated; only a catalog without batches has none to wait for. */
  ghost predicate IsNext(batches: seq<Batch>, k: nat) {
    k < |batches| || k == |batches| == 0
  }

  ghost predicate ContentOk(catalogs: Catalogs, key: Key, status: Status, nextBatchIndex: nat, messages: Messages) {
    if status.Ready? then Translates(catalogs(key.checksum), messages)
    else
      var k := BatchIndexFromStore(nextBatchIndex);
      IsNext(BatchesOf(catalogs, key), k) && TranslatesUpTo(BatchesOf(catalogs, key), k, messages)
  }

  ghost predicate RowOk(catalogs: Catalogs, now: int, key: Key, row: Row) {
    && key.language in ALLOWED_LANGUAGES
    && ContentOk(catalogs, key, row.status, row.nextBatchIndex, row.messages)
    && row.updatedAt <= now
    && row.updatedAt + PENDING_TTL_SECONDS <= row.expiresAt
  }

  ghost predicate RowsOk(catalogs: Catalogs, now: int, rows: Rows) {
    forall key :: key in rows ==> RowOk(catalogs, now, key, rows[key])
  }

  ghost predicate SnapshotOk(catalogs: Catalogs, entry: Snapshot) {
    ContentOk(catalogs, entry.key, entry.status, entry.nextBatchIndex, entry.messages)
  }

  ghost predicate ReadySnapshot(catalogs: Catalogs, key: Key, entry: Snapshot) {
    entry.key == key && entry.status.Ready? && SnapshotOk(catalogs, entry)
  }

  /** The latest ready row of the language, possibly of another checksum. */
  ghost predicate LatestOk(catalogs: Catalogs, key: Key, latest: Option<Snapshot>) {
    latest.Some? ==>
      latest.value.key.language == key.language && latest.value.status.Ready? && SnapshotOk(catalogs, latest.value)
  }

  /** A worker knows the messages of all batches before `batchIndex`, and that batch exists. */
  ghost predicate Holds(catalogs: Catalogs, key: Key, batchIndex: nat, messages: Messages) {
    batchIndex < |BatchesOf(catalogs, key)| && TranslatesUpTo(BatchesOf(catalogs, key), batchIndex, messages)
  }

  /** What a worker holds is right whatever has happened to the row since it was read. */
  ghost predicate WorkerOk(catalogs: Catalogs, worker: Worker) {
    && worker.key.language in ALLOWED_LANGUAGES
    && match worker
       case RequestReadLatest(key, _, latest) => LatestOk(catalogs, key, latest)
       case RequestRefreshing(key, entry) => ReadySnapshot(catalogs, key, entry)
       case RequestInserting(key, _, latest, _) => LatestOk(catalogs, key, latest)
       case RequestInserted(key, latest, entry) =>
         LatestOk(catalogs, key, latest) && entry.key == key && SnapshotOk(catalogs, entry)
       case RequestUndoing(key, latest) => LatestOk(catalogs, key, latest)
       case RequestLostInsert(key, latest) => LatestOk(catalogs, key, latest)
       case RequestQueued(key, latest, entry) =>
         LatestOk(catalogs, key, latest) && entry.key == key && SnapshotOk(catalogs, entry)
       case RequestTouchingReady(key, latest, entry) =>
         LatestOk(catalogs, key, latest) && ReadySnapshot(catalogs, key, entry)
       case RequestRequeueing(key, latest, entry) => LatestOk(catalogs, key, latest)
       case RequestTouchingPending(key, latest) => LatestOk(catalogs, key, latest)
       case RequestPublishing(key, entry) => ReadySnapshot(catalogs, key, entry)
       case JobRead(key, _, _, entry) => entry.key == key && entry.status.Pending? && SnapshotOk(catalogs, entry)
       case JobReleasing(key, _, batchIndex, messages) =>
         IsNext(BatchesOf(catalogs, key), batchIndex) && TranslatesUpTo(BatchesOf(catalogs, key), batchIndex, messages)
       case JobFinishing(key, _, next, messages) =>
         next == |BatchesOf(catalogs, key)| == 0 && Translates(catalogs(key.checksum), messages)
       case JobClaiming(key, _, batchIndex, messages) => Holds(catalogs, key, batchIndex, messages)
       case JobTranslating(key, _, batchIndex, messages) => Holds(catalogs, key, batchIndex, messages)
       case JobAbandoning(key, batchIndex) => batchIndex < |BatchesOf(catalogs, key)|
       case JobWriting(key, _, batchIndex, messages) =>
         batchIndex < |BatchesOf(catalogs, key)| && TranslatesUpTo(BatchesOf(catalogs, key), batchIndex + 1, messages)
       case JobPublishing(key, entry) => ReadySnapshot(catalogs, key, entry)
       case _ => true
  }

  /** A payload is a full translation of the catalog whose checksum it names. */
  ghost predicate PayloadOk(catalogs: Catalogs, payload: Payload) {
    Translates(catalogs(payload.checksum), payload.messages)
  }

  ghost predicate ResponseOk(catalogs: Catalogs, response: Response) {
    response.Served? ==>
      && PayloadOk(catalogs, response.payload)
      && (!response.stale ==> response.payload.checksum == response.key.checksum)
  }

  ghost predicate CacheOk(catalogs: Catalogs, now: int, cache: map<Key, Cached>) {
    forall key :: key in cache ==>
      && PayloadOk(catalogs, cache[key].payload)
      && cache[key].payload.checksum == key.checksum
      && cache[key].expiresAt <= now + CACHE_TTL_SECONDS
  }

  ghost predicate WorkersOk(catalogs: Catalogs, workers: map<nat, Worker>) {
    forall w :: w in workers ==> WorkerOk(catalogs, workers[w])
  }

  ghost predicate ResponsesOk(catalogs: Catalogs, responses: seq<Response>) {
    forall i :: 0 <= i < |responses| ==> ResponseOk(catalogs, responses[i])
  }

  /** No catalog has so many batches that an unclaimed index could pass for a claim. */
  ghost predicate Manageable(catalogs: Catalogs) {
    forall checksum: string :: |Batches(catalogs(checksum))| < CLAIM_OFFSET
  }

  ghost predicate Safe(catalogs: Catalogs, s: State) {
    && RowsOk(catalogs, s.now, s.rows)
    && CacheOk(catalogs, s.now, s.cache)
    && WorkersOk(catalogs, s.workers)
    && ResponsesOk(catalogs, s.responses)
  }

  // ---------- the statements keep the table right ----------

  lemma NothingTranslatesNothing(batches: seq<Batch>)
    ensures TranslatesUpTo(batches, 0, map[])
  {
    assert batches[..0] == [];
  }

  lemma InsertedRowsOk(catalogs: Catalogs, now: int, rows: Rows, key: Key, model: string)
    requires RowsOk(catalogs, now, rows) && key.language in ALLOWED_LANGUAGES
    ensures RowsOk(catalogs, now, Inserted(rows, now, key, model))
    ensures ContentOk(catalogs, key, Pending, 0, map[])
  {
    NothingTranslatesNothing(BatchesOf(catalogs, key));
  }

  lemma ClaimedRowsOk(catalogs: Catalogs, now: int, rows: Rows, key: Key, batchIndex: nat)
    requires RowsOk(catalogs, now, rows) && batchIndex < CLAIM_OFFSET
    ensures RowsOk(catalogs, now, Claimed(rows, now, key, batchIndex))
  {
    hide IsNext, TranslatesUpTo;
    if IsClaimable(rows, now, key, batchIndex) {
      assert RowOk(catalogs, now, key, rows[key]);
      MarkersAreUnambiguous(batchIndex);
    }
  }

  lemma ReleasedRowsOk(catalogs: Catalogs, now: int, rows: Rows, key: Key, batchIndex: nat)
    requires RowsOk(catalogs, now, rows) && batchIndex < CLAIM_OFFSET
    ensures RowsOk(catalogs, now, Released(rows, now, key, batchIndex))
  {
    hide IsNext, TranslatesUpTo;
    if IsReleasable(rows, key, batchIndex) {
      assert RowOk(catalogs, now, key, rows[key]);
      MarkersAreUnambiguous(batchIndex);
    }
  }

  /** All batches together are the catalog. */
  lemma AllBatchesAreTheCatalog(catalogs: Catalogs, key: Key, messages: Messages)
    requires TranslatesUpTo(BatchesOf(catalogs, key), |BatchesOf(catalogs, key)|, messages)
    ensures Translates(catalogs(key.checksum), messages)
  {
    var batches := BatchesOf(catalogs, key);
    BatchesAreASplit(catalogs(key.checksum));
    assert batches[..|batches|] == batches;
  }

  lemma StoredContentOk(catalogs: Catalogs, key: Key, batchIndex: nat, messages: Messages)
    requires Manageable(catalogs)
    requires batchIndex < |BatchesOf(catalogs, key)|
    requires TranslatesUpTo(BatchesOf(catalogs, key), batchIndex + 1, messages)
    ensures ContentOk(catalogs, key, StatusAfter(catalogs, key, batchIndex), batchIndex + 1, messages)
  {
    if batchIndex + 1 == |BatchesOf(catalogs, key)| {
      AllBatchesAreTheCatalog(catalogs, key, messages);
    } else {
      assert |Batches(catalogs(key.checksum))| < CLAIM_OFFSET;
    }
  }

  /** Translating batch `k` extends the messages of the batches before it. */
  lemma TranslatedUpToNext(catalogs: Catalogs, key: Key, batchIndex: nat, messages: Messages, replies: seq<Reply>)
    requires Holds(catalogs, key, batchIndex, messages)
    requires TranslateBatch(BatchesOf(catalogs, key)[batchIndex], replies).Some?
    ensures TranslatesUpTo(BatchesOf(catalogs, key), batchIndex + 1,
                           messages + TranslateBatch(BatchesOf(catalogs, key)[batchIndex], replies).value)
  {
    hide TranslateBatch, Translates, Batches;
    var batches := BatchesOf(catalogs, key);
    var batch := batches[batchIndex];
    TranslateBatchTranslates(batch, replies);
    MergedMessagesTranslate(Flatten(batches[..batchIndex]), batch, messages, TranslateBatch(batch, replies).value);
    assert batches[..batchIndex + 1] == batches[..batchIndex] + [batch];
    FlattenSnoc(batches[..batchIndex], batch);
  }

  // ---------- the parts of a step ----------

  lemma GotoKeepsSafe(catalogs: Catalogs, s: State, w: nat, worker: Worker)
    requires Safe(catalogs, s) && WorkerOk(catalogs, worker)
    ensures Safe(catalogs, Goto(s, w, worker))
  {
    hide WorkerOk, RowOk, PayloadOk, ResponseOk;
  }

  lemma FallBackKeepsSafe(catalogs: Catalogs, s: State, w: nat, key: Key, latest: Option<Snapshot>)
    requires Safe(catalogs, s) && LatestOk(catalogs, key, latest)
    ensures Safe(catalogs, FallBack(s, w, key, latest))
    ensures Safe(catalogs, AnswerPending(s, w, key, latest))
  {
    hide WorkerOk, RowOk, IsNext, TranslatesUpTo, Translates;
  }

  lemma PublishKeepsSafe(catalogs: Catalogs, s: State, w: nat, key: Key, entry: Snapshot, outcome: Outcome)
    requires Safe(catalogs, s) && ReadySnapshot(catalogs, key, entry)
    ensures Safe(catalogs, Publish(s, w, key, entry, outcome))
    ensures Safe(catalogs, Finish(PutInCache(s, key, PayloadOf(entry)), w))
  {
    hide WorkerOk, RowOk, IsNext, TranslatesUpTo, Translates;
  }

  lemma UseLatestKeepsSafe(catalogs: Catalogs, s: State, w: nat, key: Key, model: string, latest: Option<Snapshot>)
    requires Safe(catalogs, s) && LatestOk(catalogs, key, latest) && key.language in ALLOWED_LANGUAGES
    ensures Safe(catalogs, UseLatest(s, w, key, model, latest))
  {
    hide RowOk, IsNext, TranslatesUpTo, Translates, Safe;
    FallBackKeepsSafe(catalogs, s, w, key, latest);
    GotoKeepsSafe(catalogs, s, w, RequestInserting(key, model, latest, s.now));
    if latest.Some? && latest.value.key == key {
      GotoKeepsSafe(catalogs, s, w, RequestPublishing(key, latest.value));
      GotoKeepsSafe(catalogs, s, w, RequestRefreshing(key, latest.value));
    }
  }

  lemma InsertKeepsSafe(catalogs: Catalogs, s: State, w: nat, key: Key, model: string, latest: Option<Snapshot>,
                        startedAt: int)
    requires Safe(catalogs, s) && LatestOk(catalogs, key, latest) && key.language in ALLOWED_LANGUAGES
    ensures Safe(catalogs, Insert(s, w, key, model, latest, startedAt))
  {
    hide RowOk, ContentOk;
    if Live(s.rows, s.now, key) {
      GotoKeepsSafe(catalogs, s, w, RequestLostInsert(key, latest));
    } else {
      InsertedRowsOk(catalogs, s.now, s.rows, key, model);
      var inserted := s.(rows := Inserted(s.rows, s.now, key, model), generations := NextGeneration(s, key));
      GotoKeepsSafe(catalogs, inserted, w,
                    RequestInserted(key, latest, Snapshot(key, model, Pending, map[], 0, startedAt)));
    }
  }

  lemma UseQueuedKeepsSafe(catalogs: Catalogs, s: State, w: nat, key: Key, latest: Option<Snapshot>, entry: Snapshot)
    requires Safe(catalogs, s) && LatestOk(catalogs, key, latest) && key.language in ALLOWED_LANGUAGES
    requires entry.key == key && SnapshotOk(catalogs, entry)
    ensures Safe(catalogs, UseQueued(s, w, key, latest, entry))
  {
    hide Safe, ContentOk;
    FallBackKeepsSafe(catalogs, s, w, key, latest);
    if entry.status.Ready? { GotoKeepsSafe(catalogs, s, w, RequestTouchingReady(key, latest, entry)); }
    GotoKeepsSafe(catalogs, s, w, RequestRequeueing(key, latest, entry));
  }

  lemma RequeueKeepsSafe(catalogs: Catalogs, s: State, w: nat, key: Key, latest: Option<Snapshot>, entry: Snapshot)
    requires Safe(catalogs, s) && LatestOk(catalogs, key, latest) && key.language in ALLOWED_LANGUAGES
    ensures Safe(catalogs, Requeue(s, w, key, latest, entry))
  {
    hide ContentOk, RowOk;
    var requeued := s.(sent := s.sent + {QueueMessage(key, entry.model, BatchIndexFromStore(entry.nextBatchIndex))});
    FallBackKeepsSafe(catalogs, requeued, w, key, latest);
    GotoKeepsSafe(catalogs, requeued, w, RequestTouchingPending(key, latest));
  }

  lemma TouchedRowsOk(catalogs: Catalogs, now: int, rows: Rows, key: Key, ttlSeconds: int)
    requires RowsOk(catalogs, now, rows) && ttlSeconds >= PENDING_TTL_SECONDS
    ensures RowsOk(catalogs, now, Touched(rows, now, key, ttlSeconds))
  {
    hide ContentOk;
  }

  /** A row still in the table is read as it stands. */
  lemma ReadRowIsOk(catalogs: Catalogs, s: State, key: Key)
    requires Safe(catalogs, s) && key in s.rows
    ensures SnapshotOk(catalogs, SnapshotOf(s.rows, key))
  {
    assert RowOk(catalogs, s.now, key, s.rows[key]);
  }

  lemma RequestStartKeepsSafe(catalogs: Catalogs, s: State, w: nat, key: Key, model: string, outcome: Outcome)
    requires Safe(catalogs, s) && w in s.workers && key.language in ALLOWED_LANGUAGES
    ensures Safe(catalogs, AdvanceRequest(s, w, RequestStarted(key, model), outcome))
    ensures Safe(catalogs, AdvanceRequest(s, w, RequestMissedCache(key, model), outcome))
  {
    hide ContentOk;
    if outcome.Latest? && outcome.key.Some? && IsLatestReady(s.rows, s.now, key.language, outcome.key) {
      ReadRowIsOk(catalogs, s, outcome.key.value);
      GotoKeepsSafe(catalogs, s, w, RequestReadLatest(key, model, Some(SnapshotOf(s.rows, outcome.key.value))));
    }
  }

  lemma TouchKeepsSafe(catalogs: Catalogs, s: State, key: Key, ttlSeconds: int)
    requires Safe(catalogs, s) && ttlSeconds >= PENDING_TTL_SECONDS
    ensures Safe(catalogs, s.(rows := Touched(s.rows, s.now, key, ttlSeconds)))
  {
    hide RowsOk, CacheOk, WorkersOk, ResponsesOk, Touched;
    TouchedRowsOk(catalogs, s.now, s.rows, key, ttlSeconds);
  }

  lemma SendingKeepsSafe(catalogs: Catalogs, s: State, message: QueueMessage)
    requires Safe(catalogs, s)
    ensures Safe(catalogs, s.(sent := s.sent + {message}))
  {
    hide RowsOk, CacheOk, WorkersOk, ResponsesOk;
  }

  lemma DeletingKeepsSafe(catalogs: Catalogs, s: State, key: Key)
    requires Safe(catalogs, s)
    ensures Safe(catalogs, s.(rows := s.rows - {key}))
  {
    hide RowOk, CacheOk, WorkersOk, ResponsesOk;
  }

  lemma RequestTouchKeepsSafe(catalogs: Catalogs, s: State, w: nat, worker: Worker, outcome: Outcome)
    requires Safe(catalogs, s) && w in s.workers && WorkerOk(catalogs, worker)
    requires worker.RequestRefreshing? || worker.RequestTouchingReady? || worker.RequestTouchingPending?
    ensures Safe(catalogs, AdvanceRequest(s, w, worker, outcome))
  {
    hide ContentOk, Safe, Goto, FallBack, AnswerPending, Touched;
    match worker
    case RequestRefreshing(key, entry) =>
      TouchKeepsSafe(catalogs, s, entry.key, TtlSeconds(entry.status));
      GotoKeepsSafe(catalogs, s.(rows := Touched(s.rows, s.now, entry.key, TtlSeconds(entry.status))), w,
                    RequestPublishing(key, entry));
    case RequestTouchingReady(key, latest, entry) =>
      FallBackKeepsSafe(catalogs, s, w, key, latest);
      TouchKeepsSafe(catalogs, s, key, READY_TTL_SECONDS);
      GotoKeepsSafe(catalogs, s.(rows := Touched(s.rows, s.now, key, READY_TTL_SECONDS)), w,
                    RequestPublishing(key, entry));
    case RequestTouchingPending(key, latest) =>
      FallBackKeepsSafe(catalogs, s, w, key, latest);
      TouchKeepsSafe(catalogs, s, key, PENDING_TTL_SECONDS);
      FallBackKeepsSafe(catalogs, s.(rows := Touched(s.rows, s.now, key, PENDING_TTL_SECONDS)), w, key, latest);
  }

  lemma LiveRowIsOk(catalogs: Catalogs, s: State, key: Key)
    requires Safe(catalogs, s) && Live(s.rows, s.now, key)
    ensures key in s.rows && SnapshotOk(catalogs, SnapshotOf(s.rows, key))
  {
    hide Safe, SnapshotOk;
    ReadRowIsOk(catalogs, s, key);
  }

  lemma RequestQueueKeepsSafe(catalogs: Catalogs, s: State, w: nat, worker: Worker, outcome: Outcome)
    requires Safe(catalogs, s) && w in s.workers && WorkerOk(catalogs, worker)
    requires worker.RequestInserted? || worker.RequestUndoing? || worker.RequestLostInsert?
    ensures Safe(catalogs, AdvanceRequest(s, w, worker, outcome))
  {
    hide ContentOk, Safe, Goto, FallBack, Live;
    match worker
    case RequestInserted(key, latest, entry) =>
      GotoKeepsSafe(catalogs, s, w, RequestUndoing(key, latest));
      SendingKeepsSafe(catalogs, s, QueueMessage(key, entry.model, 0));
      GotoKeepsSafe(catalogs, s.(sent := s.sent + {QueueMessage(key, entry.model, 0)}), w,
                    RequestQueued(key, latest, entry));
    case RequestUndoing(key, latest) =>
      FallBackKeepsSafe(catalogs, s, w, key, latest);
      DeletingKeepsSafe(catalogs, s, key);
      FallBackKeepsSafe(catalogs, s.(rows := s.rows - {key}), w, key, latest);
    case RequestLostInsert(key, latest) =>
      FallBackKeepsSafe(catalogs, s, w, key, latest);
      if Live(s.rows, s.now, key) {
        LiveRowIsOk(catalogs, s, key);
        GotoKeepsSafe(catalogs, s, w, RequestQueued(key, latest, SnapshotOf(s.rows, key)));
      }
  }

  lemma RequestStepKeepsSafe(catalogs: Catalogs, s: State, w: nat, outcome: Outcome)
    requires Safe(catalogs, s) && w in s.workers && IsRequest(s.workers[w])
    ensures Safe(catalogs, AdvanceRequest(s, w, s.workers[w], outcome))
  {
    hide ContentOk, RowOk, CacheOk, ResponsesOk, RowsOk;
    var worker := s.workers[w];
    assert WorkerOk(catalogs, worker);
    match worker
    case RequestStarted(key, model) => RequestStartKeepsSafe(catalogs, s, w, key, model, outcome);
    case RequestMissedCache(key, model) => RequestStartKeepsSafe(catalogs, s, w, key, model, outcome);
    case RequestReadLatest(key, model, latest) => UseLatestKeepsSafe(catalogs, s, w, key, model, latest);
    case RequestInserting(key, model, latest, startedAt) =>
      InsertKeepsSafe(catalogs, s, w, key, model, latest, startedAt);
      FallBackKeepsSafe(catalogs, s, w, key, latest);
    case RequestQueued(key, latest, entry) => UseQueuedKeepsSafe(catalogs, s, w, key, latest, entry);
    case RequestRequeueing(key, latest, entry) =>
      RequeueKeepsSafe(catalogs, s, w, key, latest, entry);
      FallBackKeepsSafe(catalogs, s, w, key, latest);
    case RequestPublishing(key, entry) => PublishKeepsSafe(catalogs, s, w, key, entry, outcome);
    case RequestRefreshing(_, _) => RequestTouchKeepsSafe(catalogs, s, w, worker, outcome);
    case RequestTouchingReady(_, _, _) => RequestTouchKeepsSafe(catalogs, s, w, worker, outcome);
    case RequestTouchingPending(_, _) => RequestTouchKeepsSafe(catalogs, s, w, worker, outcome);
    case RequestInserted(_, _, _) => RequestQueueKeepsSafe(catalogs, s, w, worker, outcome);
    case RequestUndoing(_, _) => RequestQueueKeepsSafe(catalogs, s, w, worker, outcome);
    case RequestLostInsert(_, _) => RequestQueueKeepsSafe(catalogs, s, w, worker, outcome);
  }

  // ---------- the steps of a queue delivery ----------

  lemma ProceedKeepsSafe(catalogs: Catalogs, s: State, w: nat, key: Key, model: string, batchIndex: nat, next: nat,
                         messages: Messages)
    requires Safe(catalogs, s) && key.language in ALLOWED_LANGUAGES
    requires IsNext(BatchesOf(catalogs, key), next) && TranslatesUpTo(BatchesOf(catalogs, key), next, messages)
    ensures Safe(catalogs, Proceed(catalogs, s, w, key, model, batchIndex, next, messages))
  {
    hide Safe, TranslatesUpTo, Translates, Batches;
    if next >= |BatchesOf(catalogs, key)| {
      AllBatchesAreTheCatalog(catalogs, key, messages);
      GotoKeepsSafe(catalogs, s, w, JobFinishing(key, model, next, messages));
    } else if batchIndex == next {
      GotoKeepsSafe(catalogs, s, w, JobClaiming(key, model, batchIndex, messages));
    } else {
      GotoKeepsSafe(catalogs, s, w, JobForwarding(key, model, next));
      FinishKeepsSafe(catalogs, s, w);
    }
  }

  lemma FinishKeepsSafe(catalogs: Catalogs, s: State, w: nat)
    requires Safe(catalogs, s)
    ensures Safe(catalogs, Finish(s, w))
  {
  }

  lemma NotedKeepsSafe(catalogs: Catalogs, s: State, w: nat, key: Key)
    requires Safe(catalogs, s)
    ensures Safe(catalogs, Noted(s, w, key))
  {
    hide WorkerOk, RowOk, PayloadOk, ResponseOk;
  }

  lemma ReadRowKeepsSafe(catalogs: Catalogs, s: State, w: nat, key: Key, model: string, batchIndex: nat)
    requires Safe(catalogs, s) && key.language in ALLOWED_LANGUAGES
    ensures Safe(catalogs, ReadRow(s, w, key, model, batchIndex))
  {
    hide Safe, ContentOk;
    FinishKeepsSafe(catalogs, s, w);
    if Live(s.rows, s.now, key) {
      ReadRowIsOk(catalogs, s, key);
      var entry := SnapshotOf(s.rows, key);
      if entry.status.Ready? {
        GotoKeepsSafe(catalogs, s, w, JobPublishing(key, entry));
      } else {
        NotedKeepsSafe(catalogs, s, w, key);
        GotoKeepsSafe(catalogs, Noted(s, w, key), w, JobRead(key, model, batchIndex, entry));
      }
    }
  }

  lemma UseRowKeepsSafe(catalogs: Catalogs, s: State, w: nat, key: Key, model: string, batchIndex: nat, entry: Snapshot)
    requires Safe(catalogs, s) && key.language in ALLOWED_LANGUAGES
    requires entry.key == key && entry.status.Pending? && SnapshotOk(catalogs, entry)
    ensures Safe(catalogs, UseRow(catalogs, s, w, key, model, batchIndex, entry))
  {
    hide Safe, TranslatesUpTo, IsNext;
    FinishKeepsSafe(catalogs, s, w);
    MarkersAreUnambiguous(entry.nextBatchIndex);
    var k := BatchIndexFromStore(entry.nextBatchIndex);
    if ClaimedBatchIndex(entry.nextBatchIndex).None? {
      ProceedKeepsSafe(catalogs, s, w, key, model, batchIndex, k, entry.messages);
    } else if batchIndex == k {
      GotoKeepsSafe(catalogs, s, w, JobReleasing(key, model, batchIndex, entry.messages));
    }
  }

  /** An index with a batch, or the index of an empty catalog, is below the claim markers. */
  lemma NextIndexIsUnclaimed(catalogs: Catalogs, key: Key, batchIndex: nat)
    requires Manageable(catalogs) && IsNext(BatchesOf(catalogs, key), batchIndex)
    ensures batchIndex < CLAIM_OFFSET
  {
    hide Batches;
    assert |Batches(catalogs(key.checksum))| < CLAIM_OFFSET;
  }

  lemma TakeOverKeepsSafe(catalogs: Catalogs, s: State, w: nat, key: Key, model: string, batchIndex: nat,
                          messages: Messages)
    requires Manageable(catalogs) && Safe(catalogs, s) && key.language in ALLOWED_LANGUAGES
    requires IsNext(BatchesOf(catalogs, key), batchIndex)
    requires TranslatesUpTo(BatchesOf(catalogs, key), batchIndex, messages)
    ensures Safe(catalogs, TakeOver(catalogs, s, w, key, model, batchIndex, messages))
  {
    hide ContentOk, RowOk, TranslatesUpTo, IsNext, WorkersOk, CacheOk, ResponsesOk;
    FinishKeepsSafe(catalogs, s, w);
    NextIndexIsUnclaimed(catalogs, key, batchIndex);
    ReleasedRowsOk(catalogs, s.now, s.rows, key, batchIndex);
    ProceedKeepsSafe(catalogs, s.(rows := Released(s.rows, s.now, key, batchIndex)), w, key, model, batchIndex,
                     batchIndex, messages);
  }

  lemma FinishRowKeepsSafe(catalogs: Catalogs, s: State, w: nat, key: Key, model: string, next: nat, messages: Messages)
    requires Safe(catalogs, s) && key.language in ALLOWED_LANGUAGES
    requires Translates(catalogs(key.checksum), messages)
    ensures Safe(catalogs, FinishRow(s, w, key, model, next, messages))
  {
    hide Translates, IsNext, TranslatesUpTo, WorkersOk, CacheOk, ResponsesOk;
    var rows := Upserted(s.rows, s.now, key, model, messages, next);
    assert RowsOk(catalogs, s.now, rows);
    var finished := s.(rows := rows, generations := if key in s.rows then s.generations else NextGeneration(s, key));
    GotoKeepsSafe(catalogs, finished, w, JobPublishing(key, Snapshot(key, model, Ready, messages, next, s.now)));
  }

  lemma ClaimBatchKeepsSafe(catalogs: Catalogs, s: State, w: nat, key: Key, model: string, batchIndex: nat,
                            messages: Messages)
    requires Manageable(catalogs) && Safe(catalogs, s) && key.language in ALLOWED_LANGUAGES
    requires Holds(catalogs, key, batchIndex, messages)
    ensures Safe(catalogs, ClaimBatch(s, w, key, model, batchIndex, messages))
  {
    hide RowOk, TranslatesUpTo, WorkersOk, CacheOk, ResponsesOk;
    FinishKeepsSafe(catalogs, s, w);
    NextIndexIsUnclaimed(catalogs, key, batchIndex);
    ClaimedRowsOk(catalogs, s.now, s.rows, key, batchIndex);
    GotoKeepsSafe(catalogs, s.(rows := Claimed(s.rows, s.now, key, batchIndex)), w,
                  JobTranslating(key, model, batchIndex, messages));
  }

  lemma TranslateKeepsSafe(catalogs: Catalogs, s: State, w: nat, key: Key, model: string, batchIndex: nat,
                           messages: Messages, outcome: Outcome)
    requires Safe(catalogs, s) && key.language in ALLOWED_LANGUAGES
    requires Holds(catalogs, key, batchIndex, messages)
    ensures Safe(catalogs, Translate(catalogs, s, w, key, model, batchIndex, messages, outcome))
  {
    hide Safe, TranslatesUpTo, TranslateBatch;
    GotoKeepsSafe(catalogs, s, w, JobAbandoning(key, batchIndex));
    if outcome.Answers? {
      var translated := TranslateBatch(BatchesOf(catalogs, key)[batchIndex], outcome.replies);
      if translated.Some? {
        TranslatedUpToNext(catalogs, key, batchIndex, messages, outcome.replies);
        GotoKeepsSafe(catalogs, s, w, JobWriting(key, model, batchIndex, messages + translated.value));
      }
    }
  }

  lemma WriteBatchKeepsSafe(catalogs: Catalogs, s: State, w: nat, key: Key, model: string, batchIndex: nat,
                            messages: Messages)
    requires Manageable(catalogs) && Safe(catalogs, s) && key.language in ALLOWED_LANGUAGES
    requires batchIndex < |BatchesOf(catalogs, key)|
    requires TranslatesUpTo(BatchesOf(catalogs, key), batchIndex + 1, messages)
    ensures Safe(catalogs, WriteBatch(catalogs, s, w, key, model, batchIndex, messages))
  {
    hide ContentOk, Batches, TranslatesUpTo, Translates, WorkersOk, CacheOk, ResponsesOk;
    FinishKeepsSafe(catalogs, s, w);
    StoredContentOk(catalogs, key, batchIndex, messages);
    var status := StatusAfter(catalogs, key, batchIndex);
    var rows := Written(s.rows, s.now, key, batchIndex, model, status, messages, batchIndex + 1);
    assert RowsOk(catalogs, s.now, rows);
    var written := s.(rows := rows,
                      writes := s.writes + [Write(key, Generation(s, key), batchIndex, ReadGeneration(s, w),
                                                  messages)]);
    GotoKeepsSafe(catalogs, written, w, JobEnqueueing(key, model, batchIndex + 1));
    if status.Ready? {
      GotoKeepsSafe(catalogs, written, w,
                    JobPublishing(key, Snapshot(key, model, Ready, messages, batchIndex + 1, s.now)));
    }
  }

  lemma AbandonKeepsSafe(catalogs: Catalogs, s: State, w: nat, key: Key, batchIndex: nat, outcome: Outcome)
    requires Manageable(catalogs) && Safe(catalogs, s) && batchIndex < |BatchesOf(catalogs, key)|
    ensures Safe(catalogs, Abandon(s, w, key, batchIndex, outcome))
  {
    hide RowOk, WorkersOk, CacheOk, ResponsesOk;
    FinishKeepsSafe(catalogs, s, w);
    NextIndexIsUnclaimed(catalogs, key, batchIndex);
    ReleasedRowsOk(catalogs, s.now, s.rows, key, batchIndex);
    FinishKeepsSafe(catalogs, s.(rows := Released(s.rows, s.now, key, batchIndex)), w);
  }

  lemma EnqueueKeepsSafe(catalogs: Catalogs, s: State, w: nat, message: QueueMessage)
    requires Safe(catalogs, s)
    ensures Safe(catalogs, Enqueue(s, w, message))
  {
    hide Safe, Finish;
    SendingKeepsSafe(catalogs, s, message);
    FinishKeepsSafe(catalogs, s.(sent := s.sent + {message}), w);
  }

  lemma JobStartKeepsSafe(catalogs: Catalogs, s: State, w: nat, worker: Worker, outcome: Outcome)
    requires Safe(catalogs, s) && worker.key.language in ALLOWED_LANGUAGES
    requires worker.JobStarted? || worker.JobForwarding? || worker.JobEnqueueing?
    ensures Safe(catalogs, AdvanceJob(catalogs, s, w, worker, outcome))
  {
    hide Safe, Goto, Finish, CacheHit;
    FinishKeepsSafe(catalogs, s, w);
    match worker
    case JobStarted(key, model, k) => GotoKeepsSafe(catalogs, s, w, JobMissedCache(key, model, k));
    case JobForwarding(key, model, next) => EnqueueKeepsSafe(catalogs, s, w, QueueMessage(key, model, next));
    case JobEnqueueing(key, model, next) => EnqueueKeepsSafe(catalogs, s, w, QueueMessage(key, model, next));
  }

  lemma JobStepKeepsSafe(catalogs: Catalogs, s: State, w: nat, outcome: Outcome)
    requires Manageable(catalogs) && Safe(catalogs, s) && w in s.workers && !IsRequest(s.workers[w])
    ensures Safe(catalogs, AdvanceJob(catalogs, s, w, s.workers[w], outcome))
  {
    hide ContentOk, RowsOk, CacheOk, ResponsesOk, TranslatesUpTo, Translates, IsNext, Batches;
    var worker := s.workers[w];
    assert WorkerOk(catalogs, worker);
    match worker
    case JobMissedCache(key, model, k) => ReadRowKeepsSafe(catalogs, s, w, key, model, k);
    case JobRead(key, model, k, entry) => UseRowKeepsSafe(catalogs, s, w, key, model, k, entry);
    case JobReleasing(key, model, k, messages) => TakeOverKeepsSafe(catalogs, s, w, key, model, k, messages);
    case JobFinishing(key, model, next, messages) => FinishRowKeepsSafe(catalogs, s, w, key, model, next, messages);
    case JobClaiming(key, model, k, messages) => ClaimBatchKeepsSafe(catalogs, s, w, key, model, k, messages);
    case JobTranslating(key, model, k, messages) =>
      TranslateKeepsSafe(catalogs, s, w, key, model, k, messages, outcome);
    case JobAbandoning(key, k) => AbandonKeepsSafe(catalogs, s, w, key, k, outcome);
    case JobWriting(key, model, k, messages) => WriteBatchKeepsSafe(catalogs, s, w, key, model, k, messages);
    case JobPublishing(key, entry) =>
      PublishKeepsSafe(catalogs, s, w, key, entry, outcome);
      FinishKeepsSafe(catalogs, s, w);
    case _ => JobStartKeepsSafe(catalogs, s, w, worker, outcome);
  }

  // ---------- every run ----------

  lemma EnvironmentKeepsSafe(catalogs: Catalogs, s: State, action: Action)
    requires Safe(catalogs, s) && !action.Advance?
    ensures Safe(catalogs, Apply(catalogs, s, action))
  {
    hide ContentOk, PayloadOk, ResponseOk;
  }

  lemma ActionKeepsSafe(catalogs: Catalogs, s: State, action: Action)
    requires Manageable(catalogs) && Safe(catalogs, s)
    ensures Safe(catalogs, Apply(catalogs, s, action))
  {
    hide Safe, AdvanceRequest, AdvanceJob;
    match action
    case Advance(w, outcome) =>
      if w in s.workers {
        if IsRequest(s.workers[w]) {
          RequestStepKeepsSafe(catalogs, s, w, outcome);
        } else {
          JobStepKeepsSafe(catalogs, s, w, outcome);
        }
      }
    case _ => EnvironmentKeepsSafe(catalogs, s, action);
  }

  lemma {:induction false} RunKeepsSafe(catalogs: Catalogs, s: State, actions: seq<Action>)
    requires Manageable(catalogs) && Safe(catalogs, s)
    ensures Safe(catalogs, Run(catalogs, s, actions))
  {
    hide Apply, Safe;
    if actions != [] {
      RunKeepsSafe(catalogs, s, actions[..|actions| - 1]);
      ActionKeepsSafe(catalogs, Run(catalogs, s, actions[..|actions| - 1]), actions[|actions| - 1]);
    }
  }

  /** Whatever is interleaved, lost, repeated, delayed or deleted, the invariant holds. */
  lemma EveryRunIsSafe(catalogs: Catalogs, actions: seq<Action>)
    requires Manageable(catalogs)
    ensures Safe(catalogs, Run(catalogs, INITIAL, actions))
  {
    RunKeepsSafe(catalogs, INITIAL, actions);
  }

  /** A pending row at index k has the keys of batches 0..k-1, and so has every snapshot taken at index k. */
  lemma PendingRowsHoldEarlierBatches(catalogs: Catalogs, actions: seq<Action>, key: Key)
    requires Manageable(catalogs)
    ensures var s := Run(catalogs, INITIAL, actions);
      && (key in s.rows && s.rows[key].status.Pending? ==>
            var k := BatchIndexFromStore(s.rows[key].nextBatchIndex);
            && k <= |BatchesOf(catalogs, key)|
            && s.rows[key].messages.Keys == Sources(Flatten(BatchesOf(catalogs, key)[..k])).Keys)
      && (forall w :: w in s.workers && s.workers[w].JobTranslating? ==>
            var job := s.workers[w];
            && job.batchIndex < |BatchesOf(catalogs, job.key)|
            && job.messages.Keys == Sources(Flatten(BatchesOf(catalogs, job.key)[..job.batchIndex])).Keys)
  {
    hide Run, Batches, Acceptable, Sources, Flatten;
    EveryRunIsSafe(catalogs, actions);
    var s := Run(catalogs, INITIAL, actions);
    if key in s.rows { assert RowOk(catalogs, s.now, key, s.rows[key]); }
    forall w | w in s.workers && s.workers[w].JobTranslating?
      ensures Holds(catalogs, s.workers[w].key, s.workers[w].batchIndex, s.workers[w].messages)
    {
      assert WorkerOk(catalogs, s.workers[w]);
    }
  }

  /** Ready rows, cached payloads and 200 answers are complete translations of the catalog they name. */
  lemma PublishedTranslationsAreComplete(catalogs: Catalogs, actions: seq<Action>)
    requires Manageable(catalogs)
    ensures var s := Run(catalogs, INITIAL, actions);
      && (forall key :: key in s.rows && s.rows[key].status.Ready? ==>
            Translates(catalogs(key.checksum), s.rows[key].messages))
      && (forall key :: key in s.cache ==> Translates(catalogs(key.checksum), s.cache[key].payload.messages))
      && (forall i :: 0 <= i < |s.responses| && s.responses[i].Served? ==>
            Translates(catalogs(s.responses[i].payload.checksum), s.responses[i].payload.messages))
      && (forall i :: 0 <= i < |s.responses| && s.responses[i].Served? && !s.responses[i].stale ==>
            s.responses[i].payload.checksum == s.responses[i].key.checksum)
  {
    EveryRunIsSafe(catalogs, actions);
    var s := Run(catalogs, INITIAL, actions);
    hide Translates, TranslatesUpTo, IsNext;
    assert forall key :: key in s.rows ==> RowOk(catalogs, s.now, key, s.rows[key]);
    assert forall i :: 0 <= i < |s.responses| ==> ResponseOk(catalogs, s.responses[i]);
  }
}
