/** Which texts a row holds, and when storing a batch leaves the texts of earlier batches alone. */
module TranslationTexts {
  import opened Common
  import opened Batching
  import opened Placeholders
  import opened TranslationStore
  import opened TranslationMachine
  import opened TranslationSafety
  import opened TranslationProgress
  import opened TranslationTrace

  // ---------- the texts of a generation ----------

  /** The messages a generation of a row held after `k` batches: those its batch k - 1 was stored with. */
  function MessagesAt(writes: seq<Write>, key: Key, generation: nat, k: nat): Messages {
    if k == 0 || writes == [] then map[]
    else
      var last := writes[|writes| - 1];
      if last.key == key && last.generation == generation && last.batchIndex == k - 1 then last.messages
      else MessagesAt(writes[..|writes| - 1], key, generation, k)
  }

  lemma OtherWritesDoNotMatter(writes: seq<Write>, write: Write, key: Key, generation: nat, k: nat)
    requires write.key != key || write.generation != generation || write.batchIndex + 1 != k
    ensures MessagesAt(writes + [write], key, generation, k) == MessagesAt(writes, key, generation, k)
  {
    assert (writes + [write])[..|writes|] == writes;
  }

  lemma LastWriteMatters(writes: seq<Write>, write: Write)
    ensures MessagesAt(writes + [write], write.key, write.generation, write.batchIndex + 1) == write.messages
  {
  }

  /** `messages` are what a generation of the row held after `k` batches, and it has stored that many. */
  predicate HoldsTexts(writes: seq<Write>, key: Key, generation: nat, k: nat, messages: Messages) {
    k <= |Stored(writes, key, generation)| && messages == MessagesAt(writes, key, generation, k)
  }

  /** `after` is `before` with the texts of batch `k`. */
  ghost predicate AddsBatch(catalogs: Catalogs, key: Key, k: nat, before: Messages, after: Messages) {
    && k < |BatchesOf(catalogs, key)|
    && exists translated: Messages ::
      translated.Keys == Sources(BatchesOf(catalogs, key)[k]).Keys && after == before + translated
  }

  /** What a delivery that read a generation of the row knows of its texts. */
  ghost predicate WorkerTextsOk(catalogs: Catalogs, writes: seq<Write>, generation: nat, worker: Worker) {
    BatchesOf(catalogs, worker.key) != [] ==>
      match worker
      case JobRead(key, _, _, entry) =>
        HoldsTexts(writes, key, generation, BatchIndexFromStore(entry.nextBatchIndex), entry.messages)
      case JobReleasing(key, _, k, messages) => HoldsTexts(writes, key, generation, k, messages)
      case JobClaiming(key, _, k, messages) => HoldsTexts(writes, key, generation, k, messages)
      case JobTranslating(key, _, k, messages) => HoldsTexts(writes, key, generation, k, messages)
      case JobWriting(key, _, k, messages) =>
        && k <= |Stored(writes, key, generation)|
        && AddsBatch(catalogs, key, k, MessagesAt(writes, key, generation, k), messages)
      case _ => true
  }

  ghost predicate RowTextsOk(catalogs: Catalogs, s: State, key: Key)
    requires key in s.rows
  {
    BatchesOf(catalogs, key) != [] ==>
      s.rows[key].messages == MessagesAt(s.writes, key, Generation(s, key), Progress(catalogs, key, s.rows[key]))
  }

  ghost predicate TextsOk(catalogs: Catalogs, s: State) {
    && (forall key :: key in s.rows ==> RowTextsOk(catalogs, s, key))
    && (forall w :: w in s.workers ==> WorkerTextsOk(catalogs, s.writes, ReadGeneration(s, w), s.workers[w]))
  }

  // ---------- every action keeps this ----------

  lemma RowKeepsTexts(catalogs: Catalogs, s: State, t: State, key: Key)
    requires HistoryOk(catalogs, s) && Evolves(catalogs, s, t) && key in t.rows
    requires key in s.rows ==> RowTextsOk(catalogs, s, key)
    ensures RowTextsOk(catalogs, t, key)
  {
    hide Progress, BatchesOf, Generation, MessagesAt, Stored;
    if t.writes == s.writes {
      assert Unmoved(catalogs, s, t, key) || Restarted(catalogs, s, t, key);
      NothingStoredYet(t.writes, key, Generation(t, key));
    } else {
      var write := t.writes[|s.writes|];
      assert t.writes == s.writes + [write];
      LastWriteMatters(s.writes, write);
      if key != write.key {
        assert Unmoved(catalogs, s, t, key);
        OtherWritesDoNotMatter(s.writes, write, key, Generation(t, key), Progress(catalogs, key, t.rows[key]));
      }
    }
  }

  lemma NothingStoredYet(writes: seq<Write>, key: Key, generation: nat)
    ensures MessagesAt(writes, key, generation, 0) == map[]
  {
  }

  lemma HeldTextsStay(catalogs: Catalogs, s: State, t: State, key: Key, generation: nat, k: nat)
    requires HistoryOk(catalogs, s) && Evolves(catalogs, s, t) && k <= |Stored(s.writes, key, generation)|
    ensures k <= |Stored(t.writes, key, generation)|
    ensures MessagesAt(t.writes, key, generation, k) == MessagesAt(s.writes, key, generation, k)
  {
    hide Progress, BatchesOf, Generation, MessagesAt;
    if t.writes != s.writes {
      var write := t.writes[|s.writes|];
      assert t.writes == s.writes + [write];
      assert t.writes[..|s.writes|] == s.writes;
      assert |Stored(s.writes, write.key, Generation(s, write.key))| == write.batchIndex;
      OtherWritesDoNotMatter(s.writes, write, key, generation, k);
    }
  }

  lemma WorkerKeepsTexts(catalogs: Catalogs, s: State, t: State, generation: nat, worker: Worker)
    requires HistoryOk(catalogs, s) && Evolves(catalogs, s, t) && WorkerTextsOk(catalogs, s.writes, generation, worker)
    ensures WorkerTextsOk(catalogs, t.writes, generation, worker)
  {
    hide HistoryOk, Evolves, BatchesOf, MessagesAt, Stored, AddsBatch;
    if BatchesOf(catalogs, worker.key) != [] {
      match worker
      case JobRead(key, _, _, entry) =>
        HeldTextsStay(catalogs, s, t, key, generation, BatchIndexFromStore(entry.nextBatchIndex));
      case JobReleasing(key, _, k, _) => HeldTextsStay(catalogs, s, t, key, generation, k);
      case JobClaiming(key, _, k, _) => HeldTextsStay(catalogs, s, t, key, generation, k);
      case JobTranslating(key, _, k, _) => HeldTextsStay(catalogs, s, t, key, generation, k);
      case JobWriting(key, _, k, _) => HeldTextsStay(catalogs, s, t, key, generation, k);
      case _ =>
    }
  }

  // ---------- a delivery's own steps ----------

  /**
   * After its own step the worker of a delivery is gone or knows what `WorkerTextsOk` asks, as of the tables
   * before.
   */
  ghost predicate StepTextsOk(catalogs: Catalogs, writes: seq<Write>, t: State, w: nat) {
    w in t.workers ==> WorkerTextsOk(catalogs, writes, ReadGeneration(t, w), t.workers[w])
  }

  lemma ProceedHoldsTexts(catalogs: Catalogs, s: State, writes: seq<Write>, w: nat, key: Key, model: string, k: nat,
                          next: nat, messages: Messages)
    requires BatchesOf(catalogs, key) != [] ==> HoldsTexts(writes, key, ReadGeneration(s, w), next, messages)
    ensures StepTextsOk(catalogs, writes, Proceed(catalogs, s, w, key, model, k, next, messages), w)
  {
    hide BatchesOf, HoldsTexts;
  }

  lemma ReadRowHoldsTexts(catalogs: Catalogs, s: State, w: nat, key: Key, model: string, k: nat)
    requires TextsOk(catalogs, s) && HistoryOk(catalogs, s)
    ensures StepTextsOk(catalogs, s.writes, ReadRow(s, w, key, model, k), w)
  {
    hide BatchesOf, MessagesAt, Stored, BatchIndexFromStore;
    if Live(s.rows, s.now, key) {
      assert RowTextsOk(catalogs, s, key);
    }
  }

  lemma UseRowHoldsTexts(catalogs: Catalogs, s: State, writes: seq<Write>, w: nat, key: Key, model: string, k: nat,
                         entry: Snapshot)
    requires WorkerTextsOk(catalogs, writes, ReadGeneration(s, w), JobRead(key, model, k, entry))
    ensures StepTextsOk(catalogs, writes, UseRow(catalogs, s, w, key, model, k, entry), w)
  {
    hide BatchesOf, HoldsTexts, Proceed, IsLeaseExpired, StepTextsOk;
    MarkersAreUnambiguous(entry.nextBatchIndex);
    if ClaimedBatchIndex(entry.nextBatchIndex).None? {
      ProceedHoldsTexts(catalogs, s, writes, w, key, model, k, entry.nextBatchIndex, entry.messages);
    } else {
      MovedHoldsTexts(catalogs, s, writes, w,
                      JobReleasing(key, model, BatchIndexFromStore(entry.nextBatchIndex), entry.messages));
    }
  }

  lemma MovedHoldsTexts(catalogs: Catalogs, s: State, writes: seq<Write>, w: nat, worker: Worker)
    requires WorkerTextsOk(catalogs, writes, ReadGeneration(s, w), worker)
    ensures StepTextsOk(catalogs, writes, Goto(s, w, worker), w)
    ensures StepTextsOk(catalogs, writes, Finish(s, w), w)
  {
    hide WorkerTextsOk;
  }

  lemma TakeOverHoldsTexts(catalogs: Catalogs, s: State, writes: seq<Write>, w: nat, key: Key, model: string, k: nat,
                           messages: Messages)
    requires WorkerTextsOk(catalogs, writes, ReadGeneration(s, w), JobReleasing(key, model, k, messages))
    ensures StepTextsOk(catalogs, writes, TakeOver(catalogs, s, w, key, model, k, messages), w)
    ensures StepTextsOk(catalogs, writes, ClaimBatch(s, w, key, model, k, messages), w)
  {
    hide BatchesOf, HoldsTexts, Proceed, Released, Claimed, IsReleasable, IsClaimable;
    var released := s.(rows := Released(s.rows, s.now, key, k));
    ProceedHoldsTexts(catalogs, released, writes, w, key, model, k, k, messages);
  }

  lemma TranslateHoldsTexts(catalogs: Catalogs, s: State, writes: seq<Write>, w: nat, key: Key, model: string,
                            k: nat, messages: Messages, outcome: Outcome)
    requires WorkerTextsOk(catalogs, writes, ReadGeneration(s, w), JobTranslating(key, model, k, messages))
    ensures StepTextsOk(catalogs, writes, Translate(catalogs, s, w, key, model, k, messages, outcome), w)
  {
    hide BatchesOf, MessagesAt, Stored, TranslateBatch, Translates, Sources;
    if outcome.Answers? && k < |BatchesOf(catalogs, key)| {
      var batch := BatchesOf(catalogs, key)[k];
      TranslateBatchTranslates(batch, outcome.replies);
      TranslationHasKeys(batch, outcome.replies);
    }
  }

  lemma TranslationHasKeys(batch: Batch, replies: seq<Reply>)
    ensures TranslateBatch(batch, replies).Some? ==> TranslateBatch(batch, replies).value.Keys == Sources(batch).Keys
  {
    hide TranslateBatch, Sources, Acceptable;
    TranslateBatchTranslates(batch, replies);
  }

  lemma StartHoldsTexts(catalogs: Catalogs, s: State, w: nat, key: Key, model: string, k: nat, outcome: Outcome)
    ensures StepTextsOk(catalogs, s.writes, AdvanceJob(catalogs, s, w, JobStarted(key, model, k), outcome), w)
  {
    hide CacheHit, HoldsTexts, AddsBatch, BatchesOf;
  }

  lemma SenderHoldsTexts(catalogs: Catalogs, s: State, w: nat, worker: Worker, outcome: Outcome)
    requires worker.JobForwarding? || worker.JobEnqueueing? || worker.JobPublishing? || IsRequest(worker)
    requires w in s.workers && s.workers[w] == worker && WorkerTextsOk(catalogs, s.writes, ReadGeneration(s, w), worker)
    ensures StepTextsOk(catalogs, s.writes, AdvanceJob(catalogs, s, w, worker, outcome), w)
  {
    hide HoldsTexts, AddsBatch, BatchesOf, PayloadOf;
  }

  lemma JobStepHoldsTexts(catalogs: Catalogs, s: State, w: nat, worker: Worker, outcome: Outcome)
    requires TextsOk(catalogs, s) && HistoryOk(catalogs, s)
    requires WorkerTextsOk(catalogs, s.writes, ReadGeneration(s, w), worker)
    requires w in s.workers && s.workers[w] == worker
    ensures StepTextsOk(catalogs, s.writes, AdvanceJob(catalogs, s, w, worker, outcome), w)
  {
    hide TextsOk, HistoryOk, ReadRow, UseRow, TakeOver, FinishRow, ClaimBatch, Translate, Abandon, WriteBatch, CacheHit;
    hide StepTextsOk, HoldsTexts, AddsBatch, BatchesOf, Goto, Finish;
    match worker
    case JobMissedCache(key, model, k) => ReadRowHoldsTexts(catalogs, s, w, key, model, k);
    case JobRead(key, model, k, entry) => UseRowHoldsTexts(catalogs, s, s.writes, w, key, model, k, entry);
    case JobReleasing(key, model, k, messages) => TakeOverHoldsTexts(catalogs, s, s.writes, w, key, model, k, messages);
    case JobClaiming(key, model, k, messages) => TakeOverHoldsTexts(catalogs, s, s.writes, w, key, model, k, messages);
    case JobTranslating(key, model, k, messages) =>
      TranslateHoldsTexts(catalogs, s, s.writes, w, key, model, k, messages, outcome);
    case JobFinishing(key, model, next, messages) =>
      WritersHoldNothing(catalogs, s, w, key, model, next, messages, outcome);
    case JobAbandoning(key, k) => WritersHoldNothing(catalogs, s, w, key, "", k, map[], outcome);
    case JobWriting(key, model, k, messages) => WritersHoldNothing(catalogs, s, w, key, model, k, messages, outcome);
    case JobStarted(key, model, k) => StartHoldsTexts(catalogs, s, w, key, model, k, outcome);
    case _ => SenderHoldsTexts(catalogs, s, w, worker, outcome);
  }

  /** A worker that no longer holds messages to be written has nothing to show. */
  predicate HoldsNothing(t: State, w: nat) {
    w in t.workers ==> t.workers[w].JobPublishing? || t.workers[w].JobEnqueueing?
  }

  lemma NothingToShow(catalogs: Catalogs, writes: seq<Write>, t: State, w: nat)
    requires HoldsNothing(t, w)
    ensures StepTextsOk(catalogs, writes, t, w)
  {
    hide HoldsTexts, AddsBatch, BatchesOf;
  }

  lemma FinishHoldsNothing(s: State, w: nat)
    ensures HoldsNothing(Finish(s, w), w)
  {
  }

  lemma GotoHoldsNothing(s: State, w: nat, place: Worker)
    requires place.JobPublishing? || place.JobEnqueueing?
    ensures HoldsNothing(Goto(s, w, place), w)
  {
  }

  lemma WritersHoldNothing(catalogs: Catalogs, s: State, w: nat, key: Key, model: string, k: nat, messages: Messages,
                           outcome: Outcome)
    ensures StepTextsOk(catalogs, s.writes, FinishRow(s, w, key, model, k, messages), w)
    ensures StepTextsOk(catalogs, s.writes, Abandon(s, w, key, k, outcome), w)
    ensures StepTextsOk(catalogs, s.writes, WriteBatch(catalogs, s, w, key, model, k, messages), w)
  {
    hide StepTextsOk, FinishRow, Abandon, WriteBatch;
    FinishRowHoldsNothing(s, w, key, model, k, messages);
    AbandonHoldsNothing(s, w, key, k, outcome);
    WriteHoldsNothing(catalogs, s, w, key, model, k, messages);
    NothingToShow(catalogs, s.writes, FinishRow(s, w, key, model, k, messages), w);
    NothingToShow(catalogs, s.writes, Abandon(s, w, key, k, outcome), w);
    NothingToShow(catalogs, s.writes, WriteBatch(catalogs, s, w, key, model, k, messages), w);
  }

  lemma FinishRowHoldsNothing(s: State, w: nat, key: Key, model: string, k: nat, messages: Messages)
    ensures HoldsNothing(FinishRow(s, w, key, model, k, messages), w)
  {
    hide Upserted, NextGeneration;
  }

  lemma AbandonHoldsNothing(s: State, w: nat, key: Key, k: nat, outcome: Outcome)
    ensures HoldsNothing(Abandon(s, w, key, k, outcome), w)
  {
    hide Released;
  }

  lemma WriteHoldsNothing(catalogs: Catalogs, s: State, w: nat, key: Key, model: string, k: nat, messages: Messages)
    ensures HoldsNothing(WriteBatch(catalogs, s, w, key, model, k, messages), w)
  {
    hide Written, IsWritable, StatusAfter, Generation, ReadGeneration, Goto, Finish, HoldsNothing;
    FinishHoldsNothing(s, w);
    if IsWritable(s.rows, s.now, key, k) {
      var status := StatusAfter(catalogs, key, k);
      var write := Write(key, Generation(s, key), k, ReadGeneration(s, w), messages);
      var written := s.(rows := Written(s.rows, s.now, key, k, model, status, messages, k + 1),
                        writes := s.writes + [write]);
      GotoHoldsNothing(written, w, JobPublishing(key, Snapshot(key, model, Ready, messages, k + 1, s.now)));
      GotoHoldsNothing(written, w, JobEnqueueing(key, model, k + 1));
    }
  }

  predicate IsRequestIn(t: State, w: nat) {
    w in t.workers ==> IsRequest(t.workers[w])
  }

  lemma AnswersEndRequests(s: State, w: nat, key: Key, latest: Option<Snapshot>)
    ensures IsRequestIn(FallBack(s, w, key, latest), w) && IsRequestIn(AnswerPending(s, w, key, latest), w)
  {
  }

  lemma DecisionsStayRequests(s: State, w: nat, key: Key, latest: Option<Snapshot>, entry: Snapshot)
    ensures IsRequestIn(UseQueued(s, w, key, latest, entry), w) && IsRequestIn(Requeue(s, w, key, latest, entry), w)
  {
    hide IsPendingStale, IsLeaseExpired, ClaimedBatchIndex, BatchIndexFromStore, FallBack, AnswerPending;
    AnswersEndRequests(s, w, key, latest);
    var message := QueueMessage(key, entry.model, BatchIndexFromStore(entry.nextBatchIndex));
    AnswersEndRequests(s.(sent := s.sent + {message}), w, key, latest);
  }

  lemma InsertsStayRequests(s: State, w: nat, key: Key, model: string, latest: Option<Snapshot>, startedAt: int)
    ensures IsRequestIn(UseLatest(s, w, key, model, latest), w)
    ensures IsRequestIn(Insert(s, w, key, model, latest, startedAt), w)
  {
    hide IsReadyFresh, PayloadOf, Inserted, Live, NextGeneration;
  }

  lemma StartsStayRequests(s: State, w: nat, worker: Worker, outcome: Outcome)
    requires w in s.workers && s.workers[w] == worker
    requires IsStarting(worker)
    ensures IsRequestIn(AdvanceRequest(s, w, worker, outcome), w)
  {
    hide UseLatest, IsLatestReady, Touched, PayloadOf, CacheHit, SnapshotOf;
    hide Insert, UseQueued, Requeue, FallBack, AnswerPending;
    if worker.RequestReadLatest? {
      InsertsStayRequests(s, w, worker.key, worker.model, worker.latest, 0);
    }
  }

  lemma InsertingStaysRequest(s: State, w: nat, worker: Worker, outcome: Outcome)
    requires IsInserting(worker)
    ensures IsRequestIn(AdvanceRequest(s, w, worker, outcome), w)
  {
    hide Insert, FallBack, Live, SnapshotOf, UseLatest, UseQueued, Requeue, AnswerPending, Publish;
    match worker
    case RequestInserting(key, model, latest, startedAt) =>
      AnswersEndRequests(s, w, key, latest);
      InsertsStayRequests(s, w, key, model, latest, startedAt);
    case RequestInserted(_, _, _) =>
    case RequestUndoing(key, latest) =>
      AnswersEndRequests(s, w, key, latest);
      AnswersEndRequests(s.(rows := s.rows - {key}), w, key, latest);
    case RequestLostInsert(key, latest) => AnswersEndRequests(s, w, key, latest);
  }

  lemma QueueingStaysRequest(s: State, w: nat, worker: Worker, outcome: Outcome)
    requires IsQueueing(worker)
    ensures IsRequestIn(AdvanceRequest(s, w, worker, outcome), w)
  {
    hide UseQueued, Requeue, FallBack, AnswerPending, Touched, UseLatest, Insert, Publish;
    AnswersEndRequests(s, w, worker.key, worker.latest);
    match worker
    case RequestQueued(key, latest, entry) => DecisionsStayRequests(s, w, key, latest, entry);
    case RequestRequeueing(key, latest, entry) => DecisionsStayRequests(s, w, key, latest, entry);
    case RequestTouchingReady(_, _, _) =>
    case RequestTouchingPending(key, latest) =>
      AnswersEndRequests(s.(rows := Touched(s.rows, s.now, key, PENDING_TTL_SECONDS)), w, key, latest);
  }

  /** The step of a request ends it or leaves it a request. */
  lemma RequestsStayRequests(s: State, w: nat, worker: Worker, outcome: Outcome)
    requires IsRequest(worker) && w in s.workers && s.workers[w] == worker
    ensures IsRequestIn(AdvanceRequest(s, w, worker, outcome), w)
  {
    hide AdvanceRequest, IsRequestIn;
    if IsInserting(worker) {
      InsertingStaysRequest(s, w, worker, outcome);
    } else if IsQueueing(worker) {
      QueueingStaysRequest(s, w, worker, outcome);
    } else {
      StartsStayRequests(s, w, worker, outcome);
    }
  }

  lemma RequestStepHoldsTexts(catalogs: Catalogs, s: State, w: nat, worker: Worker, outcome: Outcome)
    requires IsRequest(worker) && w in s.workers && s.workers[w] == worker
    ensures StepTextsOk(catalogs, s.writes, AdvanceRequest(s, w, worker, outcome), w)
  {
    hide AdvanceRequest, HoldsTexts, AddsBatch, BatchesOf;
    RequestsStayRequests(s, w, worker, outcome);
  }

  lemma ActionKeepsTexts(catalogs: Catalogs, s: State, action: Action)
    requires Manageable(catalogs) && Safe(catalogs, s) && HistoryOk(catalogs, s) && TextsOk(catalogs, s)
    ensures TextsOk(catalogs, Apply(catalogs, s, action))
  {
    hide Safe, HistoryOk, Evolves, RowTextsOk, AdvanceRequest, AdvanceJob, Apply, ReadGeneration;
    var t := Apply(catalogs, s, action);
    ActionEvolves(catalogs, s, action);
    forall key | key in t.rows ensures RowTextsOk(catalogs, t, key) {
      RowKeepsTexts(catalogs, s, t, key);
    }
    forall w | w in t.workers ensures WorkerTextsOk(catalogs, t.writes, ReadGeneration(t, w), t.workers[w]) {
      if IsBy(w, action) {
        OwnActionHoldsTexts(catalogs, s, w, action);
      } else {
        OthersLeaveWorker(catalogs, s, w, action);
      }
      WorkerKeepsTexts(catalogs, s, t, ReadGeneration(t, w), t.workers[w]);
    }
  }

  lemma OwnActionHoldsTexts(catalogs: Catalogs, s: State, w: nat, action: Action)
    requires HistoryOk(catalogs, s) && TextsOk(catalogs, s) && IsBy(w, action)
    ensures StepTextsOk(catalogs, s.writes, Apply(catalogs, s, action), w)
  {
    hide HistoryOk, AdvanceRequest, AdvanceJob;
    if action.Advance? && w in s.workers {
      assert WorkerTextsOk(catalogs, s.writes, ReadGeneration(s, w), s.workers[w]);
      if IsRequest(s.workers[w]) {
        RequestStepHoldsTexts(catalogs, s, w, s.workers[w], action.outcome);
      } else {
        JobStepHoldsTexts(catalogs, s, w, s.workers[w], action.outcome);
      }
    }
  }

  lemma {:induction false} EveryRunHoldsTexts(catalogs: Catalogs, actions: seq<Action>)
    requires Manageable(catalogs)
    ensures TextsOk(catalogs, Run(catalogs, INITIAL, actions))
  {
    hide Apply, Safe, HistoryOk;
    if actions != [] {
      var before := actions[..|actions| - 1];
      EveryRunHoldsTexts(catalogs, before);
      EveryRunIsSafe(catalogs, before);
      EveryBatchIsStoredOnceInOrder(catalogs, before);
      ActionKeepsTexts(catalogs, Run(catalogs, INITIAL, before), actions[|actions| - 1]);
    }
  }

  // ---------- when storing a batch leaves earlier texts alone ----------

  /** All texts of `before` but those of the batch are in `after` as they were. */
  predicate KeepsTexts(before: Messages, after: Messages, batch: Batch) {
    forall text :: text in before && text !in Sources(batch) ==> text in after && after[text] == before[text]
  }

  /** Only a delivery that has translated its batch stores anything, and then over a row that carries its marker. */
  lemma OnlyWritersStore(catalogs: Catalogs, s: State, action: Action, write: Write) returns (w: nat)
    requires Apply(catalogs, s, action).writes == s.writes + [write]
    ensures w in s.workers && s.workers[w].JobWriting?
    ensures IsWritable(s.rows, s.now, write.key, write.batchIndex)
    ensures s.workers[w].key == write.key && s.workers[w].batchIndex == write.batchIndex
    ensures s.workers[w].messages == write.messages
    ensures write.generation == Generation(s, write.key) && write.read == ReadGeneration(s, w)
  {
    hide AdvanceRequest, IsWritable, Written, StatusAfter, Generation, ReadGeneration, Touched, PayloadOf, CacheHit;
    hide ReadRow, UseRow, TakeOver, FinishRow, ClaimBatch, Translate, Abandon;
    assert |s.writes + [write]| == |s.writes| + 1;
    w := action.worker;
    if IsRequest(s.workers[w]) {
      RequestOnlyMoves(s, w, s.workers[w], action.outcome);
    } else {
      JobOnlyMoves(catalogs, s, w, s.workers[w], action.outcome);
    }
    assert (s.writes + [write])[|s.writes|] == write;
  }

  /** What a row holds before and after a batch is stored. */
  lemma StoringChangesTextsAsRead(catalogs: Catalogs, s: State, action: Action, write: Write)
    requires Manageable(catalogs) && Safe(catalogs, s) && HistoryOk(catalogs, s) && TextsOk(catalogs, s)
    requires Apply(catalogs, s, action).writes == s.writes + [write]
    ensures var t := Apply(catalogs, s, action);
      && write.key in s.rows && write.key in t.rows
      && s.rows[write.key].messages == MessagesAt(s.writes, write.key, write.generation, write.batchIndex)
      && t.rows[write.key].messages == write.messages
      && AddsBatch(catalogs, write.key, write.batchIndex,
                   MessagesAt(s.writes, write.key, write.read, write.batchIndex), write.messages)
  {
    hide HistoryOk, MessagesAt, AddsBatch, Stored, AdvanceRequest, AdvanceJob, Apply, Progress, Generation, Batches;
    ActionEvolves(catalogs, s, action);
    var t := Apply(catalogs, s, action);
    assert (s.writes + [write])[|s.writes|] == write;
    assert Advanced(catalogs, s, t, write);
    var w := OnlyWritersStore(catalogs, s, action, write);
    assert WorkerOk(catalogs, s.workers[w]);
    assert BatchesOf(catalogs, write.key) != [];
    assert RowTextsOk(catalogs, s, write.key);
    assert WorkerTextsOk(catalogs, s.writes, ReadGeneration(s, w), s.workers[w]);
  }

  lemma AddedBatchKeepsTexts(catalogs: Catalogs, key: Key, k: nat, earlier: Messages, asRead: Messages, after: Messages)
    requires AddsBatch(catalogs, key, k, asRead, after)
    ensures KeepsTexts(earlier, after, BatchesOf(catalogs, key)[k])
        <==> KeepsTexts(earlier, asRead, BatchesOf(catalogs, key)[k])
  {
    hide BatchesOf, Sources;
    var batch := BatchesOf(catalogs, key)[k];
    var translated: Messages :| translated.Keys == Sources(batch).Keys && after == asRead + translated;
    forall text | text !in Sources(batch)
      ensures text in after <==> text in asRead
      ensures text in asRead ==> after[text] == asRead[text]
    {
      assert text !in translated;
    }
  }

  /**
   * In any run, storing a batch leaves the texts of earlier batches alone exactly when the generation the
   * worker had read holds them as the generation it writes to does; so always when that is the same one.
   */
  lemma StoringKeepsEarlierTextsExactlyWhen(catalogs: Catalogs, run: seq<Action>, action: Action, write: Write)
    requires Manageable(catalogs)
    requires var s := Run(catalogs, INITIAL, run);
      Apply(catalogs, s, action).writes == s.writes + [write]
    ensures var s := Run(catalogs, INITIAL, run);
      var t := Apply(catalogs, s, action);
      var k := write.batchIndex;
      && write.key in s.rows && write.key in t.rows && k < |BatchesOf(catalogs, write.key)|
      && var batch := BatchesOf(catalogs, write.key)[k];
         && (KeepsTexts(s.rows[write.key].messages, t.rows[write.key].messages, batch)
             <==> KeepsTexts(MessagesAt(s.writes, write.key, write.generation, k),
                             MessagesAt(s.writes, write.key, write.read, k), batch))
         && (write.read == write.generation ==>
               KeepsTexts(s.rows[write.key].messages, t.rows[write.key].messages, batch))
  {
    hide Run, Apply, Safe, HistoryOk, TextsOk, BatchesOf, MessagesAt, KeepsTexts;
    var s := Run(catalogs, INITIAL, run);
    EveryRunIsSafe(catalogs, run);
    EveryBatchIsStoredOnceInOrder(catalogs, run);
    EveryRunHoldsTexts(catalogs, run);
    StoringChangesTextsAsRead(catalogs, s, action, write);
    var k := write.batchIndex;
    AddedBatchKeepsTexts(catalogs, write.key, k, s.rows[write.key].messages,
      MessagesAt(s.writes, write.key, write.read, k), write.messages);
    SameTextsAreKept(s.rows[write.key].messages, BatchesOf(catalogs, write.key)[k]);
  }

  lemma SameTextsAreKept(messages: Messages, batch: Batch)
    ensures KeepsTexts(messages, messages, batch)
  {
  }
}
