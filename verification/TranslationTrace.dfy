/** Who does what in a run: the actions of one worker among those of all others. */
module TranslationTrace {
  import opened Common
  import opened Placeholders
  import opened TranslationStore
  import opened TranslationMachine

  predicate IsBy(w: nat, action: Action) {
    match action
    case Request(worker, _, _) => worker == w
    case Deliver(worker, _, _) => worker == w
    case Advance(worker, _) => worker == w
    case Crash(worker) => worker == w
    case _ => false
  }

  // ---------- the places of a program ----------

  /** A request that looks for a translation, or gives it. */
  predicate IsStarting(worker: Worker) {
    || worker.RequestStarted? || worker.RequestMissedCache? || worker.RequestReadLatest?
    || worker.RequestRefreshing? || worker.RequestPublishing?
  }

  predicate IsInserting(worker: Worker) {
    worker.RequestInserting? || worker.RequestInserted? || worker.RequestUndoing? || worker.RequestLostInsert?
  }

  /** A request that has found or inserted a row. */
  predicate IsQueueing(worker: Worker) {
    || worker.RequestQueued? || worker.RequestTouchingReady? || worker.RequestRequeueing?
    || worker.RequestTouchingPending?
  }

  /** A delivery that is about to read, decide, send or publish. */
  predicate IsReading(worker: Worker) {
    || worker.JobStarted? || worker.JobMissedCache? || worker.JobRead?
    || worker.JobForwarding? || worker.JobEnqueueing? || worker.JobPublishing?
  }

  /** A delivery that is about to change the row, other than by storing a batch. */
  predicate IsChanging(worker: Worker) {
    worker.JobReleasing? || worker.JobFinishing? || worker.JobClaiming? || worker.JobAbandoning?
  }

  // ---------- a step of one worker leaves the others alone ----------

  /** What worker `w` stands at and has read is the same in both states. */
  predicate SameWorker(s: State, t: State, w: nat) {
    && (w in t.workers <==> w in s.workers) && (w in s.workers ==> t.workers[w] == s.workers[w])
    && ReadGeneration(t, w) == ReadGeneration(s, w)
  }

  /** Only worker `v` may have moved, and only `v` may have read a row; no time passes and no message is lost. */
  ghost predicate OthersStay(s: State, t: State, v: nat) {
    t.now == s.now && s.sent <= t.sent && forall w: nat :: w != v ==> SameWorker(s, t, w)
  }

  /** Only worker `v` may have moved, and it has stored nothing. */
  ghost predicate OnlyMoves(s: State, t: State, v: nat) {
    OthersStay(s, t, v) && t.writes == s.writes
  }

  /** The table and the cache do not matter to where workers stand. */
  lemma OnlyWorkersMatter(s: State, before: State, t: State, v: nat)
    requires before.workers == s.workers && before.readings == s.readings && before.writes == s.writes
    requires before.now == s.now && s.sent <= before.sent
    requires OnlyMoves(before, t, v)
    ensures OnlyMoves(s, t, v)
  {
    forall w: nat | w != v ensures SameWorker(s, t, w) {
      assert SameWorker(before, t, w);
    }
  }

  lemma GotoOnlyMoves(s: State, v: nat, place: Worker)
    ensures OnlyMoves(s, Goto(s, v, place), v)
  {
  }

  lemma FinishOnlyMoves(s: State, v: nat)
    ensures OnlyMoves(s, Finish(s, v), v) && OnlyMoves(s, s, v)
  {
  }

  /** Giving an answer, sending a message or changing the table or the cache, and then finishing. */
  lemma LastStepOnlyMoves(s: State, before: State, v: nat)
    requires before.workers == s.workers && before.readings == s.readings && before.writes == s.writes
    requires before.now == s.now && s.sent <= before.sent
    ensures OnlyMoves(s, Finish(before, v), v)
  {
    hide Finish, OnlyMoves;
    FinishOnlyMoves(before, v);
    OnlyWorkersMatter(s, before, Finish(before, v), v);
  }

  lemma AnswersOnlyMove(s: State, v: nat, key: Key, latest: Option<Snapshot>)
    ensures OnlyMoves(s, FallBack(s, v, key, latest), v) && OnlyMoves(s, AnswerPending(s, v, key, latest), v)
  {
  }

  lemma UseLatestOnlyMoves(s: State, v: nat, key: Key, model: string, latest: Option<Snapshot>)
    ensures OnlyMoves(s, UseLatest(s, v, key, model, latest), v)
  {
    hide IsReadyFresh, PayloadOf, Goto, Finish, OnlyMoves;
    GotoOnlyMoves(s, v, RequestInserting(key, model, latest, s.now));
    if latest.Some? {
      var entry := latest.value;
      GotoOnlyMoves(s, v, RequestPublishing(key, entry));
      GotoOnlyMoves(s, v, RequestRefreshing(key, entry));
      LastStepOnlyMoves(s, Answer(s, Served(key, true, PayloadOf(entry))), v);
    }
  }

  lemma InsertOnlyMoves(s: State, v: nat, key: Key, model: string, latest: Option<Snapshot>, startedAt: int)
    ensures OnlyMoves(s, Insert(s, v, key, model, latest, startedAt), v)
  {
    hide Inserted, Live, NextGeneration;
  }

  lemma DecisionOnlyMoves(s: State, v: nat, key: Key, latest: Option<Snapshot>, entry: Snapshot)
    ensures OnlyMoves(s, UseQueued(s, v, key, latest, entry), v)
  {
    hide IsPendingStale, IsLeaseExpired, ClaimedBatchIndex, AnswerPending, Goto, OnlyMoves;
    AnswersOnlyMove(s, v, key, latest);
    GotoOnlyMoves(s, v, RequestTouchingReady(key, latest, entry));
    GotoOnlyMoves(s, v, RequestRequeueing(key, latest, entry));
  }

  lemma RequeueOnlyMoves(s: State, v: nat, key: Key, latest: Option<Snapshot>, entry: Snapshot)
    ensures OnlyMoves(s, Requeue(s, v, key, latest, entry), v)
  {
    hide ClaimedBatchIndex, BatchIndexFromStore, AnswerPending, Goto, OnlyMoves;
    var message := QueueMessage(key, entry.model, BatchIndexFromStore(entry.nextBatchIndex));
    var requeued := s.(sent := s.sent + {message});
    AnswersOnlyMove(requeued, v, key, latest);
    OnlyWorkersMatter(s, requeued, AnswerPending(requeued, v, key, latest), v);
    GotoOnlyMoves(requeued, v, RequestTouchingPending(key, latest));
    OnlyWorkersMatter(s, requeued, Goto(requeued, v, RequestTouchingPending(key, latest)), v);
  }

  lemma CachedAnswerOnlyMoves(s: State, v: nat, key: Key)
    requires CacheHit(s, key)
    ensures OnlyMoves(s, Finish(Answer(s, Served(key, false, s.cache[key].payload)), v), v)
  {
    hide Finish, OnlyMoves;
    LastStepOnlyMoves(s, Answer(s, Served(key, false, s.cache[key].payload)), v);
  }

  lemma LatestIsInTable(s: State, key: Key, latest: Option<Key>)
    requires IsLatestReady(s.rows, s.now, key.language, latest)
    ensures latest.Some? ==> latest.value in s.rows
  {
  }

  lemma StartingOnlyMoves(s: State, v: nat, worker: Worker, outcome: Outcome)
    requires IsStarting(worker)
    ensures OnlyMoves(s, AdvanceRequest(s, v, worker, outcome), v)
  {
    hide UseLatest, IsLatestReady, Touched, PayloadOf, CacheHit, SnapshotOf, Goto, Finish, OnlyMoves;
    match worker
    case RequestStarted(key, model) =>
      GotoOnlyMoves(s, v, RequestMissedCache(key, model));
      if CacheHit(s, key) { CachedAnswerOnlyMoves(s, v, key); }
    case RequestMissedCache(key, model) =>
      FinishOnlyMoves(s, v);
      if outcome.Latest? && IsLatestReady(s.rows, s.now, key.language, outcome.key) {
        LatestIsInTable(s, key, outcome.key);
        var latest := if outcome.key.Some? then Some(SnapshotOf(s.rows, outcome.key.value)) else None;
        GotoOnlyMoves(s, v, RequestReadLatest(key, model, latest));
      }
    case RequestReadLatest(key, model, latest) => UseLatestOnlyMoves(s, v, key, model, latest);
    case RequestRefreshing(key, entry) =>
      var touched := s.(rows := Touched(s.rows, s.now, entry.key, TtlSeconds(entry.status)));
      GotoOnlyMoves(touched, v, RequestPublishing(key, entry));
      OnlyWorkersMatter(s, touched, Goto(touched, v, RequestPublishing(key, entry)), v);
    case RequestPublishing(key, entry) =>
      var cached := if outcome.Fault? then s else PutInCache(s, key, PayloadOf(entry));
      LastStepOnlyMoves(s, Answer(cached, Served(key, false, PayloadOf(entry))), v);
  }

  lemma LiveIsInTable(s: State, key: Key)
    requires Live(s.rows, s.now, key)
    ensures key in s.rows
  {
  }

  lemma InsertingOnlyMoves(s: State, v: nat, worker: Worker, outcome: Outcome)
    requires IsInserting(worker)
    ensures OnlyMoves(s, AdvanceRequest(s, v, worker, outcome), v)
  {
    hide Insert, FallBack, Live, SnapshotOf, Goto, OnlyMoves;
    AnswersOnlyMove(s, v, worker.key, worker.latest);
    match worker
    case RequestInserting(key, model, latest, startedAt) => InsertOnlyMoves(s, v, key, model, latest, startedAt);
    case RequestInserted(key, latest, entry) =>
      GotoOnlyMoves(s, v, RequestUndoing(key, latest));
      var queued := s.(sent := s.sent + {QueueMessage(key, entry.model, 0)});
      GotoOnlyMoves(queued, v, RequestQueued(key, latest, entry));
      OnlyWorkersMatter(s, queued, Goto(queued, v, RequestQueued(key, latest, entry)), v);
    case RequestUndoing(key, latest) =>
      var deleted := s.(rows := s.rows - {key});
      AnswersOnlyMove(deleted, v, key, latest);
      OnlyWorkersMatter(s, deleted, FallBack(deleted, v, key, latest), v);
    case RequestLostInsert(key, latest) =>
      if Live(s.rows, s.now, key) {
        LiveIsInTable(s, key);
        GotoOnlyMoves(s, v, RequestQueued(key, latest, SnapshotOf(s.rows, key)));
      }
  }

  lemma QueueingOnlyMoves(s: State, v: nat, worker: Worker, outcome: Outcome)
    requires IsQueueing(worker)
    ensures OnlyMoves(s, AdvanceRequest(s, v, worker, outcome), v)
  {
    hide UseQueued, Requeue, FallBack, AnswerPending, Touched, Goto, OnlyMoves;
    AnswersOnlyMove(s, v, worker.key, worker.latest);
    match worker
    case RequestQueued(key, latest, entry) => DecisionOnlyMoves(s, v, key, latest, entry);
    case RequestRequeueing(key, latest, entry) => RequeueOnlyMoves(s, v, key, latest, entry);
    case RequestTouchingReady(key, latest, entry) =>
      var touched := s.(rows := Touched(s.rows, s.now, key, READY_TTL_SECONDS));
      GotoOnlyMoves(touched, v, RequestPublishing(key, entry));
      OnlyWorkersMatter(s, touched, Goto(touched, v, RequestPublishing(key, entry)), v);
    case RequestTouchingPending(key, latest) =>
      var touched := s.(rows := Touched(s.rows, s.now, key, PENDING_TTL_SECONDS));
      AnswersOnlyMove(touched, v, key, latest);
      OnlyWorkersMatter(s, touched, AnswerPending(touched, v, key, latest), v);
  }

  lemma RequestOnlyMoves(s: State, v: nat, worker: Worker, outcome: Outcome)
    requires IsRequest(worker)
    ensures OnlyMoves(s, AdvanceRequest(s, v, worker, outcome), v)
  {
    hide AdvanceRequest, OnlyMoves;
    if IsInserting(worker) {
      InsertingOnlyMoves(s, v, worker, outcome);
    } else if IsQueueing(worker) {
      QueueingOnlyMoves(s, v, worker, outcome);
    } else {
      StartingOnlyMoves(s, v, worker, outcome);
    }
  }

  lemma ProceedOnlyMoves(catalogs: Catalogs, s: State, v: nat, key: Key, model: string, batchIndex: nat, next: nat,
                         messages: Messages)
    ensures OnlyMoves(s, Proceed(catalogs, s, v, key, model, batchIndex, next, messages), v)
  {
    hide BatchesOf;
  }

  lemma ReadRowOnlyMoves(s: State, v: nat, key: Key, model: string, batchIndex: nat)
    ensures OnlyMoves(s, ReadRow(s, v, key, model, batchIndex), v)
  {
    hide Live, SnapshotOf, Generation;
  }

  lemma UseRowOnlyMoves(catalogs: Catalogs, s: State, v: nat, key: Key, model: string, k: nat, entry: Snapshot)
    ensures OnlyMoves(s, UseRow(catalogs, s, v, key, model, k, entry), v)
  {
    hide Proceed, IsLeaseExpired;
    ProceedOnlyMoves(catalogs, s, v, key, model, k, entry.nextBatchIndex, entry.messages);
  }

  lemma TakeOverOnlyMoves(catalogs: Catalogs, s: State, v: nat, key: Key, model: string, k: nat, messages: Messages)
    ensures OnlyMoves(s, TakeOver(catalogs, s, v, key, model, k, messages), v)
  {
    hide Proceed, Released, IsReleasable;
    var released := s.(rows := Released(s.rows, s.now, key, k));
    ProceedOnlyMoves(catalogs, released, v, key, model, k, k, messages);
    OnlyWorkersMatter(s, released, Proceed(catalogs, released, v, key, model, k, k, messages), v);
  }

  lemma ClaimOnlyMoves(s: State, v: nat, key: Key, model: string, k: nat, messages: Messages)
    ensures OnlyMoves(s, ClaimBatch(s, v, key, model, k, messages), v)
  {
    hide Claimed, IsClaimable;
  }

  lemma TranslatingOnlyMoves(catalogs: Catalogs, s: State, v: nat, key: Key, model: string, k: nat,
                             messages: Messages, outcome: Outcome)
    ensures OnlyMoves(s, Translate(catalogs, s, v, key, model, k, messages, outcome), v)
    ensures OnlyMoves(s, Abandon(s, v, key, k, outcome), v)
  {
    hide BatchesOf, TranslateBatch, Released;
  }

  lemma FinishRowOnlyMoves(s: State, v: nat, key: Key, model: string, k: nat, messages: Messages)
    ensures OnlyMoves(s, FinishRow(s, v, key, model, k, messages), v)
  {
    hide Upserted, NextGeneration;
  }

  lemma WriteBatchMovesOneWorker(catalogs: Catalogs, s: State, v: nat, key: Key, model: string, k: nat,
                                 messages: Messages)
    ensures OthersStay(s, WriteBatch(catalogs, s, v, key, model, k, messages), v)
  {
    hide Written, IsWritable, StatusAfter, Generation;
  }

  lemma ReadingOnlyMoves(catalogs: Catalogs, s: State, v: nat, worker: Worker, outcome: Outcome)
    requires IsReading(worker)
    ensures OnlyMoves(s, AdvanceJob(catalogs, s, v, worker, outcome), v)
  {
    hide ReadRow, UseRow, PayloadOf, CacheHit, Goto, Finish, OnlyMoves;
    FinishOnlyMoves(s, v);
    match worker
    case JobStarted(key, model, k) => GotoOnlyMoves(s, v, JobMissedCache(key, model, k));
    case JobMissedCache(key, model, k) => ReadRowOnlyMoves(s, v, key, model, k);
    case JobRead(key, model, k, entry) => UseRowOnlyMoves(catalogs, s, v, key, model, k, entry);
    case JobForwarding(key, model, next) =>
      LastStepOnlyMoves(s, s.(sent := s.sent + {QueueMessage(key, model, next)}), v);
    case JobEnqueueing(key, model, next) =>
      LastStepOnlyMoves(s, s.(sent := s.sent + {QueueMessage(key, model, next)}), v);
    case JobPublishing(key, entry) => LastStepOnlyMoves(s, PutInCache(s, key, PayloadOf(entry)), v);
  }

  lemma ClaimingOnlyMoves(catalogs: Catalogs, s: State, v: nat, worker: Worker, outcome: Outcome)
    requires IsChanging(worker) || worker.JobTranslating?
    ensures OnlyMoves(s, AdvanceJob(catalogs, s, v, worker, outcome), v)
  {
    hide TakeOver, FinishRow, ClaimBatch, Translate, Abandon, OnlyMoves;
    match worker
    case JobReleasing(key, model, k, messages) => TakeOverOnlyMoves(catalogs, s, v, key, model, k, messages);
    case JobFinishing(key, model, next, messages) => FinishRowOnlyMoves(s, v, key, model, next, messages);
    case JobClaiming(key, model, k, messages) => ClaimOnlyMoves(s, v, key, model, k, messages);
    case JobTranslating(key, model, k, messages) =>
      TranslatingOnlyMoves(catalogs, s, v, key, model, k, messages, outcome);
    case JobAbandoning(key, k) => TranslatingOnlyMoves(catalogs, s, v, key, "", k, map[], outcome);
  }

  lemma JobOnlyMoves(catalogs: Catalogs, s: State, v: nat, worker: Worker, outcome: Outcome)
    requires !IsRequest(worker)
    ensures OthersStay(s, AdvanceJob(catalogs, s, v, worker, outcome), v)
    ensures !worker.JobWriting? ==> OnlyMoves(s, AdvanceJob(catalogs, s, v, worker, outcome), v)
  {
    if worker.JobWriting? {
      hide WriteBatch, OthersStay;
      WriteBatchMovesOneWorker(catalogs, s, v, worker.key, worker.model, worker.batchIndex, worker.messages);
    } else {
      hide AdvanceJob, OthersStay;
      if IsChanging(worker) || worker.JobTranslating? {
        ClaimingOnlyMoves(catalogs, s, v, worker, outcome);
      } else {
        ReadingOnlyMoves(catalogs, s, v, worker, outcome);
      }
    }
  }

  /** What others do leaves a worker where it stands. */
  lemma OthersLeaveWorker(catalogs: Catalogs, s: State, w: nat, action: Action)
    requires !IsBy(w, action)
    ensures SameWorker(s, Apply(catalogs, s, action), w)
  {
    hide AdvanceRequest, AdvanceJob;
    match action
    case Advance(v, outcome) =>
      if v in s.workers {
        if IsRequest(s.workers[v]) {
          RequestOnlyMoves(s, v, s.workers[v], outcome);
        } else {
          JobOnlyMoves(catalogs, s, v, s.workers[v], outcome);
        }
      }
    case _ =>
  }

  /** No action turns back the clock or takes a message back. */
  lemma TimeGoesOn(catalogs: Catalogs, s: State, action: Action)
    ensures var t := Apply(catalogs, s, action);
      t.now >= s.now && s.sent <= t.sent
  {
    hide AdvanceRequest, AdvanceJob;
    match action
    case Advance(v, outcome) =>
      if v in s.workers {
        if IsRequest(s.workers[v]) {
          RequestOnlyMoves(s, v, s.workers[v], outcome);
        } else {
          JobOnlyMoves(catalogs, s, v, s.workers[v], outcome);
        }
      }
    case _ =>
  }

  lemma {:induction false} TimeOnlyPasses(catalogs: Catalogs, s: State, actions: seq<Action>)
    ensures var t := Run(catalogs, s, actions);
      t.now >= s.now && s.sent <= t.sent
  {
    hide Apply;
    if actions != [] {
      TimeOnlyPasses(catalogs, s, actions[..|actions| - 1]);
      TimeGoesOn(catalogs, Run(catalogs, s, actions[..|actions| - 1]), actions[|actions| - 1]);
    }
  }

  /** A worker stays where it is as long as it does nothing itself. */
  lemma {:induction false} OthersRunLeavesWorker(catalogs: Catalogs, s: State, w: nat, actions: seq<Action>)
    requires forall i :: 0 <= i < |actions| ==> !IsBy(w, actions[i])
    ensures SameWorker(s, Run(catalogs, s, actions), w)
  {
    hide Apply, IsBy;
    if actions != [] {
      var before := actions[..|actions| - 1];
      OthersRunLeavesWorker(catalogs, s, w, before);
      OthersLeaveWorker(catalogs, Run(catalogs, s, before), w, actions[|actions| - 1]);
    }
  }
}
