/** Within one generation of a row, the batches are stored once each and in order. */
module TranslationProgress {
  import opened Common
  import opened Batching
  import opened Placeholders
  import opened TranslationStore
  import opened TranslationMachine
  import opened TranslationSafety

  /** How many batches a row holds. */
  function Progress(catalogs: Catalogs, key: Key, row: Row): nat {
    if row.status.Ready? then |BatchesOf(catalogs, key)| else BatchIndexFromStore(row.nextBatchIndex)
  }

  // ---------- one action ----------

  /** The row is the same generation as before, and holds the same messages, unless it is gone. */
  ghost predicate Unmoved(catalogs: Catalogs, s: State, t: State, key: Key) {
    && Generation(t, key) == Generation(s, key)
    && (key in t.rows ==>
          && key in s.rows
          && Progress(catalogs, key, t.rows[key]) == Progress(catalogs, key, s.rows[key])
          && (t.rows[key].messages == s.rows[key].messages || BatchesOf(catalogs, key) == []))
  }

  ghost predicate Restarted(catalogs: Catalogs, s: State, t: State, key: Key) {
    && Generation(t, key) == Generation(s, key) + 1
    && key in t.rows && Progress(catalogs, key, t.rows[key]) == 0
    && (t.rows[key].messages == map[] || BatchesOf(catalogs, key) == [])
  }

  ghost predicate Advanced(catalogs: Catalogs, s: State, t: State, write: Write) {
    && write.key in s.rows && write.key in t.rows
    && Generation(t, write.key) == Generation(s, write.key) == write.generation
    && Progress(catalogs, write.key, s.rows[write.key]) == write.batchIndex
    && Progress(catalogs, write.key, t.rows[write.key]) == write.batchIndex + 1
    && t.rows[write.key].messages == write.messages
  }

  /** Messages and progress change only by storing the next batch, or by starting a generation. */
  ghost predicate Evolves(catalogs: Catalogs, s: State, t: State) {
    if t.writes == s.writes then forall key :: Unmoved(catalogs, s, t, key) || Restarted(catalogs, s, t, key)
    else
      && |t.writes| == |s.writes| + 1 && t.writes[..|s.writes|] == s.writes
      && Advanced(catalogs, s, t, t.writes[|s.writes|])
      && forall key :: key != t.writes[|s.writes|].key ==> Unmoved(catalogs, s, t, key)
  }

  lemma QuietStepEvolves(catalogs: Catalogs, s: State, t: State)
    requires t.generations == s.generations && t.writes == s.writes
    requires forall key :: key in t.rows ==> key in s.rows && t.rows[key] == s.rows[key]
    ensures Evolves(catalogs, s, t)
  {
    hide Progress;
    forall key ensures Unmoved(catalogs, s, t, key) {}
  }

  lemma TouchEvolves(catalogs: Catalogs, s: State, t: State, key: Key, ttlSeconds: int)
    requires t.generations == s.generations && t.writes == s.writes
    requires t.rows == Touched(s.rows, s.now, key, ttlSeconds)
    ensures Evolves(catalogs, s, t)
  {
    hide BatchesOf;
    forall other ensures Unmoved(catalogs, s, t, other) {}
  }

  lemma ClaimEvolves(catalogs: Catalogs, s: State, t: State, key: Key, batchIndex: nat)
    requires t.generations == s.generations && t.writes == s.writes && batchIndex < CLAIM_OFFSET
    requires t.rows == Claimed(s.rows, s.now, key, batchIndex) || t.rows == Released(s.rows, s.now, key, batchIndex)
    ensures Evolves(catalogs, s, t)
  {
    hide BatchesOf;
    forall other ensures Unmoved(catalogs, s, t, other) {}
  }

  lemma InsertEvolves(catalogs: Catalogs, s: State, t: State, key: Key, model: string)
    requires !Live(s.rows, s.now, key)
    requires t.rows == Inserted(s.rows, s.now, key, model) && t.generations == NextGeneration(s, key)
    requires t.writes == s.writes
    ensures Evolves(catalogs, s, t)
  {
    hide BatchesOf;
    assert Restarted(catalogs, s, t, key);
    forall other | other != key ensures Unmoved(catalogs, s, t, other) {}
  }

  lemma FinishRowEvolves(catalogs: Catalogs, s: State, w: nat, key: Key, model: string, next: nat, messages: Messages)
    requires Safe(catalogs, s) && |BatchesOf(catalogs, key)| == 0
    ensures Evolves(catalogs, s, FinishRow(s, w, key, model, next, messages))
  {
    hide CacheOk, WorkersOk, ResponsesOk, TranslatesUpTo, Translates, Batches;
    var t := FinishRow(s, w, key, model, next, messages);
    if key in s.rows { assert RowOk(catalogs, s.now, key, s.rows[key]); }
    forall other ensures Unmoved(catalogs, s, t, other) || Restarted(catalogs, s, t, other) {
      if other == key {
        assert Progress(catalogs, key, t.rows[key]) == 0;
      }
    }
  }

  /** What the conditional update of a claimed batch does to the row, the history and the other rows. */
  lemma WritingAdvances(catalogs: Catalogs, s: State, t: State, key: Key, model: string, k: nat, write: Write)
    requires IsWritable(s.rows, s.now, key, k) && k + 1 < CLAIM_OFFSET && k < |BatchesOf(catalogs, key)|
    requires t.generations == s.generations
    requires t.rows == Written(s.rows, s.now, key, k, model, StatusAfter(catalogs, key, k), write.messages, k + 1)
    requires write.key == key && write.generation == Generation(s, key) && write.batchIndex == k
    ensures Advanced(catalogs, s, t, write)
    ensures forall other :: other != key ==> Unmoved(catalogs, s, t, other)
  {
    hide BatchesOf;
    MarkersAreUnambiguous(k);
    forall other | other != key ensures Unmoved(catalogs, s, t, other) {}
  }

  lemma WriteBatchEvolves(catalogs: Catalogs, s: State, w: nat, key: Key, model: string, batchIndex: nat,
                          messages: Messages)
    requires Manageable(catalogs) && batchIndex < |BatchesOf(catalogs, key)|
    ensures Evolves(catalogs, s, WriteBatch(catalogs, s, w, key, model, batchIndex, messages))
  {
    hide Batches, Written, IsWritable, StatusAfter, Advanced, Unmoved, Generation, ReadGeneration;
    var t := WriteBatch(catalogs, s, w, key, model, batchIndex, messages);
    if IsWritable(s.rows, s.now, key, batchIndex) {
      assert |Batches(catalogs(key.checksum))| < CLAIM_OFFSET;
      var write := Write(key, Generation(s, key), batchIndex, ReadGeneration(s, w), messages);
      WritingAdvances(catalogs, s, t, key, model, batchIndex, write);
      assert t.writes == s.writes + [write];
      assert t.writes[..|s.writes|] == s.writes;
    } else {
      QuietStepEvolves(catalogs, s, t);
    }
  }

  predicate SameTables(s: State, t: State) {
    t.rows == s.rows && t.generations == s.generations && t.writes == s.writes
  }

  lemma AnswersKeepTables(s: State, w: nat, key: Key, latest: Option<Snapshot>)
    ensures SameTables(s, FallBack(s, w, key, latest)) && SameTables(s, AnswerPending(s, w, key, latest))
  {
  }

  lemma ReadLatestKeepsTables(s: State, w: nat, key: Key, model: string, latest: Option<Snapshot>)
    ensures SameTables(s, UseLatest(s, w, key, model, latest))
  {
    hide IsReadyFresh, PayloadOf;
  }

  lemma DecisionsKeepTables(s: State, w: nat, key: Key, latest: Option<Snapshot>, entry: Snapshot)
    ensures SameTables(s, UseQueued(s, w, key, latest, entry)) && SameTables(s, Requeue(s, w, key, latest, entry))
  {
    hide IsPendingStale, IsLeaseExpired, ClaimedBatchIndex, BatchIndexFromStore, FallBack, PayloadOf, AnswerPending;
    AnswersKeepTables(s, w, key, latest);
    var requeued := s.(sent := s.sent + {QueueMessage(key, entry.model, BatchIndexFromStore(entry.nextBatchIndex))});
    AnswersKeepTables(requeued, w, key, latest);
  }

  lemma PublishKeepsTables(s: State, w: nat, key: Key, entry: Snapshot, outcome: Outcome)
    ensures SameTables(s, Publish(s, w, key, entry, outcome))
  {
  }

  lemma DeletingKeepsTheOthers(s: State, w: nat, key: Key, latest: Option<Snapshot>, outcome: Outcome)
    ensures var t := FallBack(if outcome.Fault? then s else s.(rows := s.rows - {key}), w, key, latest);
      t.generations == s.generations && t.writes == s.writes && (t.rows == s.rows || t.rows == s.rows - {key})
  {
  }

  /** Steps of a request that read, answer, enqueue or delete. */
  lemma OtherRequestStepEvolves(catalogs: Catalogs, s: State, w: nat, worker: Worker, outcome: Outcome)
    requires !worker.RequestRefreshing? && !worker.RequestTouchingReady? && !worker.RequestTouchingPending?
    requires !worker.RequestInserting?
    ensures Evolves(catalogs, s, AdvanceRequest(s, w, worker, outcome))
  {
    hide Evolves, IsLatestReady, Live, SnapshotOf, PayloadOf, CacheHit, FallBack;
    hide UseLatest, UseQueued, Requeue, Publish;
    match worker {
      case RequestReadLatest(key, model, latest) => ReadLatestKeepsTables(s, w, key, model, latest);
      case RequestUndoing(key, latest) => DeletingKeepsTheOthers(s, w, key, latest, outcome);
      case RequestLostInsert(key, latest) => AnswersKeepTables(s, w, key, latest);
      case RequestQueued(key, latest, entry) => DecisionsKeepTables(s, w, key, latest, entry);
      case RequestRequeueing(key, latest, entry) =>
        AnswersKeepTables(s, w, key, latest);
        DecisionsKeepTables(s, w, key, latest, entry);
      case RequestPublishing(key, entry) => PublishKeepsTables(s, w, key, entry, outcome);
      case _ =>
    }
    QuietStepEvolves(catalogs, s, AdvanceRequest(s, w, worker, outcome));
  }

  lemma TouchingEvolves(catalogs: Catalogs, s: State, w: nat, worker: Worker, outcome: Outcome)
    requires worker.RequestTouchingReady? || worker.RequestTouchingPending?
    ensures Evolves(catalogs, s, AdvanceRequest(s, w, worker, outcome))
  {
    hide Evolves, FallBack, AnswerPending;
    var ttlSeconds := if worker.RequestTouchingReady? then READY_TTL_SECONDS else PENDING_TTL_SECONDS;
    var touched := s.(rows := Touched(s.rows, s.now, worker.key, ttlSeconds));
    var t := AdvanceRequest(s, w, worker, outcome);
    AnswersKeepTables(s, w, worker.key, worker.latest);
    AnswersKeepTables(touched, w, worker.key, worker.latest);
    if outcome.Fault? {
      QuietStepEvolves(catalogs, s, t);
    } else {
      TouchEvolves(catalogs, s, t, worker.key, ttlSeconds);
    }
  }

  lemma InsertingEvolves(catalogs: Catalogs, s: State, w: nat, key: Key, model: string, latest: Option<Snapshot>,
                         startedAt: int, outcome: Outcome)
    ensures Evolves(catalogs, s, AdvanceRequest(s, w, RequestInserting(key, model, latest, startedAt), outcome))
  {
    hide Evolves, FallBack, Inserted;
    var t := AdvanceRequest(s, w, RequestInserting(key, model, latest, startedAt), outcome);
    AnswersKeepTables(s, w, key, latest);
    if outcome.Fault? || Live(s.rows, s.now, key) {
      QuietStepEvolves(catalogs, s, t);
    } else {
      InsertEvolves(catalogs, s, t, key, model);
    }
  }

  lemma RequestStepEvolves(catalogs: Catalogs, s: State, w: nat, outcome: Outcome)
    requires w in s.workers && IsRequest(s.workers[w])
    ensures Evolves(catalogs, s, AdvanceRequest(s, w, s.workers[w], outcome))
  {
    hide Evolves, BatchesOf;
    var worker := s.workers[w];
    match worker
    case RequestRefreshing(key, entry) =>
      TouchEvolves(catalogs, s, AdvanceRequest(s, w, worker, outcome), entry.key, TtlSeconds(entry.status));
    case RequestTouchingReady(key, latest, entry) => TouchingEvolves(catalogs, s, w, worker, outcome);
    case RequestTouchingPending(key, latest) => TouchingEvolves(catalogs, s, w, worker, outcome);
    case RequestInserting(key, model, latest, startedAt) =>
      InsertingEvolves(catalogs, s, w, key, model, latest, startedAt, outcome);
    case _ => OtherRequestStepEvolves(catalogs, s, w, worker, outcome);
  }

  lemma TakeOverEvolves(catalogs: Catalogs, s: State, w: nat, key: Key, model: string, batchIndex: nat,
                        messages: Messages)
    requires batchIndex < CLAIM_OFFSET
    ensures Evolves(catalogs, s, TakeOver(catalogs, s, w, key, model, batchIndex, messages))
  {
    hide Evolves, Proceed, Released;
    var t := TakeOver(catalogs, s, w, key, model, batchIndex, messages);
    if IsReleasable(s.rows, key, batchIndex) {
      var released := s.(rows := Released(s.rows, s.now, key, batchIndex));
      ProceedKeepsTables(catalogs, released, w, key, model, batchIndex, batchIndex, messages);
      ClaimEvolves(catalogs, s, t, key, batchIndex);
    } else {
      QuietStepEvolves(catalogs, s, t);
    }
  }

  lemma ClaimBatchEvolves(catalogs: Catalogs, s: State, w: nat, key: Key, model: string, batchIndex: nat,
                          messages: Messages)
    requires batchIndex < CLAIM_OFFSET
    ensures Evolves(catalogs, s, ClaimBatch(s, w, key, model, batchIndex, messages))
  {
    hide Evolves, BatchesOf;
    ClaimEvolves(catalogs, s, ClaimBatch(s, w, key, model, batchIndex, messages), key, batchIndex);
  }

  lemma AbandonEvolves(catalogs: Catalogs, s: State, w: nat, key: Key, batchIndex: nat, outcome: Outcome)
    requires batchIndex < CLAIM_OFFSET
    ensures Evolves(catalogs, s, Abandon(s, w, key, batchIndex, outcome))
  {
    hide Evolves, BatchesOf;
    var t := Abandon(s, w, key, batchIndex, outcome);
    if outcome.Fault? { QuietStepEvolves(catalogs, s, t); } else { ClaimEvolves(catalogs, s, t, key, batchIndex); }
  }

  lemma ReadRowKeepsTables(s: State, w: nat, key: Key, model: string, batchIndex: nat)
    ensures SameTables(s, ReadRow(s, w, key, model, batchIndex))
  {
  }

  lemma ProceedKeepsTables(catalogs: Catalogs, s: State, w: nat, key: Key, model: string, batchIndex: nat, next: nat,
                           messages: Messages)
    ensures SameTables(s, Proceed(catalogs, s, w, key, model, batchIndex, next, messages))
  {
    hide BatchesOf;
  }

  lemma UseRowKeepsTables(catalogs: Catalogs, s: State, w: nat, key: Key, model: string, batchIndex: nat,
                          entry: Snapshot)
    ensures SameTables(s, UseRow(catalogs, s, w, key, model, batchIndex, entry))
  {
    hide Proceed, IsLeaseExpired;
    ProceedKeepsTables(catalogs, s, w, key, model, batchIndex, entry.nextBatchIndex, entry.messages);
  }

  lemma TranslateKeepsTables(catalogs: Catalogs, s: State, w: nat, key: Key, model: string, batchIndex: nat,
                             messages: Messages, outcome: Outcome)
    ensures SameTables(s, Translate(catalogs, s, w, key, model, batchIndex, messages, outcome))
  {
    hide BatchesOf, TranslateBatch;
  }

  lemma OtherJobStepEvolves(catalogs: Catalogs, s: State, w: nat, worker: Worker, outcome: Outcome)
    requires !worker.JobReleasing? && !worker.JobFinishing? && !worker.JobClaiming?
    requires !worker.JobAbandoning? && !worker.JobWriting?
    ensures Evolves(catalogs, s, AdvanceJob(catalogs, s, w, worker, outcome))
  {
    hide Evolves, ReadRow, UseRow, Translate, PayloadOf, CacheHit;
    match worker {
      case JobMissedCache(key, model, batchIndex) => ReadRowKeepsTables(s, w, key, model, batchIndex);
      case JobRead(key, model, batchIndex, entry) => UseRowKeepsTables(catalogs, s, w, key, model, batchIndex, entry);
      case JobTranslating(key, model, batchIndex, messages) =>
        TranslateKeepsTables(catalogs, s, w, key, model, batchIndex, messages, outcome);
      case _ =>
    }
    QuietStepEvolves(catalogs, s, AdvanceJob(catalogs, s, w, worker, outcome));
  }

  lemma JobStepEvolves(catalogs: Catalogs, s: State, w: nat, outcome: Outcome)
    requires Manageable(catalogs) && Safe(catalogs, s) && w in s.workers && !IsRequest(s.workers[w])
    ensures Evolves(catalogs, s, AdvanceJob(catalogs, s, w, s.workers[w], outcome))
  {
    hide Evolves, RowsOk, CacheOk, ResponsesOk, TranslatesUpTo, Translates, ContentOk, Batches;
    var worker := s.workers[w];
    assert WorkerOk(catalogs, worker);
    match worker
    case JobReleasing(key, model, k, messages) =>
      NextIndexIsUnclaimed(catalogs, key, k);
      TakeOverEvolves(catalogs, s, w, key, model, k, messages);
    case JobFinishing(key, model, next, messages) => FinishRowEvolves(catalogs, s, w, key, model, next, messages);
    case JobClaiming(key, model, k, messages) =>
      NextIndexIsUnclaimed(catalogs, key, k);
      ClaimBatchEvolves(catalogs, s, w, key, model, k, messages);
    case JobAbandoning(key, k) =>
      NextIndexIsUnclaimed(catalogs, key, k);
      AbandonEvolves(catalogs, s, w, key, k, outcome);
    case JobWriting(key, model, k, messages) => WriteBatchEvolves(catalogs, s, w, key, model, k, messages);
    case _ => OtherJobStepEvolves(catalogs, s, w, worker, outcome);
  }

  /** The progress of a row never goes back, and moves on only by storing exactly the next batch. */
  lemma ActionEvolves(catalogs: Catalogs, s: State, action: Action)
    requires Manageable(catalogs) && Safe(catalogs, s)
    ensures Evolves(catalogs, s, Apply(catalogs, s, action))
  {
    hide Evolves, Safe, AdvanceRequest, AdvanceJob;
    match action
    case Advance(w, outcome) =>
      if w !in s.workers {
        QuietStepEvolves(catalogs, s, s);
      } else if IsRequest(s.workers[w]) {
        RequestStepEvolves(catalogs, s, w, outcome);
      } else {
        JobStepEvolves(catalogs, s, w, outcome);
      }
    case _ => QuietStepEvolves(catalogs, s, Apply(catalogs, s, action));
  }

  // ---------- every run ----------

  /** The batch indices stored for one generation of a row, in the order they were stored. */
  function Stored(writes: seq<Write>, key: Key, generation: nat): seq<nat> {
    if writes == [] then []
    else
      var last := writes[|writes| - 1];
      Stored(writes[..|writes| - 1], key, generation)
      + if last.key == key && last.generation == generation then [last.batchIndex] else []
  }

  predicate CountsUp(indices: seq<nat>) {
    forall i :: 0 <= i < |indices| ==> indices[i] == i
  }

  ghost predicate HistoryOk(catalogs: Catalogs, s: State) {
    && (forall key, generation :: CountsUp(Stored(s.writes, key, generation)))
    && (forall key, generation :: generation > Generation(s, key) ==> Stored(s.writes, key, generation) == [])
    && (forall key :: key in s.rows ==>
          |Stored(s.writes, key, Generation(s, key))| == Progress(catalogs, key, s.rows[key]))
  }

  lemma WriteKeepsHistory(catalogs: Catalogs, s: State, t: State, write: Write)
    requires HistoryOk(catalogs, s) && t.writes == s.writes + [write]
    requires Advanced(catalogs, s, t, write)
    requires forall key :: key != write.key ==> Unmoved(catalogs, s, t, key)
    ensures HistoryOk(catalogs, t)
  {
    hide Progress, Generation;
    assert t.writes[..|s.writes|] == s.writes;
    assert |Stored(s.writes, write.key, write.generation)| == write.batchIndex;
    forall key, generation: nat
      ensures CountsUp(Stored(t.writes, key, generation))
      ensures generation > Generation(t, key) ==> Stored(t.writes, key, generation) == []
    {
      assert CountsUp(Stored(s.writes, key, generation));
      assert key != write.key ==> Unmoved(catalogs, s, t, key);
    }
    forall key | key in t.rows
      ensures |Stored(t.writes, key, Generation(t, key))| == Progress(catalogs, key, t.rows[key])
    {
      assert key != write.key ==> Unmoved(catalogs, s, t, key);
    }
  }

  lemma EvolutionKeepsHistory(catalogs: Catalogs, s: State, t: State)
    requires HistoryOk(catalogs, s) && Evolves(catalogs, s, t)
    ensures HistoryOk(catalogs, t)
  {
    hide Progress, Generation;
    if t.writes == s.writes {
      forall key
        ensures forall generation: nat :: generation > Generation(t, key) ==> Stored(t.writes, key, generation) == []
        ensures key in t.rows ==> |Stored(t.writes, key, Generation(t, key))| == Progress(catalogs, key, t.rows[key])
      {
        assert Unmoved(catalogs, s, t, key) || Restarted(catalogs, s, t, key);
      }
    } else {
      assert t.writes == s.writes + [t.writes[|s.writes|]];
      WriteKeepsHistory(catalogs, s, t, t.writes[|s.writes|]);
    }
  }

  /** Each generation of a row has stored its batches once each, in order, up to where the row stands. */
  lemma {:induction false} EveryBatchIsStoredOnceInOrder(catalogs: Catalogs, actions: seq<Action>)
    requires Manageable(catalogs)
    ensures HistoryOk(catalogs, Run(catalogs, INITIAL, actions))
  {
    if actions != [] {
      var before := actions[..|actions| - 1];
      EveryBatchIsStoredOnceInOrder(catalogs, before);
      EveryRunIsSafe(catalogs, before);
      ActionEvolves(catalogs, Run(catalogs, INITIAL, before), actions[|actions| - 1]);
      EvolutionKeepsHistory(catalogs, Run(catalogs, INITIAL, before), Run(catalogs, INITIAL, actions));
    }
  }

  lemma {:induction false} StoredPrefix(writes: seq<Write>, n: nat, key: Key, generation: nat)
    requires n <= |writes|
    ensures Stored(writes[..n], key, generation) <= Stored(writes, key, generation)
  {
    if n == |writes| {
      assert writes[..n] == writes;
    } else {
      var shorter := writes[..|writes| - 1];
      StoredPrefix(shorter, n, key, generation);
      assert shorter[..n] == writes[..n];
    }
  }

  /** A stored index says how many batches of its generation were stored before it. */
  lemma StoredIndexCountsEarlierOnes(writes: seq<Write>, i: nat)
    requires i < |writes| && CountsUp(Stored(writes, writes[i].key, writes[i].generation))
    ensures writes[i].batchIndex == |Stored(writes[..i], writes[i].key, writes[i].generation)|
    ensures |Stored(writes[..i + 1], writes[i].key, writes[i].generation)| == writes[i].batchIndex + 1
  {
    var key, generation := writes[i].key, writes[i].generation;
    assert writes[..i + 1][..i] == writes[..i];
    assert Stored(writes[..i + 1], key, generation) == Stored(writes[..i], key, generation) + [writes[i].batchIndex];
    StoredPrefix(writes, i + 1, key, generation);
    var earlier := |Stored(writes[..i], key, generation)|;
    assert Stored(writes, key, generation)[earlier] == Stored(writes[..i + 1], key, generation)[earlier];
  }

  lemma StoredInOrder(writes: seq<Write>, i: nat, j: nat)
    requires i < j < |writes| && writes[i].key == writes[j].key && writes[i].generation == writes[j].generation
    requires CountsUp(Stored(writes, writes[i].key, writes[i].generation))
    ensures writes[i].batchIndex < writes[j].batchIndex
  {
    StoredIndexCountsEarlierOnes(writes, i);
    StoredIndexCountsEarlierOnes(writes, j);
    hide CountsUp;
    StoredPrefix(writes[..j], i + 1, writes[i].key, writes[i].generation);
    assert writes[..j][..i + 1] == writes[..i + 1];
  }

  /** However many workers hold the same claim, at most one of them stores batch k of a generation. */
  lemma NoBatchIsStoredTwice(catalogs: Catalogs, actions: seq<Action>, i: nat, j: nat)
    requires Manageable(catalogs)
    requires i < j < |Run(catalogs, INITIAL, actions).writes|
    ensures var writes := Run(catalogs, INITIAL, actions).writes;
      writes[i].key == writes[j].key && writes[i].generation == writes[j].generation
      ==> writes[i].batchIndex < writes[j].batchIndex
  {
    EveryBatchIsStoredOnceInOrder(catalogs, actions);
    var writes := Run(catalogs, INITIAL, actions).writes;
    hide Run;
    if writes[i].key == writes[j].key && writes[i].generation == writes[j].generation {
      StoredInOrder(writes, i, j);
    }
  }
}
