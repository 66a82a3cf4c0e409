/** What a request or a delivery does when nothing interferes, to the last detail of the state. */
module TranslationSteps {
  import opened Common
  import opened Batching
  import opened Placeholders
  import opened TranslationStore
  import opened TranslationMachine

  // ---------- a worker on its own ----------

  /** `n` steps of worker `w`, undisturbed. */
  function Steps(w: nat, outcome: Outcome, n: nat): seq<Action> {
    if n == 0 then [] else Steps(w, outcome, n - 1) + [Advance(w, outcome)]
  }

  lemma {:induction false} StepsAreAsMany(w: nat, outcome: Outcome, n: nat)
    ensures |Steps(w, outcome, n)| == n
    ensures forall i :: 0 <= i < n ==> Steps(w, outcome, n)[i] == Advance(w, outcome)
  {
    if n > 0 { StepsAreAsMany(w, outcome, n - 1); }
  }

  lemma OneMoreStep(catalogs: Catalogs, s: State, w: nat, outcome: Outcome, n: nat)
    ensures Run(catalogs, s, Steps(w, outcome, 0)) == s
    ensures Run(catalogs, s, Steps(w, outcome, n + 1))
         == Apply(catalogs, Run(catalogs, s, Steps(w, outcome, n)), Advance(w, outcome))
  {
    hide Apply;
    var steps := Steps(w, outcome, n + 1);
    assert steps[..|steps| - 1] == Steps(w, outcome, n);
  }

  lemma {:induction false} MoreSteps(catalogs: Catalogs, s: State, w: nat, outcome: Outcome, m: nat, n: nat)
    ensures Run(catalogs, s, Steps(w, outcome, m + n))
         == Run(catalogs, Run(catalogs, s, Steps(w, outcome, m)), Steps(w, outcome, n))
  {
    hide Apply, Run;
    OneMoreStep(catalogs, Run(catalogs, s, Steps(w, outcome, m)), w, outcome, 0);
    if n > 0 {
      MoreSteps(catalogs, s, w, outcome, m, n - 1);
      OneMoreStep(catalogs, s, w, outcome, m + n - 1);
      OneMoreStep(catalogs, Run(catalogs, s, Steps(w, outcome, m)), w, outcome, n - 1);
    }
  }

  /** A worker that is gone takes no more steps. */
  lemma {:induction false} NoStepsWhenGone(catalogs: Catalogs, s: State, w: nat, outcome: Outcome, n: nat)
    requires w !in s.workers
    ensures Run(catalogs, s, Steps(w, outcome, n)) == s
  {
    hide Run, AdvanceRequest, AdvanceJob;
    OneMoreStep(catalogs, s, w, outcome, 0);
    if n > 0 {
      NoStepsWhenGone(catalogs, s, w, outcome, n - 1);
      OneMoreStep(catalogs, s, w, outcome, n - 1);
    }
  }

  lemma GotoAgain(s: State, w: nat, first: Worker, second: Worker)
    ensures Goto(Goto(s, w, first), w, second) == Goto(s, w, second)
    ensures w !in s.workers ==> Finish(Goto(s, w, first), w) == s
  {
    assert s.workers[w := first][w := second] == s.workers[w := second];
    if w !in s.workers { assert s.workers[w := first] - {w} == s.workers; }
  }

  lemma RunOneAction(catalogs: Catalogs, s: State, action: Action)
    ensures Run(catalogs, s, [action]) == Apply(catalogs, s, action)
  {
    hide Apply;
    assert [action][..0] == [];
    assert Run(catalogs, s, []) == s;
  }

  lemma RunFirstAction(catalogs: Catalogs, s: State, action: Action, rest: seq<Action>)
    ensures Run(catalogs, s, [action] + rest) == Run(catalogs, Apply(catalogs, s, action), rest)
  {
    hide Apply, Run;
    RunConcat(catalogs, s, [action], rest);
    RunOneAction(catalogs, s, action);
  }

  // ---------- a delivery ----------

  /** A delivery of batch `k` that nothing interferes with will be able to claim and store it. */
  ghost predicate Deliverable(s: State, key: Key, k: nat) {
    && Live(s.rows, s.now, key) && s.rows[key].status.Pending?
    && BatchIndexFromStore(s.rows[key].nextBatchIndex) == k
    && (ClaimedBatchIndex(s.rows[key].nextBatchIndex).Some? ==> s.now - s.rows[key].updatedAt >= BATCH_LEASE_SECONDS)
    && !CacheHit(s, key)
  }

  lemma RunDelivery(catalogs: Catalogs, s: State, w: nat, message: QueueMessage, steps: seq<Action>)
    requires w !in s.workers && message in s.sent && message.key.language in ALLOWED_LANGUAGES
    ensures Run(catalogs, s, [Deliver(w, message, message.key.checksum)] + steps)
      == Run(catalogs, Goto(s, w, JobStarted(message.key, message.model, message.batchIndex)), steps)
  {
    hide AdvanceJob, AdvanceRequest, Run;
    RunFirstAction(catalogs, s, Deliver(w, message, message.key.checksum), steps);
  }

  /** Two steps into a delivery, the row has been read. */
  lemma JobReadsRow(catalogs: Catalogs, s: State, w: nat, key: Key, model: string, k: nat, outcome: Outcome)
    requires Live(s.rows, s.now, key) && s.rows[key].status.Pending? && !CacheHit(s, key) && w !in s.workers
    requires outcome.Answers?
    ensures Run(catalogs, Goto(s, w, JobStarted(key, model, k)), Steps(w, outcome, 2))
      == Goto(Noted(s, w, key), w, JobRead(key, model, k, SnapshotOf(s.rows, key)))
  {
    hide Run, AdvanceRequest, UseRow, Proceed, TakeOver, FinishRow, ClaimBatch, Translate, Abandon, WriteBatch;
    hide PayloadOf;
    var s0 := Goto(s, w, JobStarted(key, model, k));
    var noted := Noted(s, w, key);
    GotoAgain(s, w, JobStarted(key, model, k), JobMissedCache(key, model, k));
    GotoAgain(noted, w, JobMissedCache(key, model, k), JobRead(key, model, k, SnapshotOf(s.rows, key)));
    OneMoreStep(catalogs, s0, w, outcome, 0);
    OneMoreStep(catalogs, s0, w, outcome, 1);
  }

  /** The state a delivery works on once it has the right to proceed: an expired claim is released. */
  function Unclaimed(s: State, key: Key, k: nat): State {
    s.(rows := Released(s.rows, s.now, key, k))
  }

  lemma ProceedAgain(catalogs: Catalogs, s: State, w: nat, at: Worker, key: Key, model: string, k: nat,
                     messages: Messages)
    requires w !in s.workers
    ensures Proceed(catalogs, Goto(s, w, at), w, key, model, k, k, messages)
         == Proceed(catalogs, s, w, key, model, k, k, messages)
  {
    GotoAgain(s, w, at, JobFinishing(key, model, k, messages));
    GotoAgain(s, w, at, JobClaiming(key, model, k, messages));
  }

  lemma JobUsesRow(catalogs: Catalogs, s: State, w: nat, key: Key, model: string, k: nat, outcome: Outcome)
    requires Deliverable(s, key, k) && w !in s.workers && outcome.Answers?
    ensures Apply(catalogs, Goto(s, w, JobRead(key, model, k, SnapshotOf(s.rows, key))), Advance(w, outcome))
      == if ClaimedBatchIndex(s.rows[key].nextBatchIndex).None?
         then Proceed(catalogs, s, w, key, model, k, k, s.rows[key].messages)
         else Goto(s, w, JobReleasing(key, model, k, s.rows[key].messages))
  {
    hide BatchesOf, Proceed;
    var entry := SnapshotOf(s.rows, key);
    ProceedAgain(catalogs, s, w, JobRead(key, model, k, entry), key, model, k, entry.messages);
    GotoAgain(s, w, JobRead(key, model, k, entry), JobReleasing(key, model, k, entry.messages));
  }

  lemma JobTakesOver(catalogs: Catalogs, s: State, w: nat, key: Key, model: string, k: nat, messages: Messages,
                     outcome: Outcome)
    requires IsReleasable(s.rows, key, k) && w !in s.workers && outcome.Answers?
    ensures Apply(catalogs, Goto(s, w, JobReleasing(key, model, k, messages)), Advance(w, outcome))
      == Proceed(catalogs, Unclaimed(s, key, k), w, key, model, k, k, messages)
  {
    hide BatchesOf, Proceed;
    ProceedAgain(catalogs, Unclaimed(s, key, k), w, JobReleasing(key, model, k, messages), key, model, k, messages);
  }

  lemma JobProceeds(catalogs: Catalogs, s: State, w: nat, key: Key, model: string, k: nat, outcome: Outcome)
    returns (n: nat)
    requires Deliverable(s, key, k) && w !in s.workers && outcome.Answers?
    ensures n <= 2
    ensures Run(catalogs, Goto(s, w, JobRead(key, model, k, SnapshotOf(s.rows, key))), Steps(w, outcome, n))
      == Proceed(catalogs, Unclaimed(s, key, k), w, key, model, k, k, s.rows[key].messages)
  {
    hide Apply, Run, Proceed, Steps;
    var s0 := Goto(s, w, JobRead(key, model, k, SnapshotOf(s.rows, key)));
    OneMoreStep(catalogs, s0, w, outcome, 0);
    JobUsesRow(catalogs, s, w, key, model, k, outcome);
    MarkersAreUnambiguous(s.rows[key].nextBatchIndex);
    if ClaimedBatchIndex(s.rows[key].nextBatchIndex).None? {
      n := 1;
    } else {
      n := 2;
      OneMoreStep(catalogs, s0, w, outcome, 1);
      JobTakesOver(catalogs, s, w, key, model, k, s.rows[key].messages, outcome);
    }
  }

  /** The state when a delivery may claim its batch: the row read, and an expired claim released. */
  function ReadyToClaim(s: State, w: nat, key: Key, k: nat): State {
    Unclaimed(Noted(s, w, key), key, k)
  }

  /** A delivery that runs undisturbed up to the point where the batch may be claimed. */
  lemma JobGetsToTheBatch(catalogs: Catalogs, s: State, w: nat, key: Key, model: string, k: nat, outcome: Outcome)
    returns (n: nat)
    requires Deliverable(s, key, k) && w !in s.workers && outcome.Answers?
    ensures n <= 4
    ensures Run(catalogs, Goto(s, w, JobStarted(key, model, k)), Steps(w, outcome, n))
      == Proceed(catalogs, ReadyToClaim(s, w, key, k), w, key, model, k, k, s.rows[key].messages)
  {
    hide Run, Proceed, Steps;
    JobReadsRow(catalogs, s, w, key, model, k, outcome);
    var m := JobProceeds(catalogs, Noted(s, w, key), w, key, model, k, outcome);
    MoreSteps(catalogs, Goto(s, w, JobStarted(key, model, k)), w, outcome, 2, m);
    n := 2 + m;
  }

  lemma ReadyRowIsClaimable(s: State, w: nat, key: Key, k: nat)
    requires Deliverable(s, key, k)
    ensures IsClaimable(ReadyToClaim(s, w, key, k).rows, s.now, key, k)
    ensures IsWritable(Claimed(ReadyToClaim(s, w, key, k).rows, s.now, key, k), s.now, key, k)
  {
    MarkersAreUnambiguous(s.rows[key].nextBatchIndex);
  }

  function WithClaim(s: State, key: Key, k: nat): State {
    s.(rows := Claimed(s.rows, s.now, key, k))
  }

  lemma JobClaims(catalogs: Catalogs, s: State, w: nat, key: Key, model: string, k: nat, messages: Messages,
                  outcome: Outcome)
    requires IsClaimable(s.rows, s.now, key, k) && w !in s.workers
    ensures Apply(catalogs, Goto(s, w, JobClaiming(key, model, k, messages)), Advance(w, outcome))
      == Goto(WithClaim(s, key, k), w, JobTranslating(key, model, k, messages))
  {
    GotoAgain(WithClaim(s, key, k), w, JobClaiming(key, model, k, messages), JobTranslating(key, model, k, messages));
  }

  lemma JobTranslates(catalogs: Catalogs, s: State, w: nat, key: Key, model: string, k: nat, messages: Messages,
                      outcome: Outcome)
    requires w !in s.workers && k < |BatchesOf(catalogs, key)|
    requires outcome.Answers? && TranslateBatch(BatchesOf(catalogs, key)[k], outcome.replies).Some?
    ensures Apply(catalogs, Goto(s, w, JobTranslating(key, model, k, messages)), Advance(w, outcome))
      == Goto(s, w,
              JobWriting(key, model, k, messages + TranslateBatch(BatchesOf(catalogs, key)[k], outcome.replies).value))
  {
    hide Batches, TranslateBatch;
    var merged := messages + TranslateBatch(BatchesOf(catalogs, key)[k], outcome.replies).value;
    GotoAgain(s, w, JobTranslating(key, model, k, messages), JobWriting(key, model, k, merged));
  }

  function WithBatch(catalogs: Catalogs, s: State, w: nat, key: Key, model: string, k: nat, messages: Messages): State {
    s.(rows := Written(s.rows, s.now, key, k, model, StatusAfter(catalogs, key, k), messages, k + 1),
       writes := s.writes + [Write(key, Generation(s, key), k, ReadGeneration(s, w), messages)])
  }

  lemma JobStores(catalogs: Catalogs, s: State, w: nat, key: Key, model: string, k: nat, messages: Messages,
                  outcome: Outcome)
    requires IsWritable(s.rows, s.now, key, k) && w !in s.workers
    ensures Apply(catalogs, Goto(s, w, JobWriting(key, model, k, messages)), Advance(w, outcome))
      == Goto(WithBatch(catalogs, s, w, key, model, k, messages), w,
              if StatusAfter(catalogs, key, k).Ready?
              then JobPublishing(key, Snapshot(key, model, Ready, messages, k + 1, s.now))
              else JobEnqueueing(key, model, k + 1))
  {
    hide BatchesOf;
    var t := WithBatch(catalogs, s, w, key, model, k, messages);
    GotoAgain(t, w, JobWriting(key, model, k, messages), JobEnqueueing(key, model, k + 1));
    GotoAgain(t, w, JobWriting(key, model, k, messages),
      JobPublishing(key, Snapshot(key, model, Ready, messages, k + 1, s.now)));
  }

  function WithMessage(s: State, message: QueueMessage): State {
    s.(sent := s.sent + {message})
  }

  lemma JobEnqueues(catalogs: Catalogs, s: State, w: nat, key: Key, model: string, k: nat, outcome: Outcome)
    requires w !in s.workers
    ensures Apply(catalogs, Goto(s, w, JobEnqueueing(key, model, k)), Advance(w, outcome))
         == WithMessage(s, QueueMessage(key, model, k))
  {
    GotoAgain(WithMessage(s, QueueMessage(key, model, k)), w, JobEnqueueing(key, model, k),
              JobEnqueueing(key, model, k));
  }

  lemma JobPublishes(catalogs: Catalogs, s: State, w: nat, key: Key, entry: Snapshot, outcome: Outcome)
    requires w !in s.workers && !outcome.Fault?
    ensures Apply(catalogs, Goto(s, w, JobPublishing(key, entry)), Advance(w, outcome))
         == PutInCache(s, key, PayloadOf(entry))
  {
    GotoAgain(PutInCache(s, key, PayloadOf(entry)), w, JobPublishing(key, entry), JobPublishing(key, entry));
  }

  /** From the claim to the end of a delivery whose batch is not the last. */
  function Delivered(catalogs: Catalogs, s: State, w: nat, key: Key, model: string, k: nat, messages: Messages): State {
    WithMessage(WithBatch(catalogs, WithClaim(s, key, k), w, key, model, k, messages), QueueMessage(key, model, k + 1))
  }

  lemma JobFinishesBatch(catalogs: Catalogs, s: State, w: nat, key: Key, model: string, k: nat, messages: Messages,
                         outcome: Outcome)
    requires IsClaimable(s.rows, s.now, key, k) && w !in s.workers && k + 1 < |BatchesOf(catalogs, key)|
    requires outcome.Answers? && TranslateBatch(BatchesOf(catalogs, key)[k], outcome.replies).Some?
    ensures Run(catalogs, Goto(s, w, JobClaiming(key, model, k, messages)), Steps(w, outcome, 4))
      == Delivered(catalogs, s, w, key, model, k,
                   messages + TranslateBatch(BatchesOf(catalogs, key)[k], outcome.replies).value)
  {
    hide Run, Apply, Batches, TranslateBatch, Steps, Goto, Written;
    var s0 := Goto(s, w, JobClaiming(key, model, k, messages));
    var claimed := WithClaim(s, key, k);
    var merged := messages + TranslateBatch(BatchesOf(catalogs, key)[k], outcome.replies).value;
    JobClaims(catalogs, s, w, key, model, k, messages, outcome);
    JobTranslates(catalogs, claimed, w, key, model, k, messages, outcome);
    JobStores(catalogs, claimed, w, key, model, k, merged, outcome);
    JobEnqueues(catalogs, WithBatch(catalogs, claimed, w, key, model, k, merged), w, key, model, k + 1, outcome);
    OneMoreStep(catalogs, s0, w, outcome, 0);
    OneMoreStep(catalogs, s0, w, outcome, 1);
    OneMoreStep(catalogs, s0, w, outcome, 2);
    OneMoreStep(catalogs, s0, w, outcome, 3);
  }

  /** A whole delivery that nothing interferes with stores its batch, if it is not the last, and sends for the next. */
  lemma DeliveryStores(catalogs: Catalogs, s: State, w: nat, key: Key, model: string, k: nat, replies: seq<Reply>)
    returns (n: nat)
    requires Deliverable(s, key, k) && w !in s.workers && k + 1 < |BatchesOf(catalogs, key)|
    requires QueueMessage(key, model, k) in s.sent && key.language in ALLOWED_LANGUAGES
    requires TranslateBatch(BatchesOf(catalogs, key)[k], replies).Some?
    ensures n <= 8
    ensures Run(catalogs, s, [Deliver(w, QueueMessage(key, model, k), key.checksum)] + Steps(w, Answers(replies), n))
      == Delivered(catalogs, ReadyToClaim(s, w, key, k), w, key, model, k,
                   s.rows[key].messages + TranslateBatch(BatchesOf(catalogs, key)[k], replies).value)
  {
    hide Run, Batches, TranslateBatch, Steps, Delivered, ReadyToClaim;
    var outcome := Answers(replies);
    var s0 := Goto(s, w, JobStarted(key, model, k));
    var m := JobGetsToTheBatch(catalogs, s, w, key, model, k, outcome);
    ReadyRowIsClaimable(s, w, key, k);
    ReadyKeepsWorkers(s, w, key, k);
    JobFinishesBatch(catalogs, ReadyToClaim(s, w, key, k), w, key, model, k, s.rows[key].messages, outcome);
    MoreSteps(catalogs, s0, w, outcome, m, 4);
    n := m + 4;
    RunDelivery(catalogs, s, w, QueueMessage(key, model, k), Steps(w, outcome, n));
  }

  lemma ReadyKeepsWorkers(s: State, w: nat, key: Key, k: nat)
    ensures ReadyToClaim(s, w, key, k).workers == s.workers && ReadyToClaim(s, w, key, k).now == s.now
  {
  }

  // ---------- a request ----------

  function LatestOf(s: State, newest: Option<Key>): Option<Snapshot>
    requires newest.Some? ==> newest.value in s.rows
  {
    if newest.Some? then Some(SnapshotOf(s.rows, newest.value)) else None
  }

  /** The newest ready row of the language, if there is one, is too old to be served as it is. */
  predicate IsNothingFresh(s: State, newest: Option<Key>) {
    newest.Some? ==> newest.value in s.rows && !IsReadyFresh(SnapshotOf(s.rows, newest.value), s.now)
  }

  lemma NewestIsAnother(s: State, key: Key, newest: Option<Key>)
    requires IsLatestReady(s.rows, s.now, key.language, newest) && (key in s.rows ==> s.rows[key].status.Pending?)
    ensures newest.Some? ==> newest.value in s.rows && newest.value.checksum != key.checksum
  {
  }

  lemma RequestReadsLatest(catalogs: Catalogs, s: State, w: nat, key: Key, model: string, newest: Option<Key>)
    requires IsLatestReady(s.rows, s.now, key.language, newest) && (newest.Some? ==> newest.value in s.rows)
    requires w !in s.workers && !CacheHit(s, key)
    ensures Run(catalogs, Goto(s, w, RequestStarted(key, model)), Steps(w, Latest(newest), 2))
      == Goto(s, w, RequestReadLatest(key, model, LatestOf(s, newest)))
  {
    hide Run, IsLatestReady;
    var outcome := Latest(newest);
    var s0 := Goto(s, w, RequestStarted(key, model));
    GotoAgain(s, w, RequestStarted(key, model), RequestMissedCache(key, model));
    GotoAgain(s, w, RequestMissedCache(key, model), RequestReadLatest(key, model, LatestOf(s, newest)));
    OneMoreStep(catalogs, s0, w, outcome, 0);
    OneMoreStep(catalogs, s0, w, outcome, 1);
  }

  /** Three steps into a request that finds nothing fresh, it goes on to insert a row. */
  lemma RequestFindsNothingFresh(catalogs: Catalogs, s: State, w: nat, key: Key, model: string, newest: Option<Key>)
    requires IsLatestReady(s.rows, s.now, key.language, newest) && (key in s.rows ==> s.rows[key].status.Pending?)
    requires w !in s.workers && !CacheHit(s, key) && IsNothingFresh(s, newest)
    ensures Run(catalogs, Goto(s, w, RequestStarted(key, model)), Steps(w, Latest(newest), 3))
      == Goto(s, w, RequestInserting(key, model, LatestOf(s, newest), s.now))
  {
    hide Run, IsLatestReady, AdvanceJob;
    var latest := LatestOf(s, newest);
    var s0 := Goto(s, w, RequestStarted(key, model));
    NewestIsAnother(s, key, newest);
    RequestReadsLatest(catalogs, s, w, key, model, newest);
    GotoAgain(s, w, RequestReadLatest(key, model, latest), RequestInserting(key, model, latest, s.now));
    OneMoreStep(catalogs, s0, w, Latest(newest), 2);
  }

  /** The answer to a request whose translation is under way, with the worker gone. */
  function AnsweredPending(s: State, key: Key, latest: Option<Snapshot>): State {
    Answer(s, if latest.Some? then Served(key, true, PayloadOf(latest.value)) else Accepted(key))
  }

  lemma AnswerLeavesNoWorker(s: State, w: nat, at: Worker, key: Key, latest: Option<Snapshot>)
    requires w !in s.workers
    ensures AnswerPending(Goto(s, w, at), w, key, latest) == AnsweredPending(s, key, latest)
  {
    GotoAgain(AnsweredPending(s, key, latest), w, at, at);
  }

  /** A new row, and the message for its first batch. */
  function WithNewRow(s: State, key: Key, model: string): State {
    WithMessage(WithRow(s, key, model), QueueMessage(key, model, 0))
  }

  /** A whole request that finds no row in the way inserts one and sends for its first batch. */
  lemma RequestStartsRow(catalogs: Catalogs, s: State, w: nat, key: Key, model: string, newest: Option<Key>)
    requires IsLatestReady(s.rows, s.now, key.language, newest) && (key in s.rows ==> s.rows[key].status.Pending?)
    requires w !in s.workers && !CacheHit(s, key) && IsNothingFresh(s, newest) && !Live(s.rows, s.now, key)
    requires key.language in ALLOWED_LANGUAGES
    ensures Run(catalogs, s, [Request(w, key, model)] + Steps(w, Latest(newest), 6))
      == AnsweredPending(WithNewRow(s, key, model), key, LatestOf(s, newest))
  {
    hide Run, Apply, Steps, IsLatestReady;
    var outcome := Latest(newest);
    var latest := LatestOf(s, newest);
    var s0 := Goto(s, w, RequestStarted(key, model));
    RequestBegins(catalogs, s, w, key, model, Steps(w, outcome, 6));
    RequestFindsNothingFresh(catalogs, s, w, key, model, newest);
    RequestInserts(catalogs, s, w, key, model, latest, outcome);
    MoreSteps(catalogs, s0, w, outcome, 3, 3);
  }

  lemma RequestBegins(catalogs: Catalogs, s: State, w: nat, key: Key, model: string, steps: seq<Action>)
    requires w !in s.workers && key.language in ALLOWED_LANGUAGES
    ensures Run(catalogs, s, [Request(w, key, model)] + steps)
         == Run(catalogs, Goto(s, w, RequestStarted(key, model)), steps)
  {
    hide Run, AdvanceJob, AdvanceRequest;
    RunFirstAction(catalogs, s, Request(w, key, model), steps);
  }

  /** The row is inserted, and its first batch not yet sent for. */
  function WithRow(s: State, key: Key, model: string): State {
    s.(rows := Inserted(s.rows, s.now, key, model), generations := NextGeneration(s, key))
  }

  lemma RequestInsertsRow(catalogs: Catalogs, s: State, w: nat, key: Key, model: string, latest: Option<Snapshot>,
                          outcome: Outcome)
    requires w !in s.workers && !Live(s.rows, s.now, key) && !outcome.Fault?
    ensures Apply(catalogs, Goto(s, w, RequestInserting(key, model, latest, s.now)), Advance(w, outcome))
      == Goto(WithRow(s, key, model), w,
              RequestInserted(key, latest, Snapshot(key, model, Pending, map[], 0, s.now)))
  {
    hide AdvanceJob, Inserted;
    var entry := Snapshot(key, model, Pending, map[], 0, s.now);
    GotoAgain(WithRow(s, key, model), w, RequestInserting(key, model, latest, s.now),
              RequestInserted(key, latest, entry));
  }

  lemma RequestSendsFirst(catalogs: Catalogs, s: State, w: nat, key: Key, latest: Option<Snapshot>, entry: Snapshot,
                          outcome: Outcome)
    requires w !in s.workers && !outcome.Fault?
    ensures Apply(catalogs, Goto(s, w, RequestInserted(key, latest, entry)), Advance(w, outcome))
      == Goto(WithMessage(s, QueueMessage(key, entry.model, 0)), w, RequestQueued(key, latest, entry))
  {
    hide AdvanceJob;
    GotoAgain(WithMessage(s, QueueMessage(key, entry.model, 0)), w, RequestInserted(key, latest, entry),
              RequestQueued(key, latest, entry));
  }

  lemma RequestHasNothingToDo(catalogs: Catalogs, s: State, w: nat, key: Key, latest: Option<Snapshot>,
                              entry: Snapshot, outcome: Outcome)
    requires w !in s.workers && entry.status.Pending? && !IsPendingStale(entry, s.now)
    ensures Apply(catalogs, Goto(s, w, RequestQueued(key, latest, entry)), Advance(w, outcome))
      == AnsweredPending(s, key, latest)
  {
    hide AdvanceJob, AnswerPending;
    AnswerLeavesNoWorker(s, w, RequestQueued(key, latest, entry), key, latest);
  }

  lemma RequestInserts(catalogs: Catalogs, s: State, w: nat, key: Key, model: string, latest: Option<Snapshot>,
                       outcome: Outcome)
    requires w !in s.workers && !Live(s.rows, s.now, key) && !outcome.Fault?
    ensures Run(catalogs, Goto(s, w, RequestInserting(key, model, latest, s.now)), Steps(w, outcome, 3))
      == AnsweredPending(WithNewRow(s, key, model), key, latest)
  {
    hide Run, Apply, Steps, Inserted, AnsweredPending;
    var s0 := Goto(s, w, RequestInserting(key, model, latest, s.now));
    var entry := Snapshot(key, model, Pending, map[], 0, s.now);
    RequestInsertsRow(catalogs, s, w, key, model, latest, outcome);
    RequestSendsFirst(catalogs, WithRow(s, key, model), w, key, latest, entry, outcome);
    RequestHasNothingToDo(catalogs, WithNewRow(s, key, model), w, key, latest, entry, outcome);
    OneMoreStep(catalogs, s0, w, outcome, 0);
    OneMoreStep(catalogs, s0, w, outcome, 1);
    OneMoreStep(catalogs, s0, w, outcome, 2);
  }

  // ---------- when a request sends a row again ----------

  /** A request now would send the pending row again. */
  predicate IsDue(s: State, key: Key)
    requires key in s.rows
  {
    && s.now - s.rows[key].updatedAt >= REQUEUE_AFTER_SECONDS
    && (ClaimedBatchIndex(s.rows[key].nextBatchIndex).Some? ==> s.now - s.rows[key].updatedAt >= BATCH_LEASE_SECONDS)
  }

  function ResentMessage(s: State, key: Key): QueueMessage
    requires key in s.rows
  {
    QueueMessage(key, s.rows[key].model, BatchIndexFromStore(s.rows[key].nextBatchIndex))
  }

  /** The row sent again: the message for its batch, and the row touched if nobody has claimed it. */
  function Resent(s: State, key: Key): State
    requires key in s.rows
  {
    var sent := WithMessage(s, ResentMessage(s, key));
    if ClaimedBatchIndex(s.rows[key].nextBatchIndex).Some? then sent
    else sent.(rows := Touched(s.rows, s.now, key, PENDING_TTL_SECONDS))
  }

  lemma RequestFindsRow(catalogs: Catalogs, s: State, w: nat, key: Key, model: string, latest: Option<Snapshot>,
                        outcome: Outcome)
    requires w !in s.workers && Live(s.rows, s.now, key) && !outcome.Fault?
    ensures Run(catalogs, Goto(s, w, RequestInserting(key, model, latest, s.now)), Steps(w, outcome, 2))
      == Goto(s, w, RequestQueued(key, latest, SnapshotOf(s.rows, key)))
  {
    hide Run, AdvanceJob;
    var entry := SnapshotOf(s.rows, key);
    var s0 := Goto(s, w, RequestInserting(key, model, latest, s.now));
    GotoAgain(s, w, RequestInserting(key, model, latest, s.now), RequestLostInsert(key, latest));
    GotoAgain(s, w, RequestLostInsert(key, latest), RequestQueued(key, latest, entry));
    OneMoreStep(catalogs, s0, w, outcome, 0);
    OneMoreStep(catalogs, s0, w, outcome, 1);
  }

  lemma RequestDecides(catalogs: Catalogs, s: State, w: nat, key: Key, latest: Option<Snapshot>, outcome: Outcome)
    requires w !in s.workers && key in s.rows && s.rows[key].status.Pending?
    ensures Apply(catalogs, Goto(s, w, RequestQueued(key, latest, SnapshotOf(s.rows, key))), Advance(w, outcome))
      == if IsDue(s, key) then Goto(s, w, RequestRequeueing(key, latest, SnapshotOf(s.rows, key)))
         else AnsweredPending(s, key, latest)
  {
    hide AnswerPending, AdvanceJob;
    var entry := SnapshotOf(s.rows, key);
    GotoAgain(s, w, RequestQueued(key, latest, entry), RequestRequeueing(key, latest, entry));
    AnswerLeavesNoWorker(s, w, RequestQueued(key, latest, entry), key, latest);
  }

  lemma RequestSendsAgain(catalogs: Catalogs, s: State, w: nat, key: Key, latest: Option<Snapshot>, outcome: Outcome)
    requires w !in s.workers && key in s.rows && !outcome.Fault?
    ensures var t := WithMessage(s, ResentMessage(s, key));
      Apply(catalogs, Goto(s, w, RequestRequeueing(key, latest, SnapshotOf(s.rows, key))), Advance(w, outcome))
      == if ClaimedBatchIndex(s.rows[key].nextBatchIndex).Some? then AnsweredPending(t, key, latest)
         else Goto(t, w, RequestTouchingPending(key, latest))
  {
    hide AdvanceJob, AnswerPending, BatchIndexFromStore, ClaimedBatchIndex;
    var entry := SnapshotOf(s.rows, key);
    var t := WithMessage(s, ResentMessage(s, key));
    AnswerLeavesNoWorker(t, w, RequestRequeueing(key, latest, entry), key, latest);
    GotoAgain(t, w, RequestRequeueing(key, latest, entry), RequestTouchingPending(key, latest));
  }

  lemma RequestTouches(catalogs: Catalogs, s: State, w: nat, key: Key, latest: Option<Snapshot>, outcome: Outcome)
    requires w !in s.workers && !outcome.Fault?
    ensures Apply(catalogs, Goto(s, w, RequestTouchingPending(key, latest)), Advance(w, outcome))
      == AnsweredPending(s.(rows := Touched(s.rows, s.now, key, PENDING_TTL_SECONDS)), key, latest)
  {
    hide AdvanceJob, AnswerPending, Touched;
    AnswerLeavesNoWorker(s.(rows := Touched(s.rows, s.now, key, PENDING_TTL_SECONDS)), w,
                         RequestTouchingPending(key, latest), key, latest);
  }

  lemma AnsweredIsGone(s: State, key: Key, latest: Option<Snapshot>)
    ensures AnsweredPending(s, key, latest).workers == s.workers
  {
  }

  lemma RequestRequeues(catalogs: Catalogs, s: State, w: nat, key: Key, latest: Option<Snapshot>, outcome: Outcome)
    requires w !in s.workers && key in s.rows && !outcome.Fault?
    ensures Run(catalogs, Goto(s, w, RequestRequeueing(key, latest, SnapshotOf(s.rows, key))), Steps(w, outcome, 2))
      == AnsweredPending(Resent(s, key), key, latest)
  {
    hide Run, Apply, Steps, ClaimedBatchIndex, BatchIndexFromStore, Touched;
    var s0 := Goto(s, w, RequestRequeueing(key, latest, SnapshotOf(s.rows, key)));
    var t := WithMessage(s, ResentMessage(s, key));
    RequestSendsAgain(catalogs, s, w, key, latest, outcome);
    OneMoreStep(catalogs, s0, w, outcome, 0);
    OneMoreStep(catalogs, s0, w, outcome, 1);
    if ClaimedBatchIndex(s.rows[key].nextBatchIndex).Some? {
      AnsweredIsGone(t, key, latest);
      NoStepsWhenGone(catalogs, AnsweredPending(t, key, latest), w, outcome, 1);
      OneMoreStep(catalogs, AnsweredPending(t, key, latest), w, outcome, 0);
    } else {
      RequestTouches(catalogs, t, w, key, latest, outcome);
    }
  }

  lemma RequestOnRow(catalogs: Catalogs, s: State, w: nat, key: Key, model: string, latest: Option<Snapshot>,
                     outcome: Outcome)
    requires w !in s.workers && Live(s.rows, s.now, key) && s.rows[key].status.Pending? && !outcome.Fault?
    ensures Run(catalogs, Goto(s, w, RequestInserting(key, model, latest, s.now)), Steps(w, outcome, 5))
      == AnsweredPending(if IsDue(s, key) then Resent(s, key) else s, key, latest)
  {
    hide Run, Apply, Steps, IsDue, Resent;
    var s0 := Goto(s, w, RequestInserting(key, model, latest, s.now));
    RequestFindsRow(catalogs, s, w, key, model, latest, outcome);
    RequestDecides(catalogs, s, w, key, latest, outcome);
    OneMoreStep(catalogs, s0, w, outcome, 2);
    MoreSteps(catalogs, s0, w, outcome, 3, 2);
    if IsDue(s, key) {
      RequestRequeues(catalogs, s, w, key, latest, outcome);
    } else {
      NoStepsWhenGone(catalogs, AnsweredPending(s, key, latest), w, outcome, 2);
    }
  }

  /** What a whole request does to a live pending row, undisturbed. */
  lemma RequestRunsOnPendingRow(catalogs: Catalogs, s: State, w: nat, key: Key, model: string, newest: Option<Key>)
    requires IsLatestReady(s.rows, s.now, key.language, newest) && w !in s.workers && key.language in ALLOWED_LANGUAGES
    requires Live(s.rows, s.now, key) && s.rows[key].status.Pending? && !CacheHit(s, key) && IsNothingFresh(s, newest)
    ensures Run(catalogs, s, [Request(w, key, model)] + Steps(w, Latest(newest), 8))
      == AnsweredPending(if IsDue(s, key) then Resent(s, key) else s, key, LatestOf(s, newest))
  {
    hide Run, Apply, Steps, IsLatestReady, IsDue, Resent;
    var outcome := Latest(newest);
    RequestBegins(catalogs, s, w, key, model, Steps(w, outcome, 8));
    RequestFindsNothingFresh(catalogs, s, w, key, model, newest);
    RequestOnRow(catalogs, s, w, key, model, LatestOf(s, newest), outcome);
    MoreSteps(catalogs, Goto(s, w, RequestStarted(key, model)), w, outcome, 3, 5);
  }

  /** A request answered from the cache or by a fresh row of another catalog queues nothing. */
  lemma RequestIsAnsweredEarly(catalogs: Catalogs, s: State, w: nat, key: Key, model: string, newest: Option<Key>)
    requires IsLatestReady(s.rows, s.now, key.language, newest) && w !in s.workers && key.language in ALLOWED_LANGUAGES
    requires Live(s.rows, s.now, key) && s.rows[key].status.Pending? && (CacheHit(s, key) || !IsNothingFresh(s, newest))
    ensures var t := Run(catalogs, s, [Request(w, key, model)] + Steps(w, Latest(newest), 8));
      t.workers == s.workers && t.sent == s.sent && t.rows == s.rows
  {
    hide Run, Steps, IsLatestReady, AdvanceJob;
    var outcome := Latest(newest);
    var s0 := Goto(s, w, RequestStarted(key, model));
    RequestBegins(catalogs, s, w, key, model, Steps(w, outcome, 8));
    NewestIsAnother(s, key, newest);
    if CacheHit(s, key) {
      OneMoreStep(catalogs, s0, w, outcome, 0);
      var t := Answer(s, Served(key, false, s.cache[key].payload));
      GotoAgain(t, w, RequestStarted(key, model), RequestStarted(key, model));
      NoStepsWhenGone(catalogs, t, w, outcome, 7);
      MoreSteps(catalogs, s0, w, outcome, 1, 7);
    } else {
      var latest := LatestOf(s, newest);
      RequestReadsLatest(catalogs, s, w, key, model, newest);
      OneMoreStep(catalogs, s0, w, outcome, 2);
      var t := Answer(s, Served(key, true, PayloadOf(latest.value)));
      GotoAgain(t, w, RequestReadLatest(key, model, latest), RequestReadLatest(key, model, latest));
      NoStepsWhenGone(catalogs, t, w, outcome, 5);
      MoreSteps(catalogs, s0, w, outcome, 3, 5);
    }
  }

  /**
   * An undisturbed request sends the batch of a live pending row again exactly when the cache misses, the
   * newest ready row of the language is no longer fresh, and the row has not changed for a minute and, if
   * it is claimed, for the lease of 15 minutes. Otherwise it sends nothing.
   */
  lemma RequestResendsExactlyWhen(catalogs: Catalogs, s: State, w: nat, key: Key, model: string, newest: Option<Key>)
    requires IsLatestReady(s.rows, s.now, key.language, newest) && w !in s.workers && key.language in ALLOWED_LANGUAGES
    requires Live(s.rows, s.now, key) && s.rows[key].status.Pending?
    ensures var t := Run(catalogs, s, [Request(w, key, model)] + Steps(w, Latest(newest), 8));
      && t.workers == s.workers
      && t.sent == (if !CacheHit(s, key) && IsNothingFresh(s, newest) && IsDue(s, key)
                    then s.sent + {ResentMessage(s, key)} else s.sent)
  {
    hide Run, Apply, Steps, IsLatestReady, IsDue, CacheHit, IsNothingFresh, Live;
    if CacheHit(s, key) || !IsNothingFresh(s, newest) {
      RequestIsAnsweredEarly(catalogs, s, w, key, model, newest);
    } else {
      RequestRunsOnPendingRow(catalogs, s, w, key, model, newest);
    }
  }
}
