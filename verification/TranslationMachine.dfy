/**
 * The translation workers as a state machine.
 *
 * Any number of HTTP requests and queue deliveries run at once. Each is a `Worker`: a program
 * counter with the local values the code holds at that point. One action performs one statement
 * on the table, the cache or the queue, or one local decision that depends on the clock.
 */
module TranslationMachine {
  import opened Common
  import opened Batching
  import opened Placeholders
  import opened TranslationStore

  /** The catalog behind each checksum. Several deployments may share the table. */
  type Catalogs = string -> seq<Entry>

  const ALLOWED_LANGUAGES := {"de", "es", "fr", "hi", "id", "it", "ja", "ko", "pl", "pt", "ru", "tr", "vi", "zh"}

  function BatchesOf(catalogs: Catalogs, key: Key): seq<Batch> {
    Batches(catalogs(key.checksum))
  }

  datatype Payload = Payload(checksum: string, model: string, messages: Messages)

  datatype Cached = Cached(payload: Payload, expiresAt: int)

  datatype QueueMessage = QueueMessage(key: Key, model: string, batchIndex: nat)

  /** A 200 answer, marked when it serves the translation of another checksum, or the 202 answer. */
  datatype Response = Served(key: Key, stale: bool, payload: Payload) | Accepted(key: Key)

  /**
   * History: which batch of which generation of a row a conditional update has stored, the messages it
   * left in the row, and the generation of the row from which its worker had read the earlier messages.
   */
  datatype Write = Write(key: Key, generation: nat, batchIndex: nat, read: nat, messages: Messages)

  datatype Worker =
    | RequestStarted(key: Key, model: string)
    | RequestMissedCache(key: Key, model: string)
    | RequestReadLatest(key: Key, model: string, latest: Option<Snapshot>)
    | RequestRefreshing(key: Key, entry: Snapshot)
    | RequestInserting(key: Key, model: string, latest: Option<Snapshot>, startedAt: int)
    | RequestInserted(key: Key, latest: Option<Snapshot>, entry: Snapshot)
    | RequestUndoing(key: Key, latest: Option<Snapshot>)
    | RequestLostInsert(key: Key, latest: Option<Snapshot>)
    | RequestQueued(key: Key, latest: Option<Snapshot>, entry: Snapshot)
    | RequestTouchingReady(key: Key, latest: Option<Snapshot>, entry: Snapshot)
    | RequestRequeueing(key: Key, latest: Option<Snapshot>, entry: Snapshot)
    | RequestTouchingPending(key: Key, latest: Option<Snapshot>)
    | RequestPublishing(key: Key, entry: Snapshot)
    | JobStarted(key: Key, model: string, batchIndex: nat)
    | JobMissedCache(key: Key, model: string, batchIndex: nat)
    | JobRead(key: Key, model: string, batchIndex: nat, entry: Snapshot)
    | JobReleasing(key: Key, model: string, batchIndex: nat, messages: Messages)
    | JobFinishing(key: Key, model: string, nextBatchIndex: nat, messages: Messages)
    | JobForwarding(key: Key, model: string, nextBatchIndex: nat)
    | JobClaiming(key: Key, model: string, batchIndex: nat, messages: Messages)
    | JobTranslating(key: Key, model: string, batchIndex: nat, messages: Messages)
    | JobAbandoning(key: Key, batchIndex: nat)
    | JobWriting(key: Key, model: string, batchIndex: nat, messages: Messages)
    | JobEnqueueing(key: Key, model: string, nextBatchIndex: nat)
    | JobPublishing(key: Key, entry: Snapshot)

  datatype State = State(
    now: int,
    rows: Rows,
    cache: map<Key, Cached>,
    sent: set<QueueMessage>,
    workers: map<nat, Worker>,
    // History: never read by any action.
    responses: seq<Response>,
    generations: map<Key, nat>,
    readings: map<nat, nat>,
    writes: seq<Write>)

  const INITIAL := State(0, map[], map[], {}, map[], [], map[], map[], [])

  /** What the outside world contributes to a worker's next step. */
  datatype Outcome =
    | Succeed
    | Fault
    | Latest(key: Option<Key>)
    | Answers(replies: seq<Reply>)

  datatype Action =
    | Tick(seconds: nat)
    | Cleanup
    | Evict(key: Key)
    | Inject(message: QueueMessage)
    | Request(worker: nat, key: Key, model: string)
    | Deliver(worker: nat, message: QueueMessage, checksum: string)
    | Advance(worker: nat, outcome: Outcome)
    | Crash(worker: nat)

  // ---------- moving a worker on ----------

  function Finish(s: State, w: nat): State {
    s.(workers := s.workers - {w})
  }

  function Goto(s: State, w: nat, worker: Worker): State {
    s.(workers := s.workers[w := worker])
  }

  function Answer(s: State, response: Response): State {
    s.(responses := s.responses + [response])
  }

  function PayloadOf(entry: Snapshot): Payload {
    Payload(entry.key.checksum, entry.model, entry.messages)
  }

  /** The error branch of a request: an older translation if there is one, otherwise a 503. */
  function FallBack(s: State, w: nat, key: Key, latest: Option<Snapshot>): State {
    if latest.Some? then Finish(Answer(s, Served(key, true, PayloadOf(latest.value))), w) else Finish(s, w)
  }

  function AnswerPending(s: State, w: nat, key: Key, latest: Option<Snapshot>): State {
    if latest.Some? then FallBack(s, w, key, latest) else Finish(Answer(s, Accepted(key)), w)
  }

  predicate CacheHit(s: State, key: Key) {
    key in s.cache && s.cache[key].expiresAt > s.now
  }

  function PutInCache(s: State, key: Key, payload: Payload): State {
    s.(cache := s.cache[key := Cached(payload, s.now + CACHE_TTL_SECONDS)])
  }

  function Generation(s: State, key: Key): nat {
    if key in s.generations then s.generations[key] else 0
  }

  function NextGeneration(s: State, key: Key): map<Key, nat> {
    s.generations[key := Generation(s, key) + 1]
  }

  /** The generation of the row that the delivery `w` has read. */
  function ReadGeneration(s: State, w: nat): nat {
    if w in s.readings then s.readings[w] else 0
  }

  function Noted(s: State, w: nat, key: Key): State {
    s.(readings := s.readings[w := Generation(s, key)])
  }

  // ---------- one step of an HTTP request ----------

  /** What a request does with the latest ready row, decided when the SELECT has returned. */
  function UseLatest(s: State, w: nat, key: Key, model: string, latest: Option<Snapshot>): State {
    if latest.None? then Goto(s, w, RequestInserting(key, model, latest, s.now))
    else
      var entry := latest.value;
      if IsReadyFresh(entry, s.now) then
        if entry.key.checksum == key.checksum then Goto(s, w, RequestPublishing(key, entry))
        else Finish(Answer(s, Served(key, true, PayloadOf(entry))), w)
      else if entry.key.checksum != key.checksum then Goto(s, w, RequestInserting(key, model, latest, s.now))
      else Goto(s, w, RequestRefreshing(key, entry))
  }

  function Insert(s: State, w: nat, key: Key, model: string, latest: Option<Snapshot>, startedAt: int): State {
    if Live(s.rows, s.now, key) then Goto(s, w, RequestLostInsert(key, latest))
    else
      var inserted := s.(rows := Inserted(s.rows, s.now, key, model), generations := NextGeneration(s, key));
      Goto(inserted, w, RequestInserted(key, latest, Snapshot(key, model, Pending, map[], 0, startedAt)))
  }

  /** Whether a queued row has to be sent again, decided when the row has been read or inserted. */
  function UseQueued(s: State, w: nat, key: Key, latest: Option<Snapshot>, entry: Snapshot): State {
    if entry.status.Ready? then Goto(s, w, RequestTouchingReady(key, latest, entry))
    else if !IsPendingStale(entry, s.now) then AnswerPending(s, w, key, latest)
    else if ClaimedBatchIndex(entry.nextBatchIndex).Some? && !IsLeaseExpired(entry, s.now) then
      AnswerPending(s, w, key, latest)
    else Goto(s, w, RequestRequeueing(key, latest, entry))
  }

  function Requeue(s: State, w: nat, key: Key, latest: Option<Snapshot>, entry: Snapshot): State {
    var requeued := s.(sent := s.sent + {QueueMessage(key, entry.model, BatchIndexFromStore(entry.nextBatchIndex))});
    if ClaimedBatchIndex(entry.nextBatchIndex).None? then Goto(requeued, w, RequestTouchingPending(key, latest))
    else AnswerPending(requeued, w, key, latest)
  }

  function Publish(s: State, w: nat, key: Key, entry: Snapshot, outcome: Outcome): State {
    var cached := if outcome.Fault? then s else PutInCache(s, key, PayloadOf(entry));
    Finish(Answer(cached, Served(key, false, PayloadOf(entry))), w)
  }

  // ---------- one step of a queue delivery ----------

  /** What a delivery does once it knows which batch comes next. */
  function Proceed(catalogs: Catalogs, s: State, w: nat, key: Key, model: string, batchIndex: nat, next: nat,
                   messages: Messages): State {
    if next >= |BatchesOf(catalogs, key)| then Goto(s, w, JobFinishing(key, model, next, messages))
    else if batchIndex < next then Finish(s, w)
    else if batchIndex != next then Goto(s, w, JobForwarding(key, model, next))
    else Goto(s, w, JobClaiming(key, model, batchIndex, messages))
  }

  function ReadRow(s: State, w: nat, key: Key, model: string, batchIndex: nat): State {
    if !Live(s.rows, s.now, key) then Finish(s, w)
    else
      var entry := SnapshotOf(s.rows, key);
      if entry.status.Ready? then Goto(s, w, JobPublishing(key, entry))
      else Goto(Noted(s, w, key), w, JobRead(key, model, batchIndex, entry))
  }

  function UseRow(catalogs: Catalogs, s: State, w: nat, key: Key, model: string, batchIndex: nat,
                  entry: Snapshot): State {
    var claimed := ClaimedBatchIndex(entry.nextBatchIndex);
    if claimed.None? then Proceed(catalogs, s, w, key, model, batchIndex, entry.nextBatchIndex, entry.messages)
    else if batchIndex != claimed.value then Finish(s, w)
    else if !IsLeaseExpired(entry, s.now) then Finish(s, w)
    else Goto(s, w, JobReleasing(key, model, batchIndex, entry.messages))
  }

  function TakeOver(catalogs: Catalogs, s: State, w: nat, key: Key, model: string, batchIndex: nat,
                    messages: Messages): State {
    if !IsReleasable(s.rows, key, batchIndex) then Finish(s, w)
    else
      var released := s.(rows := Released(s.rows, s.now, key, batchIndex));
      Proceed(catalogs, released, w, key, model, batchIndex, batchIndex, messages)
  }

  /** The write without a claim; only a catalog without batches gets here. */
  function FinishRow(s: State, w: nat, key: Key, model: string, nextBatchIndex: nat, messages: Messages): State {
    var finished := s.(rows := Upserted(s.rows, s.now, key, model, messages, nextBatchIndex),
                       generations := if key in s.rows then s.generations else NextGeneration(s, key));
    Goto(finished, w, JobPublishing(key, Snapshot(key, model, Ready, messages, nextBatchIndex, s.now)))
  }

  function ClaimBatch(s: State, w: nat, key: Key, model: string, batchIndex: nat, messages: Messages): State {
    if !IsClaimable(s.rows, s.now, key, batchIndex) then Finish(s, w)
    else Goto(s.(rows := Claimed(s.rows, s.now, key, batchIndex)), w, JobTranslating(key, model, batchIndex, messages))
  }

  function Translate(catalogs: Catalogs, s: State, w: nat, key: Key, model: string, batchIndex: nat,
                     messages: Messages, outcome: Outcome): State {
    if !outcome.Answers? || batchIndex >= |BatchesOf(catalogs, key)| then Goto(s, w, JobAbandoning(key, batchIndex))
    else
      var translated := TranslateBatch(BatchesOf(catalogs, key)[batchIndex], outcome.replies);
      if translated.None? then Goto(s, w, JobAbandoning(key, batchIndex))
      else Goto(s, w, JobWriting(key, model, batchIndex, messages + translated.value))
  }

  function Abandon(s: State, w: nat, key: Key, batchIndex: nat, outcome: Outcome): State {
    if outcome.Fault? then Finish(s, w) else Finish(s.(rows := Released(s.rows, s.now, key, batchIndex)), w)
  }

  function StatusAfter(catalogs: Catalogs, key: Key, batchIndex: nat): Status {
    if batchIndex + 1 >= |BatchesOf(catalogs, key)| then Ready else Pending
  }

  function WriteBatch(catalogs: Catalogs, s: State, w: nat, key: Key, model: string, batchIndex: nat,
                      messages: Messages): State {
    if !IsWritable(s.rows, s.now, key, batchIndex) then Finish(s, w)
    else
      var status := StatusAfter(catalogs, key, batchIndex);
      var written := s.(rows := Written(s.rows, s.now, key, batchIndex, model, status, messages, batchIndex + 1),
                        writes := s.writes + [Write(key, Generation(s, key), batchIndex, ReadGeneration(s, w),
                                                    messages)]);
      if status.Ready?
      then Goto(written, w, JobPublishing(key, Snapshot(key, model, Ready, messages, batchIndex + 1, s.now)))
      else Goto(written, w, JobEnqueueing(key, model, batchIndex + 1))
  }

  function Enqueue(s: State, w: nat, message: QueueMessage): State {
    Finish(s.(sent := s.sent + {message}), w)
  }

  // ---------- all actions ----------

  function AdvanceRequest(s: State, w: nat, worker: Worker, outcome: Outcome): State {
    match worker
    case RequestStarted(key, model) =>
      if !outcome.Fault? && CacheHit(s, key) then Finish(Answer(s, Served(key, false, s.cache[key].payload)), w)
      else Goto(s, w, RequestMissedCache(key, model))
    case RequestMissedCache(key, model) =>
      if outcome.Latest? && IsLatestReady(s.rows, s.now, key.language, outcome.key) then
        var latest := if outcome.key.Some? then Some(SnapshotOf(s.rows, outcome.key.value)) else None;
        Goto(s, w, RequestReadLatest(key, model, latest))
      else s
    case RequestReadLatest(key, model, latest) => UseLatest(s, w, key, model, latest)
    case RequestRefreshing(key, entry) =>
      Goto(s.(rows := Touched(s.rows, s.now, entry.key, TtlSeconds(entry.status))), w, RequestPublishing(key, entry))
    case RequestInserting(key, model, latest, startedAt) =>
      if outcome.Fault? then FallBack(s, w, key, latest) else Insert(s, w, key, model, latest, startedAt)
    case RequestInserted(key, latest, entry) =>
      if outcome.Fault? then Goto(s, w, RequestUndoing(key, latest))
      else
        var queued := s.(sent := s.sent + {QueueMessage(key, entry.model, 0)});
        Goto(queued, w, RequestQueued(key, latest, entry))
    case RequestUndoing(key, latest) =>
      FallBack(if outcome.Fault? then s else s.(rows := s.rows - {key}), w, key, latest)
    case RequestLostInsert(key, latest) =>
      if outcome.Fault? || !Live(s.rows, s.now, key) then FallBack(s, w, key, latest)
      else Goto(s, w, RequestQueued(key, latest, SnapshotOf(s.rows, key)))
    case RequestQueued(key, latest, entry) => UseQueued(s, w, key, latest, entry)
    case RequestTouchingReady(key, latest, entry) =>
      if outcome.Fault? then FallBack(s, w, key, latest)
      else Goto(s.(rows := Touched(s.rows, s.now, key, READY_TTL_SECONDS)), w, RequestPublishing(key, entry))
    case RequestRequeueing(key, latest, entry) =>
      if outcome.Fault? then FallBack(s, w, key, latest) else Requeue(s, w, key, latest, entry)
    case RequestTouchingPending(key, latest) =>
      if outcome.Fault? then FallBack(s, w, key, latest)
      else AnswerPending(s.(rows := Touched(s.rows, s.now, key, PENDING_TTL_SECONDS)), w, key, latest)
    case RequestPublishing(key, entry) => Publish(s, w, key, entry, outcome)
    case _ => s
  }

  function AdvanceJob(catalogs: Catalogs, s: State, w: nat, worker: Worker, outcome: Outcome): State {
    match worker
    case JobStarted(key, model, batchIndex) =>
      if !outcome.Fault? && CacheHit(s, key) then Finish(s, w) else Goto(s, w, JobMissedCache(key, model, batchIndex))
    case JobMissedCache(key, model, batchIndex) => ReadRow(s, w, key, model, batchIndex)
    case JobRead(key, model, batchIndex, entry) => UseRow(catalogs, s, w, key, model, batchIndex, entry)
    case JobReleasing(key, model, batchIndex, messages) => TakeOver(catalogs, s, w, key, model, batchIndex, messages)
    case JobFinishing(key, model, next, messages) => FinishRow(s, w, key, model, next, messages)
    case JobForwarding(key, model, next) => Enqueue(s, w, QueueMessage(key, model, next))
    case JobClaiming(key, model, batchIndex, messages) => ClaimBatch(s, w, key, model, batchIndex, messages)
    case JobTranslating(key, model, batchIndex, messages) =>
      Translate(catalogs, s, w, key, model, batchIndex, messages, outcome)
    case JobAbandoning(key, batchIndex) => Abandon(s, w, key, batchIndex, outcome)
    case JobWriting(key, model, batchIndex, messages) => WriteBatch(catalogs, s, w, key, model, batchIndex, messages)
    case JobEnqueueing(key, model, next) => Enqueue(s, w, QueueMessage(key, model, next))
    case JobPublishing(key, entry) =>
      Finish(if outcome.Fault? then s else PutInCache(s, key, PayloadOf(entry)), w)
    case _ => s
  }

  predicate IsRequest(worker: Worker) {
    || worker.RequestStarted? || worker.RequestMissedCache? || worker.RequestReadLatest? || worker.RequestRefreshing?
    || worker.RequestInserting? || worker.RequestInserted? || worker.RequestUndoing? || worker.RequestLostInsert?
    || worker.RequestQueued? || worker.RequestTouchingReady? || worker.RequestRequeueing?
    || worker.RequestTouchingPending? || worker.RequestPublishing?
  }

  /** One action. An action that does not apply leaves the state alone, so every sequence of actions is a run. */
  function Apply(catalogs: Catalogs, s: State, action: Action): State {
    match action
    case Tick(seconds) => s.(now := s.now + seconds)
    case Cleanup => s.(rows := WithoutExpired(s.rows, s.now))
    case Evict(key) => s.(cache := s.cache - {key})
    case Inject(message) => s.(sent := s.sent + {message})
    case Request(w, key, model) =>
      if w !in s.workers && key.language in ALLOWED_LANGUAGES then Goto(s, w, RequestStarted(key, model)) else s
    case Deliver(w, message, checksum) =>
      if w !in s.workers && message in s.sent
         && message.key.language in ALLOWED_LANGUAGES && message.key.checksum == checksum
      then Goto(s, w, JobStarted(message.key, message.model, message.batchIndex))
      else s
    case Advance(w, outcome) =>
      if w !in s.workers then s
      else if IsRequest(s.workers[w]) then AdvanceRequest(s, w, s.workers[w], outcome)
      else AdvanceJob(catalogs, s, w, s.workers[w], outcome)
    case Crash(w) => Finish(s, w)
  }

  /** The state after a run. */
  function Run(catalogs: Catalogs, s: State, actions: seq<Action>): State {
    if actions == [] then s
    else Apply(catalogs, Run(catalogs, s, actions[..|actions| - 1]), actions[|actions| - 1])
  }

  lemma {:induction false} RunConcat(catalogs: Catalogs, s: State, first: seq<Action>, second: seq<Action>)
    ensures Run(catalogs, s, first + second) == Run(catalogs, Run(catalogs, s, first), second)
  {
    if second == [] {
      assert first + second == first;
    } else {
      assert (first + second)[..|first + second| - 1] == first + second[..|second| - 1];
      RunConcat(catalogs, s, first, second[..|second| - 1]);
    }
  }
}
