/** A delivery that read a row before it expired can overwrite texts of the row inserted after it. */
module TranslationOverwrites {
  import opened Common
  import opened Batching
  import opened Placeholders
  import opened TranslationStore
  import opened TranslationMachine
  import opened TranslationTexts
  import opened TranslationSteps
  import opened TranslationRecovery

  // ---------- a row with its first batch stored ----------

  /** Nothing is cached, and the table has at most the row of `key`, pending and expired. */
  predicate IsQuiet(s: State, key: Key) {
    && s.cache == map[] && s.rows.Keys <= {key}
    && (key in s.rows ==> s.rows[key].status.Pending? && s.rows[key].expiresAt <= s.now)
  }

  /** The table has just the row of `key`, with its first batch stored now in a new generation. */
  predicate HasFirstBatch(s: State, t: State, key: Key, model: string, messages: Messages) {
    && t.now == s.now && t.cache == map[] && t.workers == s.workers
    && t.rows == map[key := Row(model, Pending, messages, 1, s.now + PENDING_TTL_SECONDS, s.now)]
    && Generation(t, key) == Generation(s, key) + 1
    && QueueMessage(key, model, 1) in t.sent
    && forall v :: v in s.readings && v in s.workers ==> ReadGeneration(t, v) == s.readings[v]
  }

  lemma NewRowIsDeliverable(s: State, key: Key, model: string)
    requires IsQuiet(s, key)
    ensures var t := AnsweredPending(WithNewRow(s, key, model), key, None);
      && Deliverable(t, key, 0) && QueueMessage(key, model, 0) in t.sent && t.workers == s.workers
      && t.rows == map[key := Row(model, Pending, map[], 0, s.now + PENDING_TTL_SECONDS, s.now)]
  {
    var t := WithNewRow(s, key, model);
    assert t.rows.Keys == {key};
    assert QueueMessage(key, model, 0) in t.sent;
  }

  lemma FirstBatchIsStored(catalogs: Catalogs, s: State, w: nat, key: Key, model: string, messages: Messages)
    requires IsQuiet(s, key) && w !in s.workers && 1 < |BatchesOf(catalogs, key)|
    ensures var t := AnsweredPending(WithNewRow(s, key, model), key, None);
      HasFirstBatch(s, Delivered(catalogs, ReadyToClaim(t, w, key, 0), w, key, model, 0, messages), key, model,
                    messages)
  {
    hide BatchesOf;
    var t := AnsweredPending(WithNewRow(s, key, model), key, None);
    NewRowIsDeliverable(s, key, model);
    ReadyRowIsClaimable(t, w, key, 0);
    var stored := Delivered(catalogs, ReadyToClaim(t, w, key, 0), w, key, model, 0, messages);
    assert stored.rows.Keys == {key};
    assert QueueMessage(key, model, 1) in stored.sent;
  }

  /** A request and a delivery, undisturbed, store the first batch of a new row. */
  lemma RowGetsItsFirstBatch(catalogs: Catalogs, s: State, v: nat, w: nat, key: Key, model: string, replies: seq<Reply>)
    returns (actions: seq<Action>)
    requires IsQuiet(s, key) && v !in s.workers && w !in s.workers && key.language in ALLOWED_LANGUAGES
    requires 1 < |BatchesOf(catalogs, key)| && TranslateBatch(BatchesOf(catalogs, key)[0], replies).Some?
    ensures HasFirstBatch(s, Run(catalogs, s, actions), key, model,
                          TranslateBatch(BatchesOf(catalogs, key)[0], replies).value)
  {
    hide Run, Steps, BatchesOf, TranslateBatch, HasFirstBatch, WithNewRow, ReadyToClaim, Delivered, Deliverable;
    var translated := TranslateBatch(BatchesOf(catalogs, key)[0], replies).value;
    NothingIsReady(s, key);
    RequestStartsRow(catalogs, s, v, key, model, None);
    var t := AnsweredPending(WithNewRow(s, key, model), key, None);
    NewRowIsDeliverable(s, key, model);
    var n := DeliveryStores(catalogs, t, w, key, model, 0, replies);
    assert t.rows[key].messages + translated == translated;
    FirstBatchIsStored(catalogs, s, w, key, model, translated);
    var request := [Request(v, key, model)] + Steps(v, Latest(None), 6);
    var delivery := [Deliver(w, QueueMessage(key, model, 0), key.checksum)] + Steps(w, Answers(replies), n);
    RunConcat(catalogs, s, request, delivery);
    actions := request + delivery;
  }

  lemma NothingIsReady(s: State, key: Key)
    requires IsQuiet(s, key)
    ensures IsLatestReady(s.rows, s.now, key.language, None) && !Live(s.rows, s.now, key) && !CacheHit(s, key)
  {
  }

  // ---------- a worker left behind ----------

  /** Worker `w` knows the row after its first batch, and is about to claim the second. */
  lemma WorkerGetsToSecondBatch(catalogs: Catalogs, s: State, w: nat, key: Key, model: string, messages: Messages)
    returns (actions: seq<Action>)
    requires s.cache == map[] && w !in s.workers && key.language in ALLOWED_LANGUAGES
    requires key in s.rows && s.now < s.rows[key].expiresAt && s.rows[key].status.Pending?
    requires s.rows[key].nextBatchIndex == 1 && s.rows[key].messages == messages
    requires QueueMessage(key, model, 1) in s.sent && 1 < |BatchesOf(catalogs, key)|
    ensures Run(catalogs, s, actions) == Goto(Noted(s, w, key), w, JobClaiming(key, model, 1, messages))
  {
    hide Run, Steps, BatchesOf;
    var outcome := Answers([]);
    var n := JobGetsToTheBatch(catalogs, s, w, key, model, 1, outcome);
    assert Released(s.rows, s.now, key, 1) == s.rows;
    RunDelivery(catalogs, s, w, QueueMessage(key, model, 1), Steps(w, outcome, n));
    actions := [Deliver(w, QueueMessage(key, model, 1), key.checksum)] + Steps(w, outcome, n);
  }

  /** The worker left behind claims and translates the second batch of the row as it is now. */
  lemma LateWorkerTranslates(catalogs: Catalogs, s: State, w: nat, key: Key, model: string, messages: Messages,
                             replies: seq<Reply>)
    requires w in s.workers && s.workers[w] == JobClaiming(key, model, 1, messages)
    requires IsClaimable(s.rows, s.now, key, 1) && 1 < |BatchesOf(catalogs, key)|
    requires TranslateBatch(BatchesOf(catalogs, key)[1], replies).Some?
    ensures var merged := messages + TranslateBatch(BatchesOf(catalogs, key)[1], replies).value;
      Run(catalogs, s, Steps(w, Answers(replies), 2))
           == Goto(WithClaim(s, key, 1), w, JobWriting(key, model, 1, merged))
  {
    hide Run, Steps, BatchesOf, TranslateBatch, Apply;
    var outcome := Answers(replies);
    var without := s.(workers := s.workers - {w});
    assert s.workers == without.workers[w := s.workers[w]];
    assert s == Goto(without, w, JobClaiming(key, model, 1, messages));
    JobClaims(catalogs, without, w, key, model, 1, messages, outcome);
    JobTranslates(catalogs, WithClaim(without, key, 1), w, key, model, 1, messages, outcome);
    OneMoreStep(catalogs, s, w, outcome, 0);
    OneMoreStep(catalogs, s, w, outcome, 1);
    var writing := JobWriting(key, model, 1, messages + TranslateBatch(BatchesOf(catalogs, key)[1], replies).value);
    assert without.workers[w := writing] == s.workers[w := writing];
  }

  /** The worker's write, and what it does to the row. */
  lemma LateWorkerWrites(catalogs: Catalogs, s: State, w: nat, key: Key, model: string, messages: Messages)
    requires w in s.workers && s.workers[w] == JobWriting(key, model, 1, messages) && IsWritable(s.rows, s.now, key, 1)
    ensures var t := Apply(catalogs, s, Advance(w, Succeed));
      && t.writes == s.writes + [Write(key, Generation(s, key), 1, ReadGeneration(s, w), messages)]
      && key in t.rows && t.rows[key].messages == messages
  {
    hide StatusAfter, Generation, ReadGeneration, AdvanceRequest;
  }

  // ---------- the run ----------

  /** The replies translate the first batch in two ways, differing in a text that the second batch does not have. */
  ghost predicate DifferInFirstBatch(catalogs: Catalogs, key: Key, some: seq<Reply>, others: seq<Reply>, text: string)
    requires 1 < |BatchesOf(catalogs, key)|
  {
    var batch := BatchesOf(catalogs, key)[0];
    && TranslateBatch(batch, some).Some? && TranslateBatch(batch, others).Some?
    && text in TranslateBatch(batch, some).value && text in TranslateBatch(batch, others).value
    && TranslateBatch(batch, some).value[text] != TranslateBatch(batch, others).value[text]
    && text !in Sources(BatchesOf(catalogs, key)[1])
  }

  /** Worker 2 knows the first generation of the row with texts `past`; the row holds `newer` in its second. */
  ghost predicate IsLeftBehind(s: State, key: Key, model: string, past: Messages, newer: Messages) {
    && 2 in s.workers && s.workers[2] == JobClaiming(key, model, 1, past) && ReadGeneration(s, 2) == 1
    && Generation(s, key) == 2 && key in s.rows
    && s.rows[key] == Row(model, Pending, newer, 1, s.now + PENDING_TTL_SECONDS, s.now)
  }

  lemma SomeWorkerIsLeftBehind(catalogs: Catalogs, key: Key, model: string, some: seq<Reply>, others: seq<Reply>)
    returns (run: seq<Action>)
    requires key.language in ALLOWED_LANGUAGES && 1 < |BatchesOf(catalogs, key)|
    requires TranslateBatch(BatchesOf(catalogs, key)[0], some).Some?
    requires TranslateBatch(BatchesOf(catalogs, key)[0], others).Some?
    ensures IsLeftBehind(Run(catalogs, INITIAL, run), key, model,
      TranslateBatch(BatchesOf(catalogs, key)[0], some).value,
      TranslateBatch(BatchesOf(catalogs, key)[0], others).value)
  {
    hide Run, BatchesOf, TranslateBatch, Steps;
    var past := TranslateBatch(BatchesOf(catalogs, key)[0], some).value;
    var first := RowGetsItsFirstBatch(catalogs, INITIAL, 0, 1, key, model, some);
    var s1 := Run(catalogs, INITIAL, first);
    var second := WorkerGetsToSecondBatch(catalogs, s1, 2, key, model, past);
    RunConcat(catalogs, INITIAL, first, second);
    var s2 := Run(catalogs, INITIAL, first + second);
    RunOneAction(catalogs, s2, Tick(PENDING_TTL_SECONDS));
    RunConcat(catalogs, INITIAL, first + second, [Tick(PENDING_TTL_SECONDS)]);
    var s3 := Run(catalogs, INITIAL, first + second + [Tick(PENDING_TTL_SECONDS)]);
    var third := RowGetsItsFirstBatch(catalogs, s3, 3, 4, key, model, others);
    RunConcat(catalogs, INITIAL, first + second + [Tick(PENDING_TTL_SECONDS)], third);
    run := first + second + [Tick(PENDING_TTL_SECONDS)] + third;
  }

  /** The action stores the second batch, of a worker that has read an earlier generation, and changes other texts. */
  ghost predicate WritesOver(catalogs: Catalogs, s: State, t: State, write: Write) {
    && t.writes == s.writes + [write] && write.batchIndex == 1 && write.read < write.generation
    && write.key in s.rows && write.key in t.rows && 1 < |BatchesOf(catalogs, write.key)|
    && !KeepsTexts(s.rows[write.key].messages, t.rows[write.key].messages, BatchesOf(catalogs, write.key)[1])
  }

  predicate HasText(s: State, key: Key, text: string, translated: string) {
    key in s.rows && text in s.rows[key].messages && s.rows[key].messages[text] == translated
  }

  /**
   * For every catalog of two batches whose first can be translated in two ways: a worker reads the row
   * after its first batch and pauses; the row expires, is inserted again and gets its first batch; the
   * worker then stores the second batch, and with it the texts of the first as it had read them.
   */
  lemma LateWriterOverwritesEarlierTexts(catalogs: Catalogs, key: Key, model: string, some: seq<Reply>,
                                         others: seq<Reply>, last: seq<Reply>, text: string)
    returns (run: seq<Action>, action: Action, write: Write)
    requires key.language in ALLOWED_LANGUAGES && 1 < |BatchesOf(catalogs, key)|
    requires |BatchesOf(catalogs, key)| < CLAIM_OFFSET
    requires DifferInFirstBatch(catalogs, key, some, others, text)
    requires TranslateBatch(BatchesOf(catalogs, key)[1], last).Some?
    ensures WritesOver(catalogs, Run(catalogs, INITIAL, run), Run(catalogs, INITIAL, run + [action]), write)
    ensures write.key == key && write.read == 1 && write.generation == 2
    ensures HasText(Run(catalogs, INITIAL, run), key, text,
                    TranslateBatch(BatchesOf(catalogs, key)[0], others).value[text])
    ensures HasText(Run(catalogs, INITIAL, run + [action]), key, text,
                    TranslateBatch(BatchesOf(catalogs, key)[0], some).value[text])
  {
    hide Run, BatchesOf, TranslateBatch, Steps, Apply, Sources;
    var batch := BatchesOf(catalogs, key)[1];
    var before := SomeWorkerIsLeftBehind(catalogs, key, model, some, others);
    var s := Run(catalogs, INITIAL, before);
    var past := s.workers[2].messages;
    var translated := TranslateBatch(batch, last).value;
    TranslationHasKeys(batch, last);
    LateWorkerTranslates(catalogs, s, 2, key, model, past, last);
    RunConcat(catalogs, INITIAL, before, Steps(2, Answers(last), 2));
    run := before + Steps(2, Answers(last), 2);
    var merged := past + translated;
    var s' := Run(catalogs, INITIAL, run);
    assert s' == Goto(WithClaim(s, key, 1), 2, JobWriting(key, model, 1, merged));
    LateWorkerWrites(catalogs, s', 2, key, model, merged);
    action := Advance(2, Succeed);
    write := Write(key, 2, 1, 1, merged);
    RunConcat(catalogs, INITIAL, run, [action]);
    RunOneAction(catalogs, s', action);
    assert text !in translated;
    assert merged[text] == past[text];
  }

  /** The two replies "a" and "b" for the last message of the first batch, if its text has no placeholders. */
  lemma TwoTranslations(catalogs: Catalogs, key: Key) returns (some: seq<Reply>, others: seq<Reply>, text: string)
    requires 1 < |BatchesOf(catalogs, key)| && BatchesOf(catalogs, key)[0] != []
    requires var batch := BatchesOf(catalogs, key)[0];
      var entry := batch[|batch| - 1];
      Tokens(entry.text) == [] && entry.key !in Sources(BatchesOf(catalogs, key)[1])
    ensures DifferInFirstBatch(catalogs, key, some, others, text)
  {
    hide BatchesOf, Tokens, Sources, TranslateBatch, Trim, KeptMessages;
    var batch := BatchesOf(catalogs, key)[0];
    text := batch[|batch| - 1].key;
    some, others := [Some(map[text := "a"])], [Some(map[text := "b"])];
    LettersAreTrimmed();
    var init, entry := batch[..|batch| - 1], batch[|batch| - 1];
    assert batch == init + [entry];
    LastTextIsKept(init, entry, "a");
    LastTextIsKept(init, entry, "b");
  }

  lemma LettersAreTrimmed()
    ensures Trim("a") == "a" && Trim("b") == "b"
  {
  }

  lemma LastTextIsKept(init: Batch, entry: Entry, translated: string)
    requires Tokens(entry.text) == [] && Trim(translated) == translated != ""
    ensures var batch, reply := init + [entry], map[entry.key := translated];
      && TranslateBatch(batch, [Some(reply)]) == Some(KeptMessages(batch, reply))
      && entry.key in KeptMessages(batch, reply) && KeptMessages(batch, reply)[entry.key] == translated
  {
    hide Trim, Tokens;
    var batch, reply := init + [entry], map[entry.key := translated];
    assert batch[|init|].key in reply;
    assert TranslatedBatch(batch, reply).Some?;
  }

  /** So the texts of a batch already stored can change, in every catalog with such a message. */
  lemma EarlierTextsCanBeOverwritten(catalogs: Catalogs, key: Key, model: string)
    returns (run: seq<Action>, action: Action, write: Write)
    requires key.language in ALLOWED_LANGUAGES && 1 < |BatchesOf(catalogs, key)|
    requires |BatchesOf(catalogs, key)| < CLAIM_OFFSET
    requires var batch := BatchesOf(catalogs, key)[0];
      && batch != [] && Tokens(batch[|batch| - 1].text) == []
      && batch[|batch| - 1].key !in Sources(BatchesOf(catalogs, key)[1])
    ensures write.key == key
    ensures WritesOver(catalogs, Run(catalogs, INITIAL, run), Run(catalogs, INITIAL, run + [action]), write)
  {
    hide Run, BatchesOf, TranslateBatch, Apply, Sources, Tokens, WritesOver, HasText, DifferInFirstBatch;
    var some, others, text := TwoTranslations(catalogs, key);
    var last := EchoIsEnough(catalogs, key, 1);
    run, action, write := LateWriterOverwritesEarlierTexts(catalogs, key, model, some, others, last, text);
  }
}
