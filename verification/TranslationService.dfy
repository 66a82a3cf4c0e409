/**
 * The translation worker as it is written: one table, one cache and one queue, updated in place by
 * handlers that wait for each statement. While a handler waits, anything the machine can do may
 * happen; whatever it then does is again a step of the machine.
 */
module TranslationService {
  import opened Common
  import opened Batching
  import opened Placeholders
  import opened TranslationStore
  import opened TranslationMachine
  import opened TranslationSafety
  import opened TranslationPrograms

  class Service {
    const catalogs: Catalogs
    var now: int
    var rows: Rows
    var cache: map<Key, Cached>
    var sent: set<QueueMessage>
    /** Everything that has happened. */
    ghost var run: seq<Action>

    ghost function Machine(): State
      reads this
    {
      Run(catalogs, INITIAL, run)
    }

    ghost predicate Valid()
      reads this
    {
      var s := Machine();
      now == s.now && rows == s.rows && cache == s.cache && sent == s.sent
    }

    /** The handler of worker `w` has got as far as `worker`. */
    ghost predicate At(w: nat, worker: Worker)
      reads this
    {
      Valid() && w in Machine().workers && Machine().workers[w] == worker
    }

    ghost predicate Gone(w: nat)
      reads this
    {
      Valid() && w !in Machine().workers
    }

    constructor (catalogs: Catalogs)
      ensures Valid() && this.catalogs == catalogs && run == []
    {
      this.catalogs := catalogs;
      now, rows, cache, sent, run := 0, map[], map[], {}, [];
    }

    // ---------- the statements ----------

    method InsertPending(key: Key, model: string) returns (changed: bool)
      modifies this`rows
      ensures rows == Inserted(old(rows), now, key, model)
      ensures changed == !Live(old(rows), now, key)
    {
      changed := key !in rows || rows[key].expiresAt <= now;
      if changed {
        rows := rows[key := Row(model, Pending, map[], 0, now + PENDING_TTL_SECONDS, now)];
      }
    }

    method Upsert(key: Key, model: string, messages: Messages, nextBatchIndex: nat)
      modifies this`rows
      ensures rows == Upserted(old(rows), now, key, model, messages, nextBatchIndex)
    {
      rows := rows[key := Row(model, Ready, messages, nextBatchIndex, now + READY_TTL_SECONDS, now)];
    }

    method WriteClaimed(key: Key, model: string, status: Status, messages: Messages, nextBatchIndex: nat,
                        batchIndex: nat)
      returns (changed: bool)
      modifies this`rows
      ensures rows == Written(old(rows), now, key, batchIndex, model, status, messages, nextBatchIndex)
      ensures changed == IsWritable(old(rows), now, key, batchIndex)
    {
      changed := key in rows && rows[key].status.Pending? && rows[key].nextBatchIndex == ClaimMarker(batchIndex)
                 && rows[key].expiresAt > now;
      if changed {
        rows := rows[key := Row(model, status, messages, nextBatchIndex, now + TtlSeconds(status), now)];
      }
    }

    method Touch(key: Key, status: Status)
      modifies this`rows
      ensures rows == Touched(old(rows), now, key, TtlSeconds(status))
    {
      if key in rows {
        rows := rows[key := rows[key].(expiresAt := now + TtlSeconds(status), updatedAt := now)];
      }
    }

    method Claim(key: Key, batchIndex: nat) returns (changed: bool)
      modifies this`rows
      ensures rows == Claimed(old(rows), now, key, batchIndex)
      ensures changed == IsClaimable(old(rows), now, key, batchIndex)
    {
      changed := key in rows && rows[key].status.Pending? && rows[key].nextBatchIndex == batchIndex
                 && rows[key].expiresAt > now;
      if changed {
        rows := rows[key := rows[key].(nextBatchIndex := ClaimMarker(batchIndex),
                                       expiresAt := now + PENDING_TTL_SECONDS, updatedAt := now)];
      }
    }

    method Release(key: Key, batchIndex: nat) returns (changed: bool)
      modifies this`rows
      ensures rows == Released(old(rows), now, key, batchIndex)
      ensures changed == IsReleasable(old(rows), key, batchIndex)
    {
      changed := key in rows && rows[key].status.Pending? && rows[key].nextBatchIndex == ClaimMarker(batchIndex);
      if changed {
        rows := rows[key := rows[key].(nextBatchIndex := batchIndex, expiresAt := now + PENDING_TTL_SECONDS,
                                       updatedAt := now)];
      }
    }

    method Delete(key: Key)
      modifies this`rows
      ensures rows == old(rows) - {key}
    {
      rows := rows - {key};
    }

    method Read(key: Key) returns (entry: Option<Snapshot>)
      ensures entry == if Live(rows, now, key) then Some(SnapshotOf(rows, key)) else None
    {
      entry := if key in rows && rows[key].expiresAt > now then Some(SnapshotOf(rows, key)) else None;
    }

    /** SELECT ORDER BY updated_at DESC LIMIT 1, as a scan. */
    method ReadLatestReady(language: string) returns (latest: Option<Key>)
      ensures IsLatestReady(rows, now, language, latest)
    {
      latest := None;
      var rest := rows.Keys;
      while rest != {}
        invariant rest <= rows.Keys
        invariant latest.None? ==> forall key :: key in rows && key !in rest ==> !IsReadyIn(rows, now, language, key)
        invariant latest.Some? ==> IsReadyIn(rows, now, language, latest.value)
        invariant latest.Some? ==>
          forall key :: key in rows && key !in rest && IsReadyIn(rows, now, language, key) ==>
            rows[key].updatedAt <= rows[latest.value].updatedAt
      {
        var key :| key in rest;
        if IsReadyIn(rows, now, language, key) && (latest.None? || rows[latest.value].updatedAt < rows[key].updatedAt) {
          latest := Some(key);
        }
        rest := rest - {key};
      }
    }

    method PutReadyPayload(key: Key, payload: Payload)
      modifies this`cache
      ensures cache == old(cache)[key := Cached(payload, now + CACHE_TTL_SECONDS)]
    {
      cache := cache[key := Cached(payload, now + CACHE_TTL_SECONDS)];
    }

    method Send(message: QueueMessage)
      modifies this`sent
      ensures sent == old(sent) + {message}
    {
      sent := sent + {message};
    }

    // ---------- waiting ----------

    /** Everything others can do while the handler of `w` waits. Callers learn only what is ensured. */
    method Await(ghost w: nat, ghost worker: Worker)
      requires At(w, worker)
      modifies this
      ensures At(w, worker) && Idles(w, old(run), run)
    {
    }

    /** The next step of worker `w`, which has done nothing since `start`. */
    ghost method Do(w: nat, handler: Handler, outcome: Outcome, start: seq<Action>, answers: seq<Response>)
      requires Idles(w, start, run) && IsProgramStep(w, handler, Machine(), Advance(w, outcome))
      requires Apply(catalogs, Machine(), Advance(w, outcome)).responses == Machine().responses + answers
      modifies this`run
      ensures run == old(run) + [Advance(w, outcome)]
      ensures Machine() == Apply(catalogs, old(Machine()), Advance(w, outcome))
      ensures Follows(catalogs, w, handler, start, run, answers)
    {
      hide Apply, IsAllowed, Follows;
      StepFollows(catalogs, w, handler, start, run, outcome, answers);
      assert (run + [Advance(w, outcome)])[..|run|] == run;
      run := run + [Advance(w, outcome)];
    }

    // ---------- a queue delivery ----------

    /** Whether the delivery concerns this deployment at all. */
    method Accept(ghost w: nat, message: QueueMessage, checksum: string) returns (accepted: bool)
      requires Gone(w) && message in sent
      modifies this`run
      ensures run == old(run) + [Deliver(w, message, checksum)]
      ensures accepted <==> message.key.language in ALLOWED_LANGUAGES && message.key.checksum == checksum
      ensures if accepted then At(w, JobStarted(message.key, message.model, message.batchIndex)) else Gone(w)
    {
      hide AdvanceJob, AdvanceRequest;
      accepted := message.key.language in ALLOWED_LANGUAGES && message.key.checksum == checksum;
      assert (run + [Deliver(w, message, checksum)])[..|run|] == run;
      run := run + [Deliver(w, message, checksum)];
    }

    method MatchBeforeJob(ghost w: nat, ghost handler: Handler, key: Key, model: string, batchIndex: nat)
      returns (hit: bool)
      requires At(w, JobStarted(key, model, batchIndex)) && handler.Delivering?
      modifies this
      ensures Follows(catalogs, w, handler, old(run), run, [])
      ensures if hit then Gone(w) else At(w, JobMissedCache(key, model, batchIndex))
    {
      hide Run, AdvanceRequest, Follows;
      Await(w, JobStarted(key, model, batchIndex));
      hit := key in cache && cache[key].expiresAt > now;
      Do(w, handler, Succeed, old(run), []);
    }

    /** Reads the row; a finished one is put in the cache again. */
    method CacheReadyStoreEntry(ghost w: nat, ghost handler: Handler, key: Key, model: string, batchIndex: nat)
      returns (entry: Option<Snapshot>)
      requires At(w, JobMissedCache(key, model, batchIndex)) && handler.Delivering?
      modifies this
      ensures Follows(catalogs, w, handler, old(run), run, [])
      ensures entry.Some? ==> entry.value.key == key
      ensures if entry.Some? && entry.value.status.Pending?
              then At(w, JobRead(key, model, batchIndex, entry.value))
              else Gone(w)
    {
      hide Run, AdvanceRequest, Follows;
      Await(w, JobMissedCache(key, model, batchIndex));
      entry := Read(key);
      Do(w, handler, Succeed, old(run), []);
      if entry.Some? && entry.value.status.Ready? {
        ghost var middle := run;
        PublishFromJob(w, handler, key, entry.value);
        FollowsOnSilently(catalogs, w, handler, old(run), middle, run, []);
      }
    }

    method PublishFromJob(ghost w: nat, ghost handler: Handler, key: Key, entry: Snapshot)
      requires At(w, JobPublishing(key, entry)) && handler.Delivering?
      modifies this
      ensures Follows(catalogs, w, handler, old(run), run, []) && Gone(w)
      ensures exists n: nat :: CachesAt(catalogs, w, key, PayloadOf(entry), old(run), run, n)
    {
      hide Run, Apply, Follows, PayloadOf;
      Await(w, JobPublishing(key, entry));
      ghost var waited := run;
      PublishingStep(catalogs, Machine(), w, key, entry);
      PutReadyPayload(key, PayloadOf(entry));
      Do(w, handler, Succeed, old(run), []);
      LastStep(catalogs, waited, Advance(w, Succeed));
      assert CachesAt(catalogs, w, key, PayloadOf(entry), old(run), run, |waited|);
    }

    /** Where a delivery stands when it knows which batch is next. */
    ghost predicate Proceeding(w: nat, key: Key, model: string, batchIndex: nat, next: nat, messages: Messages)
      reads this
    {
      Valid() && StandsAt(Machine(), w, Next(catalogs, key, model, batchIndex, next, messages))
    }

    /** Decides on the row that was read: whether the delivery goes on, and how. */
    method UseStoredRow(ghost w: nat, ghost handler: Handler, key: Key, model: string, batchIndex: nat, entry: Snapshot)
      returns (expired: bool)
      requires At(w, JobRead(key, model, batchIndex, entry)) && entry.status.Pending? && handler.Delivering?
      modifies this
      ensures Follows(catalogs, w, handler, old(run), run, [])
      ensures var claimed := ClaimedBatchIndex(entry.nextBatchIndex);
        if claimed.None? then Proceeding(w, key, model, batchIndex, entry.nextBatchIndex, entry.messages)
        else if batchIndex != claimed.value || !expired then Gone(w)
        else At(w, JobReleasing(key, model, batchIndex, entry.messages))
    {
      hide Run, Apply, Next, Follows, ClaimedBatchIndex, IsLeaseExpired;
      Await(w, JobRead(key, model, batchIndex, entry));
      expired := IsLeaseExpired(entry, now);
      UseRowStep(catalogs, Machine(), w, key, model, batchIndex, entry);
      Do(w, handler, Succeed, old(run), []);
    }

    /**
     * The batch to go on with: the one an unclaimed row waits for, or the delivery's own, if it is claimed,
     * its lease is over, and the claim is still there to be released.
     */
    method NextProcessableBatchIndex(ghost w: nat, ghost handler: Handler, key: Key, model: string, batchIndex: nat,
                                     entry: Snapshot)
      returns (next: Option<nat>)
      requires At(w, JobRead(key, model, batchIndex, entry)) && entry.status.Pending? && handler.Delivering?
      modifies this
      ensures Follows(catalogs, w, handler, old(run), run, [])
      ensures if next.None? then Gone(w) else Proceeding(w, key, model, batchIndex, next.value, entry.messages)
      ensures ClaimedBatchIndex(entry.nextBatchIndex).None? ==> next == Some(entry.nextBatchIndex)
      ensures ClaimedBatchIndex(entry.nextBatchIndex).Some? && next.Some? ==>
        && next == Some(batchIndex) == ClaimedBatchIndex(entry.nextBatchIndex)
        && exists n: nat :: ReleasesAt(catalogs, w, key, batchIndex, old(run), run, n)
    {
      hide Run, Apply, BatchesOf, Follows, ClaimedBatchIndex, Proceeding;
      var claimed := ClaimedBatchIndex(entry.nextBatchIndex);
      var expired := UseStoredRow(w, handler, key, model, batchIndex, entry);
      if claimed.None? {
        return Some(entry.nextBatchIndex);
      }
      if batchIndex != claimed.value || !expired {
        return None;
      }
      ghost var middle := run;
      var released := ReleaseExpired(w, handler, key, model, batchIndex, entry.messages);
      FollowsOnSilently(catalogs, w, handler, old(run), middle, run, []);
      next := if released then claimed else None;
      if released {
        ghost var n: nat :| ReleasesAt(catalogs, w, key, batchIndex, middle, run, n);
        assert ReleasesAt(catalogs, w, key, batchIndex, old(run), run, n);
      }
    }

    method ReleaseExpired(ghost w: nat, ghost handler: Handler, key: Key, model: string, batchIndex: nat,
                          messages: Messages)
      returns (released: bool)
      requires At(w, JobReleasing(key, model, batchIndex, messages)) && handler.Delivering?
      modifies this
      ensures Follows(catalogs, w, handler, old(run), run, [])
      ensures if released then Proceeding(w, key, model, batchIndex, batchIndex, messages) else Gone(w)
      ensures released ==> exists n: nat :: ReleasesAt(catalogs, w, key, batchIndex, old(run), run, n)
    {
      hide Run, Apply, Next, Follows, Released, IsReleasable;
      Await(w, JobReleasing(key, model, batchIndex, messages));
      ghost var waited := run;
      ReleasingStep(catalogs, Machine(), w, key, model, batchIndex, messages);
      released := Release(key, batchIndex);
      Do(w, handler, Succeed, old(run), []);
      LastStep(catalogs, waited, Advance(w, Succeed));
      assert released ==> ReleasesAt(catalogs, w, key, batchIndex, old(run), run, |waited|);
    }

    method ForwardFromJob(ghost w: nat, ghost handler: Handler, key: Key, model: string, next: nat)
      requires At(w, JobForwarding(key, model, next)) && handler.Delivering?
      modifies this
      ensures Follows(catalogs, w, handler, old(run), run, []) && Gone(w)
      ensures QueueMessage(key, model, next) in sent
    {
      hide Run, AdvanceRequest, Follows;
      Await(w, JobForwarding(key, model, next));
      Send(QueueMessage(key, model, next));
      Do(w, handler, Succeed, old(run), []);
    }

    /** The write for a row that waits for no batch. */
    method WriteUnclaimedReady(ghost w: nat, ghost handler: Handler, key: Key, model: string, next: nat,
                               messages: Messages)
      requires At(w, JobFinishing(key, model, next, messages)) && handler.Delivering?
      modifies this
      ensures Follows(catalogs, w, handler, old(run), run, []) && Gone(w)
    {
      hide Run, AdvanceRequest, Follows;
      Await(w, JobFinishing(key, model, next, messages));
      Upsert(key, model, messages, next);
      var entry := Snapshot(key, model, Ready, messages, next, now);
      Do(w, handler, Succeed, old(run), []);
      ghost var middle := run;
      PublishFromJob(w, handler, key, entry);
      FollowsOnSilently(catalogs, w, handler, old(run), middle, run, []);
    }

    method ClaimTranslationBatch(ghost w: nat, ghost handler: Handler, key: Key, model: string, batchIndex: nat,
                                 messages: Messages)
      returns (claimed: bool)
      requires At(w, JobClaiming(key, model, batchIndex, messages)) && handler.Delivering?
      modifies this
      ensures Follows(catalogs, w, handler, old(run), run, [])
      ensures if claimed then At(w, JobTranslating(key, model, batchIndex, messages)) else Gone(w)
    {
      hide Run, AdvanceRequest, Follows;
      Await(w, JobClaiming(key, model, batchIndex, messages));
      claimed := Claim(key, batchIndex);
      Do(w, handler, Succeed, old(run), []);
    }

    /** Asks the model up to three times; if it fails, gives the claim back. */
    method TranslateOwnedBatch(ghost w: nat, ghost handler: Handler, key: Key, model: string, batches: seq<Batch>,
                               batchIndex: nat, messages: Messages, replies: seq<Reply>)
      returns (translated: Option<Messages>)
      requires At(w, JobTranslating(key, model, batchIndex, messages)) && handler == Delivering(replies)
      requires batches == BatchesOf(catalogs, key) && batchIndex < |batches|
      modifies this
      ensures Follows(catalogs, w, handler, old(run), run, [])
      ensures translated == TranslateBatch(batches[batchIndex], replies)
      ensures if translated.Some?
              then At(w, JobWriting(key, model, batchIndex, messages + translated.value))
              else Gone(w)
    {
      hide Run, AdvanceRequest, BatchesOf, TranslateBatch, Follows;
      Await(w, JobTranslating(key, model, batchIndex, messages));
      translated := TranslateBatch(batches[batchIndex], replies);
      Do(w, handler, Answers(replies), old(run), []);
      if translated.None? {
        ghost var middle := run;
        AbandonClaim(w, handler, key, batchIndex);
        FollowsOnSilently(catalogs, w, handler, old(run), middle, run, []);
      }
    }

    method AbandonClaim(ghost w: nat, ghost handler: Handler, key: Key, batchIndex: nat)
      requires At(w, JobAbandoning(key, batchIndex)) && handler.Delivering?
      modifies this
      ensures Follows(catalogs, w, handler, old(run), run, []) && Gone(w)
    {
      hide Run, AdvanceRequest, Follows;
      Await(w, JobAbandoning(key, batchIndex));
      var released := Release(key, batchIndex);
      Do(w, handler, Succeed, old(run), []);
    }

    method StoreBatch(ghost w: nat, ghost handler: Handler, key: Key, model: string, batchCount: nat,
                      batchIndex: nat, messages: Messages)
      returns (written: bool, entry: Snapshot)
      requires At(w, JobWriting(key, model, batchIndex, messages)) && batchCount == |BatchesOf(catalogs, key)|
      requires handler.Delivering?
      modifies this
      ensures Follows(catalogs, w, handler, old(run), run, [])
      ensures exists n: nat ::
        && StoresAt(catalogs, w, key, model, batchIndex, messages, old(run), run, n)
        && (written <==> IsWritableAt(catalogs, key, batchIndex, run, n))
      ensures entry.key == key && entry.model == model && entry.messages == messages
      ensures !written ==> Gone(w)
      ensures written ==>
        if batchIndex + 1 >= batchCount
        then At(w, JobPublishing(key, entry))
        else At(w, JobEnqueueing(key, model, batchIndex + 1))
    {
      hide Run, Apply, BatchesOf, Follows, Written, IsWritable;
      Await(w, JobWriting(key, model, batchIndex, messages));
      ghost var waited := run;
      WritingStep(catalogs, Machine(), w, key, model, batchIndex, messages);
      var status := if batchIndex + 1 >= batchCount then Ready else Pending;
      written := WriteClaimed(key, model, status, messages, batchIndex + 1, batchIndex);
      entry := Snapshot(key, model, Ready, messages, batchIndex + 1, now);
      Do(w, handler, Succeed, old(run), []);
      LastStep(catalogs, waited, Advance(w, Succeed));
      assert StoresAt(catalogs, w, key, model, batchIndex, messages, old(run), run, |waited|);
    }

    method EnqueueNextBatch(ghost w: nat, ghost handler: Handler, key: Key, model: string, next: nat)
      requires At(w, JobEnqueueing(key, model, next)) && handler.Delivering?
      modifies this
      ensures Follows(catalogs, w, handler, old(run), run, []) && Gone(w)
      ensures QueueMessage(key, model, next) in sent
    {
      hide Run, AdvanceRequest, Follows;
      Await(w, JobEnqueueing(key, model, next));
      Send(QueueMessage(key, model, next));
      Do(w, handler, Succeed, old(run), []);
    }

    /** The message for the next batch has been sent, or the worker has put the finished translation in the cache. */
    ghost predicate IsAnnounced(w: nat, key: Key, model: string, batches: seq<Batch>, batchIndex: nat,
                                messages: Messages, start: seq<Action>)
      reads this
    {
      if batchIndex + 1 < |batches|
      then QueueMessage(key, model, batchIndex + 1) in sent
      else exists n: nat :: CachesAt(catalogs, w, key, Payload(key.checksum, model, messages), start, run, n)
    }

    /** Sends for the next batch, or puts the finished translation in the cache. */
    method AnnounceBatch(ghost w: nat, ghost handler: Handler, key: Key, model: string, batches: seq<Batch>,
                         batchIndex: nat, entry: Snapshot)
      requires handler.Delivering? && entry.key.checksum == key.checksum && entry.model == model
      requires if batchIndex + 1 >= |batches|
               then At(w, JobPublishing(key, entry))
               else At(w, JobEnqueueing(key, model, batchIndex + 1))
      modifies this
      ensures Follows(catalogs, w, handler, old(run), run, []) && Gone(w)
      ensures IsAnnounced(w, key, model, batches, batchIndex, entry.messages, old(run))
    {
      hide Run, Apply, Follows, CachesAt;
      if batchIndex + 1 >= |batches| {
        PublishFromJob(w, handler, key, entry);
      } else {
        EnqueueNextBatch(w, handler, key, model, batchIndex + 1);
      }
    }

    /**
     * Stores a translated batch over the row as it is at that moment, and only if the row still carries the
     * claim; then sends for the next batch, or puts the finished translation in the cache.
     */
    method PersistTranslatedBatch(ghost w: nat, ghost handler: Handler, key: Key, model: string, batches: seq<Batch>,
                                  batchIndex: nat, messages: Messages)
      requires At(w, JobWriting(key, model, batchIndex, messages)) && batches == BatchesOf(catalogs, key)
      requires handler.Delivering?
      modifies this
      ensures Follows(catalogs, w, handler, old(run), run, []) && Gone(w)
      ensures exists n: nat ::
        && StoresAt(catalogs, w, key, model, batchIndex, messages, old(run), run, n)
        && (IsWritableAt(catalogs, key, batchIndex, run, n) ==>
              IsAnnounced(w, key, model, batches, batchIndex, messages, old(run)))
    {
      hide Run, Apply, BatchesOf, Follows, StoresAt, IsWritableAt, IsAnnounced;
      var written, entry := StoreBatch(w, handler, key, model, |batches|, batchIndex, messages);
      ghost var middle := run;
      ghost var n := StoringStep(w, key, model, batchIndex, messages, old(run), written);
      if !written { return; }
      AnnounceBatch(w, handler, key, model, batches, batchIndex, entry);
      FollowsOnSilently(catalogs, w, handler, old(run), middle, run, []);
      AnnouncedSince(w, key, model, batches, batchIndex, messages, old(run), middle);
      StoredBefore(w, key, model, batchIndex, messages, old(run), middle, n);
    }

    lemma AnnouncedSince(w: nat, key: Key, model: string, batches: seq<Batch>, batchIndex: nat, messages: Messages,
                         start: seq<Action>, middle: seq<Action>)
      requires start <= middle <= run && IsAnnounced(w, key, model, batches, batchIndex, messages, middle)
      ensures IsAnnounced(w, key, model, batches, batchIndex, messages, start)
    {
      hide CachesAt;
      if batchIndex + 1 >= |batches| {
        var payload := Payload(key.checksum, model, messages);
        var n: nat :| CachesAt(catalogs, w, key, payload, middle, run, n);
        CachedSince(w, key, payload, start, middle, run, n);
      }
    }

    lemma StoringStep(w: nat, key: Key, model: string, k: nat, messages: Messages, start: seq<Action>, written: bool)
      returns (n: nat)
      requires exists n: nat ::
        && StoresAt(catalogs, w, key, model, k, messages, start, run, n)
        && (written <==> IsWritableAt(catalogs, key, k, run, n))
      ensures StoresAt(catalogs, w, key, model, k, messages, start, run, n)
      ensures written <==> IsWritableAt(catalogs, key, k, run, n)
    {
      hide Before, IsWritable, Written;
      n :| StoresAt(catalogs, w, key, model, k, messages, start, run, n)
        && (written <==> IsWritableAt(catalogs, key, k, run, n));
    }

    lemma StoredBefore(w: nat, key: Key, model: string, k: nat, messages: Messages, start: seq<Action>,
                       middle: seq<Action>, n: nat)
      requires start <= middle <= run && StoresAt(catalogs, w, key, model, k, messages, start, middle, n)
      ensures StoresAt(catalogs, w, key, model, k, messages, start, run, n)
      ensures IsWritableAt(catalogs, key, k, run, n) <==> IsWritableAt(catalogs, key, k, middle, n)
    {
      hide Before, IsWritable, Written;
      StepsStay(catalogs, middle, run, n);
    }

    lemma CachedSince(w: nat, key: Key, payload: Payload, start: seq<Action>, middle: seq<Action>,
                      longer: seq<Action>, n: nat)
      requires start <= middle <= longer && CachesAt(catalogs, w, key, payload, middle, longer, n)
      ensures CachesAt(catalogs, w, key, payload, start, longer, n)
    {
      hide Before;
    }

    /** The row the message is about, if the row still waits for a batch. */
    method ReadPendingRow(ghost w: nat, ghost handler: Handler, message: QueueMessage) returns (entry: Option<Snapshot>)
      requires At(w, JobStarted(message.key, message.model, message.batchIndex)) && handler.Delivering?
      modifies this
      ensures Follows(catalogs, w, handler, old(run), run, [])
      ensures entry.None? ==> Gone(w)
      ensures entry.Some? ==> entry.value.status.Pending?
      ensures entry.Some? ==> At(w, JobRead(message.key, message.model, message.batchIndex, entry.value))
    {
      hide Run, Apply, Follows;
      var hit := MatchBeforeJob(w, handler, message.key, message.model, message.batchIndex);
      if hit { return None; }
      ghost var middle := run;
      entry := CacheReadyStoreEntry(w, handler, message.key, message.model, message.batchIndex);
      FollowsOnSilently(catalogs, w, handler, old(run), middle, run, []);
      if entry.None? || entry.value.status.Ready? { return None; }
    }

    method ProcessMessage(ghost w: nat, ghost handler: Handler, message: QueueMessage, replies: seq<Reply>)
      requires At(w, JobStarted(message.key, message.model, message.batchIndex)) && handler == Delivering(replies)
      modifies this
      ensures Follows(catalogs, w, handler, old(run), run, []) && Gone(w)
    {
      hide Run, Apply, TranslateBatch, Batches, IsSplit, Follows, Proceeding, ReleasesAt;
      var entry := ReadPendingRow(w, handler, message);
      if entry.None? { return; }
      ghost var read := run;
      var batches := BuildBatches(catalogs(message.key.checksum));
      assert batches == BatchesOf(catalogs, message.key);
      hide BatchesOf;
      var next := NextProcessableBatchIndex(w, handler, message.key, message.model, message.batchIndex, entry.value);
      FollowsOnSilently(catalogs, w, handler, old(run), read, run, []);
      if next.None? { return; }
      ghost var decided := run;
      ProcessNextBatch(w, handler, message.key, message.model, batches, message.batchIndex, next.value,
                       entry.value.messages, replies);
      FollowsOnSilently(catalogs, w, handler, old(run), decided, run, []);
    }

    method ProcessNextBatch(ghost w: nat, ghost handler: Handler, key: Key, model: string, batches: seq<Batch>,
                            batchIndex: nat, next: nat, messages: Messages, replies: seq<Reply>)
      requires batches == BatchesOf(catalogs, key) && Proceeding(w, key, model, batchIndex, next, messages)
      requires handler == Delivering(replies)
      modifies this
      ensures Follows(catalogs, w, handler, old(run), run, []) && Gone(w)
    {
      hide Run, Apply, BatchesOf, TranslateBatch, Follows;
      if next >= |batches| {
        WriteUnclaimedReady(w, handler, key, model, next, messages);
      } else if batchIndex < next {
        NothingFollows(catalogs, w, handler, run);
      } else if batchIndex != next {
        ForwardFromJob(w, handler, key, model, next);
      } else {
        ProcessOwnBatch(w, handler, key, model, batches, batchIndex, messages, replies);
      }
    }

    method ProcessOwnBatch(ghost w: nat, ghost handler: Handler, key: Key, model: string, batches: seq<Batch>,
                           batchIndex: nat, messages: Messages, replies: seq<Reply>)
      requires batches == BatchesOf(catalogs, key) && batchIndex < |batches|
      requires At(w, JobClaiming(key, model, batchIndex, messages)) && handler == Delivering(replies)
      modifies this
      ensures Follows(catalogs, w, handler, old(run), run, []) && Gone(w)
    {
      hide Run, Apply, BatchesOf, TranslateBatch, Follows, StoresAt, IsWritableAt, IsAnnounced;
      var claimed := ClaimTranslationBatch(w, handler, key, model, batchIndex, messages);
      if !claimed { return; }
      ghost var claiming := run;
      var translated := TranslateOwnedBatch(w, handler, key, model, batches, batchIndex, messages, replies);
      FollowsOnSilently(catalogs, w, handler, old(run), claiming, run, []);
      if translated.None? { return; }
      ghost var translating := run;
      PersistTranslatedBatch(w, handler, key, model, batches, batchIndex, messages + translated.value);
      FollowsOnSilently(catalogs, w, handler, old(run), translating, run, []);
    }

    /**
     * The queue consumer, for one message: the delivery is made, and its worker then goes through its whole
     * program, whatever happens around it. So all that is known of runs and their workers holds here.
     */
    method ProcessTranslationQueueBatch(ghost w: nat, message: QueueMessage, checksum: string, replies: seq<Reply>)
      requires Gone(w) && message in sent
      modifies this
      ensures Follows(catalogs, w, Delivering(replies), old(run) + [Deliver(w, message, checksum)], run, [])
      ensures Gone(w)
      ensures Manageable(catalogs) ==> Safe(catalogs, Machine())
    {
      hide Run, Apply, Safe, BatchesOf, TranslateBatch, Follows;
      var accepted := Accept(w, message, checksum);
      if accepted {
        ProcessMessage(w, Delivering(replies), message, replies);
      } else {
        NothingFollows(catalogs, w, Delivering(replies), run);
      }
      if Manageable(catalogs) {
        EveryRunIsSafe(catalogs, run);
      }
    }

    // ---------- an HTTP request ----------

    /** The request is over, and what it was answered is on record; None stands for an error. */
    ghost predicate Answered(w: nat, key: Key, response: Option<Response>)
      reads this
    {
      Gone(w) && (response.Some? ==> response.value.key == key && response.value in Machine().responses)
    }

    method MatchReadyPayload(ghost w: nat, ghost handler: Handler, key: Key, model: string)
      returns (cached: Option<Response>)
      requires At(w, RequestStarted(key, model)) && handler.Answering?
      modifies this
      ensures Follows(catalogs, w, handler, old(run), run, AnswersOf(cached))
      ensures if cached.Some? then Answered(w, key, cached) else At(w, RequestMissedCache(key, model))
    {
      hide Run, AdvanceJob, Follows;
      Await(w, RequestStarted(key, model));
      var hit := key in cache && cache[key].expiresAt > now;
      cached := if hit then Some(Served(key, false, cache[key].payload)) else None;
      Do(w, handler, Succeed, old(run), AnswersOf(cached));
    }

    method ReadLatestReadyEntry(ghost w: nat, ghost handler: Handler, key: Key, model: string)
      returns (latest: Option<Snapshot>)
      requires At(w, RequestMissedCache(key, model)) && handler.Answering?
      modifies this
      ensures Follows(catalogs, w, handler, old(run), run, [])
      ensures At(w, RequestReadLatest(key, model, latest))
    {
      hide Run, AdvanceJob, IsLatestReady, Follows;
      Await(w, RequestMissedCache(key, model));
      var newest := ReadLatestReady(key.language);
      SomeLatestIsInTable(newest, key.language);
      latest := if newest.Some? then Some(SnapshotOf(rows, newest.value)) else None;
      Do(w, handler, Latest(newest), old(run), []);
    }

    lemma SomeLatestIsInTable(newest: Option<Key>, language: string)
      requires IsLatestReady(rows, now, language, newest)
      ensures newest.Some? ==> newest.value in rows
    {
    }

    method PublishFromRequest(ghost w: nat, ghost handler: Handler, key: Key, entry: Snapshot)
      returns (response: Option<Response>)
      requires At(w, RequestPublishing(key, entry)) && handler.Answering?
      modifies this
      ensures Follows(catalogs, w, handler, old(run), run, AnswersOf(response))
      ensures response.Some? && Answered(w, key, response)
    {
      hide Run, AdvanceJob, Follows;
      Await(w, RequestPublishing(key, entry));
      PutReadyPayload(key, PayloadOf(entry));
      response := Some(Served(key, false, PayloadOf(entry)));
      Do(w, handler, Succeed, old(run), AnswersOf(response));
    }

    method RefreshAndPublish(ghost w: nat, ghost handler: Handler, key: Key, entry: Snapshot)
      returns (response: Option<Response>)
      requires At(w, RequestRefreshing(key, entry)) && handler.Answering?
      modifies this
      ensures Follows(catalogs, w, handler, old(run), run, AnswersOf(response))
      ensures response.Some? && Answered(w, key, response)
    {
      hide Run, AdvanceJob, Follows;
      Await(w, RequestRefreshing(key, entry));
      Touch(entry.key, entry.status);
      Do(w, handler, Succeed, old(run), []);
      ghost var middle := run;
      response := PublishFromRequest(w, handler, key, entry);
      FollowsOnSilently(catalogs, w, handler, old(run), middle, run, AnswersOf(response));
    }

    /** Answers from the latest ready row if it is fresh, or is for the current catalog. */
    method CurrentReadyResponse(ghost w: nat, ghost handler: Handler, key: Key, model: string, latest: Option<Snapshot>)
      returns (response: Option<Response>, startedAt: int)
      requires At(w, RequestReadLatest(key, model, latest)) && handler.Answering?
      modifies this
      ensures Follows(catalogs, w, handler, old(run), run, AnswersOf(response))
      ensures if response.Some?
              then Answered(w, key, response)
              else At(w, RequestInserting(key, model, latest, startedAt))
    {
      hide Run, Apply, Follows, IsReadyFresh;
      Await(w, RequestReadLatest(key, model, latest));
      response, startedAt := None, now;
      var recent := latest.Some? && IsReadyFresh(latest.value, now);
      if recent && latest.value.key.checksum != key.checksum { response := StaleAnswer(key, latest); }
      UseLatestStep(catalogs, Machine(), w, key, model, latest);
      Do(w, handler, Succeed, old(run), AnswersOf(response));
      if latest.None? || latest.value.key.checksum != key.checksum { return; }
      ghost var middle := run;
      if recent {
        response := PublishFromRequest(w, handler, key, latest.value);
      } else {
        response := RefreshAndPublish(w, handler, key, latest.value);
      }
      FollowsOnSilently(catalogs, w, handler, old(run), middle, run, AnswersOf(response));
    }

    method InsertForRequest(ghost w: nat, ghost handler: Handler, key: Key, model: string, latest: Option<Snapshot>,
                            startedAt: int)
      returns (claimed: bool)
      requires At(w, RequestInserting(key, model, latest, startedAt)) && handler.Answering?
      modifies this
      ensures Follows(catalogs, w, handler, old(run), run, [])
      ensures exists n: nat ::
        InsertsAt(catalogs, w, key, model, old(run), run, n) && (claimed <==> !IsLiveAt(catalogs, key, run, n))
      ensures claimed ==> At(w, RequestInserted(key, latest, Snapshot(key, model, Pending, map[], 0, startedAt)))
      ensures !claimed ==> At(w, RequestLostInsert(key, latest))
    {
      hide Run, Apply, Follows, Inserted, Live;
      Await(w, RequestInserting(key, model, latest, startedAt));
      ghost var waited := run;
      claimed := InsertPending(key, model);
      InsertingStep(catalogs, Machine(), w, key, model, latest, startedAt);
      Do(w, handler, Succeed, old(run), []);
      LastStep(catalogs, waited, Advance(w, Succeed));
      assert InsertsAt(catalogs, w, key, model, old(run), run, |waited|);
    }

    method ReadExisting(ghost w: nat, ghost handler: Handler, key: Key, latest: Option<Snapshot>)
      returns (entry: Option<Snapshot>)
      requires At(w, RequestLostInsert(key, latest)) && handler.Answering?
      modifies this
      ensures Follows(catalogs, w, handler, old(run), run,
                      if entry.Some? then [] else AnswersOf(StaleAnswer(key, latest)))
      ensures if entry.Some?
              then At(w, RequestQueued(key, latest, entry.value))
              else Answered(w, key, StaleAnswer(key, latest))
    {
      hide Run, AdvanceJob, Follows;
      Await(w, RequestLostInsert(key, latest));
      entry := Read(key);
      Do(w, handler, Succeed, old(run), if entry.Some? then [] else AnswersOf(StaleAnswer(key, latest)));
    }

    /** Sends the first batch of a new row; if the queue refuses it, the row is deleted again. */
    method EnqueueFirst(ghost w: nat, key: Key, latest: Option<Snapshot>, entry: Snapshot, queueFails: bool)
      returns (sentFirst: bool)
      requires At(w, RequestInserted(key, latest, entry))
      modifies this
      ensures sentFirst == !queueFails
      ensures Follows(catalogs, w, Answering(queueFails), old(run), run,
                      if sentFirst then [] else AnswersOf(StaleAnswer(key, latest)))
      ensures sentFirst ==> QueueMessage(key, entry.model, 0) in sent && At(w, RequestQueued(key, latest, entry))
      ensures !sentFirst ==> Answered(w, key, StaleAnswer(key, latest))
    {
      hide Run, AdvanceJob, Follows;
      Await(w, RequestInserted(key, latest, entry));
      sentFirst := !queueFails;
      if queueFails {
        Do(w, Answering(queueFails), Fault, old(run), []);
        ghost var middle := run;
        UndoInsert(w, Answering(queueFails), key, latest);
        FollowsOnSilently(catalogs, w, Answering(queueFails), old(run), middle, run,
                          AnswersOf(StaleAnswer(key, latest)));
      } else {
        Send(QueueMessage(key, entry.model, 0));
        Do(w, Answering(queueFails), Succeed, old(run), []);
      }
    }

    method UndoInsert(ghost w: nat, ghost handler: Handler, key: Key, latest: Option<Snapshot>)
      requires At(w, RequestUndoing(key, latest)) && handler.Answering?
      modifies this
      ensures Follows(catalogs, w, handler, old(run), run, AnswersOf(StaleAnswer(key, latest)))
      ensures Answered(w, key, StaleAnswer(key, latest))
    {
      hide Run, AdvanceJob, Follows;
      Await(w, RequestUndoing(key, latest));
      Delete(key);
      Do(w, handler, Succeed, old(run), AnswersOf(StaleAnswer(key, latest)));
    }

    /**
     * Inserts the row over none or an expired one, and sends for its first batch; if a live row is in the
     * way, that is the entry. There is no entry if the queue refuses, or the row in the way is gone.
     */
    method QueueTranslationIfNeeded(ghost w: nat, key: Key, model: string, latest: Option<Snapshot>, startedAt: int,
                                    queueFails: bool)
      returns (entry: Option<Snapshot>)
      requires At(w, RequestInserting(key, model, latest, startedAt))
      modifies this
      ensures Follows(catalogs, w, Answering(queueFails), old(run), run,
                      if entry.Some? then [] else AnswersOf(StaleAnswer(key, latest)))
      ensures if entry.Some?
              then At(w, RequestQueued(key, latest, entry.value))
              else Answered(w, key, StaleAnswer(key, latest))
      ensures exists n: nat ::
        && InsertsAt(catalogs, w, key, model, old(run), run, n)
        && (!IsLiveAt(catalogs, key, run, n) ==>
              && entry == (if queueFails then None else Some(Snapshot(key, model, Pending, map[], 0, startedAt)))
              && (!queueFails ==> QueueMessage(key, model, 0) in sent))
    {
      hide Run, Apply, Follows, InsertsAt, IsLiveAt;
      ghost var handler := Answering(queueFails);
      var claimed := InsertForRequest(w, handler, key, model, latest, startedAt);
      ghost var middle := run;
      ghost var n := InsertingStepOf(w, key, model, old(run), claimed);
      if !claimed {
        entry := ReadExisting(w, handler, key, latest);
      } else {
        var pending := Snapshot(key, model, Pending, map[], 0, startedAt);
        var sentFirst := EnqueueFirst(w, key, latest, pending, queueFails);
        entry := if sentFirst then Some(pending) else None;
      }
      FollowsOnSilently(catalogs, w, handler, old(run), middle, run,
                        if entry.Some? then [] else AnswersOf(StaleAnswer(key, latest)));
      InsertedBefore(w, key, model, old(run), middle, n);
    }

    lemma InsertingStepOf(w: nat, key: Key, model: string, start: seq<Action>, claimed: bool) returns (n: nat)
      requires exists n: nat ::
        InsertsAt(catalogs, w, key, model, start, run, n) && (claimed <==> !IsLiveAt(catalogs, key, run, n))
      ensures InsertsAt(catalogs, w, key, model, start, run, n) && (claimed <==> !IsLiveAt(catalogs, key, run, n))
    {
      hide Before, Inserted, Live;
      n :| InsertsAt(catalogs, w, key, model, start, run, n) && (claimed <==> !IsLiveAt(catalogs, key, run, n));
    }

    lemma InsertedBefore(w: nat, key: Key, model: string, start: seq<Action>, middle: seq<Action>, n: nat)
      requires start <= middle <= run && InsertsAt(catalogs, w, key, model, start, middle, n)
      ensures InsertsAt(catalogs, w, key, model, start, run, n)
      ensures IsLiveAt(catalogs, key, run, n) <==> IsLiveAt(catalogs, key, middle, n)
    {
      hide Before, Inserted, Live;
      StepsStay(catalogs, middle, run, n);
    }

    method TouchReady(ghost w: nat, ghost handler: Handler, key: Key, latest: Option<Snapshot>, entry: Snapshot)
      returns (response: Option<Response>)
      requires At(w, RequestTouchingReady(key, latest, entry)) && handler.Answering?
      modifies this
      ensures Follows(catalogs, w, handler, old(run), run, AnswersOf(response))
      ensures response.Some? && Answered(w, key, response)
    {
      hide Run, AdvanceJob, Follows;
      Await(w, RequestTouchingReady(key, latest, entry));
      Touch(key, Ready);
      Do(w, handler, Succeed, old(run), []);
      ghost var middle := run;
      response := PublishFromRequest(w, handler, key, entry);
      FollowsOnSilently(catalogs, w, handler, old(run), middle, run, AnswersOf(response));
    }

    /** Sends the batch that the index of the row stands for; only if nobody has claimed it, the row is touched too. */
    method RequeueStaleTranslation(ghost w: nat, key: Key, latest: Option<Snapshot>, entry: Snapshot, queueFails: bool)
      returns (response: Option<Response>)
      requires At(w, RequestRequeueing(key, latest, entry))
      modifies this
      ensures Follows(catalogs, w, Answering(queueFails), old(run), run, AnswersOf(response))
      ensures Answered(w, key, response)
      ensures response == if queueFails then StaleAnswer(key, latest) else PendingAnswer(key, latest)
      ensures !queueFails ==> QueueMessage(key, entry.model, BatchIndexFromStore(entry.nextBatchIndex)) in sent
      ensures if queueFails || ClaimedBatchIndex(entry.nextBatchIndex).Some?
              then LeavesRows(catalogs, w, old(run), run)
              else exists n: nat :: TouchesAt(catalogs, w, key, old(run), run, n)
    {
      hide Run, Apply, Follows, BatchIndexFromStore, ClaimedBatchIndex, LeavesRows, TouchesAt;
      ghost var handler := Answering(queueFails);
      SendAgain(w, key, latest, entry, queueFails);
      if queueFails {
        return StaleAnswer(key, latest);
      }
      response := PendingAnswer(key, latest);
      if ClaimedBatchIndex(entry.nextBatchIndex).None? {
        ghost var middle := run;
        TouchPending(w, handler, key, latest);
        FollowsOnSilently(catalogs, w, handler, old(run), middle, run, AnswersOf(response));
        MessagesStay(catalogs, middle, run);
        ghost var n: nat :| TouchesAt(catalogs, w, key, middle, run, n);
        TouchedSince(w, key, old(run), middle, n);
      }
    }

    lemma TouchedSince(w: nat, key: Key, start: seq<Action>, middle: seq<Action>, n: nat)
      requires start <= middle <= run && TouchesAt(catalogs, w, key, middle, run, n)
      ensures TouchesAt(catalogs, w, key, start, run, n)
    {
      hide Before, Touched;
    }

    /** The request sends the message again, and is over unless it has to touch the row. */
    method SendAgain(ghost w: nat, key: Key, latest: Option<Snapshot>, entry: Snapshot, queueFails: bool)
      requires At(w, RequestRequeueing(key, latest, entry))
      modifies this
      ensures var claimed := ClaimedBatchIndex(entry.nextBatchIndex).Some?;
        var response := if queueFails then StaleAnswer(key, latest) else PendingAnswer(key, latest);
        && Follows(catalogs, w, Answering(queueFails), old(run), run,
                   if queueFails || claimed then AnswersOf(response) else [])
        && (if queueFails || claimed then Answered(w, key, response) else At(w, RequestTouchingPending(key, latest)))
      ensures !queueFails ==> QueueMessage(key, entry.model, BatchIndexFromStore(entry.nextBatchIndex)) in sent
      ensures LeavesRows(catalogs, w, old(run), run)
    {
      hide Run, Apply, Follows, BatchIndexFromStore, ClaimedBatchIndex;
      Await(w, RequestRequeueing(key, latest, entry));
      ghost var waited := run;
      ghost var claimed := ClaimedBatchIndex(entry.nextBatchIndex).Some?;
      RequeueingStep(catalogs, Machine(), w, key, latest, entry, queueFails);
      if queueFails {
        Do(w, Answering(queueFails), Fault, old(run), AnswersOf(StaleAnswer(key, latest)));
        LastStep(catalogs, waited, Advance(w, Fault));
      } else {
        Send(QueueMessage(key, entry.model, BatchIndexFromStore(entry.nextBatchIndex)));
        Do(w, Answering(queueFails), Succeed, old(run), if claimed then AnswersOf(PendingAnswer(key, latest)) else []);
        LastStep(catalogs, waited, Advance(w, Succeed));
      }
    }

    method TouchPending(ghost w: nat, ghost handler: Handler, key: Key, latest: Option<Snapshot>)
      requires At(w, RequestTouchingPending(key, latest)) && handler.Answering?
      modifies this
      ensures Follows(catalogs, w, handler, old(run), run, AnswersOf(PendingAnswer(key, latest)))
      ensures Answered(w, key, PendingAnswer(key, latest))
      ensures exists n: nat :: TouchesAt(catalogs, w, key, old(run), run, n)
    {
      hide Run, Apply, Follows, Touched;
      Await(w, RequestTouchingPending(key, latest));
      ghost var waited := run;
      Touch(key, Pending);
      TouchingStep(catalogs, Machine(), w, key, latest);
      Do(w, handler, Succeed, old(run), AnswersOf(PendingAnswer(key, latest)));
      LastStep(catalogs, waited, Advance(w, Succeed));
      assert TouchesAt(catalogs, w, key, old(run), run, |waited|);
    }

    method QueueCurrentTranslation(ghost w: nat, key: Key, latest: Option<Snapshot>, entry: Snapshot, queueFails: bool)
      returns (response: Option<Response>)
      requires At(w, RequestQueued(key, latest, entry))
      modifies this
      ensures Follows(catalogs, w, Answering(queueFails), old(run), run, AnswersOf(response))
      ensures Answered(w, key, response)
    {
      hide Run, Apply, Follows, LeavesRows, TouchesAt, IsPendingStale, IsLeaseExpired;
      hide ClaimedBatchIndex, BatchIndexFromStore;
      ghost var handler := Answering(queueFails);
      Await(w, RequestQueued(key, latest, entry));
      var stale := IsPendingStale(entry, now);
      var held := ClaimedBatchIndex(entry.nextBatchIndex).Some? && !IsLeaseExpired(entry, now);
      var isOver := entry.status.Pending? && (!stale || held);
      response := if isOver then PendingAnswer(key, latest) else None;
      UseQueuedStep(catalogs, Machine(), w, key, latest, entry);
      Do(w, handler, Succeed, old(run), AnswersOf(response));
      if isOver { return; }
      ghost var middle := run;
      if entry.status.Ready? {
        response := TouchReady(w, handler, key, latest, entry);
      } else {
        response := RequeueStaleTranslation(w, key, latest, entry, queueFails);
      }
      FollowsOnSilently(catalogs, w, handler, old(run), middle, run, AnswersOf(response));
    }

    ghost method AcceptRequest(w: nat, key: Key, model: string)
      requires Gone(w) && key.language in ALLOWED_LANGUAGES
      modifies this
      ensures run == old(run) + [Request(w, key, model)] && At(w, RequestStarted(key, model))
    {
      hide AdvanceJob, AdvanceRequest;
      assert (run + [Request(w, key, model)])[..|run|] == run;
      run := run + [Request(w, key, model)];
    }

    method AnswerFromStore(ghost w: nat, key: Key, model: string, queueFails: bool) returns (response: Option<Response>)
      requires At(w, RequestMissedCache(key, model))
      modifies this
      ensures Follows(catalogs, w, Answering(queueFails), old(run), run, AnswersOf(response))
      ensures Answered(w, key, response)
    {
      hide Run, Apply, Follows, InsertsAt, IsLiveAt;
      ghost var handler := Answering(queueFails);
      var latest := ReadLatestReadyEntry(w, handler, key, model);
      ghost var read := run;
      var startedAt;
      response, startedAt := CurrentReadyResponse(w, handler, key, model, latest);
      FollowsOnSilently(catalogs, w, handler, old(run), read, run, AnswersOf(response));
      if response.Some? { return; }
      ghost var missed := run;
      var entry := QueueTranslationIfNeeded(w, key, model, latest, startedAt, queueFails);
      FollowsOnSilently(catalogs, w, handler, old(run), missed, run,
                        if entry.Some? then [] else AnswersOf(StaleAnswer(key, latest)));
      if entry.None? { return StaleAnswer(key, latest); }
      ghost var queued := run;
      response := QueueCurrentTranslation(w, key, latest, entry.value, queueFails);
      FollowsOnSilently(catalogs, w, handler, old(run), queued, run, AnswersOf(response));
    }

    method AnswerRequest(ghost w: nat, key: Key, model: string, queueFails: bool) returns (response: Option<Response>)
      requires At(w, RequestStarted(key, model))
      modifies this
      ensures Follows(catalogs, w, Answering(queueFails), old(run), run, AnswersOf(response))
      ensures Answered(w, key, response)
    {
      hide Run, Apply, Follows;
      response := MatchReadyPayload(w, Answering(queueFails), key, model);
      if response.Some? { return; }
      ghost var missed := run;
      response := AnswerFromStore(w, key, model, queueFails);
      FollowsOnSilently(catalogs, w, Answering(queueFails), old(run), missed, run, AnswersOf(response));
    }

    /**
     * The HTTP handler: a request for another language is refused at once; for any other the worker goes
     * through its whole program, and what it is answered on the way is the response. Every translation
     * served is complete for the catalog it names, and one not marked stale is for the current catalog.
     */
    method HandleTranslationMessages(ghost w: nat, key: Key, model: string, queueFails: bool)
      returns (response: Option<Response>)
      requires Gone(w)
      modifies this
      ensures Gone(w)
      ensures key.language !in ALLOWED_LANGUAGES ==> response.None? && run == old(run)
      ensures key.language in ALLOWED_LANGUAGES ==>
        Follows(catalogs, w, Answering(queueFails), old(run) + [Request(w, key, model)], run, AnswersOf(response))
      ensures response.Some? ==> response.value.key == key
      ensures Manageable(catalogs) && response.Some? ==> ResponseOk(catalogs, response.value)
    {
      hide Apply, ResponseOk, Follows;
      if key.language !in ALLOWED_LANGUAGES { return None; }
      AcceptRequest(w, key, model);
      response := AnswerRequest(w, key, model, queueFails);
      if Manageable(catalogs) {
        EveryRunIsSafe(catalogs, run);
      }
    }
  }
}
