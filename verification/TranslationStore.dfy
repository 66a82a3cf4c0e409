/** The shared table of translation rows: one function, and one method, for each SQL statement. */
module TranslationStore {
  import opened Common

  const CACHE_TTL_SECONDS := 5 * 60
  const PENDING_TTL_SECONDS := 60 * 60
  const READY_TTL_SECONDS := 7 * 24 * 60 * 60
  const REQUEUE_AFTER_SECONDS := 60
  const BATCH_LEASE_SECONDS := 15 * 60
  const CLAIM_OFFSET := 1_000_000_000

  type Messages = map<string, string>

  /** The primary key of the table; the cache is keyed the same way. */
  datatype Key = Key(language: string, checksum: string)

  datatype Status = Pending | Ready

  datatype Row = Row(model: string, status: Status, messages: Messages, nextBatchIndex: nat, expiresAt: int,
                     updatedAt: int)

  type Rows = map<Key, Row>

  /** What a SELECT hands to the worker: a snapshot, free to go out of date. */
  datatype Snapshot = Snapshot(key: Key, model: string, status: Status, messages: Messages, nextBatchIndex: nat,
                               updatedAt: int)

  // ---------- progress and claim, in one number ----------

  function ClaimedBatchIndex(nextBatchIndex: nat): Option<nat> {
    if nextBatchIndex >= CLAIM_OFFSET then Some(nextBatchIndex - CLAIM_OFFSET) else None
  }

  function BatchIndexFromStore(nextBatchIndex: nat): nat {
    if ClaimedBatchIndex(nextBatchIndex).Some? then ClaimedBatchIndex(nextBatchIndex).value else nextBatchIndex
  }

  function ClaimMarker(batchIndex: nat): nat {
    CLAIM_OFFSET + batchIndex
  }

  /** A stored number is either an unclaimed index or the marker of one, never both. */
  lemma MarkersAreUnambiguous(nextBatchIndex: nat)
    ensures ClaimedBatchIndex(ClaimMarker(nextBatchIndex)) == Some(nextBatchIndex)
    ensures ClaimedBatchIndex(nextBatchIndex).Some?
      <==> nextBatchIndex == ClaimMarker(BatchIndexFromStore(nextBatchIndex))
    ensures ClaimedBatchIndex(nextBatchIndex).None? ==>
              BatchIndexFromStore(nextBatchIndex) == nextBatchIndex < CLAIM_OFFSET
  {
  }

  function TtlSeconds(status: Status): int {
    if status.Pending? then PENDING_TTL_SECONDS else READY_TTL_SECONDS
  }

  predicate IsPendingStale(entry: Snapshot, now: int) {
    entry.status.Pending? && now - entry.updatedAt >= REQUEUE_AFTER_SECONDS
  }

  predicate IsReadyFresh(entry: Snapshot, now: int) {
    entry.status.Ready? && now - entry.updatedAt < CACHE_TTL_SECONDS
  }

  predicate IsLeaseExpired(entry: Snapshot, now: int) {
    entry.status.Pending? && now - entry.updatedAt >= BATCH_LEASE_SECONDS
  }

  // ---------- the statements, as functions on the table ----------

  predicate Live(rows: Rows, now: int, key: Key) {
    key in rows && rows[key].expiresAt > now
  }

  function SnapshotOf(rows: Rows, key: Key): Snapshot
    requires key in rows
  {
    var row := rows[key];
    Snapshot(key, row.model, row.status, row.messages, row.nextBatchIndex, row.updatedAt)
  }

  function WithoutExpired(rows: Rows, now: int): Rows {
    map key | key in rows && rows[key].expiresAt > now :: rows[key]
  }

  predicate IsReadyIn(rows: Rows, now: int, language: string, key: Key) {
    Live(rows, now, key) && key.language == language && rows[key].status.Ready?
  }

  /** `latest` may be the one row of `ORDER BY updated_at DESC LIMIT 1`; ties are free. */
  predicate IsLatestReady(rows: Rows, now: int, language: string, latest: Option<Key>) {
    match latest
    case None => forall key :: key in rows ==> !IsReadyIn(rows, now, language, key)
    case Some(newest) =>
      && IsReadyIn(rows, now, language, newest)
      && forall key :: key in rows && IsReadyIn(rows, now, language, key) ==>
          rows[key].updatedAt <= rows[newest].updatedAt
  }

  /** INSERT that replaces a row only when that row has expired. */
  function Inserted(rows: Rows, now: int, key: Key, model: string): Rows {
    if Live(rows, now, key) then rows
    else rows[key := Row(model, Pending, map[], 0, now + PENDING_TTL_SECONDS, now)]
  }

  /** The unconditional upsert of a finished translation. */
  function Upserted(rows: Rows, now: int, key: Key, model: string, messages: Messages, nextBatchIndex: nat): Rows {
    rows[key := Row(model, Ready, messages, nextBatchIndex, now + READY_TTL_SECONDS, now)]
  }

  function Touched(rows: Rows, now: int, key: Key, ttlSeconds: int): Rows {
    if key in rows then rows[key := rows[key].(expiresAt := now + ttlSeconds, updatedAt := now)] else rows
  }

  predicate IsClaimable(rows: Rows, now: int, key: Key, batchIndex: nat) {
    Live(rows, now, key) && rows[key].status.Pending? && rows[key].nextBatchIndex == batchIndex
  }

  function Claimed(rows: Rows, now: int, key: Key, batchIndex: nat): Rows {
    if IsClaimable(rows, now, key, batchIndex)
    then rows[key := rows[key].(nextBatchIndex := ClaimMarker(batchIndex), expiresAt := now + PENDING_TTL_SECONDS,
                                updatedAt := now)]
    else rows
  }

  predicate IsReleasable(rows: Rows, key: Key, batchIndex: nat) {
    key in rows && rows[key].status.Pending? && rows[key].nextBatchIndex == ClaimMarker(batchIndex)
  }

  function Released(rows: Rows, now: int, key: Key, batchIndex: nat): Rows {
    if IsReleasable(rows, key, batchIndex)
    then rows[key := rows[key].(nextBatchIndex := batchIndex, expiresAt := now + PENDING_TTL_SECONDS, updatedAt := now)]
    else rows
  }

  predicate IsWritable(rows: Rows, now: int, key: Key, batchIndex: nat) {
    Live(rows, now, key) && IsReleasable(rows, key, batchIndex)
  }

  /** The UPDATE that stores the messages of a claimed batch and moves the row on. */
  function Written(rows: Rows, now: int, key: Key, batchIndex: nat, model: string, status: Status,
                   messages: Messages, nextBatchIndex: nat): Rows {
    if IsWritable(rows, now, key, batchIndex)
    then rows[key := Row(model, status, messages, nextBatchIndex, now + TtlSeconds(status), now)]
    else rows
  }

  // ---------- what the statements mean to those who use them ----------

  /** The rows of all other keys are as they were. */
  predicate OthersUntouched(before: Rows, after: Rows, key: Key) {
    after - {key} == before - {key}
  }

  /** Claims and releases change neither the messages of a row nor the batch it waits for. */
  predicate SameContent(before: Row, after: Row) {
    && after.model == before.model && after.status == before.status && after.messages == before.messages
    && BatchIndexFromStore(after.nextBatchIndex) == BatchIndexFromStore(before.nextBatchIndex)
  }

  /** Of two claims of a batch only the first can succeed, whenever the second is made, and nothing else changes. */
  lemma OnlyTheFirstClaimSucceeds(rows: Rows, now: int, later: int, key: Key, k: nat)
    requires now <= later && k < CLAIM_OFFSET
    ensures !IsClaimable(Claimed(rows, now, key, k), later, key, k)
    ensures IsClaimable(rows, now, key, k) ==> IsWritable(Claimed(rows, now, key, k), now, key, k)
    ensures OthersUntouched(rows, Claimed(rows, now, key, k), key)
    ensures key in rows ==> key in Claimed(rows, now, key, k) && SameContent(rows[key], Claimed(rows, now, key, k)[key])
  {
    assert Claimed(rows, now, key, k) - {key} == rows - {key};
  }

  /** A release undoes a claim up to the times of the row, and whoever held the claim can no longer store the batch. */
  lemma ReleaseUndoesClaim(rows: Rows, now: int, later: int, key: Key, k: nat)
    requires IsClaimable(rows, now, key, k) && k < CLAIM_OFFSET
    ensures var released := Released(Claimed(rows, now, key, k), later, key, k);
      && released == Touched(rows, later, key, PENDING_TTL_SECONDS)
      && forall last :: !IsWritable(released, last, key, k)
  {
    var claimed := Claimed(rows, now, key, k);
    var released := Released(claimed, later, key, k);
    assert released == rows[key := released[key]];
  }

  /** A batch that has been stored cannot be stored, claimed or released again; the row waits for the next. */
  lemma StoredBatchIsOver(rows: Rows, now: int, later: int, key: Key, k: nat, model: string, status: Status,
                          messages: Messages)
    requires IsWritable(rows, now, key, k) && k + 1 < CLAIM_OFFSET
    ensures var written := Written(rows, now, key, k, model, status, messages, k + 1);
      && OthersUntouched(rows, written, key) && key in written && written[key].messages == messages
      && !IsWritable(written, later, key, k) && !IsClaimable(written, later, key, k) && !IsReleasable(written, key, k)
      && (status.Pending? ==> IsClaimable(written, now, key, k + 1))
  {
    var written := Written(rows, now, key, k, model, status, messages, k + 1);
    assert written - {key} == rows - {key};
  }

  /** An insert leaves every live row alone, and of two inserts only the first can succeed before the row expires. */
  lemma InsertKeepsLiveRows(rows: Rows, now: int, later: int, key: Key, model: string, another: string)
    requires now <= later < now + PENDING_TTL_SECONDS && !Live(rows, now, key)
    ensures var inserted := Inserted(rows, now, key, model);
      && (forall other :: Live(rows, now, other) ==> other in inserted && inserted[other] == rows[other])
      && IsClaimable(inserted, now, key, 0)
      && Inserted(inserted, later, key, another) == inserted
  {
  }

  lemma {:induction false} LatestAmong(rows: Rows, now: int, language: string, among: set<Key>)
    returns (latest: Option<Key>)
    requires among <= rows.Keys
    ensures latest.None? ==> forall key :: key in among ==> !IsReadyIn(rows, now, language, key)
    ensures latest.Some? ==> latest.value in among && IsReadyIn(rows, now, language, latest.value)
    ensures latest.Some? ==>
      forall key :: key in among && IsReadyIn(rows, now, language, key) ==>
          rows[key].updatedAt <= rows[latest.value].updatedAt
  {
    latest := None;
    if among != {} {
      var key :| key in among;
      latest := LatestAmong(rows, now, language, among - {key});
      if IsReadyIn(rows, now, language, key) && (latest.None? || rows[latest.value].updatedAt < rows[key].updatedAt) {
        latest := Some(key);
      }
    }
  }

  /** The SELECT of the latest ready row always has an answer. */
  lemma SomeAnswerIsLatest(rows: Rows, now: int, language: string) returns (latest: Option<Key>)
    ensures IsLatestReady(rows, now, language, latest)
  {
    latest := LatestAmong(rows, now, language, rows.Keys);
  }
}
