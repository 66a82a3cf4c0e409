/** The greedy cut of a message catalog into queue batches. */
module Batching {
  const MAX_BATCH_CHARACTERS := 6000
  const MAX_BATCH_ITEMS := 60

  datatype Entry = Entry(key: string, text: string)

  type Batch = seq<Entry>

  /** The length a JavaScript string reports: characters outside the basic plane count twice. */
  function CodeUnits(s: string): nat {
    if s == "" then 0
    else CodeUnits(s[..|s| - 1]) + if s[|s| - 1] as int < 0x1_0000 then 1 else 2
  }

  function Cost(entry: Entry): nat {
    CodeUnits(entry.key) + CodeUnits(entry.text)
  }

  function Characters(batch: Batch): nat {
    if batch == [] then 0 else Characters(batch[..|batch| - 1]) + Cost(batch[|batch| - 1])
  }

  function Flatten(batches: seq<Batch>): (entries: seq<Entry>) {
    if batches == [] then [] else Flatten(batches[..|batches| - 1]) + batches[|batches| - 1]
  }

  /** What a single queue message may carry. An entry too long for any batch travels alone. */
  predicate Fits(batch: Batch) {
    && 0 < |batch| <= MAX_BATCH_ITEMS
    && (Characters(batch) <= MAX_BATCH_CHARACTERS || |batch| == 1)
  }

  /** `batches` cuts `entries`, in order, into pieces a queue message may carry. */
  predicate IsSplit(batches: seq<Batch>, entries: seq<Entry>) {
    Flatten(batches) == entries && forall i :: 0 <= i < |batches| ==> Fits(batches[i])
  }

  predicate ShouldFlush(current: Batch, currentCharacters: nat, nextCharacters: nat) {
    && current != []
    && (|current| >= MAX_BATCH_ITEMS || currentCharacters + nextCharacters > MAX_BATCH_CHARACTERS)
  }

  /** The batches once `entry` has joined the batch still being filled, or opened the next one. */
  function Extend(filled: seq<Batch>, entry: Entry): seq<Batch> {
    if filled == [] then [[entry]]
    else
      var current := filled[|filled| - 1];
      if ShouldFlush(current, Characters(current), Cost(entry)) then filled + [[entry]]
      else filled[..|filled| - 1] + [current + [entry]]
  }

  /** The batches after all of `entries`, the one still being filled included. */
  function Batches(entries: seq<Entry>): seq<Batch> {
    if entries == [] then [] else Extend(Batches(entries[..|entries| - 1]), entries[|entries| - 1])
  }

  lemma OneMoreEntry(entries: seq<Entry>, i: nat)
    requires i < |entries|
    ensures Batches(entries[..i + 1]) == Extend(Batches(entries[..i]), entries[i])
  {
    hide Extend;
    assert entries[..i + 1][..i] == entries[..i];
  }

  lemma NothingToSplit()
    ensures Batches([]) == [] && Characters([]) == 0
  {
  }

  method BuildBatches(entries: seq<Entry>) returns (batches: seq<Batch>)
    ensures batches == Batches(entries)
    ensures IsSplit(batches, entries)
    ensures forall other :: IsSplit(other, entries) ==> |batches| <= |other|
  {
    hide Batches, IsSplit, Characters;
    batches := [];
    NothingToSplit();
    var current: Batch := [];
    var currentCharacters := 0;
    for i := 0 to |entries|
      invariant currentCharacters == Characters(current)
      invariant i == 0 <==> current == []
      invariant i == 0 ==> batches == []
      invariant Batches(entries[..i]) == if current == [] then batches else batches + [current]
    {
      var entry := entries[i];
      var entryCharacters := Cost(entry);
      OneMoreEntry(entries, i);
      CharactersSnoc(current, entry);
      CharactersSnoc([], entry);
      assert [] + [entry] == [entry];
      if ShouldFlush(current, currentCharacters, entryCharacters) {
        batches := batches + [current];
        current := [];
        currentCharacters := 0;
      }
      current := current + [entry];
      currentCharacters := currentCharacters + entryCharacters;
    }
    assert entries[..|entries|] == entries;
    if current != [] {
      batches := batches + [current];
    }
    BatchesAreASplit(entries);
    forall other | IsSplit(other, entries) ensures |batches| <= |other| {
      BatchesAreOptimal(entries, other);
    }
  }

  // ---------- every batch may be sent, and together they are the catalog ----------

  lemma FlattenSnoc(batches: seq<Batch>, batch: Batch)
    ensures Flatten(batches + [batch]) == Flatten(batches) + batch
  {
  }

  lemma CharactersSnoc(batch: Batch, entry: Entry)
    ensures Characters(batch + [entry]) == Characters(batch) + Cost(entry)
  {
  }

  lemma OneEntryFits(entry: Entry)
    ensures Fits([entry])
  {
  }

  lemma ExtendKeepsSplit(filled: seq<Batch>, entries: seq<Entry>, entry: Entry)
    requires IsSplit(filled, entries)
    ensures IsSplit(Extend(filled, entry), entries + [entry])
  {
    OneEntryFits(entry);
    if filled == [] {
      FlattenSnoc([], [entry]);
    } else {
      var done := filled[..|filled| - 1];
      var current := filled[|filled| - 1];
      if ShouldFlush(current, Characters(current), Cost(entry)) {
        FlattenSnoc(filled, [entry]);
      } else {
        FlattenSnoc(done, current + [entry]);
        CharactersSnoc(current, entry);
        assert Flatten(done) + (current + [entry]) == entries + [entry];
      }
    }
  }

  lemma {:induction false} BatchesAreASplit(entries: seq<Entry>)
    ensures IsSplit(Batches(entries), entries)
  {
    if entries != [] {
      var before := entries[..|entries| - 1];
      BatchesAreASplit(before);
      ExtendKeepsSplit(Batches(before), before, entries[|entries| - 1]);
      assert entries == before + [entries[|entries| - 1]];
    }
  }

  // ---------- no cut uses fewer batches ----------

  /** `batch` could not also have carried the first entry of the batch `following` it. */
  predicate Full(batch: Batch, following: Batch) {
    following != [] && !Fits(batch + [following[0]])
  }

  predicate Packed(batches: seq<Batch>) {
    forall i, j :: 0 <= i < j == i + 1 < |batches| ==> Full(batches[i], batches[j])
  }

  lemma ExtendKeepsPacked(filled: seq<Batch>, entry: Entry)
    requires Packed(filled) && forall i :: 0 <= i < |filled| ==> Fits(filled[i])
    ensures Packed(Extend(filled, entry))
  {
    if filled != [] {
      var current := filled[|filled| - 1];
      CharactersSnoc(current, entry);
      if !ShouldFlush(current, Characters(current), Cost(entry)) {
        assert (current + [entry])[0] == current[0];
      }
    }
  }

  lemma {:induction false} BatchesArePacked(entries: seq<Entry>)
    ensures Packed(Batches(entries))
  {
    if entries != [] {
      var before := entries[..|entries| - 1];
      BatchesArePacked(before);
      BatchesAreASplit(before);
      ExtendKeepsPacked(Batches(before), entries[|entries| - 1]);
    }
  }

  lemma {:induction false} CharactersOfConcat(a: Batch, b: Batch)
    ensures Characters(a + b) == Characters(a) + Characters(b)
  {
    if b == [] {
      assert a + b == a;
    } else {
      assert (a + b)[..|a + b| - 1] == a + b[..|b| - 1];
      CharactersOfConcat(a, b[..|b| - 1]);
    }
  }

  lemma StretchInThree(entries: seq<Entry>, from: nat, to: nat, lo: nat, hi: nat)
    requires from <= lo <= hi <= to <= |entries|
    ensures entries[from..to] == entries[from..lo] + (entries[lo..hi] + entries[hi..to])
  {
    assert entries[lo..to] == entries[lo..hi] + entries[hi..to];
    assert entries[from..to] == entries[from..lo] + entries[lo..to];
  }

  /** A part of a stretch has no more characters. */
  lemma PartIsNoLonger(entries: seq<Entry>, from: nat, to: nat, lo: nat, hi: nat)
    requires from <= lo <= hi <= to <= |entries|
    ensures Characters(entries[lo..hi]) <= Characters(entries[from..to])
  {
    hide Characters;
    StretchInThree(entries, from, to, lo, hi);
    CharactersOfConcat(entries[from..lo], entries[lo..hi] + entries[hi..to]);
    CharactersOfConcat(entries[lo..hi], entries[hi..to]);
  }

  /** Any non-empty part of a stretch of the catalog that fits a batch fits one too. */
  lemma PartOfAFittingStretchFits(entries: seq<Entry>, from: nat, to: nat, lo: nat, hi: nat)
    requires from <= lo < hi <= to <= |entries| && Fits(entries[from..to])
    ensures Fits(entries[lo..hi])
  {
    hide Characters;
    PartIsNoLonger(entries, from, to, lo, hi);
  }

  lemma {:induction false} FlattenPrefix(batches: seq<Batch>, n: nat)
    requires n <= |batches|
    ensures Flatten(batches[..n]) <= Flatten(batches)
  {
    if n == |batches| {
      assert batches[..n] == batches;
    } else {
      var shorter := batches[..|batches| - 1];
      FlattenPrefix(shorter, n);
      assert shorter[..n] == batches[..n];
    }
  }

  /** Batch `j` is the stretch of the catalog between two consecutive cut positions. */
  lemma BatchIsASlice(batches: seq<Batch>, entries: seq<Entry>, j: nat)
    requires Flatten(batches) == entries && j < |batches|
    ensures |Flatten(batches[..j])| <= |Flatten(batches[..j + 1])| <= |entries|
    ensures batches[j] == entries[|Flatten(batches[..j])|..|Flatten(batches[..j + 1])|]
  {
    FlattenPrefix(batches, j + 1);
    assert batches[..j + 1] == batches[..j] + [batches[j]];
    FlattenSnoc(batches[..j], batches[j]);
  }

  /** A packed batch that starts no earlier than a fitting stretch does not end before it. */
  lemma FullBatchReachesAsFar(batch: Batch, following: Batch, entries: seq<Entry>, s: nat, g: nat, g': nat, s': nat)
    requires s <= g < g' < |entries| && s' <= |entries|
    requires batch == entries[g..g'] && Full(batch, following) && following[0] == entries[g']
    requires s < s' && Fits(entries[s..s'])
    ensures s' <= g'
  {
    hide Fits;
    assert batch + [entries[g']] == entries[g..g' + 1];
    if g' < s' {
      PartOfAFittingStretchFits(entries, s, s', g, g' + 1);
    }
  }

  /** If a packed split is ahead before a batch that is not its last, it is ahead after it. */
  lemma OneBatchStaysAhead(packed: seq<Batch>, other: seq<Batch>, entries: seq<Entry>, j: nat)
    requires IsSplit(packed, entries) && Packed(packed) && IsSplit(other, entries)
    requires j + 1 < |packed| && j < |other|
    requires |Flatten(packed[..j])| >= |Flatten(other[..j])|
    ensures |Flatten(packed[..j + 1])| >= |Flatten(other[..j + 1])|
  {
    hide Fits, Flatten;
    BatchIsASlice(packed, entries, j);
    BatchIsASlice(packed, entries, j + 1);
    BatchIsASlice(other, entries, j);
    assert Full(packed[j], packed[j + 1]);
    BatchesHaveEntries(packed, entries, j);
    BatchesHaveEntries(packed, entries, j + 1);
    BatchesHaveEntries(other, entries, j);
    FullBatchReachesAsFar(packed[j], packed[j + 1], entries, |Flatten(other[..j])|,
      |Flatten(packed[..j])|, |Flatten(packed[..j + 1])|, |Flatten(other[..j + 1])|);
  }

  lemma BatchesHaveEntries(batches: seq<Batch>, entries: seq<Entry>, j: nat)
    requires IsSplit(batches, entries) && j < |batches|
    ensures |batches[j]| > 0 && Fits(batches[j])
  {
  }

  /** After the same number of batches a packed split has covered at least as much of the catalog. */
  lemma {:induction false} PackedStaysAhead(packed: seq<Batch>, other: seq<Batch>, entries: seq<Entry>, j: nat)
    requires IsSplit(packed, entries) && Packed(packed) && IsSplit(other, entries)
    requires j <= |packed| && j <= |other|
    ensures |Flatten(packed[..j])| >= |Flatten(other[..j])|
  {
    hide Packed;
    if j == 0 {
      assert packed[..0] == [] && other[..0] == [];
    } else if j < |packed| {
      PackedStaysAhead(packed, other, entries, j - 1);
      OneBatchStaysAhead(packed, other, entries, j - 1);
    } else {
      assert packed[..j] == packed;
      FlattenPrefix(other, j);
    }
  }

  /** No other way to cut the catalog into fitting batches sends fewer queue messages. */
  lemma BatchesAreOptimal(entries: seq<Entry>, other: seq<Batch>)
    requires IsSplit(other, entries)
    ensures |Batches(entries)| <= |other|
  {
    var greedy := Batches(entries);
    BatchesAreASplit(entries);
    if |other| < |greedy| {
      BatchesArePacked(entries);
      PackedStaysAhead(greedy, other, entries, |other|);
      assert other[..|other|] == other;
      BatchIsASlice(greedy, entries, |other|);
    }
  }
}
