/** Which machine translations are kept, and which fall back to the English text. */
module Placeholders {
  import opened Common
  import opened Batching

  // ---------- strings ----------

  predicate OccursAt(text: string, part: string, i: int) {
    0 <= i <= |text| - |part| && text[i..i + |part|] == part
  }

  predicate Contains(text: string, part: string) {
    exists i :: 0 <= i <= |text| && OccursAt(text, part, i)
  }

  /** The characters JavaScript's `trim` removes: white space and line terminators. */
  predicate IsBlank(c: char) {
    || '\t' <= c <= '\r'
    || c in {' ', '\U{A0}', '\U{1680}', '\U{2028}', '\U{2029}', '\U{202F}', '\U{205F}', '\U{3000}', '\U{FEFF}'}
    || '\U{2000}' <= c <= '\U{200A}'
  }

  function TrimStart(s: string): string {
    if s != "" && IsBlank(s[0]) then TrimStart(s[1..]) else s
  }

  function TrimEnd(s: string): string {
    if s != "" && IsBlank(s[|s| - 1]) then TrimEnd(s[..|s| - 1]) else s
  }

  function Trim(s: string): string {
    TrimEnd(TrimStart(s))
  }

  // ---------- the placeholder pattern ----------

  predicate IsDigit(c: char) { '0' <= c <= '9' }

  predicate IsWord(c: char) { IsDigit(c) || 'a' <= c <= 'z' || 'A' <= c <= 'Z' || c == '_' }

  predicate IsWordOrDot(c: char) { IsWord(c) || c == '.' }

  /** The end of the longest run of `member` characters that starts at `i`. */
  function RunEnd(s: string, i: nat, member: char -> bool): (end: nat)
    requires i <= |s|
    ensures i <= end <= |s|
    ensures forall j :: i <= j < end ==> member(s[j])
    ensures end < |s| ==> !member(s[end])
    decreases |s| - i
  {
    if i < |s| && member(s[i]) then RunEnd(s, i + 1, member) else i
  }

  /** How many characters `\{[\w.]+\}|%\w+%?|\$\d+` matches at `i`; zero for no match. */
  function MatchLength(s: string, i: nat): (length: nat)
    requires i < |s|
    ensures i + length <= |s|
    ensures forall j :: i < j < i + length ==> s[j] !in {'{', '$'}
  {
    if s[i] == '{' then
      var end := RunEnd(s, i + 1, IsWordOrDot);
      if end > i + 1 && end < |s| && s[end] == '}' then end + 1 - i else 0
    else if s[i] == '%' then
      var end := RunEnd(s, i + 1, IsWord);
      if end == i + 1 then 0
      else if end < |s| && s[end] == '%' then end + 1 - i else end - i
    else if s[i] == '$' then
      var end := RunEnd(s, i + 1, IsDigit);
      if end == i + 1 then 0 else end - i
    else 0
  }

  function TokensFrom(s: string, i: nat): seq<string>
    requires i <= |s|
    decreases |s| - i
  {
    if i == |s| then []
    else if MatchLength(s, i) == 0 then TokensFrom(s, i + 1)
    else [s[i..i + MatchLength(s, i)]] + TokensFrom(s, i + MatchLength(s, i))
  }

  function Tokens(s: string): seq<string> {
    TokensFrom(s, 0)
  }

  // ---------- keeping a translation ----------

  predicate MissesPlaceholder(source: string, candidate: string) {
    exists token :: token in Tokens(source) && !Contains(candidate, token)
  }

  function KeepTranslation(source: string, translated: Option<string>): string {
    var candidate := if translated.Some? then Trim(translated.value) else "";
    if candidate == "" || MissesPlaceholder(source, candidate) then source else candidate
  }

  /** What the worker may publish for `source`: the text itself, or a non-blank text with all its placeholders. */
  predicate Acceptable(source: string, text: string) {
    text == source || (text != "" && Trim(text) == text && !MissesPlaceholder(source, text))
  }

  lemma {:induction false} TrimStartLeavesNoBlank(s: string)
    ensures TrimStart(s) == "" || !IsBlank(TrimStart(s)[0])
  {
    if s != "" && IsBlank(s[0]) { TrimStartLeavesNoBlank(s[1..]); }
  }

  lemma {:induction false} TrimEndLeavesNoBlank(s: string)
    ensures TrimEnd(s) <= s
    ensures TrimEnd(s) == "" || !IsBlank(TrimEnd(s)[|TrimEnd(s)| - 1])
  {
    if s != "" && IsBlank(s[|s| - 1]) { TrimEndLeavesNoBlank(s[..|s| - 1]); }
  }

  lemma TrimIsIdempotent(s: string)
    ensures Trim(Trim(s)) == Trim(s)
  {
    TrimStartLeavesNoBlank(s);
    TrimEndLeavesNoBlank(TrimStart(s));
  }

  lemma {:induction false} TokensAreParts(s: string, i: nat, token: string)
    requires i <= |s| && token in TokensFrom(s, i)
    ensures Contains(s, token)
    decreases |s| - i
  {
    var n := MatchLength(s, i);
    if n == 0 {
      TokensAreParts(s, i + 1, token);
    } else if token == s[i..i + n] {
      assert OccursAt(s, token, i);
    } else {
      TokensAreParts(s, i + n, token);
    }
  }

  /** A brace or dollar placeholder is never swallowed by a match that starts before it. */
  lemma {:induction false} BraceAndDollarMatchesAreTokens(s: string, from: nat, i: nat)
    requires from <= i < |s| && s[i] in {'{', '$'} && MatchLength(s, i) > 0
    ensures s[i..i + MatchLength(s, i)] in TokensFrom(s, from)
    decreases i - from
  {
    hide MatchLength;
    if from < i {
      var n := MatchLength(s, from);
      if n == 0 {
        BraceAndDollarMatchesAreTokens(s, from + 1, i);
      } else {
        BraceAndDollarMatchesAreTokens(s, from + n, i);
      }
    }
  }

  /** Whatever the model answers, the text kept carries every placeholder of the source. */
  lemma KeptTextHasEveryPlaceholder(source: string, translated: Option<string>, token: string)
    requires token in Tokens(source)
    ensures Contains(KeepTranslation(source, translated), token)
  {
    TokensAreParts(source, 0, token);
  }

  /** The text kept may be published, and an answer with text and all placeholders is never thrown away. */
  lemma KeptTextIsAcceptable(source: string, translated: Option<string>)
    ensures Acceptable(source, KeepTranslation(source, translated))
    ensures translated.Some? && Trim(translated.value) != "" && !MissesPlaceholder(source, Trim(translated.value))
      ==> KeepTranslation(source, translated) == Trim(translated.value)
    ensures translated.None? ==> KeepTranslation(source, translated) == source
  {
    if translated.Some? { TrimIsIdempotent(translated.value); }
  }

  // ---------- a whole batch ----------

  /** `Object.fromEntries`: a later entry replaces an earlier one with the same key. */
  function Sources(entries: seq<Entry>): map<string, string> {
    if entries == [] then map[]
    else Sources(entries[..|entries| - 1])[entries[|entries| - 1].key := entries[|entries| - 1].text]
  }

  /** `messages` is a publishable translation of exactly `entries`. */
  predicate Translates(entries: seq<Entry>, messages: map<string, string>) {
    && messages.Keys == Sources(entries).Keys
    && forall key :: key in messages ==> Acceptable(Sources(entries)[key], messages[key])
  }

  function Lookup(translations: map<string, string>, key: string): Option<string> {
    if key in translations then Some(translations[key]) else None
  }

  function KeptMessages(batch: Batch, translations: map<string, string>): map<string, string> {
    if batch == [] then map[]
    else
      var entry := batch[|batch| - 1];
      KeptMessages(batch[..|batch| - 1], translations)
        [entry.key := KeepTranslation(entry.text, Lookup(translations, entry.key))]
  }

  /** None stands for the error thrown when the answer translates no message of the batch. */
  function TranslatedBatch(batch: Batch, translations: map<string, string>): Option<map<string, string>> {
    if exists i :: 0 <= i < |batch| && batch[i].key in translations
    then Some(KeptMessages(batch, translations))
    else None
  }

  const TRANSLATION_ATTEMPTS := 3

  /** One reply per attempt; None stands for a failed call or an answer that is not a string map. */
  type Reply = Option<map<string, string>>

  function TranslateBatch(batch: Batch, replies: seq<Reply>, attempt: nat := 0): Option<map<string, string>>
    decreases TRANSLATION_ATTEMPTS - attempt
  {
    if attempt >= TRANSLATION_ATTEMPTS || attempt >= |replies| then None
    else
      var reply := replies[attempt];
      if reply.Some? && TranslatedBatch(batch, reply.value).Some? then TranslatedBatch(batch, reply.value)
      else TranslateBatch(batch, replies, attempt + 1)
  }

  lemma {:induction false} KeptMessagesTranslate(batch: Batch, translations: map<string, string>)
    ensures Translates(batch, KeptMessages(batch, translations))
  {
    if batch != [] {
      var entry := batch[|batch| - 1];
      KeptMessagesTranslate(batch[..|batch| - 1], translations);
      KeptTextIsAcceptable(entry.text, Lookup(translations, entry.key));
    }
  }

  /** The reply has a text for some message of the batch. */
  predicate IsUsable(batch: Batch, reply: Reply) {
    reply.Some? && exists i :: 0 <= i < |batch| && batch[i].key in reply.value
  }

  /** The first usable reply among the attempts still allowed. */
  predicate IsFirstUsable(batch: Batch, replies: seq<Reply>, attempt: nat, n: nat) {
    && attempt <= n < TRANSLATION_ATTEMPTS && n < |replies| && IsUsable(batch, replies[n])
    && forall m :: attempt <= m < n ==> !IsUsable(batch, replies[m])
  }

  lemma {:induction false} FirstUsableReplyIsKept(batch: Batch, replies: seq<Reply>, attempt: nat)
    ensures TranslateBatch(batch, replies, attempt).Some?
      <==> exists n :: attempt <= n < TRANSLATION_ATTEMPTS && n < |replies| && IsUsable(batch, replies[n])
    ensures forall n: nat :: IsFirstUsable(batch, replies, attempt, n) ==>
      TranslateBatch(batch, replies, attempt) == Some(KeptMessages(batch, replies[n].value))
    decreases TRANSLATION_ATTEMPTS - attempt
  {
    if attempt < TRANSLATION_ATTEMPTS && attempt < |replies| {
      if !IsUsable(batch, replies[attempt]) {
        FirstUsableReplyIsKept(batch, replies, attempt + 1);
      }
    }
  }

  /**
   * However often the model has to be asked, what comes back translates exactly the batch. The batch is
   * given up only if none of the three attempts brings a text for any of its messages.
   */
  lemma TranslateBatchTranslates(batch: Batch, replies: seq<Reply>)
    ensures TranslateBatch(batch, replies).Some?
      <==> exists n :: 0 <= n < TRANSLATION_ATTEMPTS && n < |replies| && IsUsable(batch, replies[n])
    ensures TranslateBatch(batch, replies).Some? ==> Translates(batch, TranslateBatch(batch, replies).value)
  {
    hide TranslateBatch, Translates, KeptMessages;
    FirstUsableReplyIsKept(batch, replies, 0);
    if TranslateBatch(batch, replies).Some? {
      var n := FirstUsable(batch, replies);
      KeptMessagesTranslate(batch, replies[n].value);
    }
  }

  lemma FirstUsable(batch: Batch, replies: seq<Reply>) returns (n: nat)
    requires exists m :: 0 <= m < TRANSLATION_ATTEMPTS && m < |replies| && IsUsable(batch, replies[m])
    ensures IsFirstUsable(batch, replies, 0, n)
  {
    hide IsUsable;
    n := 0;
    while !IsUsable(batch, replies[n])
      invariant n < TRANSLATION_ATTEMPTS && n < |replies|
      invariant forall m :: 0 <= m < n ==> !IsUsable(batch, replies[m])
      decreases TRANSLATION_ATTEMPTS - n
    {
      var m :| 0 <= m < TRANSLATION_ATTEMPTS && m < |replies| && IsUsable(batch, replies[m]);
      n := n + 1;
    }
  }

  /** One answer that translates nothing but the first key is enough for a batch to succeed. */
  lemma EchoSucceeds(batch: Batch)
    requires batch != []
    ensures TranslateBatch(batch, [Some(map[batch[0].key := batch[0].text])]).Some?
  {
    var echo := map[batch[0].key := batch[0].text];
    assert batch[0].key in echo;
    assert TranslatedBatch(batch, echo).Some?;
  }

  lemma {:induction false} SourcesOfConcat(a: seq<Entry>, b: seq<Entry>)
    ensures Sources(a + b) == Sources(a) + Sources(b)
  {
    if b == [] {
      assert a + b == a;
    } else {
      assert (a + b)[..|a + b| - 1] == a + b[..|b| - 1];
      SourcesOfConcat(a, b[..|b| - 1]);
    }
  }

  /** Merging a translated batch into the messages before it translates the longer stretch. */
  lemma MergedMessagesTranslate(done: seq<Entry>, batch: Batch, messages: map<string, string>,
                                translated: map<string, string>)
    requires Translates(done, messages) && Translates(batch, translated)
    ensures Translates(done + batch, messages + translated)
  {
    SourcesOfConcat(done, batch);
  }
}
