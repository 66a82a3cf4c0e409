/** Percent-encoding of path segments with UTF-8, and its decoding (sections 2.1 and 2.3 of RFC 3986). */
module UriEncoding {
  import opened Common

  // ---------- bytes ----------

  function HexDigit(n: nat): char
    requires n < 16
  {
    if n < 10 then '0' + n as char else 'A' + (n - 10) as char
  }

  function HexValue(c: char): Option<nat> {
    if '0' <= c <= '9' then Some((c - '0') as int)
    else if 'A' <= c <= 'F' then Some((c - 'A') as int + 10)
    else if 'a' <= c <= 'f' then Some((c - 'a') as int + 10)
    else None
  }

  predicate IsByte(b: int) {
    0 <= b < 256
  }

  function Escape(b: int): string
    requires IsByte(b)
  {
    ['%', HexDigit(b / 16), HexDigit(b % 16)]
  }

  predicate AreBytes(bytes: seq<int>) {
    forall i :: 0 <= i < |bytes| ==> IsByte(bytes[i])
  }

  function Escapes(bytes: seq<int>): string
    requires AreBytes(bytes)
  {
    if bytes == [] then "" else Escape(bytes[0]) + Escapes(bytes[1..])
  }

  /** The byte escaped at position `i`, if an escape stands there. */
  function ByteAt(s: string, i: nat): Option<int> {
    if i + 3 > |s| || s[i] != '%' then None
    else
      var high, low := HexValue(s[i + 1]), HexValue(s[i + 2]);
      if high.None? || low.None? then None else Some(high.value * 16 + low.value)
  }

  // ---------- UTF-8 ----------

  /** The bytes of a code point. */
  function Utf8(c: char): (bytes: seq<int>)
    ensures AreBytes(bytes) && 1 <= |bytes| <= 4
  {
    var n := c as int;
    if n < 0x80 then [n]
    else if n < 0x800 then [0xC0 + n / 64, 0x80 + n % 64]
    else if n < 0x1_0000 then [0xE0 + n / 64 / 64, 0x80 + n / 64 % 64, 0x80 + n % 64]
    else [0xF0 + n / 64 / 64 / 64, 0x80 + n / 64 / 64 % 64, 0x80 + n / 64 % 64, 0x80 + n % 64]
  }

  predicate IsContinuation(b: Option<int>) {
    b.Some? && 0x80 <= b.value < 0xC0
  }

  predicate IsCodePoint(n: int) {
    0 <= n < 0xD800 || 0xE000 <= n < 0x11_0000
  }

  /** The code point `n`, unless fewer than the bytes used would do or there is no such code point. */
  function CodePoint(n: int, least: int, length: nat): Option<(char, nat)> {
    if n < least || !IsCodePoint(n) then None else Some((n as char, length))
  }

  /** The character escaped at the start of `s`, and how much of `s` its escapes take. */
  function ReadEscapes(s: string): (read: Option<(char, nat)>)
    ensures read.Some? ==> 0 < read.value.1 <= |s|
  {
    var first := ByteAt(s, 0);
    if first.None? then None
    else
      var b, b1, b2, b3 := first.value, ByteAt(s, 3), ByteAt(s, 6), ByteAt(s, 9);
      if b < 0x80 then CodePoint(b, 0, 3)
      else if b < 0xC0 then None
      else if !IsContinuation(b1) then None
      else if b < 0xE0 then CodePoint((b - 0xC0) * 64 + b1.value - 0x80, 0x80, 6)
      else if !IsContinuation(b2) then None
      else if b < 0xF0 then CodePoint(((b - 0xE0) * 64 + b1.value - 0x80) * 64 + b2.value - 0x80, 0x800, 9)
      else if b >= 0xF8 || !IsContinuation(b3) then None
      else CodePoint((((b - 0xF0) * 64 + b1.value - 0x80) * 64 + b2.value - 0x80) * 64 + b3.value - 0x80, 0x1_0000, 12)
  }

  // ---------- components ----------

  predicate IsUnescaped(c: char) {
    'A' <= c <= 'Z' || 'a' <= c <= 'z' || '0' <= c <= '9' || c in "-_.!~*'()"
  }

  function EncodeChar(c: char): string {
    if IsUnescaped(c) then [c] else Escapes(Utf8(c))
  }

  function EncodeURIComponent(s: string): string {
    if s == [] then "" else EncodeChar(s[0]) + EncodeURIComponent(s[1..])
  }

  function Prepend(c: char, rest: Option<string>): Option<string> {
    if rest.None? then None else Some([c] + rest.value)
  }

  /** None is the error for a malformed escape. */
  function DecodeURIComponent(s: string): Option<string> {
    if s == [] then Some("")
    else if s[0] != '%' then Prepend(s[0], DecodeURIComponent(s[1..]))
    else
      var read := ReadEscapes(s);
      if read.None? then None else Prepend(read.value.0, DecodeURIComponent(s[read.value.1..]))
  }

  lemma HexRoundTrip(b: int, s: string)
    requires IsByte(b)
    ensures ByteAt(Escape(b) + s, 0) == Some(b)
  {
    assert HexValue(HexDigit(b / 16)) == Some(b / 16) && HexValue(HexDigit(b % 16)) == Some(b % 16);
  }

  lemma ByteAfterPrefix(prefix: string, s: string, i: nat)
    ensures ByteAt(prefix + s, |prefix| + i) == ByteAt(s, i)
  {
  }

  lemma {:induction false} EscapedBytes(bytes: seq<int>, s: string, i: nat)
    requires AreBytes(bytes) && i < |bytes|
    ensures |Escapes(bytes)| == 3 * |bytes|
    ensures ByteAt(Escapes(bytes) + s, 3 * i) == Some(bytes[i])
  {
    hide ByteAt, Escape;
    var rest := Escapes(bytes[1..]) + s;
    assert Escapes(bytes) + s == Escape(bytes[0]) + rest;
    EscapeHasThreeCharacters(bytes[0]);
    if i == 0 {
      HexRoundTrip(bytes[0], rest);
      if |bytes| > 1 {
        EscapedBytes(bytes[1..], s, 0);
      }
    } else {
      EscapedBytes(bytes[1..], s, i - 1);
      ByteAfterPrefix(Escape(bytes[0]), rest, 3 * (i - 1));
    }
  }

  lemma EscapeHasThreeCharacters(b: int)
    requires IsByte(b)
    ensures |Escape(b)| == 3
  {
  }

  /** Reading the escapes of a character gives the character back, whatever follows. */
  lemma EscapesReadBack(c: char, s: string)
    ensures ReadEscapes(Escapes(Utf8(c)) + s) == Some((c, |Escapes(Utf8(c))|))
    ensures Escapes(Utf8(c))[0] == '%'
  {
    hide Escapes, ByteAt;
    var bytes := Utf8(c);
    forall i | 0 <= i < |bytes|
      ensures |Escapes(bytes)| == 3 * |bytes| && ByteAt(Escapes(bytes) + s, 3 * i) == Some(bytes[i])
    {
      EscapedBytes(bytes, s, i);
    }
    assert ByteAt(Escapes(bytes) + s, 3 * 0) == Some(bytes[0]);
    assert |bytes| > 1 ==> ByteAt(Escapes(bytes) + s, 3 * 1) == Some(bytes[1]);
    assert |bytes| > 2 ==> ByteAt(Escapes(bytes) + s, 3 * 2) == Some(bytes[2]);
    assert |bytes| > 3 ==> ByteAt(Escapes(bytes) + s, 3 * 3) == Some(bytes[3]);
    EscapesStartWithPercent(bytes);
  }

  lemma EscapesStartWithPercent(bytes: seq<int>)
    requires AreBytes(bytes) && bytes != []
    ensures Escapes(bytes) != [] && Escapes(bytes)[0] == '%'
  {
  }

  /** Decoding after a character's encoding decodes the character and goes on. */
  lemma EncodedCharDecodes(c: char, s: string)
    ensures DecodeURIComponent(EncodeChar(c) + s) == Prepend(c, DecodeURIComponent(s))
  {
    hide Escapes, ReadEscapes, Utf8;
    var text := EncodeChar(c) + s;
    if IsUnescaped(c) {
      assert text[0] == c && text[1..] == s;
    } else {
      EscapesReadBack(c, s);
      var escapes := Escapes(Utf8(c));
      assert text[0] == '%' && text[|escapes|..] == s;
    }
  }

  /** Decoding undoes encoding. */
  lemma {:induction false} ComponentRoundTrip(s: string)
    ensures DecodeURIComponent(EncodeURIComponent(s)) == Some(s)
  {
    hide EncodeChar;
    if s != [] {
      ComponentRoundTrip(s[1..]);
      EncodedCharDecodes(s[0], EncodeURIComponent(s[1..]));
      assert [s[0]] + s[1..] == s;
    }
  }

  lemma {:induction false} EscapesArePlain(bytes: seq<int>)
    requires AreBytes(bytes)
    ensures forall c :: c in Escapes(bytes) ==> c == '%' || '0' <= c <= '9' || 'A' <= c <= 'F'
  {
    if bytes != [] {
      EscapesArePlain(bytes[1..]);
      assert Escapes(bytes) == Escape(bytes[0]) + Escapes(bytes[1..]);
    }
  }

  /** An encoding holds only unreserved characters and escapes with upper-case digits. */
  lemma {:induction false} EncodedTextIsPlain(s: string)
    ensures forall c :: c in EncodeURIComponent(s) ==> IsUnescaped(c) || c == '%'
  {
    hide Escapes, Utf8;
    if s != [] {
      EncodedTextIsPlain(s[1..]);
      EscapesArePlain(Utf8(s[0]));
    }
  }

  // ---------- paths ----------

  /** The text between slashes; one segment, perhaps empty, if there are none. */
  function Split(s: string): (segments: seq<string>)
    ensures |segments| > 0
  {
    if s == [] then [""]
    else
      var rest := Split(s[1..]);
      if s[0] == '/' then [""] + rest else [[s[0]] + rest[0]] + rest[1..]
  }

  function Join(segments: seq<string>): string {
    if segments == [] then ""
    else if |segments| == 1 then segments[0]
    else segments[0] + "/" + Join(segments[1..])
  }

  function EncodeEach(segments: seq<string>): (encoded: seq<string>)
    ensures |encoded| == |segments|
    ensures forall i :: 0 <= i < |segments| ==> encoded[i] == EncodeURIComponent(segments[i])
  {
    if segments == [] then [] else [EncodeURIComponent(segments[0])] + EncodeEach(segments[1..])
  }

  function EncodePathSegments(path: string): string {
    Join(EncodeEach(Split(path)))
  }

  /** Decodes the whole path at once, escaped slashes too. */
  function DecodePathSegments(path: string): Option<string> {
    DecodeURIComponent(path)
  }

  /** Character by character: slashes stay, everything else is encoded. */
  function EncodeKeepingSlashes(s: string): string {
    if s == [] then ""
    else (if s[0] == '/' then "/" else EncodeChar(s[0])) + EncodeKeepingSlashes(s[1..])
  }

  lemma JoinPushesIntoFirst(prefix: string, segments: seq<string>)
    requires segments != []
    ensures Join([prefix + segments[0]] + segments[1..]) == prefix + Join(segments)
  {
    if |segments| == 1 {
      assert [prefix + segments[0]] + segments[1..] == [prefix + segments[0]];
    } else {
      var pushed := [prefix + segments[0]] + segments[1..];
      assert pushed[1..] == segments[1..];
      assert Join(pushed) == prefix + segments[0] + "/" + Join(segments[1..]);
    }
  }

  lemma {:induction false} PathEncodingKeepsSlashes(s: string)
    ensures EncodePathSegments(s) == EncodeKeepingSlashes(s)
  {
    hide EncodeChar;
    if s != [] {
      PathEncodingKeepsSlashes(s[1..]);
      var rest := Split(s[1..]);
      if s[0] == '/' {
        var encoded := EncodeEach([""] + rest);
        assert encoded == [""] + EncodeEach(rest);
        assert encoded[1..] == EncodeEach(rest);
        assert Join(encoded) == "/" + Join(EncodeEach(rest));
      } else {
        var first := [s[0]] + rest[0];
        assert first[1..] == rest[0];
        assert EncodeURIComponent(first) == EncodeChar(s[0]) + EncodeURIComponent(rest[0]);
        assert EncodeEach([first] + rest[1..]) == [EncodeChar(s[0]) + EncodeEach(rest)[0]] + EncodeEach(rest)[1..];
        JoinPushesIntoFirst(EncodeChar(s[0]), EncodeEach(rest));
      }
    } else {
      assert EncodeEach([""]) == [""];
    }
  }

  lemma {:induction false} KeptSlashesDecode(s: string)
    ensures DecodeURIComponent(EncodeKeepingSlashes(s)) == Some(s)
  {
    hide EncodeChar, ReadEscapes;
    if s != [] {
      KeptSlashesDecode(s[1..]);
      var rest := EncodeKeepingSlashes(s[1..]);
      if s[0] == '/' {
        assert ("/" + rest)[1..] == rest;
      } else {
        EncodedCharDecodes(s[0], rest);
      }
      assert [s[0]] + s[1..] == s;
    }
  }

  /** Decoding a path undoes the encoding of its segments, for every file name. */
  lemma PathRoundTrip(path: string)
    ensures DecodePathSegments(EncodePathSegments(path)) == Some(path)
  {
    PathEncodingKeepsSlashes(path);
    KeptSlashesDecode(path);
  }

  /** The check of the audit: the name is the encoding of what it decodes to. */
  predicate IsCanonical(name: string) {
    var decoded := DecodePathSegments(name);
    decoded.Some? && EncodePathSegments(decoded.value) == name
  }

  /** The canonical check accepts exactly the encodings of paths. */
  lemma CanonicalNamesAreEncodings(name: string)
    ensures IsCanonical(name) <==> exists path :: EncodePathSegments(path) == name
  {
    hide EncodePathSegments, DecodePathSegments;
    if path :| EncodePathSegments(path) == name {
      PathRoundTrip(path);
    }
  }
}
