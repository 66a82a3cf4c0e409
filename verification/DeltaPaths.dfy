/** The storage paths of manifest files, printed by one program and parsed by another. */
module DeltaPaths {
  import opened Common
  import opened UriEncoding

  const DELTA_MARKER := "/delta/"

  /** A SHA-256 digest in hexadecimal. */
  predicate IsDigest(s: string) {
    |s| == 64 && forall c :: c in s ==> '0' <= c <= '9' || 'a' <= c <= 'f'
  }

  /** `hashed` is the digest of the file hash. */
  function BuildPartialUploadPath(orgId: string, appId: string, hashed: string, fileName: string): string {
    "orgs/" + orgId + "/apps/" + appId + DELTA_MARKER + hashed + "_" + EncodePathSegments(fileName)
  }

  predicate StartsWith(s: string, part: string) {
    |part| <= |s| && s[..|part|] == part
  }

  function IndexOf(s: string, part: string): (index: int)
    ensures index >= -1
    ensures index >= 0 ==> index + |part| <= |s|
    ensures index >= 0 ==> StartsWith(s[index..], part)
  {
    if StartsWith(s, part) then 0
    else if s == [] then -1
    else
      var index := IndexOf(s[1..], part);
      if index < 0 then -1 else index + 1
  }

  /** What the parser makes of the segments after the marker. */
  function ParseSegments(segments: seq<string>): Option<string>
    requires segments != []
  {
    var hashSegmentIndex := if '_' in segments[0] then 0 else 1;
    if hashSegmentIndex >= |segments| then None
    else
      var separatorIndex := IndexOf(segments[hashSegmentIndex], "_");
      if separatorIndex < 0 then None
      else
        var firstPathSegment := segments[hashSegmentIndex][separatorIndex + 1..];
        if firstPathSegment == "" then None
        else Some(Join([firstPathSegment] + segments[hashSegmentIndex + 1..]))
  }

  function ExtractEncodedManifestPath(s3Path: string): Option<string> {
    var deltaIndex := IndexOf(s3Path, DELTA_MARKER);
    if deltaIndex < 0 then None else ParseSegments(Split(s3Path[deltaIndex + |DELTA_MARKER|..]))
  }

  // ---------- finding the marker ----------

  /** What follows the first marker. */
  function AfterDelta(s: string): Option<string> {
    var index := IndexOf(s, DELTA_MARKER);
    if index < 0 then None else Some(s[index + |DELTA_MARKER|..])
  }

  lemma NoMarkerBefore(s: string)
    requires s != [] && !StartsWith(s, DELTA_MARKER)
    ensures AfterDelta(s) == AfterDelta(s[1..])
  {
  }

  lemma MarkerStartsWithSlash(s: string)
    ensures StartsWith(s, DELTA_MARKER) ==> s[0] == '/'
  {
    if StartsWith(s, DELTA_MARKER) {
      assert s[0] == s[..|DELTA_MARKER|][0];
    }
  }

  /** Text without a slash cannot start a marker. */
  lemma {:induction false} SkipText(text: string, rest: string)
    requires '/' !in text
    ensures AfterDelta(text + rest) == AfterDelta(rest)
  {
    hide AfterDelta;
    if text == [] {
      assert text + rest == rest;
    } else {
      var all := text + rest;
      assert all[0] == text[0] && all[0] != '/';
      assert all[1..] == text[1..] + rest;
      MarkerStartsWithSlash(all);
      NoMarkerBefore(all);
      SkipText(text[1..], rest);
    }
  }

  lemma OnlyDeltaStartsTheMarker(segment: string, rest: string)
    requires '/' !in segment && rest != [] && rest[0] == '/'
    ensures StartsWith("/" + segment + rest, DELTA_MARKER) ==> segment == "delta"
  {
    var all := "/" + segment + rest;
    assert forall i :: 0 <= i < |segment| ==> all[1 + i] == segment[i];
    assert all[1 + |segment|] == '/';
    if StartsWith(all, DELTA_MARKER) {
      assert forall i :: 0 <= i < 7 ==> all[i] == DELTA_MARKER[i];
      assert all[6] == '/' && all[1..6] == "delta";
      assert |segment| == 5;
      assert segment == all[1..6];
    }
  }

  /** A slash and a segment are the start of a marker only if the segment is "delta". */
  lemma SkipSegment(segment: string, rest: string)
    requires '/' !in segment && segment != "delta" && rest != [] && rest[0] == '/'
    ensures AfterDelta("/" + segment + rest) == AfterDelta(rest)
  {
    hide AfterDelta, StartsWith;
    var all := "/" + segment + rest;
    assert all[1..] == segment + rest;
    OnlyDeltaStartsTheMarker(segment, rest);
    NoMarkerBefore(all);
    SkipText(segment, rest);
  }

  lemma MarkerAtStart(rest: string)
    ensures AfterDelta(DELTA_MARKER + rest) == Some(rest)
  {
    assert (DELTA_MARKER + rest)[..|DELTA_MARKER|] == DELTA_MARKER;
    assert (DELTA_MARKER + rest)[|DELTA_MARKER|..] == rest;
  }

  /** What the parser finds after the first marker of a printed path, depending on the ids. */
  function FoundAfterDelta(orgId: string, appId: string, file: string): string {
    if orgId == "delta" then "apps/" + appId + DELTA_MARKER + file
    else if appId == "delta" then "delta/" + file
    else file
  }

  lemma MarkerOfPath(orgId: string, appId: string, file: string)
    requires '/' !in orgId && '/' !in appId
    ensures AfterDelta("orgs/" + orgId + "/apps/" + appId + DELTA_MARKER + file)
         == Some(FoundAfterDelta(orgId, appId, file))
  {
    hide AfterDelta;
    var afterApp := DELTA_MARKER + file;
    var afterApps := "/" + appId + afterApp;
    var afterOrg := "/apps" + afterApps;
    var afterOrgs := "/" + orgId + afterOrg;
    assert "orgs/" + orgId + "/apps/" + appId + DELTA_MARKER + file == "orgs" + afterOrgs;
    SkipText("orgs", afterOrgs);
    if orgId == "delta" {
      assert afterOrgs == DELTA_MARKER + ("apps/" + appId + DELTA_MARKER + file);
      MarkerAtStart("apps/" + appId + DELTA_MARKER + file);
    } else {
      SkipSegment(orgId, afterOrg);
      SkipSegment("apps", afterApps);
      assert afterOrg == "/" + "apps" + afterApps;
      if appId == "delta" {
        assert afterApps == DELTA_MARKER + ("delta/" + file);
        MarkerAtStart("delta/" + file);
      } else {
        SkipSegment(appId, afterApp);
        MarkerAtStart(file);
      }
    }
  }

  // ---------- segments ----------

  lemma {:induction false} SplitAfterText(text: string, rest: string)
    requires '/' !in text
    ensures Split(text + rest) == [text + Split(rest)[0]] + Split(rest)[1..]
  {
    if text == [] {
      assert text + rest == rest;
      assert text + Split(rest)[0] == Split(rest)[0];
    } else {
      var all := text + rest;
      assert all[0] == text[0] && all[1..] == text[1..] + rest;
      SplitAfterText(text[1..], rest);
      assert [text[0]] + (text[1..] + Split(rest)[0]) == text + Split(rest)[0];
    }
  }

  lemma SplitAtSlash(text: string, rest: string)
    requires '/' !in text
    ensures Split(text + "/" + rest) == [text] + Split(rest)
  {
    assert text + "/" + rest == text + ("/" + rest);
    assert ("/" + rest)[1..] == rest;
    SplitAfterText(text, "/" + rest);
    assert text + "" == text;
  }

  lemma {:induction false} JoinOfSplit(s: string)
    ensures Join(Split(s)) == s
  {
    if s != [] {
      JoinOfSplit(s[1..]);
      var rest := Split(s[1..]);
      if s[0] == '/' {
        assert ([""] + rest)[1..] == rest;
      } else {
        JoinPushesIntoFirst([s[0]], rest);
      }
      assert [s[0]] + s[1..] == s;
    }
  }

  lemma JoinOfMore(segment: string, rest: seq<string>)
    requires rest != []
    ensures Join([segment] + rest) == segment + "/" + Join(rest)
  {
    assert ([segment] + rest)[1..] == rest;
  }

  lemma {:induction false} SeparatorAfterDigest(digest: string, rest: string)
    requires '_' !in digest
    ensures IndexOf(digest + "_" + rest, "_") == |digest|
  {
    var all := digest + "_" + rest;
    if digest == [] {
      assert all[..1] == "_";
    } else {
      assert all[0] == digest[0] && all[..1] == [digest[0]];
      assert all[1..] == digest[1..] + "_" + rest;
      SeparatorAfterDigest(digest[1..], rest);
    }
  }

  /** The digest, an underscore and a path parse to the path, unless it starts with a slash or is empty. */
  lemma ParseDigestAndPath(digest: string, path: string)
    requires '_' !in digest && '/' !in digest
    ensures var segments := Split(digest + "_" + path);
      && segments[0] == digest + "_" + Split(path)[0]
      && ParseSegments(segments) == (if Split(path)[0] == "" then None else Some(path))
      && ParseSegments(["delta"] + segments) == ParseSegments(segments)
  {
    hide IndexOf, Join, Split;
    var segments := Split(digest + "_" + path);
    var first := Split(path)[0];
    assert '/' !in digest + "_";
    SplitAfterText(digest + "_", path);
    assert segments == [digest + "_" + first] + Split(path)[1..];
    SeparatorAfterDigest(digest, first);
    assert segments[0][|digest|] == '_';
    assert segments[0][|digest| + 1..] == first;
    assert [first] + segments[1..] == Split(path);
    JoinOfSplit(path);
    assert (["delta"] + segments)[1..] == segments;
    assert (["delta"] + segments)[1 + 1..] == segments[1..];
    assert '_' in segments[0];
    assert '_' !in "delta";
  }

  /** A path found after the marker of an organisation called "delta" never is the file's own path. */
  lemma ParseFromApps(appId: string, file: string)
    requires '/' !in appId
    ensures var parsed := ParseSegments(Split("apps/" + appId + DELTA_MARKER + file));
      parsed.None? || |parsed.value| > |file|
  {
    hide IndexOf, Split;
    var afterApp := "delta/" + file;
    assert "apps/" + appId + DELTA_MARKER + file == "apps" + "/" + (appId + "/" + afterApp);
    SplitAtSlash("apps", appId + "/" + afterApp);
    SplitAtSlash(appId, afterApp);
    SplitAtSlash("delta", file);
    assert afterApp == "delta" + "/" + file;
    var segments := ["apps", appId, "delta"] + Split(file);
    assert Split("apps/" + appId + DELTA_MARKER + file) == segments;
    assert segments[1] == appId && '_' !in "apps";
    if IndexOf(appId, "_") >= 0 {
      var first := appId[IndexOf(appId, "_") + 1..];
      JoinOfSplit(file);
      assert segments[2..] == ["delta"] + Split(file);
      JoinOfMore(first, ["delta"] + Split(file));
      JoinOfMore("delta", Split(file));
    }
  }

  lemma ExtractParsesAfterDelta(s3Path: string)
    ensures ExtractEncodedManifestPath(s3Path)
      == if AfterDelta(s3Path).None? then None else ParseSegments(Split(AfterDelta(s3Path).value))
  {
  }

  // ---------- the round trip ----------

  lemma {:induction false} EncodedCharIsNotEmpty(c: char)
    ensures EncodeChar(c) != ""
  {
    hide Utf8, Escape;
    if !IsUnescaped(c) {
      EscapesStartWithPercent(Utf8(c));
    }
  }

  lemma {:induction false} EscapesHaveNoSlash(bytes: seq<int>)
    requires AreBytes(bytes)
    ensures '/' !in Escapes(bytes)
  {
    if bytes != [] {
      EscapesHaveNoSlash(bytes[1..]);
    }
  }

  /** The encoding starts with an empty segment exactly if the file name does. */
  lemma FirstSegmentOfEncoding(fileName: string)
    ensures Split(EncodePathSegments(fileName))[0] == "" <==> fileName == "" || fileName[0] == '/'
  {
    hide EncodeChar;
    PathEncodingKeepsSlashes(fileName);
    if fileName != "" && fileName[0] != '/' {
      var c, rest := fileName[0], EncodeKeepingSlashes(fileName[1..]);
      EncodedCharHasNoSlash(c);
      EncodedCharIsNotEmpty(c);
      SplitAfterText(EncodeChar(c), rest);
    }
  }

  lemma EncodedCharHasNoSlash(c: char)
    requires c != '/'
    ensures '/' !in EncodeChar(c)
  {
    if !IsUnescaped(c) {
      EscapesHaveNoSlash(Utf8(c));
    }
  }

  /**
   * Parsing a printed path gives the encoded file name back exactly when the organisation is not called
   * "delta" and the file name does not start with an empty segment. An app called "delta" does no harm.
   */
  lemma ExtractUndoesBuildExactlyWhen(orgId: string, appId: string, hashed: string, fileName: string)
    requires '/' !in orgId && '/' !in appId && IsDigest(hashed)
    ensures ExtractEncodedManifestPath(BuildPartialUploadPath(orgId, appId, hashed, fileName))
         == Some(EncodePathSegments(fileName))
      <==> orgId != "delta" && fileName != "" && fileName[0] != '/'
  {
    hide ExtractEncodedManifestPath, EncodePathSegments, Split, AfterDelta, ParseSegments;
    var encoded := EncodePathSegments(fileName);
    var file := hashed + "_" + encoded;
    var path := BuildPartialUploadPath(orgId, appId, hashed, fileName);
    assert path == "orgs/" + orgId + "/apps/" + appId + DELTA_MARKER + file;
    MarkerOfPath(orgId, appId, file);
    ExtractParsesAfterDelta(path);
    FirstSegmentOfEncoding(fileName);
    DigestIsPlain(hashed);
    ParseDigestAndPath(hashed, encoded);
    if orgId == "delta" {
      ParseFromApps(appId, file);
    } else if appId == "delta" {
      assert "delta/" + file == "delta" + "/" + file;
      SplitAtSlash("delta", file);
    }
  }

  /** The files of an organisation called "delta" are not found, whatever their digest. */
  lemma OrganisationCalledDeltaIsNotParsed(hashed: string)
    requires IsDigest(hashed)
    ensures ExtractEncodedManifestPath(BuildPartialUploadPath("delta", "com.example.app", hashed, "main.js"))
      != Some(EncodePathSegments("main.js"))
  {
    ExtractUndoesBuildExactlyWhen("delta", "com.example.app", hashed, "main.js");
  }

  lemma DigestIsPlain(hashed: string)
    requires IsDigest(hashed)
    ensures '_' !in hashed && '/' !in hashed
  {
  }

  /** Printing, parsing and decoding give the file name back. */
  lemma FileNameRoundTrip(orgId: string, appId: string, hashed: string, fileName: string)
    requires '/' !in orgId && '/' !in appId && IsDigest(hashed)
    requires orgId != "delta" && fileName != "" && fileName[0] != '/'
    ensures var extracted := ExtractEncodedManifestPath(BuildPartialUploadPath(orgId, appId, hashed, fileName));
      extracted.Some? && DecodePathSegments(extracted.value) == Some(fileName)
  {
    hide ExtractEncodedManifestPath, BuildPartialUploadPath, EncodePathSegments, DecodePathSegments;
    ExtractUndoesBuildExactlyWhen(orgId, appId, hashed, fileName);
    PathRoundTrip(fileName);
  }

  // ---------- the audit ----------

  predicate IsSafeRelativePath(path: string) {
    && path != "" && path[0] != '/' && '\0' !in path
    && forall i :: 0 <= i < |Split(path)| ==> Split(path)[i] !in ["", ".", ".."]
  }

  datatype Verdict =
    | NotValidEncodedPath
    | NotCanonicalSafePathEncoding
    | S3PathDoesNotMatch
    | Eligible(nextFileName: string)

  /** The checks of a manifest row that need no storage. */
  function Audit(fileName: string, s3Path: string): Verdict {
    var decoded := DecodePathSegments(fileName);
    if decoded.None? || decoded.value == "" || decoded.value == fileName then NotValidEncodedPath
    else if !IsSafeRelativePath(decoded.value) || EncodePathSegments(decoded.value) != fileName then
      NotCanonicalSafePathEncoding
    else if ExtractEncodedManifestPath(s3Path) != Some(fileName) then S3PathDoesNotMatch
    else Eligible(decoded.value)
  }

  /**
   * For a row whose path was printed for `original`, and whose file name is its encoding, the audit
   * proposes a new name exactly when the original is safe and has something to encode and the
   * organisation is not called "delta"; the new name is the original.
   */
  lemma AuditRestoresOriginalNames(orgId: string, appId: string, hashed: string, original: string)
    requires '/' !in orgId && '/' !in appId && IsDigest(hashed)
    ensures var encoded := EncodePathSegments(original);
      var verdict := Audit(encoded, BuildPartialUploadPath(orgId, appId, hashed, original));
      && (verdict.Eligible? <==> IsSafeRelativePath(original) && original != encoded && orgId != "delta")
      && (verdict.Eligible? ==> verdict.nextFileName == original)
  {
    hide ExtractEncodedManifestPath, BuildPartialUploadPath, EncodePathSegments, DecodePathSegments, Split;
    ExtractUndoesBuildExactlyWhen(orgId, appId, hashed, original);
    PathRoundTrip(original);
  }
}
