/** Reading the HLS media playlist (RFC 8216) that the streaming server
    returns for a song: the key identifier, the protection header carried in
    a base64 data URI (RFC 2397), the initialization segment named by an
    EXT-X-MAP tag (section 4.3.2.5 of RFC 8216), and the media segments, each
    announced by an EXTINF tag (section 4.3.2.1 of RFC 8216). Also the rule
    that turns the playlist's URIs into absolute URLs. */
module Manifest {
  import opened Common
  import opened Text

  const StreamOrigin := "https://stream.udio.com"

  function ContentPath(songId: string): string
  {
    "/api/v2/audio-stream/content/" + songId
  }

  function ManifestUrl(songId: string): string
  {
    StreamOrigin + ContentPath(songId) + "/manifest.m3u8"
  }

  /** The init segment assumed when the playlist has no EXT-X-MAP tag. */
  function DefaultInitUri(songId: string): string
  {
    ContentPath(songId) + "/init.mp4"
  }

  // ---------------------------------------------------------------------
  // The three regular-expression searches over the whole playlist text
  // ---------------------------------------------------------------------

  /** KEYID=0x([0-9a-fA-F]+), URI="data:text/plain;base64,([A-Za-z0-9+/=]+)"
      and EXT-X-MAP:URI="([^"]+)". */
  datatype Pattern = KeyIdAttr | PsshDataUri | MapUri

  /** The literal text a pattern starts with. */
  function Prefix(pat: Pattern): string
  {
    match pat
    case KeyIdAttr => "KEYID=0x"
    case PsshDataUri => "URI=\"data:text/plain;base64,"
    case MapUri => "EXT-X-MAP:URI=\""
  }

  predicate IsBase64Char(c: char)
  {
    'A' <= c <= 'Z' || 'a' <= c <= 'z' || '0' <= c <= '9' || c == '+' || c == '/' || c == '='
  }

  /** The character class of a pattern's captured group. */
  predicate InGroup(c: char, pat: Pattern)
  {
    match pat
    case KeyIdAttr => IsHexDigit(c)
    case PsshDataUri => IsBase64Char(c)
    case MapUri => c != '"'
  }

  /** Length of the longest run of group characters at the start of s. */
  function GroupLength(s: string, pat: Pattern): (n: nat)
    ensures n <= |s|
    ensures forall i :: 0 <= i < n ==> InGroup(s[i], pat)
    ensures n < |s| ==> !InGroup(s[n], pat)
  {
    if s == [] || !InGroup(s[0], pat) then 0 else 1 + GroupLength(s[1..], pat)
  }

  /** The pattern matches at the start of s: its prefix, a non-empty greedy
      group and, for the two quoted patterns, a closing quote right after it
      (backtracking into a shorter group cannot help, because a shorter group
      is followed by another group character, never by a quote). */
  predicate MatchesAt(s: string, pat: Pattern)
  {
    && IsPrefix(Prefix(pat), s)
    && var rest := s[|Prefix(pat)|..];
       var n := GroupLength(rest, pat);
       && n > 0
       && (pat == KeyIdAttr || (n < |rest| && rest[n] == '"'))
  }

  /** The captured group of a match at the start of s. */
  function GroupAt(s: string, pat: Pattern): (g: string)
    requires MatchesAt(s, pat)
    ensures g != []
    ensures forall i :: 0 <= i < |g| ==> InGroup(g[i], pat)
    ensures IsPrefix(Prefix(pat) + g, s)
    ensures |Prefix(pat)| + |g| < |s| ==> !InGroup(s[|Prefix(pat)| + |g|], pat)
  {
    var rest := s[|Prefix(pat)|..];
    var g := rest[..GroupLength(rest, pat)];
    assert s[..|Prefix(pat) + g|] == s[..|Prefix(pat)|] + g;
    g
  }

  /** re.search: the leftmost position at which the pattern matches. */
  function Search(s: string, pat: Pattern): (r: Option<nat>)
    ensures r.Some? ==> r.value <= |s| && MatchesAt(s[r.value..], pat)
    ensures r.Some? ==> forall p :: 0 <= p < r.value ==> !MatchesAt(s[p..], pat)
    ensures r.None? ==> forall p :: 0 <= p <= |s| ==> !MatchesAt(s[p..], pat)
  {
    SearchFrom(s, t => MatchesAt(t, pat), 0)
  }

  /** The scan of a search from position k onwards, for any test of a
      suffix. */
  function SearchFrom(s: string, matches: string -> bool, k: nat): (r: Option<nat>)
    requires k <= |s|
    ensures r.Some? ==> k <= r.value <= |s| && matches(s[r.value..])
    ensures r.Some? ==> forall p :: k <= p < r.value ==> !matches(s[p..])
    ensures r.None? ==> forall p :: k <= p <= |s| ==> !matches(s[p..])
    decreases |s| - k
  {
    if matches(s[k..]) then Some(k)
    else if k == |s| then None
    else SearchFrom(s, matches, k + 1)
  }

  /** m.group(1) of re.search, or None when there is no match. */
  function Find(s: string, pat: Pattern): (r: Option<string>)
    ensures r.None? <==> forall p :: 0 <= p <= |s| ==> !MatchesAt(s[p..], pat)
    ensures r.Some? ==> r.value != [] && forall i :: 0 <= i < |r.value| ==> InGroup(r.value[i], pat)
    ensures r.Some? ==> Search(s, pat).Some? && r.value == GroupAt(s[Search(s, pat).value..], pat)
  {
    match Search(s, pat)
    case None => None
    case Some(p) => Some(GroupAt(s[p..], pat))
  }

  /** The key identifier: the lower-cased hex digits of the first KEYID=0x
      attribute, or else the song id with its dashes removed. */
  function KeyIdOf(songId: string, text: string): (r: string)
    ensures Find(text, KeyIdAttr).Some? ==> r != [] && forall i :: 0 <= i < |r| ==> IsLowerHexDigit(r[i])
    ensures Find(text, KeyIdAttr).None? ==> '-' !in r && |r| <= |songId| && r == RemoveChar(songId, '-')
    ensures Find(text, KeyIdAttr).Some? ==> r == Lower(Find(text, KeyIdAttr).value)
  {
    match Find(text, KeyIdAttr)
    case Some(h) => Lower(h)
    case None => RemoveChar(songId, '-')
  }

  /** A match at p, with none before it, is the one Find reports, and its
      group is the whole run of group characters there. */
  lemma FindLeftmost(s: string, pat: Pattern, p: nat, h: string)
    requires p <= |s| && IsPrefix(Prefix(pat) + h, s[p..])
    requires h != [] && forall i :: 0 <= i < |h| ==> InGroup(h[i], pat)
    requires p + |Prefix(pat)| + |h| < |s| ==> !InGroup(s[p + |Prefix(pat)| + |h|], pat)
    requires pat != KeyIdAttr ==> p + |Prefix(pat)| + |h| < |s| && s[p + |Prefix(pat)| + |h|] == '"'
    requires forall q :: 0 <= q < p ==> !MatchesAt(s[q..], pat)
    ensures Find(s, pat) == Some(h)
  {
    var t := s[p..];
    MatchOfRun(t, pat, h);
    SearchIsLeftmost(s, pat, p);
  }

  /** A prefix followed by a whole run of group characters (and, for the
      quoted patterns, a quote) is a match whose group is that run. */
  lemma MatchOfRun(t: string, pat: Pattern, h: string)
    requires IsPrefix(Prefix(pat) + h, t)
    requires h != [] && forall i :: 0 <= i < |h| ==> InGroup(h[i], pat)
    requires |Prefix(pat)| + |h| < |t| ==> !InGroup(t[|Prefix(pat)| + |h|], pat)
    requires pat != KeyIdAttr ==> |Prefix(pat)| + |h| < |t| && t[|Prefix(pat)| + |h|] == '"'
    ensures MatchesAt(t, pat) && GroupAt(t, pat) == h
  {
    var n := |Prefix(pat)|;
    var rest := t[n..];
    assert t[..n] == t[..n + |h|][..n] == Prefix(pat);
    assert rest[..|h|] == t[..n + |h|][n..] == h;
    assert |h| < |rest| ==> rest[|h|] == t[n + |h|];
    GroupLengthOfRun(rest, h, pat);
  }

  /** A match with none before it is where the search stops. */
  lemma SearchIsLeftmost(s: string, pat: Pattern, p: nat)
    requires p <= |s| && MatchesAt(s[p..], pat)
    requires forall q :: 0 <= q < p ==> !MatchesAt(s[q..], pat)
    ensures Search(s, pat) == Some(p)
  {
  }

  /** The key identifier is taken from the leftmost KEYID=0x that is
      followed by a hex digit, and it is the whole run of hex digits there. */
  lemma KeyIdFromLeftmostAttribute(songId: string, text: string, p: nat, h: string)
    requires p <= |text| && IsPrefix("KEYID=0x" + h, text[p..])
    requires h != [] && forall i :: 0 <= i < |h| ==> IsHexDigit(h[i])
    requires p + 8 + |h| < |text| ==> !IsHexDigit(text[p + 8 + |h|])
    requires forall q :: 0 <= q < p ==> !MatchesAt(text[q..], KeyIdAttr)
    ensures KeyIdOf(songId, text) == Lower(h)
  {
    FindLeftmost(text, KeyIdAttr, p, h);
  }

  /** The init segment is the quoted value of the leftmost EXT-X-MAP:URI. */
  lemma InitUriFromLeftmostMap(songId: string, text: string, p: nat, u: string)
    requires p <= |text| && IsPrefix("EXT-X-MAP:URI=\"" + u + "\"", text[p..])
    requires u != [] && forall i :: 0 <= i < |u| ==> u[i] != '"'
    requires forall q :: 0 <= q < p ==> !MatchesAt(text[q..], MapUri)
    ensures InitUriOf(songId, text) == u
  {
    var n := |"EXT-X-MAP:URI=\""|;
    assert text[p..][..n + |u|] == text[p..][..n + |u| + 1][..n + |u|];
    assert text[p + n + |u|] == text[p..][..n + |u| + 1][n + |u|];
    FindLeftmost(text, MapUri, p, u);
  }

  /** A run of group characters that is not followed by another one is the
      whole greedy group. */
  lemma GroupLengthOfRun(rest: string, h: string, pat: Pattern)
    requires |h| <= |rest| && rest[..|h|] == h
    requires forall i :: 0 <= i < |h| ==> InGroup(h[i], pat)
    requires |h| < |rest| ==> !InGroup(rest[|h|], pat)
    ensures GroupLength(rest, pat) == |h|
  {
    assert forall i :: 0 <= i < |h| ==> rest[i] == h[i];
  }

  /** The init segment URI: the quoted value of the first EXT-X-MAP:URI, or
      else the default init.mp4 path of the song. */
  function InitUriOf(songId: string, text: string): (r: string)
    ensures r != []
    ensures Find(text, MapUri).Some? ==> '"' !in r
    ensures Find(text, MapUri).None? ==> IsPrefix(ContentPath(songId), r) && r == DefaultInitUri(songId)
    ensures Find(text, MapUri).Some? ==> r == Find(text, MapUri).value
  {
    match Find(text, MapUri)
    case Some(u) =>
      assert forall i :: 0 <= i < |u| ==> u[i] != '"';
      u
    case None =>
      assert DefaultInitUri(songId)[..|ContentPath(songId)|] == ContentPath(songId);
      DefaultInitUri(songId)
  }

  // ---------------------------------------------------------------------
  // The segment scan: a two-state machine over the stripped lines
  // ---------------------------------------------------------------------

  datatype ScanState = Idle | AwaitingUri

  /** A line announcing a media segment. */
  predicate IsExtinf(line: string)
  {
    IsPrefix("#EXTINF:", Strip(line))
  }

  /** A line that is neither blank nor a tag or comment. */
  predicate IsUriLine(line: string)
  {
    var s := Strip(line);
    s != [] && s[0] != '#'
  }

  lemma ExtinfIsNotUri(line: string)
    ensures IsExtinf(line) ==> !IsUriLine(line)
  {
    var s := Strip(line);
    if IsExtinf(line) {
      assert s[0] == s[..8][0];
    }
  }

  /** One iteration of the scan over a line: an announcement makes the scan
      wait for a URI; a URI line while waiting is captured and ends the wait;
      anything else changes nothing. */
  function Step(st: (ScanState, seq<string>), line: string): (r: (ScanState, seq<string>))
    ensures r.0 == AwaitingUri <==> IsExtinf(line) || (st.0 == AwaitingUri && !IsUriLine(line))
    ensures r.1 == st.1 || (r.1 == st.1 + [Strip(line)] && IsUriLine(line) && !IsExtinf(line))
  {
    if IsExtinf(line) then (AwaitingUri, st.1)
    else if st.0 == AwaitingUri && IsUriLine(line) then (Idle, st.1 + [Strip(line)])
    else st
  }

  /** The state and captured URIs after scanning lines in order. */
  function Run(lines: seq<string>): (r: (ScanState, seq<string>))
    ensures |r.1| <= |lines|
  {
    if lines == [] then (Idle, []) else Step(Run(lines[..|lines| - 1]), lines[|lines| - 1])
  }

  function Segments(lines: seq<string>): seq<string>
  {
    Run(lines).1
  }

  lemma RunSnoc(lines: seq<string>, line: string)
    ensures Run(lines + [line]) == Step(Run(lines), line)
  {
    assert (lines + [line])[..|lines|] == lines;
  }

  /** The loop of the playlist reader: one pass over the lines with the
      waiting flag, appending each captured URI. */
  method ScanSegments(lines: seq<string>) returns (uris: seq<string>)
    ensures uris == Segments(lines)
  {
    uris := [];
    var state := Idle;
    for i := 0 to |lines|
      invariant (state, uris) == Run(lines[..i])
    {
      var line := Strip(lines[i]);
      assert IsExtinf(lines[i]) <==> IsPrefix("#EXTINF:", line);
      assert IsUriLine(lines[i]) <==> line != [] && line[0] != '#';
      if IsPrefix("#EXTINF:", line) {
        state := AwaitingUri;
      } else if state == AwaitingUri && line != [] && line[0] != '#' {
        uris := uris + [line];
        state := Idle;
      }
      RunSnoc(lines[..i], lines[i]);
      assert lines[..i + 1] == lines[..i] + [lines[i]];
    }
    assert lines[..|lines|] == lines;
  }

  /** Line j is awaited: some earlier line announced a segment and no URI
      line came between that announcement and line j. */
  ghost predicate Announced(lines: seq<string>, j: nat)
    requires j <= |lines|
  {
    exists i :: 0 <= i < j && IsExtinf(lines[i]) && forall k :: i < k < j ==> !IsUriLine(lines[k])
  }

  /** Declarative reading of the scan: the stripped URI lines among the first
      n lines that were awaited, in document order. */
  ghost function Captured(lines: seq<string>, n: nat): seq<string>
    requires n <= |lines|
  {
    if n == 0 then []
    else Captured(lines, n - 1)
         + (if IsUriLine(lines[n - 1]) && Announced(lines, n - 1) then [Strip(lines[n - 1])] else [])
  }

  /** Line n is awaited exactly when line n - 1 is an announcement, or it
      is not a URI line and line n - 1 was awaited itself. */
  lemma AnnouncedStep(lines: seq<string>, n: nat)
    requires 0 < n <= |lines|
    ensures Announced(lines, n) <==>
      IsExtinf(lines[n - 1]) || (!IsUriLine(lines[n - 1]) && Announced(lines, n - 1))
  {
    if Announced(lines, n) && !IsExtinf(lines[n - 1]) {
      AnnouncedBefore(lines, n);
    }
    if !IsUriLine(lines[n - 1]) && Announced(lines, n - 1) {
      AnnouncedCarries(lines, n);
    }
  }

  lemma AnnouncedBefore(lines: seq<string>, n: nat)
    requires 0 < n <= |lines| && Announced(lines, n) && !IsExtinf(lines[n - 1])
    ensures !IsUriLine(lines[n - 1]) && Announced(lines, n - 1)
  {
    var i :| 0 <= i < n && IsExtinf(lines[i]) && forall k :: i < k < n ==> !IsUriLine(lines[k]);
    assert i < n - 1;
  }

  lemma AnnouncedCarries(lines: seq<string>, n: nat)
    requires 0 < n <= |lines| && !IsUriLine(lines[n - 1]) && Announced(lines, n - 1)
    ensures Announced(lines, n)
  {
    var i :| 0 <= i < n - 1 && IsExtinf(lines[i]) && forall k :: i < k < n - 1 ==> !IsUriLine(lines[k]);
    forall k | i < k < n
      ensures !IsUriLine(lines[k])
    {
      if k < n - 1 {
        assert i < k < n - 1;
      }
    }
  }

  lemma {:induction false} RunMatchesCaptured(lines: seq<string>, n: nat)
    requires n <= |lines|
    ensures Segments(lines[..n]) == Captured(lines, n)
    ensures Run(lines[..n]).0 == AwaitingUri <==> Announced(lines, n)
  {
    if n > 0 {
      RunMatchesCaptured(lines, n - 1);
      assert lines[..n][..n - 1] == lines[..n - 1];
      ExtinfIsNotUri(lines[n - 1]);
      AnnouncedStep(lines, n);
    }
  }

  /** The scan captures exactly the awaited URI lines, stripped, in document
      order. */
  lemma SegmentsAreAwaitedLines(lines: seq<string>)
    ensures Segments(lines) == Captured(lines, |lines|)
  {
    RunMatchesCaptured(lines, |lines|);
    assert lines[..|lines|] == lines;
  }

  function CountExtinf(lines: seq<string>): nat
  {
    if lines == [] then 0
    else CountExtinf(lines[..|lines| - 1]) + (if IsExtinf(lines[|lines| - 1]) then 1 else 0)
  }

  lemma {:induction false} RunBounded(lines: seq<string>)
    ensures |Run(lines).1| + (if Run(lines).0 == AwaitingUri then 1 else 0) <= CountExtinf(lines)
  {
    if lines != [] {
      RunBounded(lines[..|lines| - 1]);
    }
  }

  /** At most one URI is captured per announcement. */
  lemma SegmentsBounded(lines: seq<string>)
    ensures |Segments(lines)| <= CountExtinf(lines)
  {
    RunBounded(lines);
  }

  /** A captured URI: stripped, non-empty and not a tag or comment. */
  predicate IsCleanUri(u: string)
  {
    u != [] && u[0] != '#' && Strip(u) == u
  }

  /** The stripped text of a URI line is a clean URI. */
  lemma StrippedUriIsClean(line: string)
    requires IsUriLine(line)
    ensures IsCleanUri(Strip(line))
  {
    StripIdempotent(line);
  }

  /** Every captured URI is stripped, non-empty and not a tag or comment. */
  lemma {:induction false} SegmentsWellFormed(lines: seq<string>)
    ensures forall j :: 0 <= j < |Segments(lines)| ==> IsCleanUri(Segments(lines)[j])
  {
    if lines != [] {
      var prev, last := lines[..|lines| - 1], lines[|lines| - 1];
      SegmentsWellFormed(prev);
      assert Run(lines) == Step(Run(prev), last);
      if Segments(lines) != Segments(prev) {
        StrippedUriIsClean(last);
        assert Segments(lines) == Segments(prev) + [Strip(last)];
      }
    }
  }

  /** The playlist made of announcement/URI line pairs. */
  function Interleave(tags: seq<string>, uris: seq<string>): seq<string>
    requires |tags| == |uris|
  {
    if tags == [] then []
    else Interleave(tags[..|tags| - 1], uris[..|uris| - 1]) + [tags[|tags| - 1], uris[|uris| - 1]]
  }

  function StripAll(xs: seq<string>): (r: seq<string>)
    ensures |r| == |xs|
  {
    if xs == [] then [] else StripAll(xs[..|xs| - 1]) + [Strip(xs[|xs| - 1])]
  }

  /** An announcement followed by a URI line, after a scan that is not
      waiting, captures that URI, stripped, and leaves the scan idle. */
  lemma PairStep(front: seq<string>, tag: string, uri: string)
    requires Run(front).0 == Idle && IsExtinf(tag) && IsUriLine(uri)
    ensures Run(front + [tag, uri]) == (Idle, Segments(front) + [Strip(uri)])
  {
    assert [tag, uri] == [tag] + [uri];
    AppendAssoc(front, [tag], [uri]);
    RunSnoc(front, tag);
    RunSnoc(front + [tag], uri);
    ExtinfIsNotUri(uri);
  }

  /** N announcements, each followed by one URI line, give exactly those N
      URIs, stripped, in document order. */
  lemma {:induction false} PairedAnnouncements(tags: seq<string>, uris: seq<string>)
    requires |tags| == |uris|
    requires forall i :: 0 <= i < |tags| ==> IsExtinf(tags[i]) && IsUriLine(uris[i])
    ensures Run(Interleave(tags, uris)).0 == Idle
    ensures Segments(Interleave(tags, uris)) == StripAll(uris)
  {
    if tags != [] {
      var n := |tags| - 1;
      var front := Interleave(tags[..n], uris[..n]);
      PairedAnnouncements(tags[..n], uris[..n]);
      assert Interleave(tags, uris) == front + [tags[n], uris[n]];
      PairStep(front, tags[n], uris[n]);
      assert StripAll(uris) == StripAll(uris[..n]) + [Strip(uris[n])];
    }
  }

  // ---------------------------------------------------------------------
  // Stream URI resolution
  // ---------------------------------------------------------------------

  predicate IsAbsoluteUrl(u: string)
  {
    IsPrefix("http://", u) || IsPrefix("https://", u)
  }

  /** Absolute URLs are kept; a path starting with '/' is put under the
      streaming origin; any other text is put under the origin's root. */
  function ResolveStreamUri(uri: string): (r: string)
    ensures IsAbsoluteUrl(r)
    ensures IsAbsoluteUrl(uri) ==> r == uri
    ensures !IsAbsoluteUrl(uri) ==> IsPrefix(StreamOrigin + "/", r) && |uri| < |r| && r[|r| - |uri|..] == uri
    ensures !IsAbsoluteUrl(uri) ==> |r| == |StreamOrigin| + |uri| + (if IsPrefix("/", uri) then 0 else 1)
  {
    if IsAbsoluteUrl(uri) then uri
    else if IsPrefix("/", uri) then
      assert (StreamOrigin + uri)[..|StreamOrigin + "/"|] == StreamOrigin + uri[..1];
      StreamOrigin + uri
    else
      var r := StreamOrigin + "/" + uri;
      assert r[..8] == "https://";
      assert r[..|StreamOrigin + "/"|] == StreamOrigin + "/";
      r
  }

  /** Resolving a resolved URL changes nothing. */
  lemma ResolveIdempotent(uri: string)
    ensures ResolveStreamUri(ResolveStreamUri(uri)) == ResolveStreamUri(uri)
  {
  }

  /** "/x" and "x" name the same stream file. */
  lemma RootRelativeMatchesBare(x: string)
    requires !IsAbsoluteUrl(x) && !IsPrefix("/", x)
    ensures ResolveStreamUri("/" + x) == ResolveStreamUri(x)
  {
    assert ("/" + x)[..1] == "/";
    assert ("/" + x)[0] == '/';
    assert !IsAbsoluteUrl("/" + x);
    assert StreamOrigin + ("/" + x) == StreamOrigin + "/" + x;
  }

  // ---------------------------------------------------------------------
  // The parsed playlist
  // ---------------------------------------------------------------------

  datatype StreamManifest = StreamManifest(
    keyId: string,
    pssh: Option<string>,
    initUri: string,
    segmentUris: seq<string>)

  /** What the playlist reader returns for a playlist text, or NoSegments
      when no media segment was captured. */
  function ParseManifest(songId: string, text: string): (r: Result<StreamManifest>)
    ensures r.Failure? <==> Segments(SplitLines(text)) == []
    ensures r.Failure? ==> r.error == NoSegments
    ensures r.Success? ==> r.value.segmentUris == Segments(SplitLines(text)) && r.value.segmentUris != []
    ensures r.Success? ==>
      && r.value.keyId == KeyIdOf(songId, text)
      && r.value.pssh == Find(text, PsshDataUri)
      && r.value.initUri == InitUriOf(songId, text)
  {
    var segs := Segments(SplitLines(text));
    if segs == [] then Failure(NoSegments)
    else Success(StreamManifest(KeyIdOf(songId, text), Find(text, PsshDataUri), InitUriOf(songId, text), segs))
  }

  /** A parsed playlist has between one segment and one per announcement. */
  lemma ParsedSegmentCount(songId: string, text: string)
    requires ParseManifest(songId, text).Success?
    ensures 0 < |ParseManifest(songId, text).value.segmentUris| <= CountExtinf(SplitLines(text))
  {
    SegmentsBounded(SplitLines(text));
  }
}
