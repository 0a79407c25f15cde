/** The two pure naming rules of the downloader: which platform a song URL
    belongs to, and the file name a song is saved under. */
module Naming {
  import opened Common
  import opened Text

  datatype Platform = Suno | Other

  /** A URL belongs to Suno when "suno.com" occurs anywhere in it. */
  function DetectPlatform(url: string): (p: Platform)
    ensures p == Suno <==> exists i :: 0 <= i <= |url| && IsPrefix("suno.com", url[i..])
  {
    if Contains(url, "suno.com") then Suno else Other
  }

  /** The characters a file name may not hold: <>:"/\|?* and the control
      characters U+0000 to U+001F. */
  predicate IsForbidden(c: char)
  {
    || c == '<' || c == '>' || c == ':' || c == '"' || c == '/'
    || c == '\\' || c == '|' || c == '?' || c == '*'
    || c as int < 0x20
  }

  function CleanChar(c: char): (d: char)
    ensures !IsForbidden(d)
  {
    if IsForbidden(c) then '_' else c
  }

  /** Every forbidden character replaced by '_', every other one kept. */
  function Sanitize(s: string): (r: string)
    ensures |r| == |s|
    ensures forall i :: 0 <= i < |s| ==> r[i] == (if IsForbidden(s[i]) then '_' else s[i])
  {
    if s == [] then [] else [CleanChar(s[0])] + Sanitize(s[1..])
  }

  /** Sanitizing works character by character, so it distributes over
      concatenation. */
  lemma {:induction false} SanitizeAppend(a: string, b: string)
    ensures Sanitize(a + b) == Sanitize(a) + Sanitize(b)
  {
    if a == [] {
      assert a + b == b;
    } else {
      assert (a + b)[0] == a[0];
      assert (a + b)[1..] == a[1..] + b;
      SanitizeAppend(a[1..], b);
    }
  }

  /** A name without forbidden characters is left as it is. */
  lemma SanitizeKeepsClean(s: string)
    requires forall i :: 0 <= i < |s| ==> !IsForbidden(s[i])
    ensures Sanitize(s) == s
  {
  }

  /** Sanitizing a sanitized name changes nothing. */
  lemma SanitizeIdempotent(s: string)
    ensures Sanitize(Sanitize(s)) == Sanitize(s)
  {
    SanitizeKeepsClean(Sanitize(s));
  }

  /** "{artist} - {title}.{ext}" with every forbidden character replaced. */
  function SafeFilename(artist: string, title: string, ext: string): (r: string)
    ensures |r| == |artist| + |title| + |ext| + 4
    ensures forall i :: 0 <= i < |r| ==> !IsForbidden(r[i])
  {
    Sanitize(artist + " - " + title + "." + ext)
  }

  /** The separators " - " and "." survive sanitizing: the file name is the
      sanitized artist, title and extension joined by them. */
  lemma SafeFilenameParts(artist: string, title: string, ext: string)
    ensures SafeFilename(artist, title, ext)
         == Sanitize(artist) + " - " + Sanitize(title) + "." + Sanitize(ext)
  {
    var sep, dot := " - ", ".";
    SanitizeKeepsClean(sep);
    SanitizeKeepsClean(dot);
    SanitizeAppend(artist, sep);
    SanitizeAppend(artist + sep, title);
    SanitizeAppend(artist + sep + title, dot);
    SanitizeAppend(artist + sep + title + dot, ext);
  }

  /** A saved file name is a fixed point of the sanitizer. */
  lemma SafeFilenameIdempotent(artist: string, title: string, ext: string)
    ensures Sanitize(SafeFilename(artist, title, ext)) == SafeFilename(artist, title, ext)
  {
    SanitizeIdempotent(artist + " - " + title + "." + ext);
  }
}
