/** ASCII text helpers with the meaning the downloader's Python string
    operations give them: str.isspace, str.strip, str.lower, the `in`
    substring test, str.replace(c, ""), str.splitlines and bytes.hex
    (str.startswith is Common.IsPrefix). Only the ASCII range is modelled. */
module Text {
  import opened Common

  /** str.isspace() on ASCII: \t \n \v \f \r, the separators \x1c-\x1f and
      the space. */
  predicate IsSpace(c: char)
  {
    9 <= c as int <= 13 || 28 <= c as int <= 32
  }

  /** The ASCII line boundaries of str.splitlines(): \n \v \f \r and
      \x1c-\x1e (a \r\n pair counts as one boundary). */
  predicate IsLineBreak(c: char)
  {
    10 <= c as int <= 13 || 28 <= c as int <= 30
  }

  predicate IsHexDigit(c: char)
  {
    '0' <= c <= '9' || 'a' <= c <= 'f' || 'A' <= c <= 'F'
  }

  /** Membership in "0123456789abcdef". */
  predicate IsLowerHexDigit(c: char)
  {
    '0' <= c <= '9' || 'a' <= c <= 'f'
  }

  /** Python's `p in s`. */
  function Contains(s: string, p: string): (r: bool)
    ensures r <==> exists i :: 0 <= i <= |s| && IsPrefix(p, s[i..])
    decreases |s|
  {
    if IsPrefix(p, s) then
      assert IsPrefix(p, s[0..]);
      true
    else if s == [] then
      false
    else
      var r := Contains(s[1..], p);
      assert forall i :: 1 <= i <= |s| ==> s[i..] == s[1..][i - 1..];
      r
  }

  /** Number of leading whitespace characters. */
  function LeadingSpace(s: string): (n: nat)
    ensures n <= |s|
    ensures forall i :: 0 <= i < n ==> IsSpace(s[i])
    ensures n < |s| ==> !IsSpace(s[n])
  {
    if s == [] || !IsSpace(s[0]) then 0 else 1 + LeadingSpace(s[1..])
  }

  /** Number of trailing whitespace characters. */
  function TrailingSpace(s: string): (n: nat)
    ensures n <= |s|
    ensures forall i :: |s| - n <= i < |s| ==> IsSpace(s[i])
    ensures n < |s| ==> !IsSpace(s[|s| - 1 - n])
  {
    if s == [] || !IsSpace(s[|s| - 1]) then 0 else 1 + TrailingSpace(s[..|s| - 1])
  }

  /** str.strip(): the text between the leading and the trailing whitespace. */
  function Strip(s: string): (r: string)
    ensures |r| <= |s|
    ensures r == [] || (!IsSpace(r[0]) && !IsSpace(r[|r| - 1]))
    ensures r == [] <==> forall i :: 0 <= i < |s| ==> IsSpace(s[i])
    ensures (s == [] || (!IsSpace(s[0]) && !IsSpace(s[|s| - 1]))) ==> r == s
    ensures LeadingSpace(s) + |r| <= |s| && r == s[LeadingSpace(s)..LeadingSpace(s) + |r|]
    ensures forall i :: LeadingSpace(s) + |r| <= i < |s| ==> IsSpace(s[i])
  {
    var a := LeadingSpace(s);
    var t := s[a..];
    var b := TrailingSpace(t);
    assert a < |s| ==> t[0] == s[a] && b < |t|;
    t[..|t| - b]
  }

  /** Stripping twice strips nothing more. */
  lemma StripIdempotent(s: string)
    ensures Strip(Strip(s)) == Strip(s)
  {
  }

  function LowerChar(c: char): char
  {
    if 'A' <= c <= 'Z' then (c as int + 32) as char else c
  }

  /** str.lower() on ASCII. */
  function Lower(s: string): (r: string)
    ensures |r| == |s|
    ensures forall i :: 0 <= i < |s| ==> r[i] == LowerChar(s[i])
  {
    seq(|s|, i requires 0 <= i < |s| => LowerChar(s[i]))
  }

  /** A character lowers to a digit of "0123456789abcdef" exactly when it is a
      hexadecimal digit of either case. */
  lemma LowerHexDigit(c: char)
    ensures IsLowerHexDigit(LowerChar(c)) <==> IsHexDigit(c)
  {
  }

  /** s.replace(c, ""): every occurrence of c removed, the rest kept in order. */
  function RemoveChar(s: string, c: char): (r: string)
    ensures c !in r
    ensures |r| <= |s|
    ensures c !in s ==> r == s
    ensures |r| == |s| - multiset(s)[c]
  {
    if s == [] then []
    else
      assert s == [s[0]] + s[1..];
      if s[0] == c then RemoveChar(s[1..], c)
      else [s[0]] + RemoveChar(s[1..], c)
  }

  /** Removing a character works piece by piece: together with the one-
      character cases (c itself vanishes by the length clause, any other
      character stays) this pins RemoveChar down completely. */
  lemma {:induction false} RemoveCharAppend(a: string, b: string, c: char)
    ensures RemoveChar(a + b, c) == RemoveChar(a, c) + RemoveChar(b, c)
  {
    if a == [] {
      assert a + b == b;
    } else {
      assert (a + b)[0] == a[0];
      assert (a + b)[1..] == a[1..] + b;
      RemoveCharAppend(a[1..], b, c);
    }
  }

  /** The characters of s that are not line boundaries. */
  function DropBreaks(s: string): (r: string)
  {
    if s == [] then []
    else if IsLineBreak(s[0]) then DropBreaks(s[1..])
    else [s[0]] + DropBreaks(s[1..])
  }

  lemma {:induction false} DropBreaksAppend(a: string, b: string)
    ensures DropBreaks(a + b) == DropBreaks(a) + DropBreaks(b)
  {
    if a == [] {
      assert a + b == b;
    } else {
      assert (a + b)[0] == a[0];
      assert (a + b)[1..] == a[1..] + b;
      DropBreaksAppend(a[1..], b);
    }
  }

  lemma {:induction false} DropBreaksNone(s: string)
    requires forall i :: 0 <= i < |s| ==> !IsLineBreak(s[i])
    ensures DropBreaks(s) == s
  {
    if s != [] {
      DropBreaksNone(s[1..]);
    }
  }

  /** Index of the first line boundary, or |s| when there is none. */
  function FirstBreak(s: string): (k: nat)
    ensures k <= |s|
    ensures forall i :: 0 <= i < k ==> !IsLineBreak(s[i])
    ensures k < |s| ==> IsLineBreak(s[k])
  {
    if s == [] || IsLineBreak(s[0]) then 0 else 1 + FirstBreak(s[1..])
  }

  /** Where the line whose terminator is at k ends: after "\r\n" when the
      terminator is that pair, else right after the terminator. */
  function LineEnd(s: string, k: nat): (next: nat)
    requires k < |s|
    ensures k < next <= |s| && next <= k + 2
    ensures next == k + 2 <==> s[k] == '\r' && k + 1 < |s| && s[k + 1] == '\n'
  {
    if s[k] == '\r' && k + 1 < |s| && s[k + 1] == '\n' then k + 2 else k + 1
  }

  /** str.splitlines(): the lines without their terminators; a trailing
      terminator does not open an empty last line, and "\r\n" ends one line. */
  function SplitLines(s: string): (lines: seq<string>)
    ensures forall j, i :: 0 <= j < |lines| && 0 <= i < |lines[j]| ==> !IsLineBreak(lines[j][i])
    decreases |s|
  {
    if s == [] then []
    else
      var k := FirstBreak(s);
      if k == |s| then [s]
      else
        [s[..k]] + SplitLines(s[LineEnd(s, k)..])
  }

  /** Dropping the breaks of a text whose first line ends at k and whose
      terminator ends at next leaves that line and the rest's characters. */
  lemma {:induction false} DropBreaksFirstLine(s: string, k: nat, next: nat)
    requires k < |s| && IsLineBreak(s[k]) && next == LineEnd(s, k)
    requires forall i :: 0 <= i < k ==> !IsLineBreak(s[i])
    ensures DropBreaks(s) == s[..k] + DropBreaks(s[next..])
  {
    var head, mid, tail := s[..k], s[k..next], s[next..];
    assert s == head + (mid + tail);
    DropBreaksAppend(head, mid + tail);
    DropBreaksAppend(mid, tail);
    DropBreaksNone(head);
    if next == k + 2 {
      assert mid[1..] == ['\n'];
      assert DropBreaks(mid[1..]) == DropBreaks([]);
    } else {
      assert mid[1..] == [];
    }
    assert DropBreaks(mid) == [];
  }

  /** The lines of a text, read one after the other, are the text with its
      line boundaries left out: splitting loses and invents no character. */
  lemma {:induction false} SplitLinesKeepsText(s: string)
    ensures Flatten(SplitLines(s)) == DropBreaks(s)
    decreases |s|
  {
    if s != [] {
      var k := FirstBreak(s);
      if k == |s| {
        DropBreaksNone(s);
        assert Flatten([s]) == Flatten<char>([]) + s;
      } else {
        var next := LineEnd(s, k);
        var rest := SplitLines(s[next..]);
        assert SplitLines(s) == [s[..k]] + rest;
        FlattenCons(s[..k], rest);
        SplitLinesKeepsText(s[next..]);
        DropBreaksFirstLine(s, k, next);
      }
    }
  }

  // Where str.splitlines() cuts: each lemma below takes one line off the
  // front of a text, for each kind of line end.

  /** A text without line boundaries is a single line, or no line at all
      when it is empty. */
  lemma SplitLinesSingle(l: string)
    requires forall i :: 0 <= i < |l| ==> !IsLineBreak(l[i])
    ensures SplitLines(l) == (if l == [] then [] else [l])
  {
  }

  /** A line ended by \n, \v, \f or \x1c-\x1e: that line, then the lines
      of the rest. */
  lemma SplitLinesAtBreak(l: string, c: char, rest: string)
    requires forall i :: 0 <= i < |l| ==> !IsLineBreak(l[i])
    requires IsLineBreak(c) && c != '\r'
    ensures SplitLines(l + [c] + rest) == [l] + SplitLines(rest)
  {
    var s := l + [c] + rest;
    assert forall i :: 0 <= i < |l| ==> s[i] == l[i];
    assert s[|l|] == c;
    assert FirstBreak(s) == |l|;
    assert s[..|l|] == l && s[|l| + 1..] == rest;
  }

  /** A line ended by the pair "\r\n": the pair is one boundary. */
  lemma SplitLinesAtCrLf(l: string, rest: string)
    requires forall i :: 0 <= i < |l| ==> !IsLineBreak(l[i])
    ensures SplitLines(l + "\r\n" + rest) == [l] + SplitLines(rest)
  {
    var s := l + "\r\n" + rest;
    assert forall i :: 0 <= i < |l| ==> s[i] == l[i];
    assert s[|l|] == '\r' && s[|l| + 1] == '\n';
    assert FirstBreak(s) == |l|;
    assert s[..|l|] == l && s[|l| + 2..] == rest;
  }

  /** A line ended by a \r that is not followed by \n. */
  lemma SplitLinesAtLoneCr(l: string, rest: string)
    requires forall i :: 0 <= i < |l| ==> !IsLineBreak(l[i])
    requires rest == [] || rest[0] != '\n'
    ensures SplitLines(l + "\r" + rest) == [l] + SplitLines(rest)
  {
    var s := l + "\r" + rest;
    assert forall i :: 0 <= i < |l| ==> s[i] == l[i];
    assert s[|l|] == '\r';
    assert |l| + 1 < |s| ==> s[|l| + 1] == rest[0];
    assert FirstBreak(s) == |l|;
    assert s[..|l|] == l && s[|l| + 1..] == rest;
  }

  function HexDigit(n: int): (c: char)
    requires 0 <= n < 16
    ensures IsLowerHexDigit(c)
  {
    "0123456789abcdef"[n]
  }

  /** bytes.hex(): two lower-case hexadecimal digits per byte, high nibble first. */
  function HexOf(b: seq<byte>): (r: string)
    ensures |r| == 2 * |b|
    ensures forall i :: 0 <= i < |r| ==> IsLowerHexDigit(r[i])
    ensures forall i :: 0 <= i < |b| ==> r[2 * i] == HexDigit(b[i] / 16) && r[2 * i + 1] == HexDigit(b[i] % 16)
  {
    if b == [] then [] else [HexDigit(b[0] / 16), HexDigit(b[0] % 16)] + HexOf(b[1..])
  }
}
