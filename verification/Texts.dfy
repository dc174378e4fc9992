/** Lines and whitespace as the ledger reader sees them. */
module Texts {
  /** Where a text is split into lines; a carriage return followed by a line feed splits once. */
  predicate IsBreak(c: char) {
    || c == '\n' || c == '\r' || c == '\U{0B}' || c == '\U{0C}'
    || '\U{1C}' <= c <= '\U{1E}' || c == '\U{85}' || c == '\U{2028}' || c == '\U{2029}'
  }

  /** What stripping removes at both ends. */
  predicate IsSpace(c: char) {
    || '\U{09}' <= c <= '\U{0D}' || '\U{1C}' <= c <= '\U{20}' || c == '\U{85}' || c == '\U{A0}' || c == '\U{1680}'
    || '\U{2000}' <= c <= '\U{200A}' || c == '\U{2028}' || c == '\U{2029}' || c == '\U{202F}' || c == '\U{205F}'
    || c == '\U{3000}'
  }

  predicate OneLine(s: string) {
    forall i :: 0 <= i < |s| ==> !IsBreak(s[i])
  }

  predicate Trimmed(s: string) {
    s != "" ==> !IsSpace(s[0]) && !IsSpace(s[|s| - 1])
  }

  function TrimLeft(s: string): (t: string)
    ensures |t| <= |s|
    ensures t != "" ==> !IsSpace(t[0]) && t[|t| - 1] == s[|s| - 1]
  {
    if s != "" && IsSpace(s[0]) then TrimLeft(s[1..]) else s
  }

  function TrimRight(s: string): (t: string)
    ensures |t| <= |s|
    ensures t != "" ==> !IsSpace(t[|t| - 1]) && t[0] == s[0]
  {
    if s != "" && IsSpace(s[|s| - 1]) then TrimRight(s[..|s| - 1]) else s
  }

  function Strip(s: string): (t: string)
    ensures |t| <= |s| && Trimmed(t)
  {
    TrimRight(TrimLeft(s))
  }

  lemma StripTrimmed(s: string)
    requires Trimmed(s)
    ensures Strip(s) == s
  {
  }

  lemma StripSpaceFirst(c: char, s: string)
    requires IsSpace(c)
    ensures Strip([c] + s) == Strip(s)
  {
    assert ([c] + s)[1..] == s;
  }

  /** The number of leading blanks. */
  function Indent(s: string): (n: nat)
    ensures n <= |s|
  {
    if s != "" && s[0] == ' ' then 1 + Indent(s[1..]) else 0
  }

  lemma IndentSpaceFirst(s: string)
    ensures Indent(" " + s) == 1 + Indent(s)
  {
    assert (" " + s)[1..] == s;
  }

  // ---------- lines ----------

  function LineEnd(s: string): (n: nat)
    ensures n <= |s|
  {
    if s == "" || IsBreak(s[0]) then 0 else 1 + LineEnd(s[1..])
  }

  lemma {:induction false} LineEndEndsALine(s: string)
    ensures var n := LineEnd(s); OneLine(s[..n]) && (n < |s| ==> IsBreak(s[n]))
  {
    if s != "" && !IsBreak(s[0]) {
      LineEndEndsALine(s[1..]);
      var n := LineEnd(s);
      assert s[..n] == [s[0]] + s[1..][..n - 1];
    }
  }

  function BreakWidth(s: string, n: nat): (w: nat)
    requires n < |s|
    ensures 0 < w && n + w <= |s|
  {
    if s[n] == '\r' && n + 1 < |s| && s[n + 1] == '\n' then 2 else 1
  }

  function SplitLines(s: string): seq<string>
    decreases |s|
  {
    if s == "" then []
    else
      var n := LineEnd(s);
      if n == |s| then [s] else [s[..n]] + SplitLines(s[n + BreakWidth(s, n)..])
  }

  lemma {:induction false} LineEndIsFirstBreak(s: string, n: nat)
    requires n <= |s| && OneLine(s[..n]) && (n < |s| ==> IsBreak(s[n]))
    ensures LineEnd(s) == n
    decreases |s|
  {
    if n > 0 {
      assert s[0] == s[..n][0];
      assert s[1..][..n - 1] == s[..n][1..];
      LineEndIsFirstBreak(s[1..], n - 1);
    }
  }

  lemma LineEndAppends(s: string, t: string)
    ensures LineEnd(s) < |s| ==> LineEnd(s + t) == LineEnd(s)
    ensures LineEnd(s) == |s| && t != "" && IsBreak(t[0]) ==> LineEnd(s + t) == |s|
  {
    var n := LineEnd(s);
    LineEndEndsALine(s);
    assert (s + t)[..n] == s[..n];
    if n < |s| || (t != "" && IsBreak(t[0])) {
      LineEndIsFirstBreak(s + t, n);
    }
  }
}
