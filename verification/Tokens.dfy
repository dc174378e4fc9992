/** How one string is written into a ledger, and that it is read back. */
module Tokens {
  import opened Wrappers
  import opened Texts
  import opened CanonicalYaml

  // ---------- the quoter ----------

  function Replace(s: string, c: char, with: string): string {
    if s == "" then "" else (if s[0] == c then with else [s[0]]) + Replace(s[1..], c, with)
  }

  function Cleaned(s: string): string {
    Replace(Replace(Replace(s, '\r', " "), '\n', " "), '\t', " ")
  }

  function Escaped(s: string): string {
    Replace(Replace(s, '\\', "\\\\"), '"', "\\\"")
  }

  function Quote(s: string): string {
    "\"" + Escaped(Cleaned(s)) + "\""
  }

  lemma {:induction false} ReplaceAppends(s: string, t: string, c: char, with: string)
    ensures Replace(s + t, c, with) == Replace(s, c, with) + Replace(t, c, with)
  {
    if s == "" {
      assert s + t == t;
    } else {
      assert (s + t)[1..] == s[1..] + t;
      ReplaceAppends(s[1..], t, c, with);
    }
  }

  /** The blanking substitutions act on each character by itself. */
  function CleanedChar(c: char): char {
    if c == '\r' || c == '\n' || c == '\t' then ' ' else c
  }

  lemma {:induction false} BlankChar(s: string, c: char, i: nat)
    requires i < |s|
    ensures |Replace(s, c, " ")| == |s| && Replace(s, c, " ")[i] == if s[i] == c then ' ' else s[i]
  {
    if |s| > 1 {
      BlankChar(s[1..], c, if i > 0 then i - 1 else 0);
    }
  }

  lemma CleanedIsPointwise(s: string, i: nat)
    requires i < |s|
    ensures |Cleaned(s)| == |s| && Cleaned(s)[i] == CleanedChar(s[i])
  {
    var r := Replace(s, '\r', " ");
    BlankChar(s, '\r', i);
    BlankChar(r, '\n', i);
    BlankChar(Replace(r, '\n', " "), '\t', i);
  }

  lemma EscapedFirst(s: string)
    requires s != ""
    ensures Escaped(s) == (if s[0] == '\\' || s[0] == '"' then ['\\', s[0]] else [s[0]]) + Escaped(s[1..])
  {
    var head := if s[0] == '\\' then "\\\\" else [s[0]];
    var tail := Replace(s[1..], '\\', "\\\\");
    ReplaceAppends(head, tail, '"', "\\\"");
    if s[0] == '\\' {
      assert head[1..] == "\\" && head[1..][1..] == "";
      assert Replace("\\", '"', "\\\"") == "\\" + Replace("", '"', "\\\"");
    } else {
      assert head[1..] == "";
    }
  }

  /** Quoting and reading back is the identity on every string. */
  lemma {:induction false} UnquoteEscaped(s: string)
    ensures Unquote(Escaped(s) + "\"") == Ok(s)
  {
    if s == "" {
      assert Escaped(s) + "\"" == "\"";
    } else {
      EscapedFirst(s);
      UnquoteEscaped(s[1..]);
      var rest := Escaped(s[1..]) + "\"";
      var all := Escaped(s) + "\"";
      assert [s[0]] + s[1..] == s;
      if s[0] == '\\' || s[0] == '"' {
        assert all == ['\\', s[0]] + rest;
        assert all[2..] == rest;
      } else {
        assert all == [s[0]] + rest;
        assert all[1..] == rest;
      }
    }
  }

  // ---------- bare scalars ----------

  lemma {:induction false} UnquoteShortens(body: string)
    ensures Unquote(body).Ok? ==> |Unquote(body).value| < |body|
  {
    if body != "" && body[0] == '\\' && |body| >= 2 {
      UnquoteShortens(body[2..]);
    } else if body != "" && body[0] != '"' {
      UnquoteShortens(body[1..]);
    }
  }

  /** Exactly the strings that a bare scalar reads back as themselves. */
  lemma BareReadsItselfExactlyWhen(s: string)
    ensures Scalar(s) == Ok(s) <==> Trimmed(s) && !Reserved(s) && (s != "" ==> s[0] != '"')
  {
    var t := Strip(s);
    if Trimmed(s) {
      StripTrimmed(s);
    }
    if t != "" && t[0] == '"' {
      UnquoteShortens(t[1..]);
    }
  }

  // ---------- tokens ----------

  datatype Token = Bare(text: string) | Quoted(text: string)

  function Written(t: Token): string {
    match t
    case Bare(text) => text
    case Quoted(text) => Quote(text)
  }

  function Meaning(t: Token): string {
    match t
    case Bare(text) => text
    case Quoted(text) => Cleaned(text)
  }

  /** Bare text avoids the reserved shapes; quoted text has no line separator the quoter does not blank. */
  predicate Printable(t: Token) {
    match t
    case Bare(text) => text != "" && OneLine(text) && Trimmed(text) && !Reserved(text) && text[0] != '"'
    case Quoted(text) => forall i :: 0 <= i < |text| ==> !IsBreak(CleanedChar(text[i]))
  }

  /** One token on a line: nothing at its ends is stripped and nothing in it breaks the line. */
  predicate Compact(s: string) {
    s != "" && Trimmed(s) && OneLine(s)
  }

  lemma {:induction false} EscapedStaysOnLine(s: string)
    requires OneLine(s)
    ensures OneLine(Escaped(s))
  {
    if s != "" {
      EscapedFirst(s);
      assert forall i :: 0 <= i < |s[1..]| ==> s[1..][i] == s[i + 1];
      EscapedStaysOnLine(s[1..]);
    }
  }

  lemma CleanedStaysOnLine(text: string)
    requires Printable(Quoted(text))
    ensures OneLine(Cleaned(text))
  {
    if text != "" {
      CleanedIsPointwise(text, 0);
      forall i | 0 <= i < |text| ensures !IsBreak(Cleaned(text)[i]) {
        CleanedIsPointwise(text, i);
      }
    }
  }

  lemma BareMatchesNoKey(s: string)
    requires !Reserved(s)
    ensures MatchKey(s).None?
  {
  }

  lemma WrittenIsCompact(t: Token)
    requires Printable(t)
    ensures Compact(Written(t)) && MatchKey(Written(t)).None?
  {
    if t.Bare? {
      BareMatchesNoKey(t.text);
    } else {
      CleanedStaysOnLine(t.text);
      EscapedStaysOnLine(Cleaned(t.text));
    }
  }

  lemma WrittenIsRead(t: Token)
    requires Printable(t)
    ensures Scalar(Written(t)) == Ok(Meaning(t))
  {
    WrittenIsCompact(t);
    StripTrimmed(Written(t));
    if t.Quoted? {
      UnquoteEscaped(Cleaned(t.text));
      assert Written(t)[1..] == Escaped(Cleaned(t.text)) + "\"";
    }
  }
}
