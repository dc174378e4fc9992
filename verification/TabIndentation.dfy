/** What the reader makes of tabs at the beginning of a line. */
module TabIndentation {
  import opened Wrappers
  import opened Texts
  import opened CanonicalYaml
  import opened Tokens
  import opened YamlAppend
  import opened Rendering
  import opened PrintParse

  predicate AllOf(s: string, c: char) {
    forall i :: 0 <= i < |s| ==> s[i] == c
  }

  predicate AllSpace(s: string) {
    forall i :: 0 <= i < |s| ==> IsSpace(s[i])
  }

  lemma FirstApart(s: string, t: string)
    requires s != ""
    ensures s + t == [s[0]] + (s[1..] + t)
  {
  }

  lemma {:induction false} StripSpaces(spaces: string, s: string)
    requires AllSpace(spaces)
    ensures Strip(spaces + s) == Strip(s)
  {
    if spaces == "" {
      assert spaces + s == s;
    } else {
      StripSpaces(spaces[1..], s);
      FirstApart(spaces, s);
      StripSpaceFirst(spaces[0], spaces[1..] + s);
    }
  }

  lemma {:induction false} IndentOfBlanks(blanks: string, s: string)
    requires AllOf(blanks, ' ') && (s != "" ==> s[0] != ' ')
    ensures Indent(blanks + s) == |blanks|
  {
    if blanks == "" {
      assert blanks + s == s;
    } else {
      IndentOfBlanks(blanks[1..], s);
      FirstApart(blanks, s);
      assert [blanks[0]] == " ";
      IndentSpaceFirst(blanks[1..] + s);
    }
  }

  lemma IndentOfTabs(blanks: string, tabs: string, s: string)
    requires AllOf(blanks, ' ') && AllOf(tabs, '\t') && tabs != ""
    ensures Indent(blanks + (tabs + s)) == |blanks|
  {
    assert (tabs + s)[0] == tabs[0];
    IndentOfBlanks(blanks, tabs + s);
  }

  /** Tabs after the leading blanks, or in place of them, end the indentation and vanish with all space after them. */
  lemma TabsVanish(blanks: string, tabs: string, s: string)
    requires AllOf(blanks, ' ') && AllOf(tabs, '\t') && tabs != ""
    ensures LogicalLine(blanks + (tabs + s)) == LogicalLine(blanks + TrimLeft(s))
  {
    StripSpaces(blanks, tabs + s);
    StripSpaces(tabs, s);
    StripSpaces(blanks, TrimLeft(s));
    IndentOfTabs(blanks, tabs, s);
    IndentOfBlanks(blanks, TrimLeft(s));
  }

  // ---------- whole texts ----------

  /** A line without the tabs that end its indentation, and without the space after them. */
  function Untab(line: string): string {
    var n := Indent(line);
    if n < |line| && line[n] == '\t' then line[..n] + TrimLeft(line[n + 1..]) else line
  }

  lemma {:induction false} IndentIsBlank(line: string)
    ensures AllOf(line[..Indent(line)], ' ')
  {
    if line != "" && line[0] == ' ' {
      IndentIsBlank(line[1..]);
      assert line[..Indent(line)] == [line[0]] + line[1..][..Indent(line[1..])];
    }
  }

  lemma SplitAtTab(line: string, n: nat)
    requires n < |line| && line[n] == '\t'
    ensures line == line[..n] + ("\t" + line[n + 1..])
  {
  }

  lemma UntabKeepsLine(line: string)
    ensures LogicalLine(Untab(line)) == LogicalLine(line)
  {
    var n := Indent(line);
    IndentIsBlank(line);
    if n < |line| && line[n] == '\t' {
      SplitAtTab(line, n);
      TabsVanish(line[..n], "\t", line[n + 1..]);
    }
  }

  /** No tab ends the indentation of what is left. */
  lemma UntabbedHasNoTab(line: string)
    ensures var left := Untab(line); Indent(left) < |left| ==> left[Indent(left)] != '\t'
  {
    var n := Indent(line);
    IndentIsBlank(line);
    if n < |line| && line[n] == '\t' {
      IndentOfBlanks(line[..n], TrimLeft(line[n + 1..]));
    }
  }

  lemma {:induction false} TrimLeftIsOneLine(s: string)
    requires OneLine(s)
    ensures OneLine(TrimLeft(s))
  {
    if s != "" && IsSpace(s[0]) {
      TrimLeftIsOneLine(s[1..]);
    }
  }

  lemma OneLinesJoin(s: string, t: string)
    requires OneLine(s) && OneLine(t)
    ensures OneLine(s + t)
  {
  }

  lemma UntabIsOneLine(line: string)
    requires OneLine(line)
    ensures OneLine(Untab(line))
  {
    var n := Indent(line);
    if n < |line| && line[n] == '\t' {
      TrimLeftIsOneLine(line[n + 1..]);
      OneLinesJoin(line[..n], TrimLeft(line[n + 1..]));
    }
  }

  predicate OneLines(lines: seq<string>) {
    forall i :: 0 <= i < |lines| ==> OneLine(lines[i])
  }

  function Joined(lines: seq<string>): string {
    if lines == [] then "" else if |lines| == 1 then lines[0] else lines[0] + ("\n" + Joined(lines[1..]))
  }

  lemma {:induction false} JoinedIsLogical(lines: seq<string>)
    requires OneLines(lines)
    ensures Logical(Joined(lines)) == LogicalLines(lines)
  {
    if lines != [] {
      LogicalOfOneLine(lines[0]);
      if |lines| == 1 {
        assert LogicalLines(lines[1..]) == [];
      } else {
        JoinedIsLogical(lines[1..]);
        LogicalJoins(lines[0], Joined(lines[1..]));
      }
    }
  }

  lemma {:induction false} SplitIntoOneLines(s: string)
    ensures OneLines(SplitLines(s))
    decreases |s|
  {
    if s != "" {
      var n := LineEnd(s);
      LineEndEndsALine(s);
      if n == |s| {
        assert s[..n] == s;
      } else {
        SplitIntoOneLines(s[n + BreakWidth(s, n)..]);
      }
    }
  }

  function UntabAll(lines: seq<string>): (untabbed: seq<string>)
    ensures |untabbed| == |lines|
  {
    if lines == [] then [] else [Untab(lines[0])] + UntabAll(lines[1..])
  }

  lemma {:induction false} UntabAllKeepsLines(lines: seq<string>)
    requires OneLines(lines)
    ensures OneLines(UntabAll(lines)) && LogicalLines(UntabAll(lines)) == LogicalLines(lines)
  {
    if lines != [] {
      UntabKeepsLine(lines[0]);
      UntabIsOneLine(lines[0]);
      UntabAllKeepsLines(lines[1..]);
      assert UntabAll(lines)[1..] == UntabAll(lines[1..]);
    }
  }

  /** Every text means what it means with each of its lines untabbed: no tab at the start of a line fails or indents. */
  lemma TextReadsWithoutTabs(text: string)
    ensures Parse(text) == Parse(Joined(UntabAll(SplitLines(text))))
  {
    SplitIntoOneLines(text);
    UntabAllKeepsLines(SplitLines(text));
    JoinedIsLogical(UntabAll(SplitLines(text)));
  }

  lemma SameLineSameText(before: string, u: string, v: string)
    requires OneLine(u) && OneLine(v) && LogicalLine(u) == LogicalLine(v)
    ensures Parse(before + ("\n" + u)) == Parse(before + ("\n" + v))
  {
    LogicalJoins(before, u);
    LogicalJoins(before, v);
    LogicalOfOneLine(u);
    LogicalOfOneLine(v);
  }

  // ---------- an input ----------

  lemma KeyLineReads(first: Line, k: string, w: string, rest: seq<Line>, seen: set<string>)
    requires first.text == k + ": " + w && IsKey(k) && k !in seen && PrintableInline(Bare(w))
    ensures var more := ParseMap(rest, first.indent, seen + {k});
            ParseMap([first] + rest, first.indent, seen)
            == if more.Err? then more else Ok(Parsed([Field(k, Text(w))] + more.value.value, more.value.rest))
  {
    KeyLineMatches(k, w);
    WrittenIsRead(Bare(w));
    StripTrimmed(w);
    assert ([first] + rest)[1..] == rest;
  }

  lemma TwoKeysRead(first: Line, a: string, x: string, second: Line, b: string, y: string)
    requires first == Line(0, a + ": " + x) && IsKey(a) && PrintableInline(Bare(x))
    requires second == Line(0, b + ": " + y) && IsKey(b) && PrintableInline(Bare(y)) && a != b
    ensures ParseMap([first] + [second], 0, {}) == Ok(Parsed([Field(a, Text(x))] + [Field(b, Text(y))], []))
  {
    KeyLineReads(second, b, y, [], {a});
    LastKeyReads(second, {a} + {b}, b, y);
    assert {} + {a} == {a};
    KeyLineReads(first, a, x, [second], {});
  }

  lemma LastKeyReads(last: Line, seen: set<string>, b: string, y: string)
    ensures [last] + [] == [last] && [Field(b, Text(y))] + [] == [Field(b, Text(y))]
    ensures ParseMap([], 0, seen) == Ok(Parsed([], []))
  {
  }

  lemma {:induction false} FlushKeysAreParsed(ls: seq<Line>, fields: seq<Field>)
    requires ls != [] && ls[0].indent == 0 && !IsDash(ls[0].text) && ParseMap(ls, 0, {}) == Ok(Parsed(fields, []))
    ensures ParseLines(ls) == Ok(Some(Dict(fields)))
  {
    assert ParseDict(ls, 0) == Ok(Parsed(Dict(fields), []));
    assert ParseBlock(ls, 0) == ParseDict(ls, 0);
  }

  lemma KeyLineIsFlush(k: string, w: string)
    requires IsKey(k) && PrintableInline(Bare(w))
    ensures OneLine(k + ": " + w) && (k + ": " + w)[0] != ' ' && (k + ": " + w)[0] != '-'
    ensures LogicalLine(k + ": " + w) == [Line(0, k + ": " + w)]
  {
    KeyIsOneLine(k);
    WrittenIsCompact(Bare(w));
    KeyLineIsCompact(k, w);
    FlushTextIsALine(k + ": " + w);
  }

  lemma TabbedKeyLine(tabs: string, s: string)
    requires AllOf(tabs, '\t') && TrimLeft(s) == s
    ensures LogicalLine("" + (tabs + s)) == LogicalLine("" + s)
  {
    if tabs == "" {
      assert tabs + s == s;
    } else {
      TabsVanish("", tabs, s);
    }
  }

  /** A key on a line indented by tabs is read as a flush key of the mapping before it. */
  lemma TabIndentedLineIsFlush(a: string, x: string, tabs: string, b: string, y: string)
    requires IsKey(a) && PrintableInline(Bare(x)) && IsKey(b) && PrintableInline(Bare(y)) && a != b
    requires AllOf(tabs, '\t')
    ensures Parse((a + ": " + x) + ("\n" + ("" + (tabs + (b + ": " + y)))))
         == Ok(Some(Dict([Field(a, Text(x))] + [Field(b, Text(y))])))
  {
    var u, v := a + ": " + x, b + ": " + y;
    KeyLineIsFlush(a, x);
    KeyLineIsFlush(b, y);
    TabbedKeyLine(tabs, v);
    SameLineSameText(u, "" + (tabs + v), "" + v);
    FlushLinesAreKept(u, v);
    TwoKeysRead(Line(0, u), a, x, Line(0, v), b, y);
    FlushKeysAreParsed([Line(0, u)] + [Line(0, v)], [Field(a, Text(x))] + [Field(b, Text(y))]);
  }

  lemma FlushLinesAreKept(u: string, v: string)
    requires OneLine(u) && OneLine(v) && LogicalLine(u) == [Line(0, u)] && LogicalLine(v) == [Line(0, v)]
    ensures Logical(u + ("\n" + ("" + v))) == [Line(0, u)] + [Line(0, v)]
  {
    assert "" + v == v;
    LogicalJoins(u, v);
    LogicalOfOneLine(u);
    LogicalOfOneLine(v);
  }
}
