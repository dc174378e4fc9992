/** Appending one ledger text to another appends the lists they parse to. */
module YamlAppend {
  import opened Wrappers
  import opened Texts
  import opened CanonicalYaml

  // ---------- texts ----------

  lemma {:induction false} LogicalLinesAppend(a: seq<string>, b: seq<string>)
    ensures LogicalLines(a + b) == LogicalLines(a) + LogicalLines(b)
  {
    if a == [] {
      assert a + b == b;
    } else {
      assert (a + b)[1..] == a[1..] + b;
      LogicalLinesAppend(a[1..], b);
    }
  }

  lemma LogicalAtBreak(s: string, n: nat, width: nat)
    requires n < |s| && LineEnd(s) == n && width == BreakWidth(s, n)
    ensures Logical(s) == LogicalLine(s[..n]) + Logical(s[n + width..])
  {
    LogicalLinesAppend([s[..n]], SplitLines(s[n + width..]));
    assert [s[..n]][1..] == [];
  }

  lemma LogicalOfOneLine(s: string)
    requires OneLine(s)
    ensures Logical(s) == LogicalLine(s)
  {
    if s != "" {
      LineEndIsFirstBreak(s, |s|);
      assert SplitLines(s) == [s];
      assert LogicalLines([s]) == LogicalLine(s) + LogicalLines([]) by { assert [s][1..] == []; }
    }
  }

  lemma CutJoined(s: string, between: string, t: string, n: nat, width: nat)
    requires n < |s| && n + width <= |s| + |between|
    ensures var joined := s + (between + t);
            && joined[..n] == s[..n] && joined[n] == s[n]
            && (n + 1 < |s| ==> joined[n + 1] == s[n + 1])
            && (n + 1 == |s| && between != "" ==> joined[n + 1] == between[0])
            && (n + width == |s| + |between| ==> joined[n + width..] == t)
            && (between == "" ==> joined == s + t && joined[n + width..] == s[n + width..] + t)
  {
    assert between == "" ==> between + t == t;
  }

  lemma Reassociate<T>(a: seq<T>, b: seq<T>, c: seq<T>)
    ensures a + (b + c) == a + b + c
  {
  }

  lemma JoinAfterOneLine(s: string, t: string)
    requires OneLine(s)
    ensures Logical(s + ("\n" + t)) == LogicalLine(s) + Logical(t)
  {
    var joined := s + ("\n" + t);
    assert joined[..|s|] == s && joined[|s| + 1..] == t;
    LineEndIsFirstBreak(joined, |s|);
    LogicalAtBreak(joined, |s|, 1);
  }

  lemma LogicalEndingInReturn(s: string)
    requires s != "" && s[|s| - 1] == '\r' && LineEnd(s) == |s| - 1
    ensures Logical(s) == LogicalLine(s[..|s| - 1])
  {
    LogicalAtBreak(s, |s| - 1, 1);
    assert s[|s|..] == "" && Logical("") == [];
  }

  predicate FeedAfterReturn(joined: string, n: nat, head: string, t: string) {
    && n + 2 <= |joined| && LineEnd(joined) == n && joined[n] == '\r' && joined[n + 1] == '\n'
    && joined[..n] == head && joined[n + 2..] == t
  }

  lemma JoinCuts(s: string, t: string)
    requires s != "" && s[|s| - 1] == '\r' && LineEnd(s) == |s| - 1
    ensures FeedAfterReturn(s + ("\n" + t), |s| - 1, s[..|s| - 1], t)
  {
    LineEndAppends(s, "\n" + t);
    CutJoined(s, "\n", t, |s| - 1, 2);
  }

  lemma JoinAfterReturn(joined: string, n: nat, head: string, t: string)
    requires FeedAfterReturn(joined, n, head, t)
    ensures Logical(joined) == LogicalLine(head) + Logical(t)
  {
    LogicalAtBreak(joined, n, 2);
  }

  /** Joining two texts by a line feed joins their logical lines, however the first one ends. */
  lemma {:induction false} LogicalJoins(s: string, t: string)
    ensures Logical(s + ("\n" + t)) == Logical(s) + Logical(t)
    decreases |s|
  {
    var n := LineEnd(s);
    if n == |s| {
      LineEndEndsALine(s);
      assert s[..n] == s;
      LogicalOfOneLine(s);
      JoinAfterOneLine(s, t);
    } else if s[n] == '\r' && n + 1 == |s| {
      LogicalEndingInReturn(s);
      JoinCuts(s, t);
      JoinAfterReturn(s + ("\n" + t), n, s[..n], t);
    } else {
      var width := if s[n] == '\r' && s[n + 1] == '\n' then 2 else 1;
      LogicalJoins(s[n + width..], t);
      JoinAfterBreak(s, n, width, t);
    }
  }

  lemma JoinAfterBreak(s: string, n: nat, width: nat, t: string)
    requires n < |s| && LineEnd(s) == n && (s[n] == '\r' ==> n + 1 < |s|)
    requires width == if s[n] == '\r' && s[n + 1] == '\n' then 2 else 1
    requires Logical(s[n + width..] + ("\n" + t)) == Logical(s[n + width..]) + Logical(t)
    ensures Logical(s + ("\n" + t)) == Logical(s) + Logical(t)
  {
    LogicalAtBreak(s, n, width);
    LineEndAppends(s, "\n" + t);
    CutJoined(s, "", "\n" + t, n, width);
    LogicalAtBreak(s + ("\n" + t), n, width);
    Reassociate(LogicalLine(s[..n]), Logical(s[n + width..]), Logical(t));
  }

  // ---------- lines ----------

  predicate Flush(tail: seq<Line>) {
    tail != [] ==> tail[0].indent == 0
  }

  function Longer<T>(r: Result<Parsed<T>, YamlError>, tail: seq<Line>): Result<Parsed<T>, YamlError> {
    if r.Ok? then Ok(Parsed(r.value.value, r.value.rest + tail)) else r
  }

  /** A nested block never looks past a line that is flush. */
  lemma {:induction false} BlockStops(ls: seq<Line>, indent: nat, tail: seq<Line>)
    requires ls != [] && indent > 0 && Flush(tail)
    ensures ParseBlock(ls + tail, indent) == Longer(ParseBlock(ls, indent), tail)
    decreases Size(ls), 3
  {
    if IsDash(ls[0].text) {
      SeqStops(ls, indent, tail);
    } else {
      DictStops(ls, indent, tail);
    }
  }

  lemma {:induction false} DictStops(ls: seq<Line>, indent: nat, tail: seq<Line>)
    requires indent > 0 && Flush(tail)
    ensures ParseDict(ls + tail, indent) == Longer(ParseDict(ls, indent), tail)
    decreases Size(ls), 2
  {
    MapStops(ls, indent, {}, tail);
  }

  lemma {:induction false} ItemStops(ls: seq<Line>, indent: nat, tail: seq<Line>)
    requires ls != [] && IsDash(ls[0].text) && Flush(tail)
    ensures ParseItem(ls + tail, indent) == Longer(ParseItem(ls, indent), tail)
    decreases Size(ls), 0
  {
    var rest := Strip(ls[0].text[1..]);
    DropFirst(ls, tail);
    if rest == "" {
      if |ls| > 1 && ls[1].indent > indent {
        BlockStops(ls[1..], ls[1].indent, tail);
      }
    } else if MatchKey(rest).Some? {
      var merged := [Line(indent + 2, rest)] + ls[1..];
      DropFirst(merged, tail);
      Reassociate([Line(indent + 2, rest)], ls[1..], tail);
      assert merged[1..] == ls[1..];
      DictStops(merged, indent + 2, tail);
    }
  }

  lemma DropFirst<T>(ls: seq<T>, tail: seq<T>)
    requires ls != []
    ensures (ls + tail)[0] == ls[0] && (ls + tail)[1..] == ls[1..] + tail
    ensures |ls| > 1 ==> (ls + tail)[1] == ls[1]
  {
  }

  lemma {:induction false} SeqStops(ls: seq<Line>, indent: nat, tail: seq<Line>)
    requires indent > 0 && Flush(tail)
    ensures ParseSeq(ls + tail, indent) == Longer(ParseSeq(ls, indent), tail)
    decreases Size(ls), 1
  {
    if ls == [] {
      assert ls + tail == tail;
    } else if ls[0].indent == indent && IsDash(ls[0].text) {
      ItemStops(ls, indent, tail);
      var item := ParseItem(ls, indent);
      if item.Ok? {
        SeqStops(item.value.rest, indent, tail);
      }
    }
  }

  lemma {:induction false} ValueStops(ls: seq<Line>, indent: nat, inline: Option<string>, tail: seq<Line>)
    requires ls != [] && Flush(tail)
    ensures ParseValue(ls + tail, indent, inline) == Longer(ParseValue(ls, indent, inline), tail)
    decreases Size(ls), 0
  {
    assert (ls + tail)[1..] == ls[1..] + tail;
    if inline.None? || Strip(inline.value) == "" {
      if |ls| > 1 && ls[1].indent > indent {
        BlockStops(ls[1..], ls[1].indent, tail);
      }
    }
  }

  lemma {:induction false} MapStops(ls: seq<Line>, indent: nat, seen: set<string>, tail: seq<Line>)
    requires indent > 0 && Flush(tail)
    ensures ParseMap(ls + tail, indent, seen) == Longer(ParseMap(ls, indent, seen), tail)
    decreases Size(ls), 1
  {
    if ls == [] {
      assert ls + tail == tail;
    } else if ls[0].indent == indent && MatchKey(ls[0].text).Some? {
      var m := MatchKey(ls[0].text).value;
      ValueStops(ls, indent, m.rest, tail);
      var v := ParseValue(ls, indent, m.rest);
      if v.Ok? && m.key !in seen {
        MapStops(v.value.rest, indent, seen + {m.key}, tail);
      }
    }
  }

  /** At top level the items of the second text follow those of the first. */
  lemma {:induction false} SeqContinues(ls: seq<Line>, tail: seq<Line>)
    requires Flush(tail) && ParseSeq(ls, 0).Ok? && ParseSeq(ls, 0).value.rest == []
    ensures var more := ParseSeq(tail, 0);
            ParseSeq(ls + tail, 0)
            == if more.Ok? then Ok(Parsed(ParseSeq(ls, 0).value.value + more.value.value, more.value.rest)) else more
    decreases Size(ls)
  {
    if ls == [] {
      assert ls + tail == tail;
      assert ParseSeq(tail, 0).Ok? ==> [] + ParseSeq(tail, 0).value.value == ParseSeq(tail, 0).value.value;
    } else {
      ItemStops(ls, 0, tail);
      var item := ParseItem(ls, 0).value;
      SeqContinues(item.rest, tail);
      var more := ParseSeq(tail, 0);
      if more.Ok? {
        Reassociate([item.value], ParseSeq(item.rest, 0).value.value, more.value.value);
      }
    }
  }

  // ---------- the theorem ----------

  ghost predicate ParsesToList(text: string, items: seq<Yaml>) {
    Parse(text) == Ok(Some(List(items)))
  }

  lemma ListMeansSeq(ls: seq<Line>, items: seq<Yaml>)
    requires ParseLines(ls) == Ok(Some(List(items)))
    ensures ls != [] && ls[0].indent == 0 && IsDash(ls[0].text)
    ensures ParseSeq(ls, 0) == Ok(Parsed(items, []))
  {
    assert ParseDict(ls, 0).Ok? ==> ParseDict(ls, 0).value.value.Dict?;
  }

  /** Texts that parse to lists, joined by a line feed, parse to the two lists joined. */
  lemma AppendingTextsAppendsLists(s: string, t: string, a: seq<Yaml>, b: seq<Yaml>)
    requires ParsesToList(s, a) && ParsesToList(t, b)
    ensures ParsesToList(s + ("\n" + t), a + b)
  {
    LogicalJoins(s, t);
    var ls, tail := Logical(s), Logical(t);
    ListMeansSeq(ls, a);
    ListMeansSeq(tail, b);
    SeqContinues(ls, tail);
    assert (ls + tail)[0] == ls[0];
  }
}
