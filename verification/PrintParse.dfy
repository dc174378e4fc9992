/** Print, then parse: the identity on printable records. */
module PrintParse {
  import opened Wrappers
  import opened Texts
  import opened CanonicalYaml
  import opened Tokens
  import opened YamlAppend
  import opened Rendering

  // ---------- printed lines become logical lines ----------

  /** Every line stays one line, and together they are these logical lines. */
  ghost predicate Shows(lines: seq<string>, ls: seq<Line>) {
    LogicalLines(lines) == ls && forall i :: 0 <= i < |lines| ==> OneLine(lines[i])
  }

  lemma ShowsAppend(a: seq<string>, x: seq<Line>, b: seq<string>, y: seq<Line>)
    requires Shows(a, x) && Shows(b, y)
    ensures Shows(a + b, x + y)
  {
    LogicalLinesAppend(a, b);
  }

  lemma ShowsOne(raw: string, ls: seq<Line>)
    requires OneLine(raw) && LogicalLine(raw) == ls
    ensures Shows([raw], ls)
  {
    assert [raw][1..] == [];
    assert LogicalLines([raw]) == LogicalLine(raw) + LogicalLines([]);
    assert ls + [] == ls;
  }

  lemma ShowsIndented(n: nat, blanks: string, s: string)
    requires |blanks| == n && (forall i :: 0 <= i < n ==> blanks[i] == ' ') && Compact(s) && s[0] != '#'
    ensures Shows([blanks + s], [Line(n, s)])
  {
    IndentedLine(n, blanks, s);
    ShowsOne(blanks + s, [Line(n, s)]);
  }

  lemma ShowsItem(t: Token)
    requires Printable(t)
    ensures Shows(["    - " + Written(t)], [Line(4, "- " + Written(t))])
  {
    WrittenIsCompact(t);
    PairIsCompact("- ", Written(t));
    ShowsIndented(4, "    ", "- " + Written(t));
    assert "    " + ("- " + Written(t)) == "    - " + Written(t);
  }

  lemma {:induction false} ShowsItems(ts: seq<Token>)
    requires forall i :: 0 <= i < |ts| ==> Printable(ts[i])
    ensures Shows(ItemLines(ts), ItemLogical(ts))
  {
    if ts != [] {
      ShowsItem(ts[0]);
      ShowsItems(ts[1..]);
      ShowsAppend(["    - " + Written(ts[0])], [Line(4, "- " + Written(ts[0]))], ItemLines(ts[1..]), ItemLogical(ts[1..]));
    }
  }

  lemma ShowsAttribute(a: Attribute)
    requires IsKey(a.name) && PrintableValue(a.value)
    ensures Shows(AttributeLines(a), AttributeLogical(a))
  {
    KeyIsOneLine(a.name);
    match a.value
    case One(t) =>
      WrittenIsCompact(t);
      KeyLineIsCompact(a.name, Written(t));
      ShowsIndented(2, "  ", a.name + ": " + Written(t));
    case Many(ts) =>
      KeyLineIsCompact(a.name, "[]");
      if ts == [] {
        ShowsIndented(2, "  ", a.name + ": []");
        assert a.name + ": " + "[]" == a.name + ": []";
      } else {
        ShowsIndented(2, "  ", a.name + ":");
        ShowsItems(ts);
        ShowsAppend(["  " + (a.name + ":")], [Line(2, a.name + ":")], ItemLines(ts), ItemLogical(ts));
      }
  }

  lemma {:induction false} ShowsAttributes(attributes: seq<Attribute>, seen: set<string>)
    requires PrintableAttributes(attributes, seen)
    ensures Shows(AttributesLines(attributes), AttributesLogical(attributes))
    decreases |attributes|
  {
    if attributes != [] {
      var a, rest := attributes[0], attributes[1..];
      ShowsAttribute(a);
      ShowsAttributes(rest, seen + {a.name});
      ShowsAppend(AttributeLines(a), AttributeLogical(a), AttributesLines(rest), AttributesLogical(rest));
    }
  }

  lemma ShowsRecord(r: Record)
    requires PrintableRecord(r)
    ensures Shows(RecordLines(r), RecordLogical(r))
  {
    WrittenIsCompact(r.id);
    KeyLineIsCompact(r.idName, Written(r.id));
    var head := "- " + (r.idName + ": " + Written(r.id));
    PairIsCompact("- ", r.idName + ": " + Written(r.id));
    ShowsIndented(0, "", head);
    assert "" + head == head;
    ShowsAttributes(r.attributes, {r.idName});
    ShowsAppend([head], [Line(0, head)], AttributesLines(r.attributes), AttributesLogical(r.attributes));
  }

  lemma {:induction false} ShowsRecords(records: seq<Record>, spaced: bool)
    requires forall i :: 0 <= i < |records| ==> PrintableRecord(records[i])
    ensures Shows(RecordsLines(records, spaced), RecordsLogical(records))
    decreases |records|
  {
    if records != [] {
      var r, rest := records[0], records[1..];
      ShowsRecord(r);
      if |records| == 1 {
        assert rest == [] && RecordLogical(r) + [] == RecordLogical(r);
      } else {
        ShowsRecords(rest, spaced);
        var gap := if spaced then [""] else [];
        if spaced {
          ShowsOne("", []);
        }
        ShowsAppend(RecordLines(r), RecordLogical(r), gap, []);
        assert RecordLogical(r) + [] == RecordLogical(r);
        ShowsAppend(RecordLines(r) + gap, RecordLogical(r), RecordsLines(rest, spaced), RecordsLogical(rest));
      }
    }
  }

  lemma {:induction false} LogicalOfUnlines(lines: seq<string>)
    requires forall i :: 0 <= i < |lines| ==> OneLine(lines[i])
    ensures Logical(Unlines(lines)) == LogicalLines(lines)
  {
    if lines != [] {
      LogicalOfUnlines(lines[1..]);
      LogicalJoins(lines[0], Unlines(lines[1..]));
      LogicalOfOneLine(lines[0]);
    }
  }

  // ---------- logical lines become values ----------

  lemma {:induction false} KeyTailOfName(name: string, rest: string)
    requires forall i :: 0 <= i < |name| ==> IsKeyChar(name[i])
    requires rest != "" && !IsKeyChar(rest[0])
    ensures KeyTail(name + rest) == |name|
  {
    if name == "" {
      assert name + rest == rest;
    } else {
      assert (name + rest)[1..] == name[1..] + rest;
      KeyTailOfName(name[1..], rest);
    }
  }

  lemma KeyLineMatches(name: string, s: string)
    requires IsKey(name)
    ensures MatchKey(name + ": " + s) == Some(KeyMatch(name, Some(s)))
    ensures MatchKey(name + ":") == Some(KeyMatch(name, None))
  {
    KeyTailOfName(name[1..], ": " + s);
    KeyTailOfName(name[1..], ":");
    var inline, block := name + ": " + s, name + ":";
    assert inline[1..] == name[1..] + (": " + s) && block[1..] == name[1..] + ":";
    assert inline[..|name|] == name && inline[|name| + 2..] == s && block[..|name|] == name;
  }

  lemma DashStrips(text: string, w: string)
    requires text == "- " + w && w != "" && Trimmed(w)
    ensures IsDash(text) && Strip(text[1..]) == w
  {
    assert text[1..] == [' '] + w;
    StripSpaceFirst(' ', w);
    StripTrimmed(w);
  }

  /** A scalar on a dash line. */
  lemma DashReads(first: Line, w: string, v: string, tail: seq<Line>)
    requires first.text == "- " + w && w != "" && Trimmed(w) && MatchKey(w).None? && Scalar(w) == Ok(v)
    ensures IsDash(first.text)
    ensures ParseItem([first] + tail, first.indent) == Ok(Parsed(Text(v), tail))
  {
    DashStrips(first.text, w);
    assert ([first] + tail)[1..] == tail;
  }

  lemma SeqStep(first: Line, rest: seq<Line>, v: Yaml, vs: seq<Yaml>, tail: seq<Line>)
    requires IsDash(first.text) && ParseItem([first] + rest, first.indent) == Ok(Parsed(v, rest))
    requires ParseSeq(rest, first.indent) == Ok(Parsed(vs, tail))
    ensures ParseSeq([first] + rest, first.indent) == Ok(Parsed([v] + vs, tail))
  {
  }

  lemma NestedReads(ls: seq<Line>, indent: nat, vs: seq<Yaml>, tail: seq<Line>)
    requires |ls| > 1 && ls[1].indent > indent && IsDash(ls[1].text)
    requires ParseSeq(ls[1..], ls[1].indent) == Ok(Parsed(vs, tail))
    ensures ParseValue(ls, indent, None) == Ok(Parsed(List(vs), tail))
  {
  }

  /** What follows a list of items or an attribute: nothing, or a line further out. */
  predicate Outside(tail: seq<Line>, indent: nat) {
    tail != [] ==> tail[0].indent < indent
  }

  lemma {:induction false} ItemsRead(ts: seq<Token>, tail: seq<Line>)
    requires (forall i :: 0 <= i < |ts| ==> Printable(ts[i])) && Outside(tail, 4)
    ensures ParseSeq(ItemLogical(ts) + tail, 4) == Ok(Parsed(TextsOf(ts), tail))
    ensures ts != [] ==> ItemLogical(ts)[0].indent == 4 && IsDash(ItemLogical(ts)[0].text)
  {
    if ts == [] {
      assert ItemLogical(ts) + tail == tail;
    } else {
      ItemsRead(ts[1..], tail);
      FirstItemReads(ts[0], Written(ts[0]), ItemLogical(ts[1..]) + tail, TextsOf(ts[1..]), tail);
      Reassociate([Line(4, "- " + Written(ts[0]))], ItemLogical(ts[1..]), tail);
    }
  }

  lemma FirstItemReads(t: Token, w: string, rest: seq<Line>, vs: seq<Yaml>, tail: seq<Line>)
    requires Printable(t) && w == Written(t) && ParseSeq(rest, 4) == Ok(Parsed(vs, tail))
    ensures IsDash("- " + w)
    ensures ParseSeq([Line(4, "- " + w)] + rest, 4) == Ok(Parsed([Text(Meaning(t))] + vs, tail))
  {
    WrittenIsCompact(t);
    WrittenIsRead(t);
    var first := Line(4, "- " + w);
    DashReads(first, w, Meaning(t), rest);
    SeqStep(first, rest, Text(Meaning(t)), vs, tail);
  }

  lemma InlineReads(name: string, t: Token, tail: seq<Line>)
    requires IsKey(name) && PrintableInline(t)
    ensures ParseValue([Line(2, name + ": " + Written(t))] + tail, 2, Some(Written(t))) == Ok(Parsed(Text(Meaning(t)), tail))
  {
    WrittenIsCompact(t);
    WrittenIsRead(t);
    StripTrimmed(Written(t));
    assert ([Line(2, name + ": " + Written(t))] + tail)[1..] == tail;
  }

  lemma ListReads(first: Line, ts: seq<Token>, tail: seq<Line>)
    requires first.indent == 2 && ts != [] && (forall i :: 0 <= i < |ts| ==> Printable(ts[i])) && Outside(tail, 4)
    ensures ParseValue([first] + ItemLogical(ts) + tail, 2, None) == Ok(Parsed(List(TextsOf(ts)), tail))
  {
    var items := ItemLogical(ts) + tail;
    ItemsRead(ts, tail);
    Reassociate([first], ItemLogical(ts), tail);
    DropFirst([first], items);
    NestedReads([first] + items, 2, TextsOf(ts), tail);
  }

  lemma EmptyListReads(name: string, tail: seq<Line>)
    ensures ParseValue([Line(2, name + ": []")] + tail, 2, Some("[]")) == Ok(Parsed(List([]), tail))
  {
    assert ([Line(2, name + ": []")] + tail)[1..] == tail;
    StripTrimmed("[]");
  }

  /** One attribute, then the rest of the mapping. */
  lemma AttributeReads(a: Attribute, seen: set<string>, tail: seq<Line>)
    requires IsKey(a.name) && PrintableValue(a.value) && a.name !in seen && Outside(tail, 4)
    ensures var more := ParseMap(tail, 2, seen + {a.name});
            ParseMap(AttributeLogical(a) + tail, 2, seen)
            == if more.Err? then more
               else Ok(Parsed([Field(a.name, YamlOf(a.value))] + more.value.value, more.value.rest))
  {
    match a.value
    case One(t) =>
      KeyLineMatches(a.name, Written(t));
      InlineReads(a.name, t, tail);
    case Many(ts) =>
      if ts == [] {
        KeyLineMatches(a.name, "[]");
        assert a.name + ": " + "[]" == a.name + ": []";
        EmptyListReads(a.name, tail);
      } else {
        KeyLineMatches(a.name, "");
        ListReads(Line(2, a.name + ":"), ts, tail);
      }
  }

  lemma AttributesAreInside(attributes: seq<Attribute>, tail: seq<Line>)
    requires Flush(tail)
    ensures Outside(AttributesLogical(attributes) + tail, 4)
  {
    if attributes == [] {
      assert AttributesLogical(attributes) + tail == tail;
    }
  }

  lemma {:induction false} AttributesRead(attributes: seq<Attribute>, seen: set<string>, tail: seq<Line>)
    requires PrintableAttributes(attributes, seen) && Flush(tail)
    ensures ParseMap(AttributesLogical(attributes) + tail, 2, seen) == Ok(Parsed(FieldsOf(attributes), tail))
    decreases |attributes|
  {
    if attributes == [] {
      assert AttributesLogical(attributes) + tail == tail;
    } else {
      var a, rest := attributes[0], AttributesLogical(attributes[1..]) + tail;
      AttributesRead(attributes[1..], seen + {a.name}, tail);
      AttributesAreInside(attributes[1..], tail);
      AttributeReads(a, seen, rest);
      Reassociate(AttributeLogical(a), AttributesLogical(attributes[1..]), tail);
    }
  }

  /** A mapping that starts on its dash line, with the dash taken off. */
  lemma DashMapReads(first: Line, w: string, more: seq<Line>, fields: seq<Field>, tail: seq<Line>)
    requires first.indent == 0 && first.text == "- " + w && w != "" && Trimmed(w) && MatchKey(w).Some?
    requires ParseMap([Line(2, w)] + more, 2, {}) == Ok(Parsed(fields, tail))
    ensures IsDash(first.text)
    ensures ParseItem([first] + more, 0) == Ok(Parsed(Dict(fields), tail))
  {
    DashStrips(first.text, w);
    assert ([first] + more)[1..] == more;
  }

  lemma RecordFieldsRead(r: Record, w: string, tail: seq<Line>)
    requires PrintableRecord(r) && Flush(tail) && w == r.idName + ": " + Written(r.id)
    ensures ParseMap([Line(2, w)] + (AttributesLogical(r.attributes) + tail), 2, {})
         == Ok(Parsed([Field(r.idName, Text(Meaning(r.id)))] + FieldsOf(r.attributes), tail))
  {
    var id := Attribute(r.idName, One(r.id));
    assert {} + {r.idName} == {r.idName};
    AttributesRead(r.attributes, {r.idName}, tail);
    AttributesAreInside(r.attributes, tail);
    AttributeReads(id, {}, AttributesLogical(r.attributes) + tail);
  }

  lemma RecordReads(r: Record, tail: seq<Line>)
    requires PrintableRecord(r) && Flush(tail)
    ensures IsDash("- " + (r.idName + ": " + Written(r.id)))
    ensures ParseItem(RecordLogical(r) + tail, 0) == Ok(Parsed(DictOf(r), tail))
  {
    var w := r.idName + ": " + Written(r.id);
    WrittenIsCompact(r.id);
    KeyLineIsCompact(r.idName, Written(r.id));
    KeyLineMatches(r.idName, Written(r.id));
    RecordFieldsRead(r, w, tail);
    var fields := [Field(r.idName, Text(Meaning(r.id)))] + FieldsOf(r.attributes);
    DashMapReads(Line(0, "- " + w), w, AttributesLogical(r.attributes) + tail, fields, tail);
    Reassociate([Line(0, "- " + w)], AttributesLogical(r.attributes), tail);
  }

  lemma {:induction false} RecordsRead(records: seq<Record>)
    requires forall i :: 0 <= i < |records| ==> PrintableRecord(records[i])
    ensures ParseSeq(RecordsLogical(records), 0) == Ok(Parsed(DictsOf(records), []))
    ensures Flush(RecordsLogical(records))
    ensures records != [] ==> RecordsLogical(records) != [] && IsDash(RecordsLogical(records)[0].text)
  {
    if records != [] {
      RecordsRead(records[1..]);
      RecordReads(records[0], RecordsLogical(records[1..]));
    }
  }

  // ---------- the theorem ----------

  predicate Comments(header: seq<string>) {
    forall i :: 0 <= i < |header| ==> OneLine(header[i]) && header[i] != "" && header[i][0] == '#'
  }

  lemma {:induction false} CommentsShowNothing(header: seq<string>)
    requires Comments(header)
    ensures Shows(header, [])
  {
    if header != [] {
      CommentsShowNothing(header[1..]);
    }
  }

  lemma FlushTextIsALine(s: string)
    requires s != "" && Trimmed(s) && s[0] != '#'
    ensures LogicalLine(s) == [Line(0, s)]
  {
    StripTrimmed(s);
    assert !IsSpace(s[0]) && s[0] != ' ';
  }

  lemma SeqIsParsed(ls: seq<Line>, items: seq<Yaml>)
    requires ls != [] && ls[0].indent == 0 && IsDash(ls[0].text) && ParseSeq(ls, 0) == Ok(Parsed(items, []))
    ensures ParseLines(ls) == Ok(Some(List(items)))
  {
  }

  /** A rendered ledger block parses to the records' meanings, in order. */
  lemma PrintThenParse(header: seq<string>, records: seq<Record>, spaced: bool)
    requires records != [] && Comments(header)
    requires forall i :: 0 <= i < |records| ==> PrintableRecord(records[i])
    ensures ParsesToList(Render(header, records, spaced), DictsOf(records))
  {
    var lines, ls := RecordsLines(records, spaced), RecordsLogical(records);
    CommentsShowNothing(header);
    ShowsRecords(records, spaced);
    ShowsAppend(header, [], lines, ls);
    LogicalOfUnlines(header + lines);
    assert [] + ls == ls;
    RecordsRead(records);
    SeqIsParsed(ls, DictsOf(records));
  }
}
