/** The canonical subset as a grammar: which lines lay out which value. The reader accepts exactly these. */
module Grammar {
  import opened Wrappers
  import opened Texts
  import opened CanonicalYaml
  import opened YamlAppend
  import opened Tokens
  import opened Rendering
  import opened PrintParse
  import opened WellKeyed

  // ---------- scalars and keys ----------

  lemma {:induction false} UnquotedWasEscaped(body: string)
    requires Unquote(body).Ok?
    ensures body == Escaped(Unquote(body).value) + "\""
  {
    var s := Unquote(body).value;
    if body[0] == '\\' {
      UnquotedWasEscaped(body[2..]);
      assert s == [body[1]] + s[1..];
      EscapedFirst(s);
      assert body == [body[0], body[1]] + body[2..];
    } else if body[0] == '"' {
      assert Escaped("") == "";
    } else {
      UnquotedWasEscaped(body[1..]);
      assert s == [body[0]] + s[1..];
      EscapedFirst(s);
      assert body == [body[0]] + body[1..];
    }
  }

  /** A scalar is its escaped text between quotes, or its own text if that has none of the reserved shapes. */
  predicate Spells(token: string, s: string) {
    || token == "\"" + (Escaped(s) + "\"")
    || (token == s && !Reserved(s) && !(s != "" && s[0] == '"'))
  }

  lemma ScalarExactlyWhen(token: string, s: string)
    ensures Scalar(token) == Ok(s) <==> Spells(Strip(token), s)
  {
    var t := Strip(token);
    if t != "" && t[0] == '"' {
      assert t == "\"" + t[1..];
      if Unquote(t[1..]).Ok? {
        UnquotedWasEscaped(t[1..]);
      }
      if t == "\"" + (Escaped(s) + "\"") {
        assert t[1..] == Escaped(s) + "\"";
        UnquoteEscaped(s);
      }
    }
  }

  /** A key, a colon, and nothing or a blank and the rest. */
  predicate KeyLine(text: string, key: string, inline: Option<string>) {
    IsKey(key) && text == if inline.Some? then key + ": " + inline.value else key + ":"
  }

  lemma {:induction false} KeyTailIsKey(s: string)
    ensures forall i :: 0 <= i < KeyTail(s) ==> IsKeyChar(s[i])
  {
    if s != "" && IsKeyChar(s[0]) {
      KeyTailIsKey(s[1..]);
    }
  }

  lemma MatchKeyExactlyWhen(text: string, key: string, inline: Option<string>)
    ensures MatchKey(text) == Some(KeyMatch(key, inline)) <==> KeyLine(text, key, inline)
  {
    if MatchKey(text).Some? {
      var n := 1 + KeyTail(text[1..]);
      KeyTailIsKey(text[1..]);
      forall i | 0 <= i < n ensures IsKeyChar(text[i]) {
        assert i > 0 ==> text[i] == text[1..][i - 1];
      }
      assert text == text[..n] + text[n..];
    }
    if KeyLine(text, key, inline) {
      KeyLineMatches(key, if inline.Some? then inline.value else "");
    }
  }

  /** A dash alone, or a dash, a blank and the rest. */
  predicate DashLine(text: string, rest: string) {
    (text == "-" && rest == "") || (|text| >= 2 && text[..2] == "- " && rest == Strip(text[2..]))
  }

  lemma DashExactlyWhen(text: string)
    requires text != ""
    ensures IsDash(text) <==> DashLine(text, Strip(text[1..]))
  {
    if |text| >= 2 {
      assert text[..2] == [text[0], text[1]];
      assert text[1..] == [text[1]] + text[2..];
      if text[1] == ' ' {
        StripSpaceFirst(' ', text[2..]);
      }
    }
  }

  // ---------- layouts ----------

  /** The lines are a sequence or a mapping that starts at this indentation, with no line left over. */
  ghost predicate Lays(ls: seq<Line>, indent: nat, v: Yaml)
    decreases v, 2
  {
    match v
    case Text(_) => false
    case List(items) => items != [] && LaysItems(ls, indent, items)
    case Dict(fields) => fields != [] && KeysDiffer(fields) && LaysFields(ls, indent, fields)
  }

  ghost predicate LaysItems(ls: seq<Line>, indent: nat, items: seq<Yaml>)
    decreases items, 0
  {
    if items == [] then ls == []
    else exists k :: 0 < k <= |ls| && LaysItem(ls[..k], indent, items[0]) && LaysItems(ls[k..], indent, items[1..])
  }

  /** A dash line, with its value on deeper lines, merged with the mapping below it, or on the line itself. */
  ghost predicate LaysItem(ls: seq<Line>, indent: nat, v: Yaml)
    decreases v, 3
  {
    && ls != [] && ls[0].indent == indent && ls[0].text != ""
    && var rest := Strip(ls[0].text[1..]);
    && DashLine(ls[0].text, rest) &&
    if rest == "" then |ls| > 1 && indent < ls[1].indent && Lays(ls[1..], ls[1].indent, v)
    else if exists key, inline :: KeyLine(rest, key, inline) then
      v.Dict? && Lays([Line(indent + 2, rest)] + ls[1..], indent + 2, v)
    else |ls| == 1 && v.Text? && Spells(rest, v.text)
  }

  ghost predicate LaysFields(ls: seq<Line>, indent: nat, fields: seq<Field>)
    decreases fields, 0
  {
    if fields == [] then ls == []
    else exists k :: 0 < k <= |ls| && LaysField(ls[..k], indent, fields[0]) && LaysFields(ls[k..], indent, fields[1..])
  }

  /** A key line, with its value on deeper lines or on the line itself. */
  ghost predicate LaysField(ls: seq<Line>, indent: nat, f: Field)
    decreases f, 0
  {
    && ls != [] && ls[0].indent == indent
    && exists inline :: KeyLine(ls[0].text, f.key, inline) && LaysValue(ls, indent, inline, f.value)
  }

  ghost predicate LaysValue(ls: seq<Line>, indent: nat, inline: Option<string>, v: Yaml)
    requires ls != []
    decreases v, 3
  {
    var rest := if inline.Some? then Strip(inline.value) else "";
    if rest == "" then |ls| > 1 && indent < ls[1].indent && Lays(ls[1..], ls[1].indent, v)
    else |ls| == 1 && if rest == "[]" then v == List([]) else v.Text? && Spells(rest, v.text)
  }

  // ---------- what is accepted is laid out ----------

  lemma NestedIsLaid(first: Line, below: seq<Line>, indent: nat, v: Yaml)
    requires first.indent == indent && IsDash(first.text) && Strip(first.text[1..]) == ""
    requires below != [] && indent < below[0].indent && Lays(below, below[0].indent, v)
    ensures LaysItem([first] + below, indent, v)
  {
    DashExactlyWhen(first.text);
    assert ([first] + below)[1..] == below;
  }

  lemma MergedIsLaid(first: Line, below: seq<Line>, indent: nat, rest: string, v: Yaml)
    requires first.indent == indent && IsDash(first.text) && Strip(first.text[1..]) == rest
    requires rest != "" && MatchKey(rest).Some? && v.Dict? && Lays([Line(indent + 2, rest)] + below, indent + 2, v)
    ensures LaysItem([first] + below, indent, v)
  {
    DashExactlyWhen(first.text);
    var m := MatchKey(rest).value;
    MatchKeyExactlyWhen(rest, m.key, m.rest);
    assert KeyLine(rest, m.key, m.rest);
    assert ([first] + below)[1..] == below;
  }

  lemma ScalarIsLaid(first: Line, indent: nat, rest: string, s: string)
    requires first.indent == indent && IsDash(first.text) && Strip(first.text[1..]) == rest
    requires rest != "" && MatchKey(rest).None? && Scalar(rest) == Ok(s)
    ensures LaysItem([first], indent, Text(s))
  {
    DashExactlyWhen(first.text);
    NoKeyLine(rest);
    StripTrimmed(rest);
    ScalarExactlyWhen(rest, s);
  }

  lemma NoKeyLine(text: string)
    requires MatchKey(text).None?
    ensures !exists key, inline :: KeyLine(text, key, inline)
  {
    forall key, inline ensures !KeyLine(text, key, inline) {
      MatchKeyExactlyWhen(text, key, inline);
    }
  }

  lemma ItemsGoOn(first: seq<Line>, below: seq<Line>, indent: nat, v: Yaml, more: seq<Yaml>)
    requires first != [] && LaysItem(first, indent, v) && LaysItems(below, indent, more)
    ensures LaysItems(first + below, indent, [v] + more)
  {
    var all, k := first + below, |first|;
    assert all[..k] == first && all[k..] == below && ([v] + more)[1..] == more;
  }

  lemma FieldsGoOn(first: seq<Line>, below: seq<Line>, indent: nat, f: Field, inline: Option<string>, more: seq<Field>)
    requires first != [] && first[0].indent == indent && MatchKey(first[0].text) == Some(KeyMatch(f.key, inline))
    requires LaysValue(first, indent, inline, f.value) && LaysFields(below, indent, more)
    ensures LaysFields(first + below, indent, [f] + more)
  {
    var all, k := first + below, |first|;
    MatchKeyExactlyWhen(first[0].text, f.key, inline);
    assert LaysField(first, indent, f);
    assert all[..k] == first && all[k..] == below && ([f] + more)[1..] == more;
  }

  lemma SplitFirst(ls: seq<Line>, below: seq<Line>, rest: seq<Line>)
    requires ls != [] && ls[1..] == below + rest
    ensures ls == ([ls[0]] + below) + rest
  {
  }

  lemma SplitMerged(ls: seq<Line>, first: Line, own: seq<Line>, rest: seq<Line>)
    requires ls != [] && own != [] && [first] + ls[1..] == own + rest
    ensures own == [first] + own[1..] && ls[1..] == own[1..] + rest
  {
    assert ([first] + ls[1..])[0] == (own + rest)[0];
    assert ([first] + ls[1..])[1..] == (own + rest)[1..];
  }

  lemma {:induction false} BlockIsLaid(ls: seq<Line>, indent: nat) returns (own: seq<Line>)
    requires ls != [] && ls[0].indent == indent && ParseBlock(ls, indent).Ok?
    ensures var r := ParseBlock(ls, indent).value; own != [] && ls == own + r.rest && Lays(own, indent, r.value)
    decreases Size(ls), 3
  {
    if IsDash(ls[0].text) {
      own := ItemsAreLaid(ls, indent);
    } else {
      own := DictIsLaid(ls, indent);
    }
  }

  lemma {:induction false} DictIsLaid(ls: seq<Line>, indent: nat) returns (own: seq<Line>)
    requires ls != [] && ls[0].indent == indent && ParseDict(ls, indent).Ok?
    ensures var r := ParseDict(ls, indent).value;
            own != [] && ls == own + r.rest && r.value.Dict? && Lays(own, indent, r.value)
    decreases Size(ls), 2
  {
    own := FieldsAreLaid(ls, indent, {});
    MapIsWellKeyed(ls, indent, {});
  }

  lemma {:induction false} ItemIsLaid(ls: seq<Line>, indent: nat) returns (own: seq<Line>)
    requires ls != [] && ls[0].indent == indent && IsDash(ls[0].text) && ParseItem(ls, indent).Ok?
    ensures var r := ParseItem(ls, indent).value; own != [] && ls == own + r.rest && LaysItem(own, indent, r.value)
    decreases Size(ls), 0
  {
    var rest := Strip(ls[0].text[1..]);
    var r := ParseItem(ls, indent).value;
    if rest == "" {
      var below := BlockIsLaid(ls[1..], ls[1].indent);
      own := [ls[0]] + below;
      SplitFirst(ls, below, r.rest);
      NestedIsLaid(ls[0], below, indent, r.value);
    } else if MatchKey(rest).Some? {
      var first := Line(indent + 2, rest);
      assert ([first] + ls[1..])[1..] == ls[1..];
      var merged := DictIsLaid([first] + ls[1..], indent + 2);
      SplitMerged(ls, first, merged, r.rest);
      own := [ls[0]] + merged[1..];
      SplitFirst(ls, merged[1..], r.rest);
      MergedIsLaid(ls[0], merged[1..], indent, rest, r.value);
    } else {
      own := [ls[0]];
      ScalarIsLaid(ls[0], indent, rest, Scalar(rest).value);
    }
  }

  lemma {:induction false} ItemsAreLaid(ls: seq<Line>, indent: nat) returns (own: seq<Line>)
    requires ParseSeq(ls, indent).Ok?
    ensures var r := ParseSeq(ls, indent).value; ls == own + r.rest && LaysItems(own, indent, r.value)
    ensures ls != [] && ls[0].indent == indent && IsDash(ls[0].text) ==>
              own != [] && ParseSeq(ls, indent).value.value != []
    decreases Size(ls), 1
  {
    if ls != [] && ls[0].indent == indent && IsDash(ls[0].text) {
      var first := ItemIsLaid(ls, indent);
      var item := ParseItem(ls, indent).value;
      var below := ItemsAreLaid(item.rest, indent);
      var more := ParseSeq(item.rest, indent).value;
      own := first + below;
      Reassociate(first, below, more.rest);
      ItemsGoOn(first, below, indent, item.value, more.value);
    } else {
      own := [];
    }
  }

  lemma {:induction false} ValueIsLaid(ls: seq<Line>, indent: nat, inline: Option<string>) returns (own: seq<Line>)
    requires ls != [] && ParseValue(ls, indent, inline).Ok?
    ensures var r := ParseValue(ls, indent, inline).value;
            own != [] && own[0] == ls[0] && ls == own + r.rest && LaysValue(own, indent, inline, r.value)
    decreases Size(ls), 0
  {
    if inline.None? || Strip(inline.value) == "" {
      var below := BlockIsLaid(ls[1..], ls[1].indent);
      own := [ls[0]] + below;
      SplitFirst(ls, below, ParseValue(ls, indent, inline).value.rest);
      assert own[1..] == below;
    } else {
      own := [ls[0]];
      if Strip(inline.value) != "[]" {
        ScalarExactlyWhen(inline.value, Scalar(inline.value).value);
      }
    }
  }

  lemma {:induction false} FieldsAreLaid(ls: seq<Line>, indent: nat, seen: set<string>) returns (own: seq<Line>)
    requires ParseMap(ls, indent, seen).Ok?
    ensures var r := ParseMap(ls, indent, seen).value; ls == own + r.rest && LaysFields(own, indent, r.value)
    ensures ls != [] && ls[0].indent == indent ==> own != [] && ParseMap(ls, indent, seen).value.value != []
    decreases Size(ls), 1
  {
    if ls != [] && ls[0].indent == indent {
      var m := MatchKey(ls[0].text).value;
      var first := ValueIsLaid(ls, indent, m.rest);
      var v := ParseValue(ls, indent, m.rest).value;
      var below := FieldsAreLaid(v.rest, indent, seen + {m.key});
      var more := ParseMap(v.rest, indent, seen + {m.key}).value;
      own := first + below;
      Reassociate(first, below, more.rest);
      FieldsGoOn(first, below, indent, Field(m.key, v.value), m.rest, more.value);
    } else {
      own := [];
    }
  }

  // ---------- what is laid out is accepted ----------

  /** What follows is not deeper than this, and so no part of a block below it. */
  predicate NotDeeper(tail: seq<Line>, indent: nat) {
    tail != [] ==> tail[0].indent <= indent
  }

  predicate Shallower(tail: seq<Line>, indent: nat) {
    tail != [] ==> tail[0].indent < indent
  }

  /** A layout starts at its indentation. */
  lemma LaidStarts(ls: seq<Line>, indent: nat, v: Yaml)
    requires Lays(ls, indent, v)
    ensures ls != [] && ls[0].indent == indent && ls[0].text != ""
    ensures if v.List? then IsDash(ls[0].text) else !IsDash(ls[0].text)
  {
    if v.List? {
      var k :| 0 < k <= |ls| && LaysItem(ls[..k], indent, v.items[0]) && LaysItems(ls[k..], indent, v.items[1..]);
      DashExactlyWhen(ls[0].text);
    } else {
      var k :| 0 < k <= |ls| && LaysField(ls[..k], indent, v.fields[0]) && LaysFields(ls[k..], indent, v.fields[1..]);
    }
  }

  lemma {:induction false} LaidIsRead(ls: seq<Line>, indent: nat, v: Yaml, tail: seq<Line>)
    requires Lays(ls, indent, v) && Shallower(tail, indent)
    ensures ls != [] && ParseBlock(ls + tail, indent) == Ok(Parsed(v, tail))
    ensures v.Dict? ==> ParseDict(ls + tail, indent) == Ok(Parsed(v, tail))
    decreases v, 2
  {
    LaidStarts(ls, indent, v);
    if v.List? {
      ItemsAreRead(ls, indent, v.items, tail);
    } else {
      FieldsAreRead(ls, indent, v.fields, {}, tail);
    }
  }

  lemma {:induction false} ItemIsRead(ls: seq<Line>, indent: nat, v: Yaml, tail: seq<Line>)
    requires LaysItem(ls, indent, v) && NotDeeper(tail, indent)
    ensures IsDash(ls[0].text) && ParseItem(ls + tail, indent) == Ok(Parsed(v, tail))
    decreases v, 3
  {
    DashExactlyWhen(ls[0].text);
    DropFirst(ls, tail);
    var rest := Strip(ls[0].text[1..]);
    if rest == "" {
      LaidIsRead(ls[1..], ls[1].indent, v, tail);
    } else if exists key, inline :: KeyLine(rest, key, inline) {
      var key, inline :| KeyLine(rest, key, inline);
      MatchKeyExactlyWhen(rest, key, inline);
      Reassociate([Line(indent + 2, rest)], ls[1..], tail);
      LaidIsRead([Line(indent + 2, rest)] + ls[1..], indent + 2, v, tail);
    } else {
      KeyLineIsMatched(rest);
      StripTrimmed(rest);
      ScalarExactlyWhen(rest, v.text);
    }
  }

  lemma KeyLineIsMatched(text: string)
    ensures MatchKey(text).Some? ==> exists key, inline :: KeyLine(text, key, inline)
  {
    if MatchKey(text).Some? {
      MatchKeyExactlyWhen(text, MatchKey(text).value.key, MatchKey(text).value.rest);
    }
  }

  lemma Uncons<T>(s: seq<T>)
    requires s != []
    ensures [s[0]] + s[1..] == s
  {
  }

  lemma CutAppend(ls: seq<Line>, k: nat, tail: seq<Line>, indent: nat)
    requires 0 < k <= |ls| && Shallower(tail, indent) && (ls[k..] != [] ==> ls[k..][0].indent == indent)
    ensures ls + tail == ls[..k] + (ls[k..] + tail) && NotDeeper(ls[k..] + tail, indent)
  {
    if ls[k..] == [] {
      assert ls[k..] + tail == tail;
    } else {
      assert (ls[k..] + tail)[0] == ls[k..][0];
    }
  }

  lemma ItemsStart(ls: seq<Line>, indent: nat, items: seq<Yaml>)
    requires LaysItems(ls, indent, items)
    ensures ls != [] ==> ls[0].indent == indent
  {
    if items != [] {
      var k :| 0 < k <= |ls| && LaysItem(ls[..k], indent, items[0]) && LaysItems(ls[k..], indent, items[1..]);
    }
  }

  lemma FieldsStart(ls: seq<Line>, indent: nat, fields: seq<Field>)
    requires LaysFields(ls, indent, fields)
    ensures ls != [] ==> ls[0].indent == indent
  {
    if fields != [] {
      var k :| 0 < k <= |ls| && LaysField(ls[..k], indent, fields[0]) && LaysFields(ls[k..], indent, fields[1..]);
    }
  }

  lemma SeqGoesOn(first: seq<Line>, rest: seq<Line>, indent: nat, v: Yaml, more: seq<Yaml>, tail: seq<Line>)
    requires first != [] && first[0].indent == indent && IsDash(first[0].text)
    requires ParseItem(first + rest, indent) == Ok(Parsed(v, rest)) && ParseSeq(rest, indent) == Ok(Parsed(more, tail))
    ensures ParseSeq(first + rest, indent) == Ok(Parsed([v] + more, tail))
  {
    assert (first + rest)[0] == first[0];
  }

  lemma {:induction false} ItemsAreRead(ls: seq<Line>, indent: nat, items: seq<Yaml>, tail: seq<Line>)
    requires LaysItems(ls, indent, items) && Shallower(tail, indent)
    ensures ParseSeq(ls + tail, indent) == Ok(Parsed(items, tail))
    decreases items, 0
  {
    if items == [] {
      assert ls + tail == tail;
    } else {
      var k :| 0 < k <= |ls| && LaysItem(ls[..k], indent, items[0]) && LaysItems(ls[k..], indent, items[1..]);
      ItemsStart(ls[k..], indent, items[1..]);
      CutAppend(ls, k, tail, indent);
      ItemIsRead(ls[..k], indent, items[0], ls[k..] + tail);
      ItemsAreRead(ls[k..], indent, items[1..], tail);
      SeqGoesOn(ls[..k], ls[k..] + tail, indent, items[0], items[1..], tail);
      Uncons(items);
    }
  }

  lemma {:induction false} ValueIsRead(ls: seq<Line>, indent: nat, inline: Option<string>, v: Yaml, tail: seq<Line>)
    requires ls != [] && LaysValue(ls, indent, inline, v) && NotDeeper(tail, indent)
    ensures ParseValue(ls + tail, indent, inline) == Ok(Parsed(v, tail))
    decreases v, 3
  {
    DropFirst(ls, tail);
    var rest := if inline.Some? then Strip(inline.value) else "";
    if rest == "" {
      LaidIsRead(ls[1..], ls[1].indent, v, tail);
    } else if rest != "[]" {
      ScalarExactlyWhen(inline.value, v.text);
    }
  }

  lemma MapGoesOn(first: seq<Line>, rest: seq<Line>, indent: nat, f: Field, inline: Option<string>, seen: set<string>,
                  more: seq<Field>, tail: seq<Line>)
    requires first != [] && first[0].indent == indent && KeyLine(first[0].text, f.key, inline) && f.key !in seen
    requires ParseValue(first + rest, indent, inline) == Ok(Parsed(f.value, rest))
    requires ParseMap(rest, indent, seen + {f.key}) == Ok(Parsed(more, tail))
    ensures ParseMap(first + rest, indent, seen) == Ok(Parsed([f] + more, tail))
  {
    assert (first + rest)[0] == first[0];
    MatchKeyExactlyWhen(first[0].text, f.key, inline);
  }

  lemma {:induction false} FieldsAreRead(ls: seq<Line>, indent: nat, fields: seq<Field>, seen: set<string>,
                                         tail: seq<Line>)
    requires LaysFields(ls, indent, fields) && Shallower(tail, indent)
    requires KeysDiffer(fields) && forall i :: 0 <= i < |fields| ==> fields[i].key !in seen
    ensures ParseMap(ls + tail, indent, seen) == Ok(Parsed(fields, tail))
    decreases fields, 0
  {
    if fields == [] {
      assert ls + tail == tail;
    } else {
      var f := fields[0];
      var k :| 0 < k <= |ls| && LaysField(ls[..k], indent, f) && LaysFields(ls[k..], indent, fields[1..]);
      var inline :| KeyLine(ls[..k][0].text, f.key, inline) && LaysValue(ls[..k], indent, inline, f.value);
      FieldsStart(ls[k..], indent, fields[1..]);
      CutAppend(ls, k, tail, indent);
      ValueIsRead(ls[..k], indent, inline, f.value, ls[k..] + tail);
      FieldsAreRead(ls[k..], indent, fields[1..], seen + {f.key}, tail);
      MapGoesOn(ls[..k], ls[k..] + tail, indent, f, inline, seen, fields[1..], tail);
      Uncons(fields);
    }
  }

  /** The reader accepts a text exactly when its logical lines lay out a value, and then as that value. */
  lemma AcceptedExactlyWhenLaid(text: string, v: Yaml)
    ensures Parse(text) == Ok(Some(v)) <==> Lays(Logical(text), 0, v)
  {
    var ls := Logical(text);
    if Parse(text) == Ok(Some(v)) {
      var own := BlockIsLaid(ls, 0);
      assert own + [] == own;
    }
    if Lays(ls, 0, v) {
      LaidStarts(ls, 0, v);
      LaidIsRead(ls, 0, v, []);
      assert ls + [] == ls;
    }
  }

  /** So no lines lay out two values. */
  lemma LayoutsAreUnambiguous(ls: seq<Line>, indent: nat, v: Yaml, u: Yaml)
    requires Lays(ls, indent, v) && Lays(ls, indent, u)
    ensures v == u
  {
    LaidIsRead(ls, indent, v, []);
    LaidIsRead(ls, indent, u, []);
  }
}
