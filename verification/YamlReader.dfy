/** The reader as it runs: indices into the list of lines and loops that fill lists, proved against the grammar. */
module YamlReader {
  import opened Wrappers
  import opened Texts
  import opened CanonicalYaml

  function Onto(out: string, r: Result<string, YamlError>): Result<string, YamlError> {
    if r.Ok? then Ok(out + r.value) else r
  }

  lemma OntoNext(out: string, c: char, r: Result<string, YamlError>)
    ensures Onto(out, Cons(c, r)) == Onto(out + [c], r)
  {
    if r.Ok? {
      assert out + ([c] + r.value) == out + [c] + r.value;
    }
  }

  method ReadQuoted(body: string) returns (r: Result<string, YamlError>)
    ensures r == Unquote(body)
  {
    var out, i := "", 0;
    assert body[0..] == body;
    assert Unquote(body).Ok? ==> "" + Unquote(body).value == Unquote(body).value;
    while i < |body|
      invariant 0 <= i <= |body|
      invariant Unquote(body) == Onto(out, Unquote(body[i..]))
    {
      ghost var rest := body[i..];
      var c := body[i];
      if c == '\\' {
        if i + 1 >= |body| || (body[i + 1] != '"' && body[i + 1] != '\\') { return Err(BadEscape); }
        OntoNext(out, body[i + 1], Unquote(rest[2..]));
        out, i := out + [body[i + 1]], i + 2;
      } else if c == '"' {
        if i != |body| - 1 { return Err(TrailingAfterQuote); }
        assert Unquote(rest) == Ok("") && out + "" == out;
        return Ok(out);
      } else {
        OntoNext(out, c, Unquote(rest[1..]));
        out, i := out + [c], i + 1;
      }
    }
    return Err(UnclosedQuote);
  }

  method ReadScalar(token: string) returns (r: Result<string, YamlError>)
    ensures r == Scalar(token)
  {
    var t := Strip(token);
    if t != "" && t[0] == '"' {
      r := ReadQuoted(t[1..]);
    } else if Reserved(t) {
      r := Err(ReservedShape);
    } else {
      r := Ok(t);
    }
  }

  // ---------- blocks ----------

  /** A value and the index of the line after it. */
  datatype At<T> = At(value: T, next: nat)

  /** The index the reader returns names the suffix of lines the grammar leaves. */
  ghost predicate Agrees<T(!new)>(r: Result<At<T>, YamlError>, spec: Result<Parsed<T>, YamlError>, lines: seq<Line>, i: nat) {
    match spec
    case Err(e) => r == Err(e)
    case Ok(p) => r.Ok? && r.value.value == p.value && i <= r.value.next <= |lines| && p.rest == lines[r.value.next..]
  }

  lemma {:induction false} SizeOfSuffix(ls: seq<Line>, i: nat, j: nat)
    requires i <= j <= |ls|
    ensures Size(ls[j..]) + (j - i) <= Size(ls[i..])
    decreases j - i
  {
    if i < j {
      assert ls[i..][1..] == ls[i + 1..];
      SizeOfSuffix(ls, i + 1, j);
    }
  }

  method ReadBlock(lines: seq<Line>, i: nat, indent: nat) returns (r: Result<At<Yaml>, YamlError>)
    requires i < |lines|
    ensures Agrees(r, ParseBlock(lines[i..], indent), lines, i)
    decreases Size(lines[i..]), 3
  {
    if IsDash(lines[i].text) {
      var s := ReadSeq(lines, i, indent);
      r := if s.Ok? then Ok(At(List(s.value.value), s.value.next)) else Err(s.error);
    } else {
      var m := ReadMap(lines, i, indent);
      r := if m.Ok? then Ok(At(Dict(m.value.value), m.value.next)) else Err(m.error);
      assert ParseBlock(lines[i..], indent) == ParseDict(lines[i..], indent);
    }
  }

  method ReadItem(lines: seq<Line>, i: nat, indent: nat) returns (r: Result<At<Yaml>, YamlError>)
    requires i < |lines| && IsDash(lines[i].text)
    ensures Agrees(r, ParseItem(lines[i..], indent), lines, i)
    ensures r.Ok? ==> i < r.value.next
    decreases Size(lines[i..]), 1
  {
    var rest := Strip(lines[i].text[1..]);
    ghost var ls := lines[i..];
    assert ls[1..] == lines[i + 1..];
    SizeOfSuffix(lines, i, i + 1);
    if rest == "" {
      if i + 1 >= |lines| || lines[i + 1].indent <= indent { return Err(MissingNestedBlock); }
      r := ReadBlock(lines, i + 1, lines[i + 1].indent);
    } else if MatchKey(rest).Some? {
      r := ReadDashMap(lines, i, indent, rest);
    } else {
      var s := ReadScalar(rest);
      r := if s.Ok? then Ok(At(Text(s.value), i + 1)) else Err(s.error);
    }
  }

  /** A mapping that starts on its dash line is read from a list whose first line is that line without the dash. */
  method ReadDashMap(lines: seq<Line>, i: nat, indent: nat, rest: string) returns (r: Result<At<Yaml>, YamlError>)
    requires i < |lines| && |rest| < |lines[i].text|
    ensures Agrees(r, ParseDict([Line(indent + 2, rest)] + lines[i + 1..], indent + 2), lines, i)
    ensures r.Ok? ==> i < r.value.next
    decreases Size(lines[i..]), 0
  {
    var merged := [Line(indent + 2, rest)] + lines[i + 1..];
    assert merged[1..] == lines[i + 1..] && merged[0..] == merged && lines[i..][1..] == lines[i + 1..];
    var m := ReadMap(merged, 0, indent + 2);
    if m.Err? { return Err(m.error); }
    var consumed := m.value.next;
    assert merged[consumed..] == lines[i + consumed..];
    r := Ok(At(Dict(m.value.value), i + consumed));
  }

  function After<T>(out: seq<T>, r: Result<Parsed<seq<T>>, YamlError>): Result<Parsed<seq<T>>, YamlError> {
    if r.Ok? then Ok(Parsed(out + r.value.value, r.value.rest)) else r
  }

  lemma AfterNext<T>(out: seq<T>, x: T, r: Result<Parsed<seq<T>>, YamlError>)
    ensures After(out, if r.Ok? then Ok(Parsed([x] + r.value.value, r.value.rest)) else r) == After(out + [x], r)
  {
    if r.Ok? {
      assert out + ([x] + r.value.value) == out + [x] + r.value.value;
    }
  }

  method ReadSeq(lines: seq<Line>, start: nat, indent: nat) returns (r: Result<At<seq<Yaml>>, YamlError>)
    requires start <= |lines|
    ensures Agrees(r, ParseSeq(lines[start..], indent), lines, start)
    decreases Size(lines[start..]), 2
  {
    var out: seq<Yaml>, i := [], start;
    assert After([], ParseSeq(lines[start..], indent)) == ParseSeq(lines[start..], indent) by {
      AfterNothing(ParseSeq(lines[start..], indent));
    }
    while i < |lines| && lines[i].indent == indent && IsDash(lines[i].text)
      invariant start <= i <= |lines|
      invariant ParseSeq(lines[start..], indent) == After(out, ParseSeq(lines[i..], indent))
      decreases |lines| - i
    {
      SizeOfSuffix(lines, start, i);
      var item := ReadItem(lines, i, indent);
      if item.Err? { return Err(item.error); }
      AfterNext(out, item.value.value, ParseSeq(lines[item.value.next..], indent));
      out, i := out + [item.value.value], item.value.next;
    }
    if i < |lines| && lines[i].indent > indent { return Err(InconsistentIndent); }
    assert out + [] == out;
    r := Ok(At(out, i));
  }

  lemma AfterNothing<T>(r: Result<Parsed<seq<T>>, YamlError>)
    ensures After([], r) == r
  {
    if r.Ok? {
      assert [] + r.value.value == r.value.value;
    }
  }

  method ReadValue(lines: seq<Line>, i: nat, indent: nat, inline: Option<string>) returns (r: Result<At<Yaml>, YamlError>)
    requires i < |lines|
    ensures Agrees(r, ParseValue(lines[i..], indent, inline), lines, i)
    ensures r.Ok? ==> i < r.value.next
    decreases Size(lines[i..]), 0
  {
    ghost var ls := lines[i..];
    assert ls[1..] == lines[i + 1..];
    SizeOfSuffix(lines, i, i + 1);
    if inline.None? || Strip(inline.value) == "" {
      if i + 1 >= |lines| || lines[i + 1].indent <= indent { return Err(MissingValue); }
      r := ReadBlock(lines, i + 1, lines[i + 1].indent);
    } else if Strip(inline.value) == "[]" {
      r := Ok(At(List([]), i + 1));
    } else {
      var s := ReadScalar(inline.value);
      r := if s.Ok? then Ok(At(Text(s.value), i + 1)) else Err(s.error);
    }
  }

  method ReadMap(lines: seq<Line>, start: nat, indent: nat) returns (r: Result<At<seq<Field>>, YamlError>)
    requires start <= |lines|
    ensures Agrees(r, ParseMap(lines[start..], indent, {}), lines, start)
    ensures r.Ok? && start < |lines| && lines[start].indent == indent ==> start < r.value.next
    decreases Size(lines[start..]), 2
  {
    var out: seq<Field>, keys: set<string>, i := [], {}, start;
    assert After([], ParseMap(lines[start..], indent, {})) == ParseMap(lines[start..], indent, {}) by {
      AfterNothing(ParseMap(lines[start..], indent, {}));
    }
    while i < |lines| && lines[i].indent == indent
      invariant start <= i <= |lines|
      invariant ParseMap(lines[start..], indent, {}) == After(out, ParseMap(lines[i..], indent, keys))
      decreases |lines| - i
    {
      var m := MatchKey(lines[i].text);
      if m.None? { return Err(NotKeyValue); }
      SizeOfSuffix(lines, start, i);
      var v := ReadValue(lines, i, indent, m.value.rest);
      if v.Err? { return Err(v.error); }
      if m.value.key in keys { return Err(DuplicateKey); }
      AfterNext(out, Field(m.value.key, v.value.value), ParseMap(lines[v.value.next..], indent, keys + {m.value.key}));
      out, keys, i := out + [Field(m.value.key, v.value.value)], keys + {m.value.key}, v.value.next;
    }
    if i < |lines| && lines[i].indent > indent { return Err(InconsistentIndent); }
    assert out + [] == out;
    r := Ok(At(out, i));
  }

  method ReadLines(text: string) returns (lines: seq<Line>)
    ensures lines == Logical(text)
  {
    var raws := SplitLines(text);
    lines := [];
    assert raws[0..] == raws && [] + LogicalLines(raws) == LogicalLines(raws);
    for i := 0 to |raws|
      invariant LogicalLines(raws) == lines + LogicalLines(raws[i..])
    {
      var stripped := Strip(raws[i]);
      assert raws[i..][1..] == raws[i + 1..];
      Regroup(lines, LogicalLine(raws[i]), LogicalLines(raws[i + 1..]));
      if stripped != "" && stripped[0] != '#' {
        lines := lines + [Line(Indent(raws[i]), stripped)];
      } else {
        assert lines + [] == lines;
      }
    }
    assert lines + [] == lines;
  }

  lemma Regroup(a: seq<Line>, b: seq<Line>, c: seq<Line>)
    ensures a + (b + c) == a + b + c
  {
  }

  method ReadText(text: string) returns (r: Result<Option<Yaml>, YamlError>)
    ensures r == Parse(text)
  {
    var lines := ReadLines(text);
    if lines == [] { return Ok(None); }
    if lines[0].indent != 0 { return Err(NotFlush); }
    assert lines[0..] == lines;
    var v := ReadBlock(lines, 0, 0);
    if v.Err? { return Err(v.error); }
    if v.value.next != |lines| { return Err(Misplaced); }
    r := Ok(Some(v.value.value));
  }
}
