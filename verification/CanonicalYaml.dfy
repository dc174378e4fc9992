/** The canonical subset: block sequences and mappings, double-quoted or restricted bare scalars, and `[]`. */
module CanonicalYaml {
  import opened Wrappers
  import opened Texts

  datatype Yaml = Text(text: string) | List(items: seq<Yaml>) | Dict(fields: seq<Field>)
  /** A mapping keeps the order of its keys. */
  datatype Field = Field(key: string, value: Yaml)

  /** A line that is neither blank nor a comment: its indentation and its stripped text. */
  datatype Line = Line(indent: nat, text: string)

  datatype YamlError =
    | BadEscape | TrailingAfterQuote | UnclosedQuote | ReservedShape
    | MissingNestedBlock | InconsistentIndent | NotKeyValue | MissingValue | DuplicateKey
    | NotFlush | Misplaced

  // ---------- scalars ----------

  function Cons(c: char, r: Result<string, YamlError>): Result<string, YamlError> {
    if r.Ok? then Ok([c] + r.value) else r
  }

  /** The body of a quoted scalar, after the opening quote. */
  function Unquote(body: string): Result<string, YamlError> {
    if body == "" then Err(UnclosedQuote)
    else if body[0] == '\\' then
      if |body| < 2 || (body[1] != '"' && body[1] != '\\') then Err(BadEscape) else Cons(body[1], Unquote(body[2..]))
    else if body[0] == '"' then if |body| == 1 then Ok("") else Err(TrailingAfterQuote)
    else Cons(body[0], Unquote(body[1..]))
  }

  predicate HasPair(s: string, a: char, b: char) {
    exists i :: 0 <= i < |s| - 1 && s[i] == a && s[i + 1] == b
  }

  /** Shapes a bare scalar must not have. */
  predicate Reserved(s: string) {
    || HasPair(s, ':', ' ') || HasPair(s, ' ', '#')
    || (s != "" && (s[|s| - 1] == ':' || s[0] == '&' || s[0] == '*' || s[0] == '!'))
  }

  function Scalar(token: string): Result<string, YamlError> {
    var t := Strip(token);
    if t != "" && t[0] == '"' then Unquote(t[1..])
    else if Reserved(t) then Err(ReservedShape)
    else Ok(t)
  }

  // ---------- keys ----------

  predicate IsKeyStart(c: char) {
    'A' <= c <= 'Z' || 'a' <= c <= 'z' || c == '_'
  }

  predicate IsKeyChar(c: char) {
    IsKeyStart(c) || '0' <= c <= '9' || c == '-'
  }

  function KeyTail(s: string): (n: nat)
    ensures n <= |s|
  {
    if s != "" && IsKeyChar(s[0]) then 1 + KeyTail(s[1..]) else 0
  }

  datatype KeyMatch = KeyMatch(key: string, rest: Option<string>)

  function MatchKey(s: string): Option<KeyMatch> {
    if s == "" || !IsKeyStart(s[0]) then None
    else
      var n := 1 + KeyTail(s[1..]);
      if n == |s| || s[n] != ':' then None
      else if n + 1 == |s| then Some(KeyMatch(s[..n], None))
      else if s[n + 1] == ' ' then Some(KeyMatch(s[..n], Some(s[n + 2..])))
      else None
  }

  // ---------- blocks ----------

  predicate IsDash(s: string) {
    s == "-" || (|s| >= 2 && s[0] == '-' && s[1] == ' ')
  }

  /** Remaining characters: what every nested call has less of. */
  function Size(ls: seq<Line>): nat {
    if ls == [] then 0 else |ls[0].text| + 1 + Size(ls[1..])
  }

  datatype Parsed<T> = Parsed(value: T, rest: seq<Line>)

  function ParseBlock(ls: seq<Line>, indent: nat): (r: Result<Parsed<Yaml>, YamlError>)
    requires ls != []
    ensures r.Ok? ==> Size(r.value.rest) <= Size(ls)
    decreases Size(ls), 3
  {
    if IsDash(ls[0].text) then
      var r := ParseSeq(ls, indent);
      if r.Ok? then Ok(Parsed(List(r.value.value), r.value.rest)) else Err(r.error)
    else ParseDict(ls, indent)
  }

  function ParseDict(ls: seq<Line>, indent: nat): (r: Result<Parsed<Yaml>, YamlError>)
    ensures r.Ok? ==> Size(r.value.rest) <= Size(ls)
    decreases Size(ls), 2
  {
    var r := ParseMap(ls, indent, {});
    if r.Ok? then Ok(Parsed(Dict(r.value.value), r.value.rest)) else Err(r.error)
  }

  /** One dash line and what belongs to it. */
  function ParseItem(ls: seq<Line>, indent: nat): (r: Result<Parsed<Yaml>, YamlError>)
    requires ls != [] && IsDash(ls[0].text)
    ensures r.Ok? ==> Size(r.value.rest) < Size(ls)
    decreases Size(ls), 0
  {
    var rest := Strip(ls[0].text[1..]);
    if rest == "" then
      if |ls| == 1 || ls[1].indent <= indent then Err(MissingNestedBlock) else ParseBlock(ls[1..], ls[1].indent)
    else if MatchKey(rest).Some? then
      var merged := [Line(indent + 2, rest)] + ls[1..];
      assert merged[1..] == ls[1..];
      ParseDict(merged, indent + 2)
    else
      var s := Scalar(rest);
      if s.Ok? then Ok(Parsed(Text(s.value), ls[1..])) else Err(s.error)
  }

  function ParseSeq(ls: seq<Line>, indent: nat): (r: Result<Parsed<seq<Yaml>>, YamlError>)
    ensures r.Ok? ==> Size(r.value.rest) <= Size(ls)
    decreases Size(ls), 1
  {
    if ls != [] && ls[0].indent == indent && IsDash(ls[0].text) then
      var item := ParseItem(ls, indent);
      if item.Err? then Err(item.error)
      else
        var more := ParseSeq(item.value.rest, indent);
        if more.Err? then more else Ok(Parsed([item.value.value] + more.value.value, more.value.rest))
    else if ls != [] && ls[0].indent > indent then Err(InconsistentIndent)
    else Ok(Parsed([], ls))
  }

  /** The value of one key line and what belongs to it. */
  function ParseValue(ls: seq<Line>, indent: nat, inline: Option<string>): (r: Result<Parsed<Yaml>, YamlError>)
    requires ls != []
    ensures r.Ok? ==> Size(r.value.rest) < Size(ls)
    decreases Size(ls), 0
  {
    if inline.None? || Strip(inline.value) == "" then
      if |ls| > 1 && ls[1].indent > indent then ParseBlock(ls[1..], ls[1].indent) else Err(MissingValue)
    else if Strip(inline.value) == "[]" then Ok(Parsed(List([]), ls[1..]))
    else
      var s := Scalar(inline.value);
      if s.Ok? then Ok(Parsed(Text(s.value), ls[1..])) else Err(s.error)
  }

  function ParseMap(ls: seq<Line>, indent: nat, seen: set<string>): (r: Result<Parsed<seq<Field>>, YamlError>)
    ensures r.Ok? ==> Size(r.value.rest) <= Size(ls)
    decreases Size(ls), 1
  {
    if ls != [] && ls[0].indent == indent then
      var m := MatchKey(ls[0].text);
      if m.None? then Err(NotKeyValue)
      else
        var v := ParseValue(ls, indent, m.value.rest);
        if v.Err? then Err(v.error)
        else if m.value.key in seen then Err(DuplicateKey)
        else
          var more := ParseMap(v.value.rest, indent, seen + {m.value.key});
          if more.Err? then more
          else Ok(Parsed([Field(m.value.key, v.value.value)] + more.value.value, more.value.rest))
    else if ls != [] && ls[0].indent > indent then Err(InconsistentIndent)
    else Ok(Parsed([], ls))
  }

  // ---------- texts ----------

  /** Blank and comment lines disappear; a tab is never part of the indentation that is counted. */
  function LogicalLine(raw: string): seq<Line> {
    var stripped := Strip(raw);
    if stripped == "" || stripped[0] == '#' then [] else [Line(Indent(raw), stripped)]
  }

  /** The counted indentation holds blanks only, so the reader's check for tabs inside it never fires. */
  lemma {:induction false} IndentationHasNoTab(raw: string, i: nat)
    requires i < Indent(raw)
    ensures i < |raw| && raw[i] == ' '
  {
    if i > 0 {
      IndentationHasNoTab(raw[1..], i - 1);
    }
  }

  function LogicalLines(raws: seq<string>): seq<Line> {
    if raws == [] then [] else LogicalLine(raws[0]) + LogicalLines(raws[1..])
  }

  function Logical(text: string): seq<Line> {
    LogicalLines(SplitLines(text))
  }

  function ParseLines(ls: seq<Line>): Result<Option<Yaml>, YamlError> {
    if ls == [] then Ok(None)
    else if ls[0].indent != 0 then Err(NotFlush)
    else
      var r := ParseBlock(ls, 0);
      if r.Err? then Err(r.error)
      else if r.value.rest != [] then Err(Misplaced)
      else Ok(Some(r.value.value))
  }

  function Parse(text: string): Result<Option<Yaml>, YamlError> {
    ParseLines(Logical(text))
  }
}
