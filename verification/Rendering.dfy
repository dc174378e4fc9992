/** Ledger records written as canonical YAML, and the proof that what is printed is what is parsed. */
module Rendering {
  import opened Texts
  import opened CanonicalYaml
  import opened Tokens

  datatype Value = One(token: Token) | Many(tokens: seq<Token>)
  datatype Attribute = Attribute(name: string, value: Value)

  /** A ledger record: its identifying attribute on the dash line, the others below it. */
  datatype Record = Record(idName: string, id: Token, attributes: seq<Attribute>)

  // ---------- what is printed ----------

  function ItemLines(tokens: seq<Token>): seq<string> {
    if tokens == [] then [] else ["    - " + Written(tokens[0])] + ItemLines(tokens[1..])
  }

  function AttributeLines(a: Attribute): seq<string> {
    match a.value
    case One(t) => ["  " + (a.name + ": " + Written(t))]
    case Many(ts) => if ts == [] then ["  " + (a.name + ": []")] else ["  " + (a.name + ":")] + ItemLines(ts)
  }

  function AttributesLines(attributes: seq<Attribute>): seq<string> {
    if attributes == [] then [] else AttributeLines(attributes[0]) + AttributesLines(attributes[1..])
  }

  function RecordLines(r: Record): seq<string> {
    ["- " + (r.idName + ": " + Written(r.id))] + AttributesLines(r.attributes)
  }

  /** Records one after the other, with an empty line between two of them where the ledger has one. */
  function RecordsLines(records: seq<Record>, spaced: bool): seq<string> {
    if records == [] then []
    else if |records| == 1 then RecordLines(records[0])
    else RecordLines(records[0]) + (if spaced then [""] else []) + RecordsLines(records[1..], spaced)
  }

  function Unlines(lines: seq<string>): string {
    if lines == [] then "" else lines[0] + ("\n" + Unlines(lines[1..]))
  }

  function Render(header: seq<string>, records: seq<Record>, spaced: bool): string {
    if records == [] then "" else Unlines(header + RecordsLines(records, spaced))
  }

  // ---------- what it means ----------

  function TextsOf(tokens: seq<Token>): seq<Yaml> {
    if tokens == [] then [] else [Text(Meaning(tokens[0]))] + TextsOf(tokens[1..])
  }

  function YamlOf(v: Value): Yaml {
    match v
    case One(t) => Text(Meaning(t))
    case Many(ts) => List(TextsOf(ts))
  }

  function FieldsOf(attributes: seq<Attribute>): seq<Field> {
    if attributes == [] then [] else [Field(attributes[0].name, YamlOf(attributes[0].value))] + FieldsOf(attributes[1..])
  }

  function DictOf(r: Record): Yaml {
    Dict([Field(r.idName, Text(Meaning(r.id)))] + FieldsOf(r.attributes))
  }

  function DictsOf(records: seq<Record>): seq<Yaml> {
    if records == [] then [] else [DictOf(records[0])] + DictsOf(records[1..])
  }

  // ---------- when it is printable ----------

  predicate IsKey(name: string) {
    name != "" && IsKeyStart(name[0]) && forall i :: 0 <= i < |name| ==> IsKeyChar(name[i])
  }

  /** A bare `[]` as the value of an attribute would read as the empty list. */
  predicate PrintableInline(t: Token) {
    Printable(t) && t != Bare("[]")
  }

  predicate PrintableValue(v: Value) {
    match v
    case One(t) => PrintableInline(t)
    case Many(ts) => forall i :: 0 <= i < |ts| ==> Printable(ts[i])
  }

  predicate PrintableAttributes(attributes: seq<Attribute>, seen: set<string>) {
    attributes != [] ==>
      && IsKey(attributes[0].name) && attributes[0].name !in seen
      && PrintableValue(attributes[0].value)
      && PrintableAttributes(attributes[1..], seen + {attributes[0].name})
  }

  predicate PrintableRecord(r: Record) {
    IsKey(r.idName) && PrintableInline(r.id) && PrintableAttributes(r.attributes, {r.idName})
  }

  // ---------- logical lines of what is printed ----------

  function ItemLogical(tokens: seq<Token>): seq<Line> {
    if tokens == [] then [] else [Line(4, "- " + Written(tokens[0]))] + ItemLogical(tokens[1..])
  }

  function AttributeLogical(a: Attribute): seq<Line> {
    match a.value
    case One(t) => [Line(2, a.name + ": " + Written(t))]
    case Many(ts) => if ts == [] then [Line(2, a.name + ": []")] else [Line(2, a.name + ":")] + ItemLogical(ts)
  }

  function AttributesLogical(attributes: seq<Attribute>): seq<Line> {
    if attributes == [] then [] else AttributeLogical(attributes[0]) + AttributesLogical(attributes[1..])
  }

  function RecordLogical(r: Record): seq<Line> {
    [Line(0, "- " + (r.idName + ": " + Written(r.id)))] + AttributesLogical(r.attributes)
  }

  function RecordsLogical(records: seq<Record>): seq<Line> {
    if records == [] then [] else RecordLogical(records[0]) + RecordsLogical(records[1..])
  }

  /** Compact text after blanks is one logical line, indented by them. */
  lemma {:induction false} IndentedLine(n: nat, blanks: string, s: string)
    requires |blanks| == n && (forall i :: 0 <= i < n ==> blanks[i] == ' ')
    requires s != "" && Trimmed(s) && s[0] != '#'
    ensures LogicalLine(blanks + s) == [Line(n, s)]
    decreases n
  {
    if n == 0 {
      assert blanks + s == s;
      StripTrimmed(s);
    } else {
      IndentedLine(n - 1, blanks[1..], s);
      assert blanks + s == [' '] + (blanks[1..] + s);
      StripSpaceFirst(' ', blanks[1..] + s);
      IndentSpaceFirst(blanks[1..] + s);
    }
  }

  lemma PairIsCompact(p: string, s: string)
    requires p != "" && OneLine(p) && !IsSpace(p[0]) && Compact(s)
    ensures Compact(p + s)
  {
  }

  lemma KeyIsOneLine(name: string)
    requires IsKey(name)
    ensures OneLine(name) && !IsSpace(name[0]) && name[0] != '#'
  {
  }

  lemma KeyLineIsCompact(name: string, s: string)
    requires IsKey(name) && Compact(s)
    ensures Compact(name + ": " + s) && Compact(name + ":")
    ensures (name + ": " + s)[0] == name[0] && (name + ":")[0] == name[0]
  {
    KeyIsOneLine(name);
    assert OneLine(name + ": ");
    PairIsCompact(name + ": ", s);
    PairIsCompact(name, ":");
  }
}
