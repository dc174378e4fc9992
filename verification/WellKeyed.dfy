/** No mapping of anything the reader accepts has a key twice. */
module WellKeyed {
  import opened Wrappers
  import opened Texts
  import opened CanonicalYaml

  predicate KeysDiffer(fields: seq<Field>) {
    forall i, j :: 0 <= i < j < |fields| ==> fields[i].key != fields[j].key
  }

  /** Every mapping inside has distinct keys. */
  ghost predicate KeysDistinct(v: Yaml) {
    match v
    case Text(_) => true
    case List(items) => forall i :: 0 <= i < |items| ==> KeysDistinct(items[i])
    case Dict(fields) =>
      && KeysDiffer(fields)
      && (forall i :: 0 <= i < |fields| ==> KeysDistinct(fields[i].value))
  }

  /** Fields whose keys are distinct and not among those seen before. */
  ghost predicate FieldsDistinct(fields: seq<Field>, seen: set<string>) {
    && KeysDiffer(fields)
    && (forall i :: 0 <= i < |fields| ==> fields[i].key !in seen && KeysDistinct(fields[i].value))
  }

  lemma FieldBefore(f: Field, fields: seq<Field>, seen: set<string>)
    requires f.key !in seen && KeysDistinct(f.value) && FieldsDistinct(fields, seen + {f.key})
    ensures FieldsDistinct([f] + fields, seen)
  {
  }

  lemma {:induction false} BlockIsWellKeyed(ls: seq<Line>, indent: nat)
    requires ls != [] && ParseBlock(ls, indent).Ok?
    ensures KeysDistinct(ParseBlock(ls, indent).value.value)
    decreases Size(ls), 3
  {
    if IsDash(ls[0].text) {
      SeqIsWellKeyed(ls, indent);
    } else {
      DictIsWellKeyed(ls, indent);
    }
  }

  lemma {:induction false} DictIsWellKeyed(ls: seq<Line>, indent: nat)
    requires ParseDict(ls, indent).Ok?
    ensures KeysDistinct(ParseDict(ls, indent).value.value)
    decreases Size(ls), 2
  {
    MapIsWellKeyed(ls, indent, {});
  }

  lemma {:induction false} ItemIsWellKeyed(ls: seq<Line>, indent: nat)
    requires ls != [] && IsDash(ls[0].text) && ParseItem(ls, indent).Ok?
    ensures KeysDistinct(ParseItem(ls, indent).value.value)
    decreases Size(ls), 0
  {
    var rest := Strip(ls[0].text[1..]);
    if rest == "" {
      BlockIsWellKeyed(ls[1..], ls[1].indent);
    } else if MatchKey(rest).Some? {
      var merged := [Line(indent + 2, rest)] + ls[1..];
      assert merged[1..] == ls[1..];
      DictIsWellKeyed(merged, indent + 2);
    }
  }

  lemma {:induction false} SeqIsWellKeyed(ls: seq<Line>, indent: nat)
    requires ParseSeq(ls, indent).Ok?
    ensures var items := ParseSeq(ls, indent).value.value;
            forall i :: 0 <= i < |items| ==> KeysDistinct(items[i])
    decreases Size(ls), 1
  {
    if ls != [] && ls[0].indent == indent && IsDash(ls[0].text) {
      ItemIsWellKeyed(ls, indent);
      SeqIsWellKeyed(ParseItem(ls, indent).value.rest, indent);
    }
  }

  lemma {:induction false} ValueIsWellKeyed(ls: seq<Line>, indent: nat, inline: Option<string>)
    requires ls != [] && ParseValue(ls, indent, inline).Ok?
    ensures KeysDistinct(ParseValue(ls, indent, inline).value.value)
    decreases Size(ls), 0
  {
    if inline.None? || Strip(inline.value) == "" {
      BlockIsWellKeyed(ls[1..], ls[1].indent);
    }
  }

  lemma {:induction false} MapIsWellKeyed(ls: seq<Line>, indent: nat, seen: set<string>)
    requires ParseMap(ls, indent, seen).Ok?
    ensures FieldsDistinct(ParseMap(ls, indent, seen).value.value, seen)
    decreases Size(ls), 1
  {
    if ls != [] && ls[0].indent == indent {
      var m := MatchKey(ls[0].text).value;
      ValueIsWellKeyed(ls, indent, m.rest);
      var v := ParseValue(ls, indent, m.rest).value;
      MapIsWellKeyed(v.rest, indent, seen + {m.key});
      FieldBefore(Field(m.key, v.value), ParseMap(v.rest, indent, seen + {m.key}).value.value, seen);
    }
  }

  /** Whatever text is accepted, at any depth. */
  lemma ParsedIsWellKeyed(text: string)
    requires Parse(text).Ok? && Parse(text).value.Some?
    ensures KeysDistinct(Parse(text).value.value)
  {
    BlockIsWellKeyed(Logical(text), 0);
  }
}
