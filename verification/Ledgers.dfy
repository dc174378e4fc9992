/** The three ledgers' records, the loops that print them, and their way back through the reader. */
module Ledgers {
  import opened CanonicalYaml
  import opened Tokens
  import opened YamlAppend
  import opened Rendering
  import opened PrintParse

  datatype Claim = Claim(
    requirementId: string, stage: string, status: string, implementationRefs: seq<string>, testRefs: seq<string>,
    evidenceRefs: seq<string>, assurance: string, limitations: seq<string>, source: string)

  datatype Risk = Risk(
    id: string, category: string, severity: string, status: string, description: string, mitigation: string,
    evidenceRefs: seq<string>, reviewPoint: string)

  datatype Evidence = Evidence(id: string, path: string, title: string, scope: string, assurance: string, date: string)

  // ---------- records ----------

  function Bares(texts: seq<string>): (ts: seq<Token>)
    ensures |ts| == |texts| && forall i :: 0 <= i < |ts| ==> ts[i] == Bare(texts[i])
  {
    seq(|texts|, i requires 0 <= i < |texts| => Bare(texts[i]))
  }

  function Quoteds(texts: seq<string>): (ts: seq<Token>)
    ensures |ts| == |texts| && forall i :: 0 <= i < |ts| ==> ts[i] == Quoted(texts[i])
  {
    seq(|texts|, i requires 0 <= i < |texts| => Quoted(texts[i]))
  }

  function ClaimRecord(c: Claim): Record {
    Record("requirement_id", Bare(c.requirementId), [
      Attribute("stage", One(Bare(c.stage))),
      Attribute("status", One(Bare(c.status))),
      Attribute("implementation_refs", Many(Bares(c.implementationRefs))),
      Attribute("test_refs", Many(Bares(c.testRefs))),
      Attribute("evidence_refs", Many(Bares(c.evidenceRefs))),
      Attribute("assurance", One(Bare(c.assurance))),
      Attribute("limitations", Many(Quoteds(c.limitations))),
      Attribute("source", One(Quoted(c.source)))])
  }

  function RiskRecord(r: Risk): Record {
    Record("id", Bare(r.id), [
      Attribute("category", One(Bare(r.category))),
      Attribute("severity", One(Bare(r.severity))),
      Attribute("status", One(Bare(r.status))),
      Attribute("description", One(Quoted(r.description))),
      Attribute("mitigation", One(Quoted(r.mitigation))),
      Attribute("evidence_refs", Many(Bares(r.evidenceRefs))),
      Attribute("review_point", One(Quoted(r.reviewPoint)))])
  }

  function EvidenceRecord(e: Evidence): Record {
    Record("id", Bare(e.id), [
      Attribute("path", One(Bare(e.path))),
      Attribute("title", One(Quoted(e.title))),
      Attribute("scope", One(Quoted(e.scope))),
      Attribute("assurance", One(Bare(e.assurance))),
      Attribute("date", One(Quoted(e.date)))])
  }

  // ---------- the printing loops ----------

  method AppendList(lines: seq<string>, name: string, tokens: seq<Token>) returns (lines': seq<string>)
    ensures lines' == lines + AttributeLines(Attribute(name, Many(tokens)))
  {
    if tokens == [] {
      return lines + ["  " + (name + ": []")];
    }
    lines' := lines + ["  " + (name + ":")];
    ghost var head := lines';
    for i := 0 to |tokens|
      invariant lines' == head + ItemLines(tokens[..i])
    {
      ItemLinesNext(tokens[..i], tokens[i]);
      assert tokens[..i + 1] == tokens[..i] + [tokens[i]];
      Reassociate(head, ItemLines(tokens[..i]), ["    - " + Written(tokens[i])]);
      lines' := lines' + ["    - " + Written(tokens[i])];
    }
    assert tokens[..|tokens|] == tokens;
    Reassociate(lines, ["  " + (name + ":")], ItemLines(tokens));
  }

  lemma {:induction false} ItemLinesNext(ts: seq<Token>, t: Token)
    ensures ItemLines(ts + [t]) == ItemLines(ts) + ["    - " + Written(t)]
  {
    if ts == [] {
      assert ts + [t] == [t] && [t][1..] == [];
    } else {
      assert (ts + [t])[1..] == ts[1..] + [t];
      ItemLinesNext(ts[1..], t);
    }
  }

  method AppendAttributes(lines: seq<string>, attributes: seq<Attribute>) returns (lines': seq<string>)
    ensures lines' == lines + AttributesLines(attributes)
  {
    lines' := lines;
    assert lines + [] == lines;
    for i := 0 to |attributes|
      invariant lines' == lines + AttributesLines(attributes[..i])
    {
      var a := attributes[i];
      AttributesLinesNext(attributes[..i], a);
      assert attributes[..i + 1] == attributes[..i] + [a];
      Reassociate(lines, AttributesLines(attributes[..i]), AttributeLines(a));
      if a.value.One? {
        lines' := lines' + ["  " + (a.name + ": " + Written(a.value.token))];
      } else {
        lines' := AppendList(lines', a.name, a.value.tokens);
      }
    }
    assert attributes[..|attributes|] == attributes;
  }

  lemma {:induction false} AttributesLinesNext(attributes: seq<Attribute>, a: Attribute)
    ensures AttributesLines(attributes + [a]) == AttributesLines(attributes) + AttributeLines(a)
  {
    if attributes == [] {
      assert attributes + [a] == [a] && [a][1..] == [];
    } else {
      assert (attributes + [a])[1..] == attributes[1..] + [a];
      AttributesLinesNext(attributes[1..], a);
      Reassociate(AttributeLines(attributes[0]), AttributesLines(attributes[1..]), AttributeLines(a));
    }
  }

  method AppendRecord(lines: seq<string>, gap: bool, r: Record) returns (lines': seq<string>)
    ensures lines' == lines + (if gap then [""] else []) + RecordLines(r)
  {
    lines' := lines;
    if gap {
      lines' := lines' + [""];
    } else {
      assert lines + [] == lines;
    }
    ghost var before := lines';
    lines' := lines' + ["- " + (r.idName + ": " + Written(r.id))];
    lines' := AppendAttributes(lines', r.attributes);
    Reassociate(before, ["- " + (r.idName + ": " + Written(r.id))], AttributesLines(r.attributes));
  }

  /** The loop all three ledgers share: header, then each record, with or without an empty line in between. */
  method RenderRecords(header: seq<string>, records: seq<Record>, spaced: bool) returns (text: string)
    ensures text == Render(header, records, spaced)
  {
    if records == [] { return ""; }
    var lines := header;
    assert header + [] == header;
    for i := 0 to |records|
      invariant lines == header + RecordsLines(records[..i], spaced)
    {
      RecordsLinesNext(records[..i], records[i], spaced);
      assert records[..i + 1] == records[..i] + [records[i]];
      ghost var gap := if i > 0 && spaced then [""] else [];
      lines := AppendRecord(lines, i > 0 && spaced, records[i]);
      JoinTail(header, RecordsLines(records[..i], spaced), gap, RecordLines(records[i]));
    }
    assert records[..|records|] == records;
    text := Unlines(lines);
  }

  lemma {:induction false} RecordsLinesNext(records: seq<Record>, r: Record, spaced: bool)
    ensures RecordsLines(records + [r], spaced)
         == RecordsLines(records, spaced) + (if records != [] && spaced then [""] else []) + RecordLines(r)
    decreases |records|
  {
    if records == [] {
      assert records + [r] == [r];
      assert [] + [] + RecordLines(r) == RecordLines(r);
    } else {
      var first, gap := RecordLines(records[0]), if spaced then [""] else [];
      assert (records + [r])[1..] == records[1..] + [r];
      RecordsLinesNext(records[1..], r, spaced);
      if |records| == 1 {
        assert records[1..] == [];
        assert first + gap + RecordLines(r) == first + gap + ([] + [] + RecordLines(r));
      } else {
        JoinTail(first + gap, RecordsLines(records[1..], spaced), gap, RecordLines(r));
      }
    }
  }

  lemma JoinTail<T>(a: seq<T>, b: seq<T>, c: seq<T>, d: seq<T>)
    ensures a + (b + c + d) == a + b + c + d
  {
  }

  // ---------- the way back ----------

  function BareTexts(texts: seq<string>): Yaml {
    List(seq(|texts|, i requires 0 <= i < |texts| => Text(texts[i])))
  }

  function CleanedTexts(texts: seq<string>): Yaml {
    List(seq(|texts|, i requires 0 <= i < |texts| => Text(Cleaned(texts[i]))))
  }

  /** What a claim is when it is read: quoted text has lost its carriage returns, line feeds and tabs. */
  function ClaimDict(c: Claim): Yaml {
    Dict([
      Field("requirement_id", Text(c.requirementId)),
      Field("stage", Text(c.stage)),
      Field("status", Text(c.status)),
      Field("implementation_refs", BareTexts(c.implementationRefs)),
      Field("test_refs", BareTexts(c.testRefs)),
      Field("evidence_refs", BareTexts(c.evidenceRefs)),
      Field("assurance", Text(c.assurance)),
      Field("limitations", CleanedTexts(c.limitations)),
      Field("source", Text(Cleaned(c.source)))])
  }

  function RiskDict(r: Risk): Yaml {
    Dict([
      Field("id", Text(r.id)),
      Field("category", Text(r.category)),
      Field("severity", Text(r.severity)),
      Field("status", Text(r.status)),
      Field("description", Text(Cleaned(r.description))),
      Field("mitigation", Text(Cleaned(r.mitigation))),
      Field("evidence_refs", BareTexts(r.evidenceRefs)),
      Field("review_point", Text(Cleaned(r.reviewPoint)))])
  }

  function EvidenceDict(e: Evidence): Yaml {
    Dict([
      Field("id", Text(e.id)),
      Field("path", Text(e.path)),
      Field("title", Text(Cleaned(e.title))),
      Field("scope", Text(Cleaned(e.scope))),
      Field("assurance", Text(e.assurance)),
      Field("date", Text(Cleaned(e.date)))])
  }

  predicate BareOk(s: string) {
    PrintableInline(Bare(s))
  }

  predicate BaresOk(texts: seq<string>) {
    forall i :: 0 <= i < |texts| ==> Printable(Bare(texts[i]))
  }

  predicate QuotedOk(s: string) {
    Printable(Quoted(s))
  }

  predicate PrintableClaim(c: Claim) {
    && BareOk(c.requirementId) && BareOk(c.stage) && BareOk(c.status) && BareOk(c.assurance)
    && BaresOk(c.implementationRefs) && BaresOk(c.testRefs) && BaresOk(c.evidenceRefs)
    && (forall i :: 0 <= i < |c.limitations| ==> QuotedOk(c.limitations[i])) && QuotedOk(c.source)
  }

  predicate PrintableRisk(r: Risk) {
    && BareOk(r.id) && BareOk(r.category) && BareOk(r.severity) && BareOk(r.status)
    && QuotedOk(r.description) && QuotedOk(r.mitigation) && BaresOk(r.evidenceRefs) && QuotedOk(r.reviewPoint)
  }

  predicate PrintableEvidence(e: Evidence) {
    && BareOk(e.id) && BareOk(e.path) && QuotedOk(e.title) && QuotedOk(e.scope) && BareOk(e.assurance) && QuotedOk(e.date)
  }

  lemma {:induction false} AllPrintable(attributes: seq<Attribute>, seen: set<string>)
    requires forall i :: 0 <= i < |attributes| ==>
               IsKey(attributes[i].name) && attributes[i].name !in seen && PrintableValue(attributes[i].value)
    requires forall i, j :: 0 <= i < j < |attributes| ==> attributes[i].name != attributes[j].name
    ensures PrintableAttributes(attributes, seen)
    decreases |attributes|
  {
    if attributes != [] {
      AllPrintable(attributes[1..], seen + {attributes[0].name});
    }
  }

  lemma {:induction false} FieldsAt(attributes: seq<Attribute>, i: nat)
    requires i < |attributes|
    ensures |FieldsOf(attributes)| == |attributes|
    ensures FieldsOf(attributes)[i] == Field(attributes[i].name, YamlOf(attributes[i].value))
  {
    if |attributes| > 1 {
      FieldsAt(attributes[1..], if i > 0 then i - 1 else 0);
    }
  }

  lemma {:induction false} FieldsAre(attributes: seq<Attribute>, fields: seq<Field>)
    requires attributes != [] && |fields| == |attributes|
    requires forall i :: 0 <= i < |fields| ==> fields[i] == Field(attributes[i].name, YamlOf(attributes[i].value))
    ensures FieldsOf(attributes) == fields
  {
    FieldsAt(attributes, 0);
    forall i | 0 <= i < |fields| ensures FieldsOf(attributes)[i] == fields[i] {
      FieldsAt(attributes, i);
    }
  }

  lemma {:induction false} TextsAt(ts: seq<Token>, i: nat)
    requires i < |ts|
    ensures |TextsOf(ts)| == |ts| && TextsOf(ts)[i] == Text(Meaning(ts[i]))
  {
    if |ts| > 1 {
      TextsAt(ts[1..], if i > 0 then i - 1 else 0);
    }
  }

  lemma ListsAre(texts: seq<string>)
    ensures YamlOf(Many(Bares(texts))) == BareTexts(texts)
    ensures YamlOf(Many(Quoteds(texts))) == CleanedTexts(texts)
  {
    if texts != [] {
      TextsAt(Bares(texts), 0);
      TextsAt(Quoteds(texts), 0);
    }
    forall i | 0 <= i < |texts|
      ensures TextsOf(Bares(texts))[i] == Text(texts[i]) && TextsOf(Quoteds(texts))[i] == Text(Cleaned(texts[i]))
    {
      TextsAt(Bares(texts), i);
      TextsAt(Quoteds(texts), i);
    }
    assert TextsOf(Bares(texts)) == BareTexts(texts).items;
    assert TextsOf(Quoteds(texts)) == CleanedTexts(texts).items;
  }

  lemma ClaimReads(c: Claim)
    ensures DictOf(ClaimRecord(c)) == ClaimDict(c)
  {
    ListsAre(c.implementationRefs);
    ListsAre(c.testRefs);
    ListsAre(c.evidenceRefs);
    ListsAre(c.limitations);
    FieldsAre(ClaimRecord(c).attributes, ClaimDict(c).fields[1..]);
    assert [ClaimDict(c).fields[0]] + ClaimDict(c).fields[1..] == ClaimDict(c).fields;
  }

  lemma RiskReads(r: Risk)
    ensures DictOf(RiskRecord(r)) == RiskDict(r)
  {
    ListsAre(r.evidenceRefs);
    FieldsAre(RiskRecord(r).attributes, RiskDict(r).fields[1..]);
    assert [RiskDict(r).fields[0]] + RiskDict(r).fields[1..] == RiskDict(r).fields;
  }

  lemma EvidenceReads(e: Evidence)
    ensures DictOf(EvidenceRecord(e)) == EvidenceDict(e)
  {
    FieldsAre(EvidenceRecord(e).attributes, EvidenceDict(e).fields[1..]);
    assert [EvidenceDict(e).fields[0]] + EvidenceDict(e).fields[1..] == EvidenceDict(e).fields;
  }

  lemma ClaimNames()
    ensures IsKey("requirement_id") && IsKey("stage") && IsKey("status") && IsKey("implementation_refs")
    ensures IsKey("test_refs") && IsKey("evidence_refs") && IsKey("assurance") && IsKey("limitations") && IsKey("source")
    ensures "status" != "source" && "test_refs" != "assurance"
  {
    assert "status"[1] != "source"[1] && "test_refs"[0] != "assurance"[0];
  }

  lemma RiskNames()
    ensures IsKey("id") && IsKey("category") && IsKey("severity") && IsKey("status") && IsKey("description")
    ensures IsKey("mitigation") && IsKey("evidence_refs") && IsKey("review_point")
    ensures "category" != "severity"
  {
    assert "category"[0] != "severity"[0];
  }

  lemma EvidenceNames()
    ensures IsKey("id") && IsKey("path") && IsKey("title") && IsKey("scope") && IsKey("assurance") && IsKey("date")
    ensures "path" != "date" && "title" != "scope"
  {
    assert "path"[0] != "date"[0] && "title"[0] != "scope"[0];
  }

  predicate NamesAre(attributes: seq<Attribute>, names: seq<string>) {
    |attributes| == |names| && forall i :: 0 <= i < |names| ==> attributes[i].name == names[i]
  }

  /** Distinct keys, none of them the record's own. */
  predicate KeysOk(names: seq<string>, own: string) {
    && (forall i :: 0 <= i < |names| ==> IsKey(names[i]) && names[i] != own)
    && forall i, j :: 0 <= i < j < |names| ==> names[i] != names[j]
  }

  const CLAIM_KEYS := [
    "stage", "status", "implementation_refs", "test_refs", "evidence_refs", "assurance", "limitations", "source"]
  const RISK_KEYS := [
    "category", "severity", "status", "description", "mitigation", "evidence_refs", "review_point"]
  const EVIDENCE_KEYS := ["path", "title", "scope", "assurance", "date"]

  lemma ClaimKeysAreOk()
    ensures KeysOk(CLAIM_KEYS, "requirement_id")
  {
    ClaimNames();
  }

  lemma RiskKeysAreOk()
    ensures KeysOk(RISK_KEYS, "id")
  {
    RiskNames();
  }

  lemma EvidenceKeysAreOk()
    ensures KeysOk(EVIDENCE_KEYS, "id")
  {
    EvidenceNames();
  }

  lemma NamedArePrintable(attributes: seq<Attribute>, names: seq<string>, own: string)
    requires NamesAre(attributes, names) && KeysOk(names, own)
    requires forall i :: 0 <= i < |attributes| ==> PrintableValue(attributes[i].value)
    ensures PrintableAttributes(attributes, {own})
  {
    AllPrintable(attributes, {own});
  }

  lemma ClaimIsPrintable(c: Claim)
    requires PrintableClaim(c)
    ensures PrintableRecord(ClaimRecord(c))
  {
    ClaimNames();
    ClaimKeysAreOk();
    NamedArePrintable(ClaimRecord(c).attributes, CLAIM_KEYS, "requirement_id");
  }

  lemma RiskIsPrintable(r: Risk)
    requires PrintableRisk(r)
    ensures PrintableRecord(RiskRecord(r))
  {
    RiskNames();
    RiskKeysAreOk();
    NamedArePrintable(RiskRecord(r).attributes, RISK_KEYS, "id");
  }

  lemma EvidenceIsPrintable(e: Evidence)
    requires PrintableEvidence(e)
    ensures PrintableRecord(EvidenceRecord(e))
  {
    EvidenceNames();
    EvidenceKeysAreOk();
    NamedArePrintable(EvidenceRecord(e).attributes, EVIDENCE_KEYS, "id");
  }

  lemma {:induction false} DictsAt(records: seq<Record>, i: nat)
    requires i < |records|
    ensures |DictsOf(records)| == |records| && DictsOf(records)[i] == DictOf(records[i])
  {
    if |records| > 1 {
      DictsAt(records[1..], if i > 0 then i - 1 else 0);
    }
  }

  lemma {:induction false} DictsAre(records: seq<Record>, dicts: seq<Yaml>)
    requires |dicts| == |records| && forall i :: 0 <= i < |dicts| ==> DictOf(records[i]) == dicts[i]
    ensures DictsOf(records) == dicts
  {
    if records != [] {
      DictsAt(records, 0);
    }
    forall i | 0 <= i < |dicts| ensures DictsOf(records)[i] == dicts[i] {
      DictsAt(records, i);
    }
  }

  function ClaimDicts(claims: seq<Claim>): (ds: seq<Yaml>)
    ensures |ds| == |claims| && forall i :: 0 <= i < |ds| ==> ds[i] == ClaimDict(claims[i])
  {
    seq(|claims|, i requires 0 <= i < |claims| => ClaimDict(claims[i]))
  }

  function ClaimsText(header: seq<string>, claims: seq<Claim>): string {
    Render(header, seq(|claims|, i requires 0 <= i < |claims| => ClaimRecord(claims[i])), true)
  }

  lemma ClaimsReadBack(header: seq<string>, claims: seq<Claim>)
    requires Comments(header) && claims != [] && forall i :: 0 <= i < |claims| ==> PrintableClaim(claims[i])
    ensures ParsesToList(ClaimsText(header, claims), ClaimDicts(claims))
  {
    var records := seq(|claims|, i requires 0 <= i < |claims| => ClaimRecord(claims[i]));
    forall i | 0 <= i < |claims| ensures PrintableRecord(records[i]) && DictOf(records[i]) == ClaimDicts(claims)[i] {
      ClaimIsPrintable(claims[i]);
      ClaimReads(claims[i]);
    }
    PrintThenParse(header, records, true);
    DictsAre(records, ClaimDicts(claims));
  }

  method RenderClaims(header: seq<string>, claims: seq<Claim>) returns (text: string)
    ensures text == ClaimsText(header, claims)
    ensures Comments(header) && claims != [] && (forall i :: 0 <= i < |claims| ==> PrintableClaim(claims[i])) ==>
              ParsesToList(text, ClaimDicts(claims))
  {
    text := RenderRecords(header, seq(|claims|, i requires 0 <= i < |claims| => ClaimRecord(claims[i])), true);
    if Comments(header) && claims != [] && forall i :: 0 <= i < |claims| ==> PrintableClaim(claims[i]) {
      ClaimsReadBack(header, claims);
    }
  }

  function RiskDicts(risks: seq<Risk>): (ds: seq<Yaml>)
    ensures |ds| == |risks| && forall i :: 0 <= i < |ds| ==> ds[i] == RiskDict(risks[i])
  {
    seq(|risks|, i requires 0 <= i < |risks| => RiskDict(risks[i]))
  }

  lemma RisksReadBack(header: seq<string>, risks: seq<Risk>, records: seq<Record>)
    requires Comments(header) && risks != [] && |records| == |risks|
    requires forall i :: 0 <= i < |risks| ==> PrintableRisk(risks[i]) && records[i] == RiskRecord(risks[i])
    ensures ParsesToList(Render(header, records, true), RiskDicts(risks))
  {
    forall i | 0 <= i < |risks| ensures PrintableRecord(records[i]) && DictOf(records[i]) == RiskDicts(risks)[i] {
      RiskIsPrintable(risks[i]);
      RiskReads(risks[i]);
    }
    PrintThenParse(header, records, true);
    DictsAre(records, RiskDicts(risks));
  }

  method RenderRisks(header: seq<string>, risks: seq<Risk>) returns (text: string)
    ensures risks == [] ==> text == ""
    ensures Comments(header) && risks != [] && (forall i :: 0 <= i < |risks| ==> PrintableRisk(risks[i])) ==>
              ParsesToList(text, RiskDicts(risks))
  {
    var records := seq(|risks|, i requires 0 <= i < |risks| => RiskRecord(risks[i]));
    text := RenderRecords(header, records, true);
    if Comments(header) && risks != [] && forall i :: 0 <= i < |risks| ==> PrintableRisk(risks[i]) {
      RisksReadBack(header, risks, records);
    }
  }

  function EvidenceDicts(entries: seq<Evidence>): (ds: seq<Yaml>)
    ensures |ds| == |entries| && forall i :: 0 <= i < |ds| ==> ds[i] == EvidenceDict(entries[i])
  {
    seq(|entries|, i requires 0 <= i < |entries| => EvidenceDict(entries[i]))
  }

  lemma EvidenceReadsBack(header: seq<string>, entries: seq<Evidence>, records: seq<Record>)
    requires Comments(header) && entries != [] && |records| == |entries|
    requires forall i :: 0 <= i < |entries| ==> PrintableEvidence(entries[i]) && records[i] == EvidenceRecord(entries[i])
    ensures ParsesToList(Render(header, records, false), EvidenceDicts(entries))
  {
    forall i | 0 <= i < |entries| ensures PrintableRecord(records[i]) && DictOf(records[i]) == EvidenceDicts(entries)[i] {
      EvidenceIsPrintable(entries[i]);
      EvidenceReads(entries[i]);
    }
    PrintThenParse(header, records, false);
    DictsAre(records, EvidenceDicts(entries));
  }

  method RenderEvidence(header: seq<string>, entries: seq<Evidence>) returns (text: string)
    ensures entries == [] ==> text == ""
    ensures Comments(header) && entries != [] && (forall i :: 0 <= i < |entries| ==> PrintableEvidence(entries[i])) ==>
              ParsesToList(text, EvidenceDicts(entries))
  {
    var records := seq(|entries|, i requires 0 <= i < |entries| => EvidenceRecord(entries[i]));
    text := RenderRecords(header, records, false);
    if Comments(header) && entries != [] && forall i :: 0 <= i < |entries| ==> PrintableEvidence(entries[i]) {
      EvidenceReadsBack(header, entries, records);
    }
  }
}
