/** What the ledger says of each requirement after the generated block has been appended. */
module Registrations {
  import opened Wrappers
  import opened CanonicalYaml
  import opened YamlAppend
  import opened Tokens
  import opened PrintParse
  import opened Ledgers
  import opened Backfill
  import opened WellKeyed

  // ---------- the first entry about a requirement ----------

  lemma {:induction false} FirstIsFirst(claims: seq<Yaml>, id: string, k: nat)
    requires k < |claims| && IdOf(claims[k]) == Some(id)
    requires forall i :: 0 <= i < k ==> IdOf(claims[i]) != Some(id)
    ensures FirstWith(claims, id) == Some(claims[k])
    decreases |claims|
  {
    var n := |claims| - 1;
    if k < n {
      FirstIsFirst(claims[..n], id, k);
    } else {
      NoneWith(claims[..n], id);
    }
  }

  lemma {:induction false} NoneWith(claims: seq<Yaml>, id: string)
    requires forall i :: 0 <= i < |claims| ==> IdOf(claims[i]) != Some(id)
    ensures FirstWith(claims, id) == None
    decreases |claims|
  {
    if claims != [] {
      NoneWith(claims[..|claims| - 1], id);
    }
  }

  lemma {:induction false} FirstIsThere(claims: seq<Yaml>, id: string) returns (k: nat)
    requires FirstWith(claims, id).Some?
    ensures k < |claims| && FirstWith(claims, id) == Some(claims[k]) && IdOf(claims[k]) == Some(id)
    decreases |claims|
  {
    var n := |claims| - 1;
    if FirstWith(claims[..n], id).Some? {
      k := FirstIsThere(claims[..n], id);
    } else {
      k := n;
    }
  }

  /** Appended entries decide nothing about what was claimed before, and everything about what was not. */
  lemma {:induction false} FirstAfterAppend(a: seq<Yaml>, b: seq<Yaml>, id: string)
    ensures FirstWith(a + b, id) == if FirstWith(a, id).Some? then FirstWith(a, id) else FirstWith(b, id)
    decreases |b|
  {
    if b == [] {
      assert a + b == a;
    } else {
      var n := |b| - 1;
      assert (a + b)[..|a + b| - 1] == a + b[..n];
      FirstAfterAppend(a, b[..n], id);
    }
  }

  // ---------- what is registered ----------

  predicate ListsTexts(value: Option<Yaml>, texts: seq<string>) {
    && value.Some? && value.value.List? && |value.value.items| == |texts|
    && forall i :: 0 <= i < |texts| ==> value.value.items[i] == Text(texts[i])
  }

  predicate ListsCleaned(value: Option<Yaml>, texts: seq<string>) {
    && value.Some? && value.value.List? && |value.value.items| == |texts|
    && forall i :: 0 <= i < |texts| ==> value.value.items[i] == Text(Cleaned(texts[i]))
  }

  /** The entry registers the requirement for stage E, as partly passed, with what the catalogue says of it. */
  predicate Registers(entry: Yaml, id: string, meta: Meta) {
    && entry.Dict?
    && Lookup(entry.fields, "requirement_id") == Some(Text(id))
    && Lookup(entry.fields, "stage") == Some(Text("E"))
    && Lookup(entry.fields, "status") == Some(Text("PARTIAL_PASS"))
    && ListsTexts(Lookup(entry.fields, "implementation_refs"), meta.implementationRefs)
    && ListsTexts(Lookup(entry.fields, "test_refs"), meta.testRefs)
    && ListsTexts(Lookup(entry.fields, "evidence_refs"), meta.evidenceRefs)
    && Lookup(entry.fields, "assurance") == Some(Text(meta.assurance))
    && ListsCleaned(Lookup(entry.fields, "limitations"), meta.limitations)
    && Lookup(entry.fields, "source") == Some(Text(Cleaned(meta.source)))
  }

  lemma {:induction false} LookupAt(fields: seq<Field>, k: nat)
    requires k < |fields| && forall i :: 0 <= i < k ==> fields[i].key != fields[k].key
    ensures Lookup(fields, fields[k].key) == Some(fields[k].value)
  {
    if k > 0 {
      assert fields[1..][k - 1] == fields[k];
      LookupAt(fields[1..], k - 1);
    }
  }

  lemma DistinctLookups(fields: seq<Field>)
    requires KeysDiffer(fields)
    ensures forall k :: 0 <= k < |fields| ==> Lookup(fields, fields[k].key) == Some(fields[k].value)
  {
    forall k | 0 <= k < |fields| ensures Lookup(fields, fields[k].key) == Some(fields[k].value) {
      LookupAt(fields, k);
    }
  }

  lemma ClaimKeysAreDistinct(c: Claim)
    ensures KeysDiffer(ClaimDict(c).fields)
  {
    assert "status"[1] == 't' && "source"[1] == 'o' && "test_refs"[0] == 't' && "assurance"[0] == 'a';
  }

  lemma RiskKeysAreDistinct(r: Risk)
    ensures KeysDiffer(RiskDict(r).fields)
  {
    assert "category"[0] == 'c' && "severity"[0] == 's';
  }

  lemma EvidenceKeysAreDistinct(e: Evidence)
    ensures KeysDiffer(EvidenceDict(e).fields)
  {
    assert "path"[0] == 'p' && "date"[0] == 'd' && "title"[0] == 't' && "scope"[0] == 's';
  }

  lemma CandidateRegisters(id: string, meta: Meta)
    ensures Registers(ClaimDict(Candidate(id, meta)), id, meta)
  {
    var fields := ClaimDict(Candidate(id, meta)).fields;
    ClaimKeysAreDistinct(Candidate(id, meta));
    DistinctLookups(fields);
    assert fields[0].key == "requirement_id" && fields[1].key == "stage" && fields[2].key == "status";
    assert fields[3].key == "implementation_refs" && fields[4].key == "test_refs" && fields[5].key == "evidence_refs";
    assert fields[6].key == "assurance" && fields[7].key == "limitations" && fields[8].key == "source";
  }

  lemma CandidateIsFirst(missing: seq<string>, catalogue: map<string, Meta>, id: string, entry: Yaml)
    requires Covered(missing, catalogue) && id in missing
    requires FirstWith(ClaimDicts(Candidates(missing, catalogue)), id) == Some(entry)
    ensures id in catalogue && Registers(entry, id, catalogue[id])
  {
    var ds := ClaimDicts(Candidates(missing, catalogue));
    var k := FirstIsThere(ds, id);
    CandidateId(Candidates(missing, catalogue)[k]);
    CandidateRegisters(id, catalogue[id]);
  }

  /**
   After the append, the first entry about each formerly missing requirement registers it with exactly what the
   catalogue says; about every other requirement the first entry is the one it was.
   */
  lemma BackfillRegisters(text: string, items: seq<Yaml>, required: seq<string>, catalogue: map<string, Meta>,
                          header: seq<string>, claims: seq<Claim>, block: string, items': seq<Yaml>, id: string)
    requires ParsesToList(text, items) && Comments(header)
    requires Generated(text, required, catalogue, header) == Ok((claims, block))
    requires forall i :: 0 <= i < |claims| ==> PrintableClaim(claims[i])
    requires items' == items + ClaimDicts(claims)
    ensures ParsesToList(Appended(text, block), items')
    ensures id in required && id !in Ids(items) ==>
              && id in catalogue && FirstWith(items', id).Some?
              && Registers(FirstWith(items', id).value, id, catalogue[id])
    ensures id in Ids(items) ==> FirstWith(items', id) == FirstWith(items, id)
  {
    var missing := Missing(items, required);
    AppendedParses(text, items, header, claims);
    FirstAfterAppend(items, ClaimDicts(claims), id);
    FirstExactlyWhenClaimed(items, id);
    if id in required && id !in Ids(items) {
      MissingMeans(items, required, id);
      CandidateIds(missing, catalogue);
      FirstExactlyWhenClaimed(ClaimDicts(claims), id);
      CandidateIsFirst(missing, catalogue, id, FirstWith(ClaimDicts(claims), id).value);
    }
  }

  // ---------- classifying again ----------

  /** The entry that decides about one requirement, before and after. */
  predicate Decides(items: seq<Yaml>, items': seq<Yaml>, id: string) {
    if id in Ids(items) then FirstWith(items', id) == FirstWith(items, id)
    else FirstWith(items', id).Some? && OfStageE(FirstWith(items', id).value)
  }

  /** One more requirement is claimed for stage E, claimed for another stage, or missing. */
  lemma OneMoreRequired(now: seq<string>, stage: seq<string>, missing: seq<string>, id: string, claimed: bool,
                        ofE: bool)
    requires multiset(now) == multiset(stage) + multiset(missing)
    ensures multiset(now + if claimed && !ofE then [] else [id])
         == multiset(stage + if claimed && ofE then [id] else []) + multiset(missing + if claimed then [] else [id])
  {
    assert now + [] == now && stage + [] == stage && missing + [] == missing;
  }

  lemma {:induction false} Reclassified(items: seq<Yaml>, items': seq<Yaml>, required: seq<string>)
    requires forall id :: id in required ==> Decides(items, items', id)
    ensures multiset(Registered(items', required, true))
         == multiset(Registered(items, required, true)) + multiset(Missing(items, required))
    ensures Registered(items', required, false) == Registered(items, required, false)
    decreases |required|
  {
    if required != [] {
      var n := |required| - 1;
      var id := required[n];
      Reclassified(items, items', required[..n]);
      FirstExactlyWhenClaimed(items, id);
      assert Decides(items, items', id);
      var first := FirstWith(items, id);
      OneMoreRequired(
        Registered(items', required[..n], true), Registered(items, required[..n], true),
        Missing(items, required[..n]), id, first.Some?, first.Some? && OfStageE(first.value));
    }
  }

  /** Classifying again lists what was missing under stage E and leaves everything else where it was. */
  lemma BackfillReclassifies(text: string, items: seq<Yaml>, required: seq<string>, catalogue: map<string, Meta>,
                             header: seq<string>, claims: seq<Claim>, block: string, items': seq<Yaml>)
    requires ParsesToList(text, items) && Comments(header)
    requires Generated(text, required, catalogue, header) == Ok((claims, block))
    requires forall i :: 0 <= i < |claims| ==> PrintableClaim(claims[i])
    requires items' == items + ClaimDicts(claims)
    ensures Missing(items', required) == []
    ensures multiset(Registered(items', required, true))
         == multiset(Registered(items, required, true)) + multiset(Missing(items, required))
    ensures Registered(items', required, false) == Registered(items, required, false)
  {
    BackfillCompletes(text, items, required, catalogue, header, claims, items');
    forall id | id in required ensures Decides(items, items', id) {
      BackfillRegisters(text, items, required, catalogue, header, claims, block, items', id);
    }
    Reclassified(items, items', required);
  }

  // ---------- the other two ledgers ----------

  /** A risk reads back with each text under its own key. */
  lemma RiskReadsBack(r: Risk)
    ensures var fields := RiskDict(r).fields;
            && Lookup(fields, "id") == Some(Text(r.id)) && Lookup(fields, "category") == Some(Text(r.category))
            && Lookup(fields, "severity") == Some(Text(r.severity)) && Lookup(fields, "status") == Some(Text(r.status))
            && Lookup(fields, "description") == Some(Text(Cleaned(r.description)))
            && Lookup(fields, "mitigation") == Some(Text(Cleaned(r.mitigation)))
            && ListsTexts(Lookup(fields, "evidence_refs"), r.evidenceRefs)
            && Lookup(fields, "review_point") == Some(Text(Cleaned(r.reviewPoint)))
  {
    var fields := RiskDict(r).fields;
    RiskKeysAreDistinct(r);
    DistinctLookups(fields);
    assert fields[0].key == "id" && fields[1].key == "category" && fields[2].key == "severity";
    assert fields[3].key == "status" && fields[4].key == "description" && fields[5].key == "mitigation";
    assert fields[6].key == "evidence_refs" && fields[7].key == "review_point";
  }

  /** So does an evidence entry. */
  lemma EvidenceReadsBack(e: Evidence)
    ensures var fields := EvidenceDict(e).fields;
            && Lookup(fields, "id") == Some(Text(e.id)) && Lookup(fields, "path") == Some(Text(e.path))
            && Lookup(fields, "title") == Some(Text(Cleaned(e.title)))
            && Lookup(fields, "scope") == Some(Text(Cleaned(e.scope)))
            && Lookup(fields, "assurance") == Some(Text(e.assurance))
            && Lookup(fields, "date") == Some(Text(Cleaned(e.date)))
  {
    var fields := EvidenceDict(e).fields;
    EvidenceKeysAreDistinct(e);
    DistinctLookups(fields);
    assert fields[0].key == "id" && fields[1].key == "path" && fields[2].key == "title";
    assert fields[3].key == "scope" && fields[4].key == "assurance" && fields[5].key == "date";
  }
}
