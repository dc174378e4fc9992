/** Finding the required claims a ledger lacks, writing them, and appending them to it. */
module Backfill {
  import opened Wrappers
  import opened CanonicalYaml
  import opened YamlAppend
  import opened YamlReader
  import opened PrintParse
  import opened Ledgers

  function Lookup(fields: seq<Field>, key: string): Option<Yaml> {
    if fields == [] then None
    else if fields[0].key == key then Some(fields[0].value)
    else Lookup(fields[1..], key)
  }

  /** The requirement an entry is about, if it is a mapping that names one. */
  function IdOf(entry: Yaml): Option<string> {
    if entry.Dict? then
      var v := Lookup(entry.fields, "requirement_id");
      if v.Some? && v.value.Text? then Some(v.value.text) else None
    else None
  }

  function Ids(claims: seq<Yaml>): seq<string> {
    if claims == [] then []
    else
      var n := |claims| - 1;
      Ids(claims[..n]) + if IdOf(claims[n]).Some? then [IdOf(claims[n]).value] else []
  }

  function Missing(claims: seq<Yaml>, required: seq<string>): seq<string> {
    if required == [] then []
    else
      var n := |required| - 1;
      Missing(claims, required[..n]) + if required[n] in Ids(claims) then [] else [required[n]]
  }

  /** The first entry about a requirement decides the stage it is registered for. */
  function FirstWith(claims: seq<Yaml>, id: string): Option<Yaml> {
    if claims == [] then None
    else
      var n := |claims| - 1;
      var earlier := FirstWith(claims[..n], id);
      if earlier.Some? then earlier else if IdOf(claims[n]) == Some(id) then Some(claims[n]) else None
  }

  predicate OfStageE(entry: Yaml) {
    entry.Dict? && Lookup(entry.fields, "stage") == Some(Text("E"))
  }

  /** Registered for stage E, or for another stage. */
  function Registered(claims: seq<Yaml>, required: seq<string>, stageE: bool): seq<string> {
    if required == [] then []
    else
      var n := |required| - 1;
      var first := FirstWith(claims, required[n]);
      Registered(claims, required[..n], stageE)
      + if first.Some? && OfStageE(first.value) == stageE then [required[n]] else []
  }

  lemma {:induction false} FirstExactlyWhenClaimed(claims: seq<Yaml>, id: string)
    ensures FirstWith(claims, id).Some? <==> id in Ids(claims)
    decreases |claims|
  {
    if claims != [] {
      FirstExactlyWhenClaimed(claims[..|claims| - 1], id);
    }
  }

  /** Every requirement is missing, registered for stage E or registered earlier, as often as it is required. */
  lemma {:induction false} NoRequirementIsLost(claims: seq<Yaml>, required: seq<string>)
    ensures multiset(Missing(claims, required)) + multiset(Registered(claims, required, true))
            + multiset(Registered(claims, required, false))
         == multiset(required)
    decreases |required|
  {
    if required != [] {
      var n := |required| - 1;
      NoRequirementIsLost(claims, required[..n]);
      FirstExactlyWhenClaimed(claims, required[n]);
      assert required == required[..n] + [required[n]];
    }
  }

  ghost function Duplicates(claims: seq<Yaml>): iset<string> {
    iset id | multiset(Ids(claims))[id] > 1
  }

  // ---------- classification ----------

  datatype Classification = Classification(
    missing: seq<string>, stageE: seq<string>, earlier: seq<string>, duplicates: set<string>)

  /** How often a requirement is claimed, and first by which entry. */
  datatype Entries = Entries(count: nat, first: Yaml)

  ghost predicate Indexes(byId: map<string, Entries>, claims: seq<Yaml>) {
    && (forall id :: id in byId <==> id in Ids(claims))
    && (forall id :: id in byId ==> byId[id].count == multiset(Ids(claims))[id])
    && (forall id :: id in byId ==> FirstWith(claims, id) == Some(byId[id].first))
  }

  method IndexById(claims: seq<Yaml>) returns (byId: map<string, Entries>)
    ensures Indexes(byId, claims)
  {
    byId := map[];
    for i := 0 to |claims|
      invariant Indexes(byId, claims[..i])
    {
      IndexNext(byId, claims[..i], claims[i]);
      assert claims[..i + 1] == claims[..i] + [claims[i]];
      var id := IdOf(claims[i]);
      if id.Some? {
        if id.value in byId {
          byId := byId[id.value := Entries(byId[id.value].count + 1, byId[id.value].first)];
        } else {
          byId := byId[id.value := Entries(1, claims[i])];
        }
      }
    }
    assert claims[..|claims|] == claims;
  }

  function WithEntry(byId: map<string, Entries>, entry: Yaml): map<string, Entries> {
    var id := IdOf(entry);
    if id.None? then byId
    else if id.value in byId then byId[id.value := Entries(byId[id.value].count + 1, byId[id.value].first)]
    else byId[id.value := Entries(1, entry)]
  }

  lemma IndexNext(byId: map<string, Entries>, claims: seq<Yaml>, entry: Yaml)
    requires Indexes(byId, claims)
    ensures Indexes(WithEntry(byId, entry), claims + [entry])
  {
    var all, next := claims + [entry], WithEntry(byId, entry);
    assert all[..|claims|] == claims;
    forall id ensures FirstWith(claims, id).Some? <==> id in byId {
      FirstExactlyWhenClaimed(claims, id);
    }
    forall id | id in next ensures FirstWith(all, id) == Some(next[id].first) {
      assert FirstWith(claims, id).Some? <==> id in byId;
    }
  }

  method Partition(byId: map<string, Entries>, required: seq<string>, ghost claims: seq<Yaml>)
    returns (missing: seq<string>, stageE: seq<string>, earlier: seq<string>)
    requires Indexes(byId, claims)
    ensures missing == Missing(claims, required)
    ensures stageE == Registered(claims, required, true) && earlier == Registered(claims, required, false)
  {
    missing, stageE, earlier := [], [], [];
    for i := 0 to |required|
      invariant missing == Missing(claims, required[..i])
      invariant stageE == Registered(claims, required[..i], true) && earlier == Registered(claims, required[..i], false)
    {
      PartitionNext(claims, required[..i], required[i]);
      assert required[..i + 1] == required[..i] + [required[i]];
      if required[i] !in byId {
        missing := missing + [required[i]];
      } else if OfStageE(byId[required[i]].first) {
        stageE := stageE + [required[i]];
      } else {
        earlier := earlier + [required[i]];
      }
    }
    assert required[..|required|] == required;
  }

  lemma PartitionNext(claims: seq<Yaml>, required: seq<string>, id: string)
    ensures var first := FirstWith(claims, id);
            && Missing(claims, required + [id]) == Missing(claims, required) + (if first.Some? then [] else [id])
            && Registered(claims, required + [id], true)
               == Registered(claims, required, true) + (if first.Some? && OfStageE(first.value) then [id] else [])
            && Registered(claims, required + [id], false)
               == Registered(claims, required, false) + (if first.Some? && !OfStageE(first.value) then [id] else [])
  {
    FirstExactlyWhenClaimed(claims, id);
    assert (required + [id])[..|required|] == required;
  }

  method Classify(claims: seq<Yaml>, required: seq<string>) returns (c: Classification)
    ensures c.missing == Missing(claims, required)
    ensures c.stageE == Registered(claims, required, true) && c.earlier == Registered(claims, required, false)
    ensures forall id :: id in c.duplicates <==> id in Duplicates(claims)
  {
    var byId := IndexById(claims);
    var missing, stageE, earlier := Partition(byId, required, claims);
    c := Classification(missing, stageE, earlier, set id | id in byId && byId[id].count > 1);
  }

  // ---------- candidates ----------

  datatype Meta = Meta(
    implementationRefs: seq<string>, testRefs: seq<string>, evidenceRefs: seq<string>, assurance: string,
    limitations: seq<string>, source: string)

  function Candidate(id: string, meta: Meta): Claim {
    Claim(id, "E", "PARTIAL_PASS", meta.implementationRefs, meta.testRefs, meta.evidenceRefs, meta.assurance,
          meta.limitations, meta.source)
  }

  datatype BackfillError = Unreadable(error: YamlError) | NotAList | NotInCatalogue

  predicate Covered(missing: seq<string>, catalogue: map<string, Meta>) {
    forall i :: 0 <= i < |missing| ==> missing[i] in catalogue
  }

  function Candidates(missing: seq<string>, catalogue: map<string, Meta>): (cs: seq<Claim>)
    requires Covered(missing, catalogue)
    ensures |cs| == |missing| && forall i :: 0 <= i < |cs| ==> cs[i] == Candidate(missing[i], catalogue[missing[i]])
  {
    seq(|missing|, i requires 0 <= i < |missing| => Candidate(missing[i], catalogue[missing[i]]))
  }

  method FromCatalogue(missing: seq<string>, catalogue: map<string, Meta>) returns (claims: Option<seq<Claim>>)
    ensures claims.Some? <==> Covered(missing, catalogue)
    ensures claims.Some? ==> claims.value == Candidates(missing, catalogue)
  {
    var cs: seq<Claim> := [];
    for i := 0 to |missing|
      invariant forall j :: 0 <= j < i ==> missing[j] in catalogue
      invariant |cs| == i && forall j :: 0 <= j < i ==> cs[j] == Candidate(missing[j], catalogue[missing[j]])
    {
      if missing[i] !in catalogue { return None; }
      cs := cs + [Candidate(missing[i], catalogue[missing[i]])];
    }
    assert cs == Candidates(missing, catalogue);
    claims := Some(cs);
  }

  /** The candidate claims of a ledger text and the block that records them, or why there are none. */
  function Generated(text: string, required: seq<string>, catalogue: map<string, Meta>, header: seq<string>)
    : Result<(seq<Claim>, string), BackfillError>
  {
    var parsed := Parse(text);
    if parsed.Err? then Err(Unreadable(parsed.error))
    else if parsed.value.None? || !parsed.value.value.List? then Err(NotAList)
    else
      var missing := Missing(parsed.value.value.items, required);
      if !Covered(missing, catalogue) then Err(NotInCatalogue)
      else var claims := Candidates(missing, catalogue); Ok((claims, ClaimsText(header, claims)))
  }

  method Generate(text: string, required: seq<string>, catalogue: map<string, Meta>, header: seq<string>)
    returns (r: Result<(seq<Claim>, string), BackfillError>)
    ensures r == Generated(text, required, catalogue, header)
  {
    var parsed := ReadText(text);
    if parsed.Err? { return Err(Unreadable(parsed.error)); }
    if parsed.value.None? || !parsed.value.value.List? { return Err(NotAList); }
    var c := Classify(parsed.value.value.items, required);
    var claims := FromCatalogue(c.missing, catalogue);
    if claims.None? { return Err(NotInCatalogue); }
    var block := RenderClaims(header, claims.value);
    return Ok((claims.value, block));
  }

  function Appended(text: string, block: string): string {
    if block == "" then text else text + ("\n" + block)
  }

  // ---------- what the append achieves ----------

  lemma {:induction false} IdsAppend(a: seq<Yaml>, b: seq<Yaml>)
    ensures Ids(a + b) == Ids(a) + Ids(b)
    decreases |b|
  {
    if b == [] {
      assert a + b == a;
    } else {
      var n := |b| - 1;
      assert (a + b)[..|a + b| - 1] == a + b[..n];
      IdsAppend(a, b[..n]);
    }
  }

  lemma CandidateId(c: Claim)
    ensures IdOf(ClaimDict(c)) == Some(c.requirementId)
  {
  }

  lemma {:induction false} CandidateIds(missing: seq<string>, catalogue: map<string, Meta>)
    requires Covered(missing, catalogue)
    ensures Ids(ClaimDicts(Candidates(missing, catalogue))) == missing
    decreases |missing|
  {
    if missing != [] {
      var n := |missing| - 1;
      var ds := ClaimDicts(Candidates(missing, catalogue));
      CandidateIds(missing[..n], catalogue);
      assert ds[..n] == ClaimDicts(Candidates(missing[..n], catalogue));
      CandidateId(Candidates(missing, catalogue)[n]);
      assert missing == missing[..n] + [missing[n]];
    }
  }

  /** One more requirement: its count moves on both sides, or it is claimed and moves on neither. */
  lemma CountNext(missing: seq<string>, required: seq<string>, last: string, lastClaimed: bool, id: string, claimed: bool)
    requires multiset(missing)[id] == (if claimed then 0 else multiset(required)[id])
    requires last == id ==> lastClaimed == claimed
    ensures multiset(missing + if lastClaimed then [] else [last])[id]
         == if claimed then 0 else multiset(required + [last])[id]
  {
    if lastClaimed {
      assert missing + [] == missing;
    }
  }

  lemma {:induction false} MissingCounts(claims: seq<Yaml>, required: seq<string>, id: string)
    ensures multiset(Missing(claims, required))[id] == if id in Ids(claims) then 0 else multiset(required)[id]
    decreases |required|
  {
    if required != [] {
      var n := |required| - 1;
      MissingCounts(claims, required[..n], id);
      CountNext(Missing(claims, required[..n]), required[..n], required[n], required[n] in Ids(claims), id, id in Ids(claims));
      assert required == required[..n] + [required[n]];
    }
  }

  lemma MissingMeans(claims: seq<Yaml>, required: seq<string>, id: string)
    ensures id in Missing(claims, required) <==> id in required && id !in Ids(claims)
    ensures multiset(Missing(claims, required))[id] == if id in Ids(claims) then 0 else multiset(required)[id]
  {
    MissingCounts(claims, required, id);
    MemberCounts(required, id);
    MemberCounts(Missing(claims, required), id);
  }

  lemma MemberCounts(s: seq<string>, id: string)
    ensures id in s <==> multiset(s)[id] > 0
  {
    assert id in s <==> id in multiset(s);
  }

  lemma NothingMissing(claims: seq<Yaml>, required: seq<string>)
    requires forall id :: id in required ==> id in Ids(claims)
    ensures Missing(claims, required) == []
  {
    if Missing(claims, required) != [] {
      MissingMeans(claims, required, Missing(claims, required)[0]);
    }
  }

  /** Appending the generated block registers everything required, adds nothing else, and leaves nothing to generate. */
  lemma BackfillCompletes(text: string, items: seq<Yaml>, required: seq<string>, catalogue: map<string, Meta>,
                          header: seq<string>, claims: seq<Claim>, items': seq<Yaml>)
    requires ParsesToList(text, items) && Comments(header)
    requires Covered(Missing(items, required), catalogue)
    requires claims == Candidates(Missing(items, required), catalogue)
    requires forall i :: 0 <= i < |claims| ==> PrintableClaim(claims[i])
    requires items' == items + ClaimDicts(claims)
    ensures ParsesToList(Appended(text, ClaimsText(header, claims)), items')
    ensures Ids(items') == Ids(items) + Missing(items, required)
    ensures Missing(items', required) == []
    ensures ClaimsText(header, Candidates(Missing(items', required), catalogue)) == ""
  {
    var missing := Missing(items, required);
    IdsAppend(items, ClaimDicts(claims));
    CandidateIds(missing, catalogue);
    forall id | id in required ensures id in Ids(items') {
      MissingMeans(items, required, id);
    }
    NothingMissing(items', required);
    AppendedParses(text, items, header, claims);
  }

  lemma AppendedParses(text: string, items: seq<Yaml>, header: seq<string>, claims: seq<Claim>)
    requires ParsesToList(text, items) && Comments(header)
    requires forall i :: 0 <= i < |claims| ==> PrintableClaim(claims[i])
    ensures ParsesToList(Appended(text, ClaimsText(header, claims)), items + ClaimDicts(claims))
  {
    if claims == [] {
      assert items + ClaimDicts(claims) == items;
    } else {
      ClaimsReadBack(header, claims);
      AppendingTextsAppendsLists(text, ClaimsText(header, claims), items, ClaimDicts(claims));
      assert Parse("") == Ok(None);
    }
  }

  predicate Distinct(ids: seq<string>) {
    forall i, j :: 0 <= i < j < |ids| ==> ids[i] != ids[j]
  }

  lemma {:induction false} DistinctExactlyWhen(ids: seq<string>)
    ensures Distinct(ids) <==> forall id :: multiset(ids)[id] <= 1
    decreases |ids|
  {
    if ids != [] {
      var n := |ids| - 1;
      DistinctExactlyWhen(ids[..n]);
      assert ids == ids[..n] + [ids[n]];
      if Distinct(ids) {
        assert ids[n] !in ids[..n];
      } else if Distinct(ids[..n]) {
        assert ids[n] in ids[..n];
        assert multiset(ids)[ids[n]] > 1;
      } else {
        var id :| multiset(ids[..n])[id] > 1;
        assert multiset(ids)[id] > 1;
      }
    }
  }

  /** The append introduces a duplicate exactly when the required list repeats a missing requirement. */
  lemma NoNewDuplicatesExactlyWhen(items: seq<Yaml>, required: seq<string>, items': seq<Yaml>)
    requires Ids(items') == Ids(items) + Missing(items, required)
    ensures Duplicates(items') == Duplicates(items) <==> Distinct(Missing(items, required))
    ensures Distinct(required) ==> Duplicates(items') == Duplicates(items)
  {
    var missing := Missing(items, required);
    DistinctExactlyWhen(missing);
    DistinctExactlyWhen(required);
    forall id
      ensures multiset(missing)[id] > 0 ==> multiset(Ids(items))[id] == 0
      ensures multiset(Ids(items'))[id] == multiset(Ids(items))[id] + multiset(missing)[id]
      ensures multiset(missing)[id] <= multiset(required)[id]
    {
      MissingMeans(items, required, id);
    }
    if !Distinct(missing) {
      var id :| multiset(missing)[id] > 1;
      assert id in Duplicates(items') && id !in Duplicates(items);
    }
  }
}
