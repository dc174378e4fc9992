/** Which identifiers the required lists can hold, and when a backfill can claim one of them twice. */
module RequiredLists {
  import opened Wrappers
  import opened Texts
  import opened CanonicalYaml
  import opened YamlAppend
  import opened PrintParse
  import opened Ledgers
  import opened Backfill

  // ---------- where a repeated requirement comes from ----------

  /** The required list joins the normative requirements and the work packages, each free of repeats by itself. */
  function AllRequired(normative: seq<string>, packages: seq<string>): seq<string> {
    normative + packages
  }

  lemma MissingOfBoth(items: seq<Yaml>, normative: seq<string>, packages: seq<string>, id: string)
    requires Distinct(normative) && Distinct(packages)
    ensures multiset(Missing(items, AllRequired(normative, packages)))[id] > 1
       <==> id in normative && id in packages && id !in Ids(items)
  {
    MissingMeans(items, AllRequired(normative, packages), id);
    DistinctExactlyWhen(normative);
    DistinctExactlyWhen(packages);
    assert multiset(normative + packages)[id] == multiset(normative)[id] + multiset(packages)[id];
  }

  /** So the append introduces a duplicate exactly when a work package is also listed as normative and is missing. */
  lemma NoNewDuplicatesExactlyWhenDisjoint(items: seq<Yaml>, normative: seq<string>, packages: seq<string>,
                                           items': seq<Yaml>)
    requires Distinct(normative) && Distinct(packages)
    requires Ids(items') == Ids(items) + Missing(items, AllRequired(normative, packages))
    ensures Duplicates(items') == Duplicates(items)
       <==> forall id :: id in normative && id in packages ==> id in Ids(items)
  {
    var missing := Missing(items, AllRequired(normative, packages));
    NoNewDuplicatesExactlyWhen(items, AllRequired(normative, packages), items');
    DistinctExactlyWhen(missing);
    forall id ensures multiset(missing)[id] > 1 <==> id in normative && id in packages && id !in Ids(items) {
      MissingOfBoth(items, normative, packages, id);
    }
  }

  // ---------- the shapes of the two lists ----------

  predicate Upper(c: char) {
    'A' <= c <= 'Z'
  }

  predicate Digit(c: char) {
    '0' <= c <= '9'
  }

  /** Words, each followed by a dash, and then three digits. */
  predicate Numbered(s: string) {
    || (|s| == 3 && forall i :: 0 <= i < |s| ==> Digit(s[i]))
    || exists n :: 1 <= n < |s| && Word(s[..n]) && s[n] == '-' && Numbered(s[n + 1..])
  }

  predicate Word(s: string) {
    forall i :: 0 <= i < |s| ==> Upper(s[i]) || Digit(s[i])
  }

  /** Upper-case letters and a dash, before words and three digits. */
  predicate NormativeShape(s: string) {
    exists n :: 1 <= n < |s| && (forall i :: 0 <= i < n ==> Upper(s[i])) && s[n] == '-' && Numbered(s[n + 1..])
  }

  /** The letter E and a dash, before letters, digits and dashes. */
  predicate WorkPackageShape(s: string) {
    && 3 <= |s| && s[0] == 'E' && s[1] == '-'
    && forall i :: 2 <= i < |s| ==> Upper(s[i]) || Digit(s[i]) || s[i] == '-'
  }

  predicate BothShapes(id: string) {
    NormativeShape(id) && WorkPackageShape(id)
  }

  predicate Charset(s: string) {
    forall i :: 0 <= i < |s| ==> Upper(s[i]) || Digit(s[i]) || s[i] == '-'
  }

  /** A digit at the end, and a dash before the last three characters unless they are all. */
  predicate EndsNumbered(s: string) {
    3 <= |s| && Digit(s[|s| - 1]) && (|s| > 3 ==> s[|s| - 4] == '-')
  }

  lemma WordBefore(word: string, s: string)
    requires Word(word) && Charset(s) && EndsNumbered(s)
    ensures Charset(word + ("-" + s)) && EndsNumbered(word + ("-" + s))
  {
  }

  lemma SplitAt(s: string, n: nat)
    requires n < |s| && s[n] == '-'
    ensures s == s[..n] + ("-" + s[n + 1..])
  {
  }

  lemma {:induction false} NumberedEnds(s: string)
    requires Numbered(s)
    ensures Charset(s) && EndsNumbered(s)
  {
    if !(|s| == 3 && forall i :: 0 <= i < |s| ==> Digit(s[i])) {
      var n :| 1 <= n < |s| && Word(s[..n]) && s[n] == '-' && Numbered(s[n + 1..]);
      NumberedEnds(s[n + 1..]);
      WordBefore(s[..n], s[n + 1..]);
      SplitAt(s, n);
    }
  }

  lemma NormativeEnds(s: string)
    requires NormativeShape(s)
    ensures 5 <= |s| && Charset(s) && EndsNumbered(s)
  {
    var n :| 1 <= n < |s| && (forall i :: 0 <= i < n ==> Upper(s[i])) && s[n] == '-' && Numbered(s[n + 1..]);
    NumberedEnds(s[n + 1..]);
    WordBefore(s[..n], s[n + 1..]);
    SplitAt(s, n);
  }

  /** The two shapes meet in the normative identifiers whose first word is E. */
  lemma BothShapesExactlyWhen(id: string)
    ensures BothShapes(id) <==> 2 <= |id| && id[0] == 'E' && id[1] == '-' && Numbered(id[2..])
  {
    if NormativeShape(id) {
      NormativeEnds(id);
    }
    if 2 <= |id| && id[0] == 'E' && id[1] == '-' && Numbered(id[2..]) {
      NumberedEnds(id[2..]);
      assert id[1 + 1..] == id[2..];
      assert NormativeShape(id);
      assert id == id[..2] + id[2..];
    }
  }

  // ---------- when a backfill can claim an identifier twice ----------

  /** What the extraction can deliver: two lists without repeats, each of its own shape. */
  predicate Extracted(normative: seq<string>, packages: seq<string>) {
    && Distinct(normative) && Distinct(packages)
    && (forall i :: 0 <= i < |normative| ==> NormativeShape(normative[i]))
    && (forall i :: 0 <= i < |packages| ==> WorkPackageShape(packages[i]))
  }

  /** A ledger and two extracted lists for which the backfill succeeds and claims something twice. */
  ghost predicate Doubles(catalogue: map<string, Meta>, header: seq<string>, text: string, items: seq<Yaml>,
                          normative: seq<string>, packages: seq<string>) {
    && ParsesToList(text, items) && Extracted(normative, packages)
    && var r := Generated(text, AllRequired(normative, packages), catalogue, header);
    && r.Ok? && Duplicates(items + ClaimDicts(r.value.0)) != Duplicates(items)
  }

  ghost predicate CanDouble(catalogue: map<string, Meta>, header: seq<string>) {
    exists text, items, normative, packages :: Doubles(catalogue, header, text, items, normative, packages)
  }

  lemma GeneratedIds(text: string, items: seq<Yaml>, required: seq<string>, catalogue: map<string, Meta>,
                     header: seq<string>, claims: seq<Claim>)
    requires ParsesToList(text, items) && Generated(text, required, catalogue, header).Ok?
    requires claims == Generated(text, required, catalogue, header).value.0
    ensures Covered(Missing(items, required), catalogue) && claims == Candidates(Missing(items, required), catalogue)
    ensures Ids(items + ClaimDicts(claims)) == Ids(items) + Missing(items, required)
  {
    IdsAppend(items, ClaimDicts(claims));
    CandidateIds(Missing(items, required), catalogue);
  }

  lemma DoublingNeedsBothShapes(catalogue: map<string, Meta>, header: seq<string>, text: string, items: seq<Yaml>,
                                normative: seq<string>, packages: seq<string>)
    requires Doubles(catalogue, header, text, items, normative, packages)
    ensures exists id :: id in catalogue && BothShapes(id)
  {
    var required := AllRequired(normative, packages);
    var claims := Generated(text, required, catalogue, header).value.0;
    GeneratedIds(text, items, required, catalogue, header, claims);
    NoNewDuplicatesExactlyWhenDisjoint(items, normative, packages, items + ClaimDicts(claims));
    var id :| id in normative && id in packages && id !in Ids(items);
    MissingMeans(items, required, id);
    assert id in catalogue && BothShapes(id);
  }

  lemma PlainEntryReads(line: Line, w: string)
    requires line == Line(0, "- " + w) && w != "" && Trimmed(w) && MatchKey(w).None? && Scalar(w) == Ok(w)
    ensures ParseLines([line]) == Ok(Some(List([Text(w)])))
  {
    DashReads(line, w, w, []);
    SeqStep(line, [], Text(w), [], []);
    assert [line] + [] == [line] && [Text(w)] + [] == [Text(w)];
    SeqIsParsed([line], [Text(w)]);
  }

  lemma PlainEntryIsParsed(text: string, w: string)
    requires text == "- " + w && OneLine(text) && Trimmed(text)
    requires w != "" && Trimmed(w) && MatchKey(w).None? && Scalar(w) == Ok(w)
    ensures ParsesToList(text, [Text(w)])
  {
    FlushTextIsALine(text);
    LogicalOfOneLine(text);
    PlainEntryReads(Line(0, text), w);
  }

  /** A ledger of one plain entry, which is about no requirement. */
  lemma OnePlainEntry()
    ensures ParsesToList("- x", [Text("x")])
  {
    assert MatchKey("x").None? && Scalar("x") == Ok("x");
    PlainEntryIsParsed("- x", "x");
  }

  lemma PlainEntryHasNoId(w: string)
    ensures Ids([Text(w)]) == []
  {
    assert [Text(w)][..0] == [];
  }

  lemma ListedTwiceIsCovered(items: seq<Yaml>, catalogue: map<string, Meta>, id: string)
    requires id in catalogue
    ensures Covered(Missing(items, AllRequired([id], [id])), catalogue)
  {
    var missing := Missing(items, AllRequired([id], [id]));
    forall i | 0 <= i < |missing| ensures missing[i] in catalogue {
      MissingMeans(items, AllRequired([id], [id]), missing[i]);
    }
  }

  lemma OneIsExtracted(id: string)
    requires BothShapes(id)
    ensures Extracted([id], [id])
  {
  }

  lemma ListedTwiceDoubles(catalogue: map<string, Meta>, header: seq<string>, text: string, items: seq<Yaml>,
                           id: string)
    requires id in catalogue && BothShapes(id) && ParsesToList(text, items) && id !in Ids(items)
    ensures Doubles(catalogue, header, text, items, [id], [id])
  {
    OneIsExtracted(id);
    ListedTwiceIsCovered(items, catalogue, id);
    var claims := Generated(text, AllRequired([id], [id]), catalogue, header).value.0;
    GeneratedIds(text, items, AllRequired([id], [id]), catalogue, header, claims);
    NoNewDuplicatesExactlyWhenDisjoint(items, [id], [id], items + ClaimDicts(claims));
    assert id in [id];
  }

  lemma BothShapesCanDouble(catalogue: map<string, Meta>, header: seq<string>, id: string)
    requires id in catalogue && BothShapes(id)
    ensures CanDouble(catalogue, header)
  {
    OnePlainEntry();
    PlainEntryHasNoId("x");
    ListedTwiceDoubles(catalogue, header, "- x", [Text("x")], id);
  }

  /** Some ledger and extracted lists make a backfill claim something twice exactly when the catalogue allows it. */
  lemma CanDoubleExactlyWhen(catalogue: map<string, Meta>, header: seq<string>)
    ensures CanDouble(catalogue, header) <==> exists id :: id in catalogue && BothShapes(id)
  {
    if CanDouble(catalogue, header) {
      var text, items, normative, packages :| Doubles(catalogue, header, text, items, normative, packages);
      DoublingNeedsBothShapes(catalogue, header, text, items, normative, packages);
    }
    if exists id :: id in catalogue && BothShapes(id) {
      var id :| id in catalogue && BothShapes(id);
      BothShapesCanDouble(catalogue, header, id);
    }
  }

  /** Without such an identifier in the catalogue, the ledger with the generated block has no new duplicate. */
  lemma BackfillNeverDoubles(text: string, items: seq<Yaml>, normative: seq<string>, packages: seq<string>,
                             catalogue: map<string, Meta>, header: seq<string>, claims: seq<Claim>, block: string)
    requires forall id :: id in catalogue ==> !BothShapes(id)
    requires ParsesToList(text, items) && Extracted(normative, packages) && Comments(header)
    requires Generated(text, AllRequired(normative, packages), catalogue, header) == Ok((claims, block))
    requires forall i :: 0 <= i < |claims| ==> PrintableClaim(claims[i])
    ensures ParsesToList(Appended(text, block), items + ClaimDicts(claims))
    ensures Duplicates(items + ClaimDicts(claims)) == Duplicates(items)
  {
    AppendedParses(text, items, header, claims);
    if Duplicates(items + ClaimDicts(claims)) != Duplicates(items) {
      DoublingNeedsBothShapes(catalogue, header, text, items, normative, packages);
    }
  }

  // ---------- the tool's own catalogue ----------

  /** The backfill stops exactly when something required is neither claimed nor in the catalogue. */
  lemma StopsExactlyWhen(text: string, items: seq<Yaml>, required: seq<string>, catalogue: map<string, Meta>,
                         header: seq<string>)
    requires ParsesToList(text, items)
    ensures Generated(text, required, catalogue, header) == Err(NotInCatalogue)
       <==> exists id :: id in required && id !in Ids(items) && id !in catalogue
  {
    var missing := Missing(items, required);
    if !Covered(missing, catalogue) {
      var i :| 0 <= i < |missing| && missing[i] !in catalogue;
      MissingMeans(items, required, missing[i]);
    }
    if exists id :: id in required && id !in Ids(items) && id !in catalogue {
      var id :| id in required && id !in Ids(items) && id !in catalogue;
      MissingMeans(items, required, id);
    }
  }

  const INTERFACE_IDS: set<string> := {
    "ROAD-E-001", "COMPAT-VER-001", "COMPAT-VER-002", "COMPAT-DEPRECATE-001", "KABI-IDEM-001",
    "KABI-HANDLE-001", "KABI-SVC-001", "KABI-ERR-001", "KABI-UNCERTAIN-001", "SABI-DISC-001",
    "SABI-COMMON-001", "SABI-RECEIPT-001", "SABI-AUTH-001", "SABI-TRANSPORT-001", "SABI-CONFORM-001",
    "DRV-NEGO-001", "DRV-BOUND-001", "DRV-ACTIVE-001", "DRV-CRED-001", "DRV-PROTO-001", "DRV-LIFE-001",
    "DRV-SHIM-001", "DRV-DISC-001"
  }

  const DELIVERY_IDS: set<string> := {
    "PKG-SEP-001", "PKG-IMM-001", "PKG-SEED-001", "PKG-UPDATE-001", "PKG-UNINSTALL-001", "PKG-OCI-001",
    "PKG-MULTI-001", "PKG-APPID-001", "DUI-ASSOC-001", "TCB-BYPASS-001", "TCB-EGRESS-001",
    "TCB-DOWNGRADE-001", "CAP-UNFORGE-001", "CAP-ATTEN-001", "CAP-REVOKE-001", "TUI-CONSENT-001",
    "NLOS-DEFER-001", "EVID-SCOPE-001", "EVID-NONLINEAR-001", "EVID-NEG-001", "EVID-REPRO-001", "EVID-GEN-001"
  }

  const WORK_PACKAGE_IDS: set<string> := {
    "E-TRIAL-BOOTSTRAP", "E-SABI-POLICY-CORPUS", "E-COMPAT-SHIM", "E-MIGRATE-KIT", "E-PUBLISHER-TRUST",
    "E-STORE-CERTIFY", "E-MARKET-SANDBOX-H7", "E-UPGRADE-GATE-ROADE001"
  }

  predicate InCatalogue(id: string) {
    id in INTERFACE_IDS || id in DELIVERY_IDS || id in WORK_PACKAGE_IDS
  }

  lemma NormativeIdsAreNotPackages(id: string)
    requires id in INTERFACE_IDS || id in DELIVERY_IDS
    ensures !(2 <= |id| && id[0] == 'E' && id[1] == '-')
  {
    if id in INTERFACE_IDS {
      assert 2 <= |id| && id[0] != 'E';
    } else {
      assert 2 <= |id| && id[1] != '-';
    }
  }

  lemma PackageIdsAreNotNumbered(id: string)
    requires id in WORK_PACKAGE_IDS
    ensures !EndsNumbered(id)
  {
  }

  /** No identifier of the tool's catalogue has both shapes. */
  lemma CatalogueIsSafe(id: string)
    requires InCatalogue(id)
    ensures !BothShapes(id)
  {
    if id in WORK_PACKAGE_IDS {
      PackageIdsAreNotNumbered(id);
      if NormativeShape(id) {
        NormativeEnds(id);
      }
    } else {
      NormativeIdsAreNotPackages(id);
    }
  }

  /** So a required identifier of both shapes stops the backfill, unless it is claimed, and is not claimed twice. */
  lemma BothShapesStop(text: string, items: seq<Yaml>, required: seq<string>, catalogue: map<string, Meta>,
                       header: seq<string>, id: string)
    requires ParsesToList(text, items) && id in required && id !in Ids(items) && BothShapes(id)
    requires forall other :: other in catalogue <==> InCatalogue(other)
    ensures Generated(text, required, catalogue, header) == Err(NotInCatalogue)
  {
    if id in catalogue {
      CatalogueIsSafe(id);
    }
    StopsExactlyWhen(text, items, required, catalogue, header);
  }

  lemma ShortestOfBothShapes(id: string)
    requires id == "E-X-001"
    ensures BothShapes(id)
  {
    assert id[2..][2..] == "001";
    assert id[2..][1] == '-' && Word(id[2..][..1]) && Numbered(id[2..][1 + 1..]);
    BothShapesExactlyWhen(id);
  }

  /** As does the work package E-X-001, which both lists may hold. */
  lemma ListedTwiceStops(text: string, items: seq<Yaml>, catalogue: map<string, Meta>, header: seq<string>, id: string)
    requires ParsesToList(text, items) && id == "E-X-001" && id !in Ids(items)
    requires forall other :: other in catalogue <==> InCatalogue(other)
    ensures Extracted([id], [id])
    ensures Generated(text, AllRequired([id], [id]), catalogue, header) == Err(NotInCatalogue)
  {
    ShortestOfBothShapes(id);
    OneIsExtracted(id);
    assert id in AllRequired([id], [id]);
    BothShapesStop(text, items, AllRequired([id], [id]), catalogue, header, id);
  }
}
