/** Wire schemas: what a release may do to the numbers and names of each message and enum. */
module Schemas {
  import opened Wrappers
  import opened Manifests
  import opened ManifestDiff
  import opened ManifestChains

  datatype FieldDecl = FieldDecl(type_: string, name: string)

  datatype Container = Container(
    fields: map<int, FieldDecl>, reservedNumbers: set<int>, reservedNames: set<string>)

  /** Containers by fully qualified name. */
  type Schema = map<string, Container>

  // ---------- authorization by the manifest ----------

  function LastSegment(symbol: string): string {
    if symbol == "" then ""
    else if '.' in symbol then LastSegment(symbol[1..])
    else symbol
  }

  predicate SunsetNumber(m: Manifest, number: int) {
    || (exists key :: key in m.entries && m.entries[key].state == Sunset && m.entries[key].number == Some(number))
    || (exists channel :: channel in m.channels && number in m.channels[channel].reservedNumbers)
  }

  predicate SunsetName(m: Manifest, name: string) {
    || (exists key :: key in m.entries && m.entries[key].state == Sunset && LastSegment(key.symbol) == name)
    || (exists channel, symbol :: channel in m.channels && symbol in m.channels[channel].reservedSymbols
                               && LastSegment(symbol) == name)
  }

  predicate Authorized(m: Manifest, number: int, name: string) {
    SunsetNumber(m, number) || SunsetName(m, name)
  }

  // ---------- rules ----------

  predicate NoReuse(b: Container, c: Container) {
    forall number :: number in c.fields ==>
      && number !in b.reservedNumbers + c.reservedNumbers
      && c.fields[number].name !in b.reservedNames + c.reservedNames
  }

  predicate NumberOk(m: Manifest, b: Container, c: Container, number: int) {
    number in b.fields ==>
      if number in c.fields then c.fields[number] == b.fields[number]
      else
        && number in c.reservedNumbers && b.fields[number].name in c.reservedNames
        && Authorized(m, number, b.fields[number].name)
  }

  predicate ContainerOk(m: Manifest, b: Container, c: Container) {
    && b.reservedNumbers <= c.reservedNumbers && b.reservedNames <= c.reservedNames
    && NoReuse(b, c)
    && forall number :: number in b.fields ==> NumberOk(m, b, c, number)
  }

  predicate SchemaOk(m: Manifest, b: Schema, c: Schema) {
    forall name :: name in b ==> name in c && ContainerOk(m, b[name], c[name])
  }

  // ---------- the comparison as it runs ----------

  method CheckReuse(name: string, b: Container, c: Container) returns (items: seq<Finding>)
    ensures NoBreaking(items) <==> NoReuse(b, c)
    ensures NoBreaking(items) ==> items == []
  {
    var numbers, names := b.reservedNumbers + c.reservedNumbers, b.reservedNames + c.reservedNames;
    var order := Enumerate(c.fields.Keys);
    assert forall i :: 0 <= i < |order| ==> order[i] in Elements(order);
    items := [];
    for i := 0 to |order|
      invariant items != [] ==> items[0].class_ == Breaking
      invariant items == [] <==> forall j :: 0 <= j < i ==>
                                   order[j] in c.fields && order[j] !in numbers && c.fields[order[j]].name !in names
    {
      if order[i] in numbers || c.fields[order[i]].name in names {
        items := items + [Finding(Breaking, OfNumber(name, order[i]))];
      }
    }
    forall number | number in c.fields ensures exists i :: 0 <= i < |order| && order[i] == number {
      assert number in Elements(order);
    }
  }

  /** How an acceptable number is reported; a kept one is not. */
  function NumberClass(b: Container, c: Container, number: int): Class {
    if number !in c.fields then SunsetRetirement else if number !in b.fields then AdditiveSafe else Unchanged
  }

  method DiffNumber(m: Manifest, name: string, b: Container, c: Container, number: int) returns (items: seq<Finding>)
    requires number in b.fields.Keys + c.fields.Keys
    ensures NoBreaking(items) <==> NumberOk(m, b, c, number)
    ensures items == [] <==> number in b.fields && number in c.fields && b.fields[number] == c.fields[number]
    ensures NumberOk(m, b, c, number) && items != [] ==> items == [Finding(NumberClass(b, c, number), OfNumber(name, number))]
  {
    if number !in c.fields {
      var decl := b.fields[number];
      if number in c.reservedNumbers && decl.name in c.reservedNames && Authorized(m, number, decl.name) {
        return [Finding(SunsetRetirement, OfNumber(name, number))];
      }
      items := [Finding(Breaking, OfNumber(name, number))];
      assert items[0].class_ == Breaking;
    } else if number !in b.fields {
      return [Finding(AdditiveSafe, OfNumber(name, number))];
    } else if b.fields[number] != c.fields[number] {
      items := [Finding(Breaking, OfNumber(name, number))];
      assert items[0].class_ == Breaking;
    } else {
      return [];
    }
  }

  method DiffNumbers(m: Manifest, name: string, b: Container, c: Container, order: seq<int>)
    returns (items: seq<Finding>)
    requires forall i :: 0 <= i < |order| ==> order[i] in b.fields.Keys + c.fields.Keys
    ensures NoBreaking(items) <==> forall i :: 0 <= i < |order| ==> NumberOk(m, b, c, order[i])
    ensures items == [] <==> forall i :: 0 <= i < |order| ==> SameNumber(b, c, order[i])
    ensures NoBreaking(items) ==> forall i :: 0 <= i < |order| && !SameNumber(b, c, order[i]) ==>
                                    Finding(NumberClass(b, c, order[i]), OfNumber(name, order[i])) in items
  {
    items := [];
    for i := 0 to |order|
      invariant NoBreaking(items) <==> forall j :: 0 <= j < i ==> NumberOk(m, b, c, order[j])
      invariant items == [] <==> forall j :: 0 <= j < i ==> SameNumber(b, c, order[j])
      invariant NoBreaking(items) ==> forall j :: 0 <= j < i && !SameNumber(b, c, order[j]) ==>
                                        Finding(NumberClass(b, c, order[j]), OfNumber(name, order[j])) in items
    {
      var found := DiffNumber(m, name, b, c, order[i]);
      JoinFindings(items, found);
      KeepMembers(items, found);
      items := items + found;
    }
  }

  predicate SameNumber(b: Container, c: Container, number: int) {
    number in b.fields && number in c.fields && b.fields[number] == c.fields[number]
  }

  method CheckDropped(name: string, b: Container, c: Container) returns (items: seq<Finding>)
    ensures NoBreaking(items) <==> b.reservedNumbers <= c.reservedNumbers && b.reservedNames <= c.reservedNames
    ensures NoBreaking(items) ==> items == []
  {
    NoneDropped(b.reservedNumbers, c.reservedNumbers);
    NoneDropped(b.reservedNames, c.reservedNames);
    items := [];
    if b.reservedNumbers - c.reservedNumbers != {} {
      items := items + [Finding(Breaking, OfContainer(name))];
    }
    if b.reservedNames - c.reservedNames != {} {
      items := items + [Finding(Breaking, OfContainer(name))];
    }
    assert items != [] ==> items[0].class_ == Breaking;
  }

  ghost predicate ChangesFound(name: string, b: Container, c: Container, items: seq<Finding>) {
    forall number :: number in b.fields.Keys + c.fields.Keys && !SameNumber(b, c, number) ==>
      Finding(NumberClass(b, c, number), OfNumber(name, number)) in items
  }

  method ReportNumbers(m: Manifest, name: string, b: Container, c: Container) returns (items: seq<Finding>)
    ensures NoBreaking(items) <==> forall number :: number in b.fields ==> NumberOk(m, b, c, number)
    ensures items == [] <==> b.fields == c.fields
    ensures NoBreaking(items) ==> ChangesFound(name, b, c, items)
  {
    var order := Enumerate(b.fields.Keys + c.fields.Keys);
    assert forall i :: 0 <= i < |order| ==> order[i] in Elements(order);
    items := DiffNumbers(m, name, b, c, order);
    forall number | number in b.fields.Keys + c.fields.Keys ensures exists i :: 0 <= i < |order| && order[i] == number {
      assert number in Elements(order);
    }
  }

  method DiffContainer(m: Manifest, name: string, b: Container, c: Container) returns (items: seq<Finding>)
    ensures NoBreaking(items) <==> ContainerOk(m, b, c)
    ensures NoBreaking(items) ==> ChangesFound(name, b, c, items)
    ensures NoBreaking(items) && b.fields == c.fields ==> items == [Finding(Unchanged, OfContainer(name))]
  {
    var dropped := CheckDropped(name, b, c);
    var reused := CheckReuse(name, b, c);
    var changed := ReportNumbers(m, name, b, c);
    var kept := if changed == [] then [Finding(Unchanged, OfContainer(name))] else [];
    JoinFour(dropped, reused, changed, kept);
    KeepMembers(changed, kept);
    items := dropped + reused + changed + kept;
    assert dropped == [] && reused == [] ==> items == changed + kept;
  }

  /** What is reported of one container: its removal, its addition, or its own findings. */
  method ReportContainer(m: Manifest, b: Schema, c: Schema, name: string) returns (items: seq<Finding>)
    requires name in b.Keys + c.Keys
    ensures NoBreaking(items) <==> (name in b ==> name in c && ContainerOk(m, b[name], c[name]))
    ensures name !in b ==> items == [Finding(AdditiveSafe, OfContainer(name))]
    ensures NoBreaking(items) && name in b && name in c ==> ChangesFound(name, b[name], c[name], items)
  {
    if name !in c {
      items := [Finding(Breaking, OfContainer(name))];
      assert items[0].class_ == Breaking;
    } else if name !in b {
      items := [Finding(AdditiveSafe, OfContainer(name))];
    } else {
      items := DiffContainer(m, name, b[name], c[name]);
    }
  }

  /** Every added container and every change inside a kept one is among the findings. */
  ghost predicate SchemaChangesFound(b: Schema, c: Schema, name: string, items: seq<Finding>) {
    && (name !in b ==> Finding(AdditiveSafe, OfContainer(name)) in items)
    && (name in b && name in c ==> ChangesFound(name, b[name], c[name], items))
  }

  method DiffSchemas(m: Manifest, b: Schema, c: Schema) returns (items: seq<Finding>)
    ensures NoBreaking(items) <==> SchemaOk(m, b, c)
    ensures NoBreaking(items) ==> forall name :: name in b.Keys + c.Keys ==> SchemaChangesFound(b, c, name, items)
  {
    var order := Enumerate(b.Keys + c.Keys);
    assert forall i :: 0 <= i < |order| ==> order[i] in Elements(order);
    items := [];
    for i := 0 to |order|
      invariant NoBreaking(items) <==> forall j :: 0 <= j < i && order[j] in b ==>
                                         order[j] in c && ContainerOk(m, b[order[j]], c[order[j]])
      invariant NoBreaking(items) ==> forall j :: 0 <= j < i ==> SchemaChangesFound(b, c, order[j], items)
    {
      var found := ReportContainer(m, b, c, order[i]);
      JoinFindings(items, found);
      KeepMembers(items, found);
      items := items + found;
    }
    forall name | name in b.Keys + c.Keys ensures exists i :: 0 <= i < |order| && order[i] == name {
      assert name in Elements(order);
    }
  }

  // ---------- chains of releases ----------

  datatype Release = Release(manifest: Manifest, schema: Schema)

  predicate Follows(r: Release, next: Release) {
    Accepted(r.manifest, next.manifest) && SchemaOk(next.manifest, r.schema, next.schema)
  }

  predicate Releases(rs: seq<Release>) {
    forall i :: 0 <= i < |rs| - 1 ==> Follows(rs[i], rs[i + 1])
  }

  /** What the manifest has once authorized it authorizes ever after. */
  lemma AuthorizationStays(b: Manifest, c: Manifest, number: int, name: string)
    requires Compatible(b, c) && Authorized(b, number, name)
    ensures Authorized(c, number, name)
  {
    if SunsetNumber(b, number) {
      SunsetNumberStays(b, c, number);
    } else {
      SunsetNameStays(b, c, name);
    }
  }

  lemma SunsetNumberStays(b: Manifest, c: Manifest, number: int)
    requires Compatible(b, c) && SunsetNumber(b, number)
    ensures SunsetNumber(c, number)
  {
    if key :| key in b.entries && b.entries[key].state == Sunset && b.entries[key].number == Some(number) {
      EntryHolds(b, c, key);
      if key !in c.entries {
        assert key.channel in c.channels && number in c.channels[key.channel].reservedNumbers;
      }
    } else {
      var channel :| channel in b.channels && number in b.channels[channel].reservedNumbers;
      ReservedGrows(b, c, channel);
      assert number in NumbersReserved(b, channel);
      assert channel in c.channels && number in c.channels[channel].reservedNumbers;
    }
  }

  lemma SunsetNameStays(b: Manifest, c: Manifest, name: string)
    requires Compatible(b, c) && SunsetName(b, name)
    ensures SunsetName(c, name)
  {
    if key :| key in b.entries && b.entries[key].state == Sunset && LastSegment(key.symbol) == name {
      EntryHolds(b, c, key);
      if key !in c.entries {
        assert key.channel in c.channels && key.symbol in c.channels[key.channel].reservedSymbols;
      }
    } else {
      var channel, symbol :| channel in b.channels && symbol in b.channels[channel].reservedSymbols
                          && LastSegment(symbol) == name;
      ReservedGrows(b, c, channel);
      assert symbol in SymbolsReserved(b, channel);
      assert channel in c.channels && symbol in c.channels[channel].reservedSymbols;
    }
  }

  /** The number and the name are tombstones of the container, nobody uses either, and the manifest authorizes it. */
  ghost predicate Buried(r: Release, container: string, number: int, name: string) {
    && container in r.schema
    && number in r.schema[container].reservedNumbers && name in r.schema[container].reservedNames
    && number !in r.schema[container].fields
    && (forall n :: n in r.schema[container].fields ==> r.schema[container].fields[n].name != name)
    && Authorized(r.manifest, number, name)
  }

  predicate Declares(r: Release, container: string, number: int, decl: FieldDecl) {
    container in r.schema && number in r.schema[container].fields && r.schema[container].fields[number] == decl
  }

  lemma FateOfASlot(r: Release, next: Release, container: string, number: int, decl: FieldDecl)
    requires Follows(r, next)
    requires Declares(r, container, number, decl) || Buried(r, container, number, decl.name)
    ensures Declares(next, container, number, decl) || Buried(next, container, number, decl.name)
    ensures Buried(r, container, number, decl.name) ==> Buried(next, container, number, decl.name)
  {
    assert ContainerOk(next.manifest, r.schema[container], next.schema[container]);
    if Declares(r, container, number, decl) {
      assert NumberOk(next.manifest, r.schema[container], next.schema[container], number);
    }
    if Buried(r, container, number, decl.name) {
      AuthorizationStays(r.manifest, next.manifest, number, decl.name);
    }
  }

  /**
   Along any chain a declared number keeps its type and name until it is buried with the manifest's authorization;
   once buried, it stays buried: neither the number nor the name is used again in that container.
   */
  lemma {:induction false} WireSlotFate(rs: seq<Release>, i: nat, j: nat, container: string, number: int, decl: FieldDecl)
    requires Releases(rs) && i <= j < |rs|
    requires Declares(rs[i], container, number, decl) || Buried(rs[i], container, number, decl.name)
    ensures Declares(rs[j], container, number, decl) || Buried(rs[j], container, number, decl.name)
    ensures Buried(rs[i], container, number, decl.name) ==> Buried(rs[j], container, number, decl.name)
    decreases j
  {
    if i < j {
      WireSlotFate(rs, i, j - 1, container, number, decl);
      assert Follows(rs[j - 1], rs[j - 1 + 1]);
      FateOfASlot(rs[j - 1], rs[j], container, number, decl);
    }
  }
}
