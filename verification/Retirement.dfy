/** Which numbers and names of a schema a manifest lets go, in terms of entry states and reserved lists. */
module Retirement {
  import opened Wrappers
  import opened Manifests
  import opened ManifestDiff
  import opened Schemas

  // ---------- the last segment of a symbol ----------

  predicate EndsIn(s: string, t: string) {
    |t| <= |s| && s[|s| - |t|..] == t
  }

  /** The symbol is the name, or ends in a dot and the name. */
  predicate Names(symbol: string, name: string) {
    '.' !in name && (symbol == name || EndsIn(symbol, "." + name))
  }

  lemma EndsInRest(s: string, t: string)
    requires s != "" && t != "" && s != t
    ensures EndsIn(s, t) <==> EndsIn(s[1..], t)
  {
    if |t| < |s| {
      assert s[1..][|s| - 1 - |t|..] == s[|s| - |t|..];
    }
    if |t| == |s| {
      assert s[0..] == s;
    }
  }

  lemma DotInTail(s: string, name: string)
    requires s != "" && '.' !in name && s == "." + name
    ensures s[1..] == name
  {
  }

  lemma DottedNames(s: string, name: string)
    requires '.' in s && '.' !in name
    ensures Names(s, name) <==> Names(s[1..], name)
  {
    if s == "." + name {
      DotInTail(s, name);
      assert s[0..] == s;
    } else {
      EndsInRest(s, "." + name);
      assert s[0] == '.' ==> s == "." + s[1..];
    }
  }

  lemma EndHasItsFirst(s: string, t: string)
    requires EndsIn(s, t) && t != ""
    ensures t[0] in s
  {
    assert t[0] == s[|s| - |t|];
  }

  lemma UndottedNames(s: string, name: string)
    requires '.' !in s
    ensures Names(s, name) <==> s == name
  {
    if EndsIn(s, "." + name) {
      EndHasItsFirst(s, "." + name);
    }
  }

  lemma {:induction false} LastSegmentExactlyWhen(symbol: string, name: string)
    ensures LastSegment(symbol) == name <==> Names(symbol, name)
  {
    if '.' in symbol {
      LastSegmentExactlyWhen(symbol[1..], name);
      if '.' !in name {
        DottedNames(symbol, name);
      }
    } else {
      UndottedNames(symbol, name);
    }
  }

  // ---------- what a manifest lets go ----------

  /** A sunset entry has the number or names the field, or a channel reserves either. */
  ghost predicate LetsGo(m: Manifest, number: int, name: string) {
    || (exists key :: key in m.entries && m.entries[key].state == Sunset
          && (m.entries[key].number == Some(number) || Names(key.symbol, name)))
    || (exists channel :: channel in m.channels && number in m.channels[channel].reservedNumbers)
    || (exists channel, symbol :: channel in m.channels && symbol in m.channels[channel].reservedSymbols
          && Names(symbol, name))
  }

  lemma AuthorizedExactlyWhen(m: Manifest, number: int, name: string)
    ensures Authorized(m, number, name) <==> LetsGo(m, number, name)
  {
    forall symbol ensures LastSegment(symbol) == name <==> Names(symbol, name) {
      LastSegmentExactlyWhen(symbol, name);
    }
  }

  // ---------- one schema after another ----------

  predicate Tombstone(c: Container, number: int, name: string) {
    number in c.reservedNumbers && name in c.reservedNames
  }

  /** Tombstones stay, nothing declared is one, and a number keeps its declaration until the manifest lets it go. */
  ghost predicate ContainerMoves(m: Manifest, b: Container, c: Container) {
    && b.reservedNumbers <= c.reservedNumbers && b.reservedNames <= c.reservedNames
    && (forall number :: number in c.fields ==>
          number !in c.reservedNumbers && c.fields[number].name !in c.reservedNames)
    && (forall number :: number in b.fields ==>
          || (number in c.fields && c.fields[number].type_ == b.fields[number].type_
              && c.fields[number].name == b.fields[number].name)
          || (number !in c.fields && Tombstone(c, number, b.fields[number].name)
              && LetsGo(m, number, b.fields[number].name)))
  }

  lemma ContainerOkExactlyWhen(m: Manifest, b: Container, c: Container)
    ensures ContainerOk(m, b, c) <==> ContainerMoves(m, b, c)
  {
    forall number | number in b.fields
      ensures Authorized(m, number, b.fields[number].name) <==> LetsGo(m, number, b.fields[number].name)
    {
      AuthorizedExactlyWhen(m, number, b.fields[number].name);
    }
    if b.reservedNumbers <= c.reservedNumbers && b.reservedNames <= c.reservedNames {
      assert b.reservedNumbers + c.reservedNumbers == c.reservedNumbers;
      assert b.reservedNames + c.reservedNames == c.reservedNames;
    }
  }

  /** A schema is accepted exactly when no container is lost and each one moves on so; new ones are free. */
  lemma SchemaAcceptedExactlyWhen(m: Manifest, b: Schema, c: Schema)
    ensures SchemaOk(m, b, c) <==> forall name :: name in b ==> name in c && ContainerMoves(m, b[name], c[name])
  {
    forall name | name in b && name in c
      ensures ContainerOk(m, b[name], c[name]) <==> ContainerMoves(m, b[name], c[name])
    {
      ContainerOkExactlyWhen(m, b[name], c[name]);
    }
  }

  /** A number of an accepted container is classed retired, added or unchanged exactly when it is. */
  lemma NumberClassesTell(m: Manifest, b: Container, c: Container, number: int)
    requires ContainerOk(m, b, c) && (number in b.fields || number in c.fields)
    ensures NumberClass(b, c, number) == SunsetRetirement
       <==> number in b.fields && number in c.reservedNumbers && number !in c.fields
    ensures NumberClass(b, c, number) == AdditiveSafe <==> number in c.fields && number !in b.fields
    ensures NumberClass(b, c, number) == Unchanged
       <==> number in b.fields && number in c.fields && b.fields[number] == c.fields[number]
  {
    ContainerOkExactlyWhen(m, b, c);
  }

  // ---------- when a number can go ----------

  function Gone(c: Container, number: int): Container
    requires number in c.fields
  {
    Container(c.fields - {number}, c.reservedNumbers + {number}, c.reservedNames + {c.fields[number].name})
  }

  predicate Consistent(s: Schema) {
    forall name :: name in s ==>
      forall number :: number in s[name].fields ==>
        number !in s[name].reservedNumbers && s[name].fields[number].name !in s[name].reservedNames
  }

  /** Another number of the container carries the same name. */
  ghost predicate NameShared(c: Container, number: int)
    requires number in c.fields
  {
    exists n :: n in c.fields && n != number && c.fields[n].name == c.fields[number].name
  }

  lemma KeptMoves(m: Manifest, c: Container)
    requires forall number :: number in c.fields ==>
               number !in c.reservedNumbers && c.fields[number].name !in c.reservedNames
    ensures ContainerMoves(m, c, c)
  {
  }

  lemma GoneMovesExactlyWhen(m: Manifest, c: Container, number: int)
    requires number in c.fields
    requires forall n :: n in c.fields ==> n !in c.reservedNumbers && c.fields[n].name !in c.reservedNames
    ensures ContainerMoves(m, c, Gone(c, number))
       <==> LetsGo(m, number, c.fields[number].name) && !NameShared(c, number)
  {
    var d := Gone(c, number);
    if ContainerMoves(m, c, d) {
      assert number !in d.fields;
      forall n | n in c.fields && n != number ensures c.fields[n].name != c.fields[number].name {
        assert n in d.fields;
      }
    }
  }

  /** A number can be moved to the tombstones exactly when the manifest lets it go and no other field has its name. */
  lemma RemovableExactlyWhen(m: Manifest, b: Schema, container: string, number: int)
    requires Consistent(b) && container in b && number in b[container].fields
    ensures SchemaOk(m, b, b[container := Gone(b[container], number)])
       <==> LetsGo(m, number, b[container].fields[number].name) && !NameShared(b[container], number)
  {
    var c := b[container := Gone(b[container], number)];
    SchemaAcceptedExactlyWhen(m, b, c);
    GoneMovesExactlyWhen(m, b[container], number);
    forall name | name in b && name != container ensures ContainerMoves(m, b[name], c[name]) {
      KeptMoves(m, b[name]);
    }
    assert c[container] == Gone(b[container], number);
  }

  // ---------- along any chain of releases ----------

  lemma NotYetLetGo(r: Release, next: Release, container: string, number: int, decl: FieldDecl)
    requires Follows(r, next) && Declares(r, container, number, decl) && !LetsGo(next.manifest, number, decl.name)
    ensures Declares(next, container, number, decl)
  {
    SchemaAcceptedExactlyWhen(next.manifest, r.schema, next.schema);
    assert ContainerMoves(next.manifest, r.schema[container], next.schema[container]);
  }

  /** A declared number keeps its type and name for as long as no manifest lets it go. */
  lemma {:induction false} DeclaredUntilLetGo(rs: seq<Release>, i: nat, j: nat, container: string, number: int,
                                                decl: FieldDecl)
    requires Releases(rs) && i <= j < |rs| && Declares(rs[i], container, number, decl)
    requires forall k :: i < k <= j ==> !LetsGo(rs[k].manifest, number, decl.name)
    ensures Declares(rs[j], container, number, decl)
    decreases j
  {
    if i < j {
      DeclaredUntilLetGo(rs, i, j - 1, container, number, decl);
      assert Follows(rs[j - 1], rs[j - 1 + 1]);
      NotYetLetGo(rs[j - 1], rs[j], container, number, decl);
    }
  }
}
