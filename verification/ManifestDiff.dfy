/** The comparison as it runs: loops that append findings, proved against the rules. */
module ManifestDiff {
  import opened Wrappers
  import opened Manifests

  datatype Class = Unchanged | AdditiveSafe | DeprecationNotice | SunsetRetirement | Breaking

  datatype Target =
    | OfManifest
    | OfChannel(name: string)
    | OfEntry(key: EntryKey)
    | OfContainer(container: string)
    | OfNumber(container: string, number: int)

  datatype Finding = Finding(class_: Class, target: Target)

  predicate NoBreaking(items: seq<Finding>) {
    forall i :: 0 <= i < |items| ==> items[i].class_ != Breaking
  }

  /** How an acceptable channel is classified. */
  function ChannelClass(b: Manifest, c: Manifest, name: string): Class {
    if name in b.channels && name in c.channels
       && c.channels[name].(frozen := true) == b.channels[name].(frozen := true)
    then Unchanged else AdditiveSafe
  }

  /** How an acceptable entry is classified. */
  function EntryClass(b: Manifest, c: Manifest, key: EntryKey): Class {
    if key !in c.entries then SunsetRetirement
    else if key !in b.entries then if c.entries[key].state == Active then AdditiveSafe else DeprecationNotice
    else match (b.entries[key].state, c.entries[key].state)
         case (Active, Deprecated) => DeprecationNotice
         case (Deprecated, Deprecated) => if b.entries[key] == c.entries[key] then Unchanged else DeprecationNotice
         case (Deprecated, Sunset) => SunsetRetirement
         case _ => Unchanged
  }

  predicate SubjectOk(b: Manifest, c: Manifest, t: Target) {
    match t
    case OfChannel(name) => ChannelOk(b, c, name)
    case OfEntry(key) => EntryOk(b, c, key)
    case _ => true
  }

  function SubjectClass(b: Manifest, c: Manifest, t: Target): Class {
    match t
    case OfChannel(name) => ChannelClass(b, c, name)
    case OfEntry(key) => EntryClass(b, c, key)
    case _ => Unchanged
  }

  /** A subject yields one finding of its class when its rule holds, and only breaking findings otherwise. */
  ghost predicate Verdict(b: Manifest, c: Manifest, t: Target, items: seq<Finding>) {
    if SubjectOk(b, c, t) then items == [Finding(SubjectClass(b, c, t), t)]
    else items != [] && forall i :: 0 <= i < |items| ==> items[i] == Finding(Breaking, t)
  }

  lemma NoneDropped<T>(prior: set<T>, next: set<T>)
    ensures prior - next == {} <==> prior <= next
  {
    if prior - next == {} {
      forall x | x in prior ensures x in next {
        assert x !in prior - next;
      }
    }
  }

  method DiffChannel(b: Manifest, c: Manifest, name: string) returns (items: seq<Finding>)
    requires name in b.channels || name in c.channels
    ensures Verdict(b, c, OfChannel(name), items)
  {
    var breaking := Finding(Breaking, OfChannel(name));
    if name !in c.channels { return [breaking]; }
    var next := c.channels[name];
    if name !in b.channels {
      if !next.frozen || next.major < 1 { return [breaking]; }
      return [Finding(AdditiveSafe, OfChannel(name))];
    }
    var prior := b.channels[name];
    items := [];
    if !next.frozen {
      items := items + [breaking];
    }
    if next.major < prior.major {
      items := items + [breaking];
    } else if next.major == prior.major && next.minor < prior.minor {
      items := items + [breaking];
    }
    var droppedNumbers := Elements(prior.reservedNumbers) - Elements(next.reservedNumbers);
    NoneDropped(Elements(prior.reservedNumbers), Elements(next.reservedNumbers));
    if droppedNumbers != {} {
      items := items + [breaking];
    }
    var droppedSymbols := Elements(prior.reservedSymbols) - Elements(next.reservedSymbols);
    NoneDropped(Elements(prior.reservedSymbols), Elements(next.reservedSymbols));
    if droppedSymbols != {} {
      items := items + [breaking];
    }
    if items == [] {
      if (next.major, next.minor) != (prior.major, prior.minor)
         || next.reservedNumbers != prior.reservedNumbers || next.reservedSymbols != prior.reservedSymbols {
        items := [Finding(AdditiveSafe, OfChannel(name))];
      } else {
        items := [Finding(Unchanged, OfChannel(name))];
      }
    }
  }

  method MissingAttributes(key: EntryKey, given: seq<bool>) returns (items: seq<Finding>)
    ensures items == [] <==> false !in given
    ensures forall i :: 0 <= i < |items| ==> items[i] == Finding(Breaking, OfEntry(key))
  {
    items := [];
    for i := 0 to |given|
      invariant items == [] <==> false !in given[..i]
      invariant forall j :: 0 <= j < |items| ==> items[j] == Finding(Breaking, OfEntry(key))
    {
      if !given[i] {
        items := items + [Finding(Breaking, OfEntry(key))];
      }
    }
    assert given[..|given|] == given;
  }

  /** The lifecycle and tombstone rules of one present entry; the findings are all breaking. */
  method ValidateEntry(c: Manifest, key: EntryKey, e: Entry, numbers: set<int>, symbols: set<string>)
    returns (items: seq<Finding>)
    ensures items == [] <==> Clean(c, key, e, numbers, symbols)
    ensures forall i :: 0 <= i < |items| ==> items[i] == Finding(Breaking, OfEntry(key))
  {
    var breaking := Finding(Breaking, OfEntry(key));
    var required := if c.window > 2 then c.window else 2;
    if key.channel !in c.channels { return [breaking]; }
    items := [];
    if e.number.Some? && e.number.value <= 0 {
      items := items + [breaking];
    }
    if e.state != Sunset && key.symbol in symbols {
      items := items + [breaking];
    }
    if e.state != Sunset && e.number.Some? && e.number.value in numbers {
      items := items + [breaking];
    }
    if e.state == Deprecated || e.state == Sunset {
      var missing := MissingAttributes(key, [GivenEpoch(e.deprecatedIn), GivenEpoch(e.earliestSunset),
                                             GivenText(e.replacement), GivenText(e.migrationRule)]);
      items := items + missing;
      if e.deprecatedIn.Some? && e.earliestSunset.Some?
         && e.earliestSunset.value < e.deprecatedIn.value + required {
        items := items + [breaking];
      }
    }
    if e.state == Sunset {
      if e.sunsetIn.None? {
        items := items + [breaking];
      } else if e.earliestSunset.Some?
                && (e.sunsetIn.value < e.earliestSunset.value || c.epoch < e.sunsetIn.value
                    || c.epoch < e.earliestSunset.value) {
        items := items + [breaking];
      }
    }
  }

  method DiffEntry(b: Manifest, c: Manifest, key: EntryKey, numbers: set<int>, symbols: set<string>,
                   sunset: set<WireSlot>) returns (items: seq<Finding>)
    requires key in b.entries || key in c.entries
    requires key.channel in c.channels ==>
               numbers == NumbersInForce(b, c, key.channel) && symbols == SymbolsInForce(b, c, key.channel)
    requires forall slot :: slot in sunset <==> SunsetSlot(b, slot)
    ensures Verdict(b, c, OfEntry(key), items)
  {
    var breaking := Finding(Breaking, OfEntry(key));
    if key !in c.entries {
      var prior := b.entries[key];
      if prior.state == Sunset && key.channel in c.channels && key.symbol in c.channels[key.channel].reservedSymbols
         && (prior.number.None? || prior.number.value in c.channels[key.channel].reservedNumbers) {
        return [Finding(SunsetRetirement, OfEntry(key))];
      }
      return [breaking];
    }
    var next := c.entries[key];
    items := ValidateEntry(c, key, next, numbers, symbols);
    if key !in b.entries {
      if next.number.Some? && WireSlot(key.channel, next.parent, next.number.value) in sunset {
        items := items + [breaking];
      } else if items == [] {
        if next.state == Sunset {
          items := [breaking];
        } else if next.state == Deprecated {
          items := [Finding(DeprecationNotice, OfEntry(key))];
        } else {
          items := [Finding(AdditiveSafe, OfEntry(key))];
        }
      }
      return;
    }
    var prior := b.entries[key];
    if prior.kind != next.kind { items := items + [breaking]; }
    if prior.parent != next.parent { items := items + [breaking]; }
    if prior.number != next.number { items := items + [breaking]; }
    if prior.introducedIn != next.introducedIn { items := items + [breaking]; }
    if items != [] { return; }
    var class_ := DiffStates(prior, next);
    items := [Finding(class_, OfEntry(key))];
  }

  method DiffStates(prior: Entry, next: Entry) returns (class_: Class)
    ensures class_ != Breaking <==> Forward(prior, next)
    ensures Forward(prior, next) && prior.state == next.state ==>
              class_ == if prior.state == Deprecated && prior != next then DeprecationNotice else Unchanged
    ensures Forward(prior, next) && prior.state != next.state ==>
              class_ == if next.state == Sunset then SunsetRetirement else DeprecationNotice
  {
    if prior.state == Active {
      if next.state == Active { return Unchanged; }
      if next.state == Deprecated { return DeprecationNotice; }
      return Breaking;
    }
    if prior.state == Deprecated && next.state == Deprecated {
      if prior.earliestSunset.Some? && next.earliestSunset.Some?
         && next.earliestSunset.value < prior.earliestSunset.value { return Breaking; }
      if prior != next { return DeprecationNotice; }
      return Unchanged;
    }
    if prior.state == Deprecated && next.state == Sunset {
      if prior.earliestSunset.Some? && next.sunsetIn.Some? && next.sunsetIn.value < prior.earliestSunset.value {
        return Breaking;
      }
      return SunsetRetirement;
    }
    if prior.state == Sunset && next.state == Sunset { return Unchanged; }
    return Breaking;
  }

  // ---------- the whole comparison ----------

  function Flatten(parts: seq<seq<Finding>>): seq<Finding> {
    if parts == [] then [] else Flatten(parts[..|parts| - 1]) + parts[|parts| - 1]
  }

  lemma FlattenNext(parts: seq<seq<Finding>>, found: seq<Finding>)
    ensures Flatten(parts + [found]) == Flatten(parts) + found
  {
    assert (parts + [found])[..|parts|] == parts;
  }

  /** Each part of the report is the verdict on its subject. */
  ghost predicate Reports(b: Manifest, c: Manifest, subjects: seq<Target>, parts: seq<seq<Finding>>) {
    |parts| == |subjects| && forall i :: 0 <= i < |parts| ==> Verdict(b, c, subjects[i], parts[i])
  }

  /** Nothing is breaking exactly when every subject is acceptable, and then each has its one finding, in order. */
  ghost predicate Means(b: Manifest, c: Manifest, subjects: seq<Target>, items: seq<Finding>) {
    && (NoBreaking(items) <==> forall i :: 0 <= i < |subjects| ==> SubjectOk(b, c, subjects[i]))
    && (NoBreaking(items) ==> |items| == |subjects|)
    && (NoBreaking(items) ==>
          forall i :: 0 <= i < |items| ==>
            i < |subjects| && items[i] == Finding(SubjectClass(b, c, subjects[i]), subjects[i]))
  }

  lemma MeansNext(b: Manifest, c: Manifest, subjects: seq<Target>, items: seq<Finding>, t: Target, found: seq<Finding>)
    requires Means(b, c, subjects, items) && Verdict(b, c, t, found)
    ensures Means(b, c, subjects + [t], items + found)
  {
    var all := subjects + [t];
    JoinFindings(items, found);
    assert NoBreaking(found) <==> SubjectOk(b, c, t) by {
      assert !SubjectOk(b, c, t) ==> found[0].class_ == Breaking;
    }
    assert all[|subjects|] == t;
    assert forall i :: 0 <= i < |subjects| ==> all[i] == subjects[i];
  }

  lemma {:induction false} ReportMeans(b: Manifest, c: Manifest, subjects: seq<Target>, parts: seq<seq<Finding>>)
    requires Reports(b, c, subjects, parts)
    ensures Means(b, c, subjects, Flatten(parts))
    decreases |subjects|
  {
    if subjects != [] {
      var n := |subjects| - 1;
      ReportMeans(b, c, subjects[..n], parts[..n]);
      MeansNext(b, c, subjects[..n], Flatten(parts[..n]), subjects[n], parts[n]);
      assert subjects == subjects[..n] + [subjects[n]];
    }
  }

  lemma JoinFindings(items: seq<Finding>, found: seq<Finding>)
    ensures NoBreaking(items + found) <==> NoBreaking(items) && NoBreaking(found)
  {
    var both := items + found;
    if NoBreaking(both) {
      forall i | 0 <= i < |items| ensures items[i].class_ != Breaking { assert both[i] == items[i]; }
      forall i | 0 <= i < |found| ensures found[i].class_ != Breaking { assert both[|items| + i] == found[i]; }
    }
  }

  /** A walk over the names or keys of either release; the order is immaterial to every result here. */
  method Enumerate<T(==)>(s: set<T>) returns (q: seq<T>)
    ensures Elements(q) == s && |q| == |s|
  {
    q := [];
    var rest := s;
    while rest != {}
      invariant rest !! Elements(q) && rest + Elements(q) == s && |q| + |rest| == |s|
    {
      var x :| x in rest;
      assert Elements(q + [x]) == Elements(q) + {x};
      q, rest := q + [x], rest - {x};
    }
  }

  datatype Tombstones = Tombstones(numbers: set<int>, symbols: set<string>)

  function TombstonesInForce(b: Manifest, c: Manifest, name: string): Tombstones {
    Tombstones(NumbersInForce(b, c, name), SymbolsInForce(b, c, name))
  }

  method CollectTombstones(b: Manifest, c: Manifest, name: string) returns (t: Tombstones)
    requires name in c.channels
    ensures t == TombstonesInForce(b, c, name)
  {
    t := Tombstones(Elements(c.channels[name].reservedNumbers), Elements(c.channels[name].reservedSymbols));
    if name in b.channels {
      t := Tombstones(t.numbers + Elements(b.channels[name].reservedNumbers),
                      t.symbols + Elements(b.channels[name].reservedSymbols));
    }
  }

  function ChannelTargets(names: seq<string>): (ts: seq<Target>)
    ensures |ts| == |names| && forall i :: 0 <= i < |names| ==> ts[i] == OfChannel(names[i])
  {
    seq(|names|, i requires 0 <= i < |names| => OfChannel(names[i]))
  }

  function EntryTargets(keys: seq<EntryKey>): (ts: seq<Target>)
    ensures |ts| == |keys| && forall i :: 0 <= i < |keys| ==> ts[i] == OfEntry(keys[i])
  {
    seq(|keys|, i requires 0 <= i < |keys| => OfEntry(keys[i]))
  }

  method DiffChannels(b: Manifest, c: Manifest, names: seq<string>)
    returns (items: seq<Finding>, tombstones: map<string, Tombstones>, ghost parts: seq<seq<Finding>>)
    requires forall i :: 0 <= i < |names| ==> names[i] in b.channels.Keys + c.channels.Keys
    ensures items == Flatten(parts) && Reports(b, c, ChannelTargets(names), parts)
    ensures forall i :: 0 <= i < |names| && names[i] in c.channels ==> names[i] in tombstones
    ensures forall name :: name in tombstones ==> tombstones[name] == TombstonesInForce(b, c, name)
  {
    items, tombstones, parts := [], map[], [];
    for i := 0 to |names|
      invariant |parts| == i && items == Flatten(parts)
      invariant forall j :: 0 <= j < i ==> Verdict(b, c, OfChannel(names[j]), parts[j])
      invariant forall j :: 0 <= j < i && names[j] in c.channels ==> names[j] in tombstones
      invariant forall name :: name in tombstones ==> tombstones[name] == TombstonesInForce(b, c, name)
    {
      var found := DiffChannel(b, c, names[i]);
      FlattenNext(parts, found);
      items, parts := items + found, parts + [found];
      if names[i] in c.channels {
        var t := CollectTombstones(b, c, names[i]);
        tombstones := tombstones[names[i] := t];
      }
    }
  }

  /** The sunset slots of the earlier release. */
  method SunsetSlots(b: Manifest) returns (slots: set<WireSlot>)
    ensures forall slot :: slot in slots <==> SunsetSlot(b, slot)
  {
    slots := {};
    var rest := b.entries.Keys;
    ghost var done := {};
    while rest != {}
      invariant rest !! done && rest + done == b.entries.Keys
      invariant forall slot :: slot in slots <==>
                  exists key :: key in done && b.entries[key].state == Sunset && SlotOf(key, b.entries[key]) == Some(slot)
    {
      var key :| key in rest;
      if b.entries[key].state == Sunset && b.entries[key].number.Some? {
        slots := slots + {WireSlot(key.channel, b.entries[key].parent, b.entries[key].number.value)};
      }
      rest, done := rest - {key}, done + {key};
    }
  }

  /** A second holder of one slot is breaking, whichever of the two the walk meets first. */
  method Collisions(c: Manifest) returns (items: seq<Finding>)
    ensures NoBreaking(items) <==> OneHolderEach(c)
    ensures NoBreaking(items) ==> items == []
  {
    items := [];
    var seen: map<WireSlot, string> := map[];
    var rest := c.entries.Keys;
    ghost var done := {};
    while rest != {}
      invariant rest !! done && rest + done == c.entries.Keys
      invariant SlotsSeen(c, done, seen)
      invariant items == [] <==> DistinctSlots(c, done)
      invariant items != [] ==> items[0].class_ == Breaking
    {
      var key :| key in rest;
      SeeSlot(c, done, seen, key);
      var slot := SlotOf(key, c.entries[key]);
      if slot.Some? {
        if slot.value in seen {
          items := items + [Finding(Breaking, OfEntry(key))];
        } else {
          seen := seen[slot.value := key.symbol];
        }
      }
      rest, done := rest - {key}, done + {key};
    }
  }

  ghost predicate SlotsSeen(c: Manifest, done: set<EntryKey>, seen: map<WireSlot, string>)
    requires done <= c.entries.Keys
  {
    && (forall slot :: slot in seen ==>
          Holds(c, EntryKey(slot.channel, seen[slot]), slot) && EntryKey(slot.channel, seen[slot]) in done)
    && (forall key :: key in done && c.entries[key].number.Some? ==> SlotOf(key, c.entries[key]).value in seen)
  }

  ghost predicate DistinctSlots(c: Manifest, done: set<EntryKey>)
    requires done <= c.entries.Keys
  {
    forall j, k | j in done && k in done && j != k && c.entries[j].number.Some? ::
      SlotOf(j, c.entries[j]) != SlotOf(k, c.entries[k])
  }

  lemma SeeSlot(c: Manifest, done: set<EntryKey>, seen: map<WireSlot, string>, key: EntryKey)
    requires done <= c.entries.Keys && key in c.entries && key !in done
    requires SlotsSeen(c, done, seen)
    ensures var slot := SlotOf(key, c.entries[key]);
            && (slot.Some? && slot.value in seen ==> !DistinctSlots(c, done + {key}))
            && (!(slot.Some? && slot.value in seen) ==> (DistinctSlots(c, done + {key}) <==> DistinctSlots(c, done)))
  {
    var slot := SlotOf(key, c.entries[key]);
    if slot.Some? && slot.value in seen {
      var first := EntryKey(slot.value.channel, seen[slot.value]);
      assert first in done + {key} && key in done + {key} && SlotOf(first, c.entries[first]) == slot;
    }
  }

  method DiffEntries(b: Manifest, c: Manifest, keys: seq<EntryKey>, tombstones: map<string, Tombstones>)
    returns (items: seq<Finding>, ghost parts: seq<seq<Finding>>)
    requires forall i :: 0 <= i < |keys| ==> keys[i] in b.entries.Keys + c.entries.Keys
    requires AllCollected(b, c, tombstones)
    ensures items == Flatten(parts) && Reports(b, c, EntryTargets(keys), parts)
  {
    var sunset := SunsetSlots(b);
    items, parts := [], [];
    for i := 0 to |keys|
      invariant |parts| == i && items == Flatten(parts)
      invariant forall j :: 0 <= j < i ==> Verdict(b, c, OfEntry(keys[j]), parts[j])
    {
      var t := if keys[i].channel in tombstones then tombstones[keys[i].channel] else Tombstones({}, {});
      var found := DiffEntry(b, c, keys[i], t.numbers, t.symbols, sunset);
      FlattenNext(parts, found);
      items, parts := items + found, parts + [found];
    }
  }

  ghost predicate ChannelsFound(b: Manifest, c: Manifest, items: seq<Finding>) {
    forall name :: name in b.channels.Keys + c.channels.Keys ==>
      Finding(ChannelClass(b, c, name), OfChannel(name)) in items
  }

  ghost predicate EntriesFound(b: Manifest, c: Manifest, items: seq<Finding>) {
    forall key :: key in b.entries.Keys + c.entries.Keys ==> Finding(EntryClass(b, c, key), OfEntry(key)) in items
  }

  /** An accepted report: one finding per channel and per entry, each of the class the rules give it. */
  ghost predicate FullReport(b: Manifest, c: Manifest, items: seq<Finding>) {
    && |items| == |b.channels.Keys + c.channels.Keys| + |b.entries.Keys + c.entries.Keys|
    && ChannelsFound(b, c, items)
    && EntriesFound(b, c, items)
  }

  lemma ChannelsMean(b: Manifest, c: Manifest, names: seq<string>, items: seq<Finding>)
    requires Elements(names) == b.channels.Keys + c.channels.Keys
    requires Means(b, c, ChannelTargets(names), items)
    ensures NoBreaking(items) <==> ChannelsOk(b, c)
    ensures NoBreaking(items) ==> |items| == |names| && ChannelsFound(b, c, items)
  {
    var ts := ChannelTargets(names);
    forall name | name in b.channels.Keys + c.channels.Keys
      ensures OfChannel(name) in ts
      ensures NoBreaking(items) ==> Finding(ChannelClass(b, c, name), OfChannel(name)) in items
    {
      assert name in Elements(names);
      var i :| 0 <= i < |names| && names[i] == name;
      assert ts[i] == OfChannel(name);
      assert NoBreaking(items) ==> items[i] == Finding(SubjectClass(b, c, ts[i]), ts[i]);
    }
    assert forall t :: t in ts ==> t.OfChannel? && SubjectOk(b, c, t) == ChannelOk(b, c, t.name);
    assert forall name :: name in b.channels.Keys + c.channels.Keys ==>
                            SubjectOk(b, c, OfChannel(name)) == ChannelOk(b, c, name);
  }

  lemma EntriesMean(b: Manifest, c: Manifest, keys: seq<EntryKey>, items: seq<Finding>)
    requires Elements(keys) == b.entries.Keys + c.entries.Keys
    requires Means(b, c, EntryTargets(keys), items)
    ensures NoBreaking(items) <==> EntriesOk(b, c)
    ensures NoBreaking(items) ==> |items| == |keys| && EntriesFound(b, c, items)
  {
    var ts := EntryTargets(keys);
    forall key | key in b.entries.Keys + c.entries.Keys
      ensures OfEntry(key) in ts
      ensures NoBreaking(items) ==> Finding(EntryClass(b, c, key), OfEntry(key)) in items
    {
      assert key in Elements(keys);
      var i :| 0 <= i < |keys| && keys[i] == key;
      assert ts[i] == OfEntry(key);
      assert NoBreaking(items) ==> items[i] == Finding(SubjectClass(b, c, ts[i]), ts[i]);
    }
    assert forall t :: t in ts ==> t.OfEntry? && SubjectOk(b, c, t) == EntryOk(b, c, t.key);
    assert forall key :: key in b.entries.Keys + c.entries.Keys ==>
                           SubjectOk(b, c, OfEntry(key)) == EntryOk(b, c, key);
  }

  lemma JoinFour(p: seq<Finding>, q: seq<Finding>, r: seq<Finding>, s: seq<Finding>)
    ensures NoBreaking(p + q + r + s) <==> NoBreaking(p) && NoBreaking(q) && NoBreaking(r) && NoBreaking(s)
  {
    JoinFindings(p, q);
    JoinFindings(p + q, r);
    JoinFindings(p + q + r, s);
  }

  lemma DropEmpty<T>(q: seq<T>, s: seq<T>)
    ensures [] + q + [] + s == q + s
  {
    assert [] + q + [] == q;
  }

  lemma KeepMembers<T>(q: seq<T>, s: seq<T>)
    ensures forall x :: x in q ==> x in q + s
    ensures forall x :: x in s ==> x in q + s
  {
  }

  lemma JoinFound(b: Manifest, c: Manifest, channels: seq<Finding>, entries: seq<Finding>, items: seq<Finding>)
    requires ChannelsFound(b, c, channels) && |channels| == |b.channels.Keys + c.channels.Keys|
    requires EntriesFound(b, c, entries) && |entries| == |b.entries.Keys + c.entries.Keys|
    requires items == [] + channels + [] + entries
    ensures FullReport(b, c, items)
  {
    DropEmpty(channels, entries);
    KeepMembers(channels, entries);
  }

  ghost predicate AllCollected(b: Manifest, c: Manifest, tombstones: map<string, Tombstones>) {
    forall name :: name in c.channels ==> name in tombstones && tombstones[name] == TombstonesInForce(b, c, name)
  }

  method ReportChannels(b: Manifest, c: Manifest)
    returns (items: seq<Finding>, tombstones: map<string, Tombstones>)
    ensures NoBreaking(items) <==> ChannelsOk(b, c)
    ensures NoBreaking(items) ==> |items| == |b.channels.Keys + c.channels.Keys| && ChannelsFound(b, c, items)
    ensures AllCollected(b, c, tombstones)
  {
    var names := Enumerate(b.channels.Keys + c.channels.Keys);
    assert forall i :: 0 <= i < |names| ==> names[i] in Elements(names);
    ghost var parts;
    items, tombstones, parts := DiffChannels(b, c, names);
    forall name | name in c.channels ensures name in tombstones {
      assert name in Elements(names);
      var i :| 0 <= i < |names| && names[i] == name;
    }
    ReportMeans(b, c, ChannelTargets(names), parts);
    ChannelsMean(b, c, names, items);
  }

  method ReportEntries(b: Manifest, c: Manifest, tombstones: map<string, Tombstones>) returns (items: seq<Finding>)
    requires AllCollected(b, c, tombstones)
    ensures NoBreaking(items) <==> EntriesOk(b, c)
    ensures NoBreaking(items) ==> |items| == |b.entries.Keys + c.entries.Keys| && EntriesFound(b, c, items)
  {
    var keys := Enumerate(b.entries.Keys + c.entries.Keys);
    assert forall i :: 0 <= i < |keys| ==> keys[i] in Elements(keys);
    ghost var parts;
    items, parts := DiffEntries(b, c, keys, tombstones);
    ReportMeans(b, c, EntryTargets(keys), parts);
    EntriesMean(b, c, keys, items);
  }

  method DiffManifests(b: Manifest, c: Manifest, structural: seq<Finding>) returns (items: seq<Finding>)
    ensures structural <= items
    ensures NoBreaking(items) <==> NoBreaking(structural) && Compatible(b, c)
    ensures NoBreaking(items) ==> FullReport(b, c, items[|structural|..])
  {
    var findings := Compare(b, c);
    JoinFindings(structural, findings);
    items := structural + findings;
    assert items[|structural|..] == findings;
  }

  method Compare(b: Manifest, c: Manifest) returns (items: seq<Finding>)
    ensures NoBreaking(items) <==> Compatible(b, c)
    ensures NoBreaking(items) ==> FullReport(b, c, items)
  {
    var regressed := [];
    if c.epoch < b.epoch {
      regressed := [Finding(Breaking, OfManifest)];
      assert regressed[0].class_ == Breaking;
    }
    var channels, tombstones := ReportChannels(b, c);
    var collisions := Collisions(c);
    var entries := ReportEntries(b, c, tombstones);
    items := regressed + channels + collisions + entries;
    JoinFour(regressed, channels, collisions, entries);
    if NoBreaking(items) {
      JoinFound(b, c, channels, entries, items);
    }
  }
}
