/** What acceptance means for the channels and entries themselves, for one release and along any chain of them. */
module Acceptance {
  import opened Wrappers
  import opened Manifests
  import opened ManifestDiff
  import opened ManifestChains

  // ---------- one release by itself ----------

  /** A deprecated or sunset entry says since when, until when at least, by what and how it is replaced. */
  predicate SaysHowItEnds(m: Manifest, e: Entry) {
    && e.deprecatedIn.Some? && e.deprecatedIn.value != 0 && e.earliestSunset.Some? && e.earliestSunset.value != 0
    && e.replacement.Some? && |e.replacement.value| > 0 && e.migrationRule.Some? && |e.migrationRule.value| > 0
    && e.deprecatedIn.value + m.window <= e.earliestSunset.value
  }

  predicate EntryStands(m: Manifest, key: EntryKey)
    requires key in m.entries
  {
    var e := m.entries[key];
    && key.channel in m.channels
    && (e.number.Some? ==> 1 <= e.number.value)
    && (e.state != Sunset ==>
          && key.symbol !in m.channels[key.channel].reservedSymbols
          && (e.number.Some? ==> e.number.value !in m.channels[key.channel].reservedNumbers))
    && (e.state != Active ==> SaysHowItEnds(m, e))
    && (e.state == Sunset ==> e.sunsetIn.Some? && e.earliestSunset.value <= e.sunsetIn.value <= m.epoch)
  }

  /** Version 1, a window of two epochs or more, frozen channels, sound entries, and one entry per wire slot. */
  predicate Stands(m: Manifest) {
    && m.version == 1 && 1 <= m.epoch && 2 <= m.window && m.frozenTotal == |m.channels|
    && (forall name :: name in m.channels ==> m.channels[name].frozen)
    && (forall key :: key in m.entries ==> EntryStands(m, key))
    && (forall j, k | j in m.entries && k in m.entries && j != k && j.channel == k.channel
          && m.entries[j].number.Some? && m.entries[j].number == m.entries[k].number ::
          m.entries[j].parent != m.entries[k].parent)
  }

  lemma EntryStandsExactlyWhen(m: Manifest, key: EntryKey)
    requires key in m.entries && 2 <= m.window
    ensures EntryOk(m, m, key) <==> EntryStands(m, key)
  {
  }

  lemma OneHolderMeans(m: Manifest)
    ensures OneHolderEach(m)
       <==> forall j, k | j in m.entries && k in m.entries && j != k && j.channel == k.channel
              && m.entries[j].number.Some? && m.entries[j].number == m.entries[k].number ::
              m.entries[j].parent != m.entries[k].parent
  {
  }

  /** A release is acceptable as its own successor exactly when it stands by itself. */
  lemma WellFormedExactlyWhen(m: Manifest)
    ensures WellFormed(m) <==> Stands(m)
  {
    OneHolderMeans(m);
    if 2 <= m.window {
      forall key | key in m.entries ensures EntryOk(m, m, key) <==> EntryStands(m, key) {
        EntryStandsExactlyWhen(m, key);
      }
    }
    forall name | name in m.channels ensures ChannelOk(m, m, name) <==> m.channels[name].frozen {
    }
    assert m.channels.Keys + m.channels.Keys == m.channels.Keys;
    assert m.entries.Keys + m.entries.Keys == m.entries.Keys;
  }

  // ---------- one release after another ----------

  /** A kept channel: no tombstone is lost and the version does not go back. */
  predicate ChannelMoves(b: Channel, c: Channel) {
    && (forall i :: 0 <= i < |b.reservedNumbers| ==> b.reservedNumbers[i] in c.reservedNumbers)
    && (forall i :: 0 <= i < |b.reservedSymbols| ==> b.reservedSymbols[i] in c.reservedSymbols)
    && (b.major < c.major || (b.major == c.major && b.minor <= c.minor))
  }

  /** A kept entry: the same thing, one state on at most, and no promise is shortened or broken. */
  predicate EntryMoves(b: Entry, c: Entry) {
    && b.kind == c.kind && b.parent == c.parent && b.number == c.number && b.introducedIn == c.introducedIn
    && (b.state == Active ==> c.state != Sunset)
    && (b.state == Deprecated ==>
          && c.state != Active
          && (b.earliestSunset.Some? && c.state == Deprecated && c.earliestSunset.Some? ==>
                b.earliestSunset.value <= c.earliestSunset.value)
          && (b.earliestSunset.Some? && c.state == Sunset && c.sunsetIn.Some? ==>
                b.earliestSunset.value <= c.sunsetIn.value))
    && (b.state == Sunset ==> c.state == Sunset)
  }

  /** An entry that left was sunset, and its symbol and number are tombstones of its channel. */
  predicate EntryLeaves(b: Manifest, c: Manifest, key: EntryKey)
    requires key in b.entries
  {
    && b.entries[key].state == Sunset
    && key.channel in c.channels && key.symbol in c.channels[key.channel].reservedSymbols
    && (b.entries[key].number.Some? ==> b.entries[key].number.value in c.channels[key.channel].reservedNumbers)
  }

  predicate Succeeds(b: Manifest, c: Manifest) {
    && b.epoch <= c.epoch
    && (forall name :: name in b.channels ==> name in c.channels && ChannelMoves(b.channels[name], c.channels[name]))
    && (forall name :: name in c.channels && name !in b.channels ==> 1 <= c.channels[name].major)
    && (forall key :: key in b.entries ==>
          if key in c.entries then EntryMoves(b.entries[key], c.entries[key]) else EntryLeaves(b, c, key))
    && (forall key :: key in c.entries && key !in b.entries ==> c.entries[key].state != Sunset)
  }

  lemma ChannelOkExactlyWhen(b: Manifest, c: Manifest, name: string)
    requires name in b.channels
    ensures ChannelOk(b, c, name)
       <==> name in c.channels && c.channels[name].frozen && ChannelMoves(b.channels[name], c.channels[name])
  {
    if name in c.channels && ChannelMoves(b.channels[name], c.channels[name]) {
      forall n | n in NumbersReserved(b, name) ensures n in NumbersReserved(c, name) {
        assert n in b.channels[name].reservedNumbers;
      }
      forall s | s in SymbolsReserved(b, name) ensures s in SymbolsReserved(c, name) {
        assert s in b.channels[name].reservedSymbols;
      }
    }
    if ChannelOk(b, c, name) {
      var numbers, symbols := b.channels[name].reservedNumbers, b.channels[name].reservedSymbols;
      forall i | 0 <= i < |numbers| ensures numbers[i] in c.channels[name].reservedNumbers {
        assert numbers[i] in NumbersReserved(b, name);
      }
      forall i | 0 <= i < |symbols| ensures symbols[i] in c.channels[name].reservedSymbols {
        assert symbols[i] in SymbolsReserved(b, name);
      }
    }
  }

  lemma ForwardExactlyWhen(b: Entry, c: Entry)
    ensures SameIdentity(b, c) && Forward(b, c) <==> EntryMoves(b, c)
  {
  }

  lemma LeavesExactlyWhen(b: Manifest, c: Manifest, key: EntryKey)
    requires key in b.entries
    ensures Archived(b, c, key) <==> EntryLeaves(b, c, key)
  {
  }

  lemma AcceptedSucceeds(b: Manifest, c: Manifest)
    requires Accepted(b, c)
    ensures Succeeds(b, c)
  {
    forall name | name in b.channels ensures name in c.channels && ChannelMoves(b.channels[name], c.channels[name]) {
      ChannelHolds(b, c, name);
      ChannelOkExactlyWhen(b, c, name);
    }
    forall name | name in c.channels && name !in b.channels ensures 1 <= c.channels[name].major {
      ChannelHolds(b, c, name);
    }
    forall key | key in b.entries
      ensures if key in c.entries then EntryMoves(b.entries[key], c.entries[key]) else EntryLeaves(b, c, key)
    {
      EntryHolds(b, c, key);
      LeavesExactlyWhen(b, c, key);
      if key in c.entries {
        ForwardExactlyWhen(b.entries[key], c.entries[key]);
      }
    }
    forall key | key in c.entries && key !in b.entries ensures c.entries[key].state != Sunset {
      EntryHolds(b, c, key);
    }
  }

  lemma ChannelsSucceed(b: Manifest, c: Manifest)
    requires Stands(c) && Succeeds(b, c)
    ensures ChannelsOk(b, c)
  {
    forall name | name in b.channels.Keys + c.channels.Keys ensures ChannelOk(b, c, name) {
      if name in b.channels {
        ChannelOkExactlyWhen(b, c, name);
      }
    }
  }

  /** A newcomer's slot was never that of a sunset entry: it is still there, or its number is a tombstone. */
  lemma NewcomerIsNoReuse(b: Manifest, c: Manifest, key: EntryKey)
    requires Stands(c) && Succeeds(b, c) && key in c.entries && key !in b.entries && c.entries[key].number.Some?
    ensures !SunsetSlot(b, SlotOf(key, c.entries[key]).value)
  {
    var slot := SlotOf(key, c.entries[key]).value;
    forall prior | prior in b.entries && b.entries[prior].state == Sunset
      ensures SlotOf(prior, b.entries[prior]) != Some(slot)
    {
      if prior in c.entries {
        assert EntryMoves(b.entries[prior], c.entries[prior]);
      } else {
        assert EntryLeaves(b, c, prior) && EntryStands(c, key);
      }
    }
  }

  lemma EntrySucceeds(b: Manifest, c: Manifest, key: EntryKey)
    requires Stands(c) && Succeeds(b, c) && ChannelsOk(b, c) && (key in b.entries || key in c.entries)
    ensures EntryOk(b, c, key)
  {
    if key !in c.entries {
      LeavesExactlyWhen(b, c, key);
    } else {
      EntryStandsExactlyWhen(c, key);
      InForceIsReserved(b, c, key.channel);
      if key in b.entries {
        ForwardExactlyWhen(b.entries[key], c.entries[key]);
      } else if c.entries[key].number.Some? {
        NewcomerIsNoReuse(b, c, key);
      }
    }
  }

  /** A release is accepted exactly when it stands by itself and succeeds the one before. */
  lemma AcceptedExactlyWhen(b: Manifest, c: Manifest)
    ensures Accepted(b, c) <==> Stands(c) && Succeeds(b, c)
  {
    if Accepted(b, c) {
      AcceptedIsWellFormed(b, c);
      WellFormedExactlyWhen(c);
      AcceptedSucceeds(b, c);
    }
    if Stands(c) && Succeeds(b, c) {
      ChannelsSucceed(b, c);
      OneHolderMeans(c);
      forall key | key in b.entries.Keys + c.entries.Keys ensures EntryOk(b, c, key) {
        EntrySucceeds(b, c, key);
      }
    }
  }

  // ---------- along any chain ----------

  lemma {:induction false} ChannelsPersist(ms: seq<Manifest>, i: nat, j: nat, name: string)
    requires Chain(ms) && i <= j < |ms| && name in ms[i].channels
    ensures name in ms[j].channels && ms[j].channels[name].frozen
    ensures var b, c := ms[i].channels[name], ms[j].channels[name];
            b.major < c.major || (b.major == c.major && b.minor <= c.minor)
    decreases j
  {
    if i == j {
      ChainIsWellFormed(ms, i);
      WellFormedExactlyWhen(ms[i]);
    } else {
      ChannelsPersist(ms, i, j - 1, name);
      assert Accepted(ms[j - 1], ms[j - 1 + 1]);
      AcceptedExactlyWhen(ms[j - 1], ms[j]);
    }
  }

  /** An entry is the same thing in every release that has it; once it left, its symbol is a tombstone. */
  predicate Traced(e: Entry, m: Manifest, key: EntryKey) {
    if key in m.entries then
      var f := m.entries[key];
      e.kind == f.kind && e.parent == f.parent && e.number == f.number && e.introducedIn == f.introducedIn
    else
      && key.channel in m.channels && key.symbol in m.channels[key.channel].reservedSymbols
      && (e.number.Some? ==> e.number.value in m.channels[key.channel].reservedNumbers)
  }

  lemma TraceGoesOn(e: Entry, b: Manifest, c: Manifest, key: EntryKey)
    requires Stands(c) && Succeeds(b, c) && Traced(e, b, key)
    ensures Traced(e, c, key) && (key !in b.entries ==> key !in c.entries)
  {
    if key in b.entries {
      if key in c.entries {
        assert EntryMoves(b.entries[key], c.entries[key]);
      } else {
        assert EntryLeaves(b, c, key);
      }
    } else {
      assert ChannelMoves(b.channels[key.channel], c.channels[key.channel]);
      assert key in c.entries ==> EntryStands(c, key);
    }
  }

  lemma {:induction false} EntriesAreTraced(ms: seq<Manifest>, i: nat, j: nat, key: EntryKey)
    requires Chain(ms) && i <= j < |ms| && key in ms[i].entries
    ensures Traced(ms[i].entries[key], ms[j], key)
    decreases j
  {
    if i < j {
      EntriesAreTraced(ms, i, j - 1, key);
      assert Accepted(ms[j - 1], ms[j - 1 + 1]);
      AcceptedExactlyWhen(ms[j - 1], ms[j]);
      TraceGoesOn(ms[i].entries[key], ms[j - 1], ms[j], key);
    }
  }

  /** Who left does not return. */
  lemma {:induction false} LeftForGood(ms: seq<Manifest>, i: nat, j: nat, k: nat, key: EntryKey)
    requires Chain(ms) && i <= j <= k < |ms| && key in ms[i].entries && key !in ms[j].entries
    ensures key !in ms[k].entries
    decreases k
  {
    if j < k {
      LeftForGood(ms, i, j, k - 1, key);
      EntriesAreTraced(ms, i, k - 1, key);
      assert Accepted(ms[k - 1], ms[k - 1 + 1]);
      AcceptedExactlyWhen(ms[k - 1], ms[k]);
      TraceGoesOn(ms[i].entries[key], ms[k - 1], ms[k], key);
    }
  }

  // ---------- what the classes of an accepted report tell ----------

  predicate In(m: Manifest, key: EntryKey, state: State) {
    key in m.entries && m.entries[key].state == state
  }

  /** An entry is reported retired, announced, added or unchanged exactly when it is. */
  lemma EntryClassesTell(b: Manifest, c: Manifest, key: EntryKey)
    requires Accepted(b, c) && (key in b.entries || key in c.entries)
    ensures EntryClass(b, c, key) == SunsetRetirement
       <==> key !in c.entries || (In(b, key, Deprecated) && In(c, key, Sunset))
    ensures EntryClass(b, c, key) == AdditiveSafe <==> key !in b.entries && In(c, key, Active)
    ensures EntryClass(b, c, key) == DeprecationNotice
       <==> In(c, key, Deprecated) && (key in b.entries ==> b.entries[key] != c.entries[key])
    ensures EntryClass(b, c, key) == Unchanged
       <==> key in b.entries && key in c.entries
            && (b.entries[key] == c.entries[key] || (In(b, key, Active) && In(c, key, Active))
                || (In(b, key, Sunset) && In(c, key, Sunset)))
  {
    AcceptedExactlyWhen(b, c);
  }

  lemma ChannelClassesTell(b: Manifest, c: Manifest, name: string)
    requires Accepted(b, c) && Stands(b) && (name in b.channels || name in c.channels)
    ensures ChannelClass(b, c, name) == Unchanged
       <==> name in b.channels && name in c.channels && b.channels[name] == c.channels[name]
    ensures ChannelClass(b, c, name) == AdditiveSafe
       <==> !(name in b.channels && name in c.channels && b.channels[name] == c.channels[name])
  {
    AcceptedExactlyWhen(b, c);
  }
}
