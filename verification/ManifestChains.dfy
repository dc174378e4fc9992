/** What holds along any sequence of releases, each accepted against the one before it. */
module ManifestChains {
  import opened Wrappers
  import opened Manifests

  predicate Accepted(b: Manifest, c: Manifest) {
    Structural(c) && Compatible(b, c)
  }

  /** A release that would be accepted as its own successor. */
  predicate WellFormed(m: Manifest) {
    Accepted(m, m)
  }

  predicate Chain(ms: seq<Manifest>) {
    ms != [] && WellFormed(ms[0]) && forall i :: 0 <= i < |ms| - 1 ==> Accepted(ms[i], ms[i + 1])
  }

  // ---------- one step ----------

  lemma EntryHolds(b: Manifest, c: Manifest, key: EntryKey)
    requires EntriesOk(b, c) && (key in b.entries || key in c.entries)
    ensures EntryOk(b, c, key)
  {
    assert key in b.entries.Keys + c.entries.Keys;
  }

  lemma ChannelHolds(b: Manifest, c: Manifest, name: string)
    requires ChannelsOk(b, c) && (name in b.channels || name in c.channels)
    ensures ChannelOk(b, c, name)
  {
    assert name in b.channels.Keys + c.channels.Keys;
  }

  lemma ReservedGrows(b: Manifest, c: Manifest, channel: string)
    requires ChannelsOk(b, c)
    ensures NumbersReserved(b, channel) <= NumbersReserved(c, channel)
    ensures SymbolsReserved(b, channel) <= SymbolsReserved(c, channel)
  {
    if channel in b.channels {
      ChannelHolds(b, c, channel);
    }
  }

  lemma InForceIsReserved(b: Manifest, c: Manifest, channel: string)
    requires ChannelsOk(b, c)
    ensures NumbersInForce(b, c, channel) == NumbersReserved(c, channel) == NumbersInForce(c, c, channel)
    ensures SymbolsInForce(b, c, channel) == SymbolsReserved(c, channel) == SymbolsInForce(c, c, channel)
  {
    ReservedGrows(b, c, channel);
  }

  /** Acceptance against any release makes a release acceptable against itself. */
  lemma AcceptedIsWellFormed(b: Manifest, c: Manifest)
    requires Accepted(b, c)
    ensures WellFormed(c)
  {
    forall name | name in c.channels.Keys + c.channels.Keys ensures ChannelOk(c, c, name) {
      ChannelHolds(b, c, name);
    }
    forall key | key in c.entries.Keys + c.entries.Keys ensures EntryOk(c, c, key) {
      EntryHolds(b, c, key);
      InForceIsReserved(b, c, key.channel);
    }
  }

  // ---------- slots ----------

  /** Nobody but `key` holds the slot, and once `key` lets go the number is a tombstone of the channel. */
  ghost predicate Owns(m: Manifest, key: EntryKey, slot: WireSlot) {
    && (forall other :: Holds(m, other, slot) ==> other == key)
    && (Holds(m, key, slot) || slot.number in NumbersReserved(m, slot.channel))
  }

  lemma HolderOwns(m: Manifest, key: EntryKey, slot: WireSlot)
    requires OneHolderEach(m) && Holds(m, key, slot)
    ensures Owns(m, key, slot)
  {
  }

  lemma HolderLetsGo(b: Manifest, c: Manifest, key: EntryKey, slot: WireSlot)
    requires ChannelsOk(b, c) && EntriesOk(b, c) && Owns(b, key, slot)
    ensures Holds(c, key, slot) || slot.number in NumbersReserved(c, slot.channel)
  {
    ReservedGrows(b, c, slot.channel);
    if Holds(b, key, slot) {
      EntryHolds(b, c, key);
    }
  }

  /** A newcomer never takes a number that is a tombstone. */
  lemma NewcomerAvoidsTombstones(b: Manifest, c: Manifest, other: EntryKey, slot: WireSlot)
    requires ChannelsOk(b, c) && EntriesOk(b, c)
    requires other !in b.entries && Holds(c, other, slot)
    ensures slot.number !in NumbersReserved(c, slot.channel)
  {
    EntryHolds(b, c, other);
    InForceIsReserved(b, c, slot.channel);
  }

  lemma OwnerKeeps(b: Manifest, c: Manifest, key: EntryKey, slot: WireSlot)
    requires Compatible(b, c) && Owns(b, key, slot)
    ensures Owns(c, key, slot)
  {
    HolderLetsGo(b, c, key, slot);
    forall other | Holds(c, other, slot) ensures other == key {
      if other in b.entries {
        EntryHolds(b, c, other);
        assert Holds(b, other, slot);
      } else {
        NewcomerAvoidsTombstones(b, c, other, slot);
        assert Holds(c, key, slot);
      }
    }
  }

  lemma {:induction false} OwnsAfter(ms: seq<Manifest>, i: nat, j: nat, key: EntryKey, slot: WireSlot)
    requires Chain(ms) && i <= j < |ms| && Holds(ms[i], key, slot)
    ensures Owns(ms[j], key, slot)
    decreases j
  {
    if i == j {
      ChainIsWellFormed(ms, i);
      HolderOwns(ms[i], key, slot);
    } else {
      OwnsAfter(ms, i, j - 1, key, slot);
      assert Accepted(ms[j - 1], ms[j - 1 + 1]);
      OwnerKeeps(ms[j - 1], ms[j], key, slot);
    }
  }

  lemma ChainIsWellFormed(ms: seq<Manifest>, i: nat)
    requires Chain(ms) && i < |ms|
    ensures WellFormed(ms[i])
  {
    if i > 0 {
      assert Accepted(ms[i - 1], ms[i - 1 + 1]);
      AcceptedIsWellFormed(ms[i - 1], ms[i]);
    }
  }

  /** Over a whole chain a wire slot has one holder, in whichever two releases it is looked up. */
  lemma OneHolderForever(ms: seq<Manifest>, i: nat, j: nat, key: EntryKey, other: EntryKey, slot: WireSlot)
    requires Chain(ms) && i <= j < |ms|
    requires Holds(ms[i], key, slot) && Holds(ms[j], other, slot)
    ensures key == other
  {
    OwnsAfter(ms, i, j, key, slot);
  }

  // ---------- tombstones ----------

  lemma {:induction false} TombstonesOnlyGrow(ms: seq<Manifest>, i: nat, j: nat, channel: string)
    requires Chain(ms) && i <= j < |ms|
    ensures NumbersReserved(ms[i], channel) <= NumbersReserved(ms[j], channel)
    ensures SymbolsReserved(ms[i], channel) <= SymbolsReserved(ms[j], channel)
    decreases j
  {
    if i < j {
      TombstonesOnlyGrow(ms, i, j - 1, channel);
      assert Accepted(ms[j - 1], ms[j - 1 + 1]);
      ReservedGrows(ms[j - 1], ms[j], channel);
    }
  }

  /** Sunset, or archived out of the manifest into the channel's tombstones. */
  predicate Retired(m: Manifest, key: EntryKey) {
    if key in m.entries then m.entries[key].state == Sunset else key.symbol in SymbolsReserved(m, key.channel)
  }

  lemma RetiredStaysRetired(b: Manifest, c: Manifest, key: EntryKey)
    requires Compatible(b, c) && Retired(b, key)
    ensures Retired(c, key)
  {
    ReservedGrows(b, c, key.channel);
    if key in b.entries || key in c.entries {
      EntryHolds(b, c, key);
    }
  }

  /** A retired symbol is never active or deprecated again. */
  lemma {:induction false} RetiredForever(ms: seq<Manifest>, i: nat, j: nat, key: EntryKey)
    requires Chain(ms) && i <= j < |ms| && Retired(ms[i], key)
    ensures Retired(ms[j], key)
    decreases j
  {
    if i < j {
      RetiredForever(ms, i, j - 1, key);
      assert Accepted(ms[j - 1], ms[j - 1 + 1]);
      RetiredStaysRetired(ms[j - 1], ms[j], key);
    }
  }

  // ---------- promises ----------

  predicate InState(m: Manifest, key: EntryKey, state: State) {
    key in m.entries && m.entries[key].state == state
  }

  function Promise(m: Manifest, key: EntryKey): int {
    if key in m.entries && m.entries[key].earliestSunset.Some? then m.entries[key].earliestSunset.value else 0
  }

  function DeprecationEpoch(m: Manifest, key: EntryKey): int {
    if key in m.entries && m.entries[key].deprecatedIn.Some? then m.entries[key].deprecatedIn.value else 0
  }

  /** Still deprecated with a promise no earlier than `promise`, or retired at an epoch no earlier than it. */
  predicate Kept(m: Manifest, key: EntryKey, promise: int) {
    (InState(m, key, Deprecated) && promise <= Promise(m, key)) || (Retired(m, key) && promise <= m.epoch)
  }

  lemma PromiseIsKept(b: Manifest, c: Manifest, key: EntryKey, promise: int)
    requires WellFormed(b) && Compatible(b, c) && Kept(b, key, promise)
    ensures Kept(c, key, promise)
  {
    if Retired(b, key) {
      RetiredStaysRetired(b, c, key);
    } else {
      EntryHolds(b, b, key);
      EntryHolds(b, c, key);
    }
  }

  lemma {:induction false} PromisesAreKept(ms: seq<Manifest>, d: nat, j: nat, key: EntryKey)
    requires Chain(ms) && d <= j < |ms| && InState(ms[d], key, Deprecated)
    ensures Kept(ms[j], key, Promise(ms[d], key))
    ensures DeprecationEpoch(ms[d], key) + 2 <= Promise(ms[d], key)
    decreases j
  {
    if d == j {
      ChainIsWellFormed(ms, d);
      EntryHolds(ms[d], ms[d], key);
    } else {
      PromisesAreKept(ms, d, j - 1, key);
      ChainIsWellFormed(ms, j - 1);
      assert Accepted(ms[j - 1], ms[j - 1 + 1]);
      PromiseIsKept(ms[j - 1], ms[j], key, Promise(ms[d], key));
    }
  }

  /** Nothing goes from active to sunset without a release in which it is deprecated. */
  lemma {:induction false} SunsetFollowsDeprecation(ms: seq<Manifest>, i: nat, j: nat, key: EntryKey) returns (d: nat)
    requires Chain(ms) && i <= j < |ms|
    requires InState(ms[i], key, Active) && InState(ms[j], key, Sunset)
    ensures i < d < j && InState(ms[d], key, Deprecated)
    decreases j
  {
    assert Accepted(ms[j - 1], ms[j - 1 + 1]);
    EntryHolds(ms[j - 1], ms[j], key);
    if InState(ms[j - 1], key, Deprecated) {
      d := j - 1;
    } else {
      d := SunsetFollowsDeprecation(ms, i, j - 1, key);
    }
  }

  /**
   From active to sunset: some release in between is deprecated, every deprecated release up to the sunset keeps or
   postpones the promise of each earlier one, and the sunset release's epoch honours every promise made and lies at
   least two past every declared deprecation epoch.
   */
  ghost predicate SunsetHonoured(ms: seq<Manifest>, i: nat, j: nat, key: EntryKey)
    requires i <= j < |ms|
  {
    && (exists d :: i < d < j && InState(ms[d], key, Deprecated))
    && (forall d | i < d < j && InState(ms[d], key, Deprecated) ::
          && Promise(ms[d], key) <= ms[j].epoch
          && DeprecationEpoch(ms[d], key) + 2 <= ms[j].epoch
          && (ms[d].epoch <= DeprecationEpoch(ms[d], key) ==> ms[d].epoch + 2 <= ms[j].epoch))
    && (forall d, e | i < d <= e < j && InState(ms[d], key, Deprecated) && InState(ms[e], key, Deprecated) ::
          Promise(ms[d], key) <= Promise(ms[e], key))
  }

  lemma SunsetsAreHonoured(ms: seq<Manifest>, i: nat, j: nat, key: EntryKey)
    requires Chain(ms) && i <= j < |ms|
    requires InState(ms[i], key, Active) && InState(ms[j], key, Sunset)
    ensures SunsetHonoured(ms, i, j, key)
  {
    var first := SunsetFollowsDeprecation(ms, i, j, key);
    assert InState(ms[first], key, Deprecated);
    forall d | i < d < j && InState(ms[d], key, Deprecated)
      ensures Promise(ms[d], key) <= ms[j].epoch && DeprecationEpoch(ms[d], key) + 2 <= ms[j].epoch
    {
      PromisesAreKept(ms, d, j, key);
    }
    forall d, e | i < d <= e < j && InState(ms[d], key, Deprecated) && InState(ms[e], key, Deprecated)
      ensures Promise(ms[d], key) <= Promise(ms[e], key)
    {
      PromisesAreKept(ms, d, e, key);
    }
  }

  // ---------- the earliest sunset a promise allows ----------

  function SunsetAt(m: Manifest, key: EntryKey, epoch: int): Manifest
    requires key in m.entries
  {
    m.(epoch := epoch,
       entries := m.entries[key := m.entries[key].(state := Sunset, sunsetIn := Some(epoch))])
  }

  lemma SunsetAtIsAccepted(m: Manifest, key: EntryKey, epoch: int)
    requires WellFormed(m) && InState(m, key, Deprecated) && m.epoch <= epoch && Promise(m, key) <= epoch
    ensures Accepted(m, SunsetAt(m, key, epoch))
  {
    var c := SunsetAt(m, key, epoch);
    forall name | name in m.channels.Keys + c.channels.Keys ensures ChannelOk(m, c, name) {
      ChannelHolds(m, m, name);
    }
    forall k | k in m.entries.Keys + c.entries.Keys ensures EntryOk(m, c, k) {
      EntryHolds(m, m, k);
    }
    forall j, k | j in c.entries && k in c.entries && j != k && c.entries[j].number.Some?
      ensures SlotOf(j, c.entries[j]) != SlotOf(k, c.entries[k])
    {
      assert SlotOf(j, m.entries[j]) != SlotOf(k, m.entries[k]);
    }
  }

  lemma {:induction false} EpochsOnlyGrow(ms: seq<Manifest>, i: nat, j: nat)
    requires Chain(ms) && i <= j < |ms|
    ensures ms[i].epoch <= ms[j].epoch
    decreases j
  {
    if i < j {
      EpochsOnlyGrow(ms, i, j - 1);
      assert Accepted(ms[j - 1], ms[j - 1 + 1]);
    }
  }

  /** Some chain of releases that starts here has the entry sunset in its last release, at this epoch. */
  ghost predicate CanRetireAt(m: Manifest, key: EntryKey, epoch: int) {
    exists ms :: Retires(ms, m, key, epoch)
  }

  ghost predicate Retires(ms: seq<Manifest>, m: Manifest, key: EntryKey, epoch: int) {
    && Chain(ms) && ms[0] == m
    && InState(ms[|ms| - 1], key, Sunset) && ms[|ms| - 1].epoch == epoch
  }

  /** A deprecated entry can be sunset, by whatever releases lie in between, exactly from the promised epoch on. */
  lemma RetirableExactlyWhen(m: Manifest, key: EntryKey, epoch: int)
    requires WellFormed(m) && InState(m, key, Deprecated)
    ensures CanRetireAt(m, key, epoch) <==> m.epoch <= epoch && Promise(m, key) <= epoch
  {
    if CanRetireAt(m, key, epoch) {
      var ms :| Retires(ms, m, key, epoch);
      PromisesAreKept(ms, 0, |ms| - 1, key);
      EpochsOnlyGrow(ms, 0, |ms| - 1);
    }
    if m.epoch <= epoch && Promise(m, key) <= epoch {
      SunsetAtIsAccepted(m, key, epoch);
      assert Retires([m, SunsetAt(m, key, epoch)], m, key, epoch);
    }
  }

  /** Two epochs are bound to elapse before the sunset, whatever releases follow. */
  ghost predicate TwoEpochsBound(m: Manifest, key: EntryKey) {
    forall epoch :: CanRetireAt(m, key, epoch) ==> m.epoch + 2 <= epoch
  }

  /** Exactly when the promise lies two past the release that makes it: a backdated deprecation need not. */
  lemma GraceIsRealExactlyWhen(m: Manifest, key: EntryKey)
    requires WellFormed(m) && InState(m, key, Deprecated)
    ensures TwoEpochsBound(m, key) <==> m.epoch + 2 <= Promise(m, key)
  {
    var earliest := if m.epoch <= Promise(m, key) then Promise(m, key) else m.epoch;
    RetirableExactlyWhen(m, key, earliest);
    forall epoch | CanRetireAt(m, key, epoch) ensures Promise(m, key) <= epoch {
      RetirableExactlyWhen(m, key, epoch);
    }
  }

  const DEMO := EntryKey("kernel", "Open")

  function Backdated(state: State): Manifest {
    var entry := Entry(Message, 1, state, None, None, if state == Active then None else Some(1),
                       if state == Active then None else Some(3), None,
                       if state == Active then None else Some("OpenAt"), if state == Active then None else Some("M1"), None);
    Manifest(1, 5, 2, 1, map["kernel" := Channel(1, 0, true, [], [])], map[DEMO := entry])
  }

  lemma BackdatedIsAccepted(state: State)
    requires state != Sunset
    ensures Accepted(Backdated(Active), Backdated(state))
  {
    var a, d := Backdated(Active), Backdated(state);
    assert a.channels.Keys == {"kernel"} == d.channels.Keys && a.entries.Keys == {DEMO} == d.entries.Keys;
    assert ChannelOk(a, d, "kernel");
    assert EntryOk(a, d, DEMO);
  }

  /** Active, deprecated and sunset in three accepted releases of one and the same epoch. */
  lemma BackdatedGraceCanBeEmpty()
    ensures var ms := [Backdated(Active), Backdated(Deprecated), SunsetAt(Backdated(Deprecated), DEMO, 5)];
            && Chain(ms)
            && InState(ms[0], DEMO, Active) && InState(ms[2], DEMO, Sunset) && ms[0].epoch == ms[2].epoch
  {
    var a, d := Backdated(Active), Backdated(Deprecated);
    BackdatedIsAccepted(Active);
    BackdatedIsAccepted(Deprecated);
    AcceptedIsWellFormed(a, d);
    SunsetAtIsAccepted(d, DEMO, 5);
  }
}
