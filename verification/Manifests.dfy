/** Deprecation manifests and the rules one release has to keep towards the release before it. */
module Manifests {
  import opened Wrappers

  datatype State = Active | Deprecated | Sunset
  datatype Kind = Message | Field | Method | EnumValue | Extension

  datatype Channel = Channel(
    major: int, minor: int, frozen: bool, reservedNumbers: seq<int>, reservedSymbols: seq<string>)

  /** An entry's channel and symbol are its key. */
  datatype EntryKey = EntryKey(channel: string, symbol: string)

  datatype Entry = Entry(
    kind: Kind, introducedIn: int, state: State, parent: Option<string>, number: Option<int>,
    deprecatedIn: Option<int>, earliestSunset: Option<int>, sunsetIn: Option<int>,
    replacement: Option<string>, migrationRule: Option<string>, reason: Option<string>)

  datatype Manifest = Manifest(
    version: int, epoch: int, window: int, frozenTotal: int,
    channels: map<string, Channel>, entries: map<EntryKey, Entry>)

  /** A wire slot: a field number inside a parent type of a channel. */
  datatype WireSlot = WireSlot(channel: string, parent: Option<string>, number: int)

  function Elements<T(==)>(s: seq<T>): set<T> {
    set x | x in s
  }

  function NumbersReserved(m: Manifest, channel: string): set<int> {
    if channel in m.channels then Elements(m.channels[channel].reservedNumbers) else {}
  }

  function SymbolsReserved(m: Manifest, channel: string): set<string> {
    if channel in m.channels then Elements(m.channels[channel].reservedSymbols) else {}
  }

  /** Tombstones of either release bind the later one. */
  function NumbersInForce(b: Manifest, c: Manifest, channel: string): set<int> {
    NumbersReserved(b, channel) + NumbersReserved(c, channel)
  }

  function SymbolsInForce(b: Manifest, c: Manifest, channel: string): set<string> {
    SymbolsReserved(b, channel) + SymbolsReserved(c, channel)
  }

  function SlotOf(key: EntryKey, e: Entry): Option<WireSlot> {
    if e.number.Some? then Some(WireSlot(key.channel, e.parent, e.number.value)) else None
  }

  predicate Holds(m: Manifest, key: EntryKey, slot: WireSlot) {
    key in m.entries && SlotOf(key, m.entries[key]) == Some(slot)
  }

  // ---------- rules ----------

  /** What the manifest reader insists on before any comparison. */
  predicate Structural(m: Manifest) {
    m.version == 1 && 1 <= m.epoch && 2 <= m.window && m.frozenTotal == |m.channels|
  }

  predicate GivenEpoch(epoch: Option<int>) {
    epoch.Some? && epoch.value != 0
  }

  predicate GivenText(text: Option<string>) {
    text.Some? && text.value != ""
  }

  function GraceWindow(m: Manifest): int {
    if m.window < 2 then 2 else m.window
  }

  /** Deprecated and sunset entries name their epochs, replacement and rule, and leave the grace window open. */
  predicate Announced(m: Manifest, e: Entry) {
    && GivenEpoch(e.deprecatedIn) && GivenEpoch(e.earliestSunset)
    && GivenText(e.replacement) && GivenText(e.migrationRule)
    && e.deprecatedIn.value + GraceWindow(m) <= e.earliestSunset.value
  }

  predicate Expired(m: Manifest, e: Entry) {
    && e.sunsetIn.Some? && e.earliestSunset.Some?
    && e.earliestSunset.value <= e.sunsetIn.value <= m.epoch
  }

  /** A present entry is clean against the tombstones of its channel. */
  predicate Clean(m: Manifest, key: EntryKey, e: Entry, numbers: set<int>, symbols: set<string>) {
    && key.channel in m.channels
    && (e.number.Some? ==> 0 < e.number.value)
    && (e.state != Sunset ==> key.symbol !in symbols && (e.number.Some? ==> e.number.value !in numbers))
    && (e.state != Active ==> Announced(m, e))
    && (e.state == Sunset ==> Expired(m, e))
  }

  predicate SameIdentity(b: Entry, c: Entry) {
    b.kind == c.kind && b.parent == c.parent && b.number == c.number && b.introducedIn == c.introducedIn
  }

  predicate Forward(b: Entry, c: Entry) {
    match (b.state, c.state)
    case (Active, Active) => true
    case (Active, Deprecated) => true
    case (Deprecated, Deprecated) =>
      b.earliestSunset.Some? && c.earliestSunset.Some? ==> b.earliestSunset.value <= c.earliestSunset.value
    case (Deprecated, Sunset) =>
      b.earliestSunset.Some? && c.sunsetIn.Some? ==> b.earliestSunset.value <= c.sunsetIn.value
    case (Sunset, Sunset) => true
    case _ => false
  }

  /** The entry left the manifest: only a sunset entry may, and only into its channel's tombstones. */
  predicate Archived(b: Manifest, c: Manifest, key: EntryKey) {
    && key in b.entries
    && b.entries[key].state == Sunset
    && key.symbol in SymbolsReserved(c, key.channel)
    && (b.entries[key].number.Some? ==> b.entries[key].number.value in NumbersReserved(c, key.channel))
  }

  predicate SunsetSlot(m: Manifest, slot: WireSlot) {
    exists key :: key in m.entries && m.entries[key].state == Sunset && SlotOf(key, m.entries[key]) == Some(slot)
  }

  predicate EntryOk(b: Manifest, c: Manifest, key: EntryKey) {
    if key !in c.entries then Archived(b, c, key)
    else
      var e := c.entries[key];
      && Clean(c, key, e, NumbersInForce(b, c, key.channel), SymbolsInForce(b, c, key.channel))
      && if key in b.entries then SameIdentity(b.entries[key], e) && Forward(b.entries[key], e)
         else e.state != Sunset && !(e.number.Some? && SunsetSlot(b, SlotOf(key, e).value))
  }

  predicate VersionKept(b: Channel, c: Channel) {
    b.major < c.major || (b.major == c.major && b.minor <= c.minor)
  }

  predicate ChannelOk(b: Manifest, c: Manifest, name: string) {
    && name in c.channels
    && c.channels[name].frozen
    && NumbersReserved(b, name) <= NumbersReserved(c, name)
    && SymbolsReserved(b, name) <= SymbolsReserved(c, name)
    && if name in b.channels then VersionKept(b.channels[name], c.channels[name]) else 1 <= c.channels[name].major
  }

  predicate OneHolderEach(m: Manifest) {
    forall j, k | j in m.entries && k in m.entries && j != k && m.entries[j].number.Some? ::
      SlotOf(j, m.entries[j]) != SlotOf(k, m.entries[k])
  }

  predicate ChannelsOk(b: Manifest, c: Manifest) {
    forall name :: name in b.channels.Keys + c.channels.Keys ==> ChannelOk(b, c, name)
  }

  predicate EntriesOk(b: Manifest, c: Manifest) {
    forall key :: key in b.entries.Keys + c.entries.Keys ==> EntryOk(b, c, key)
  }

  predicate Compatible(b: Manifest, c: Manifest) {
    b.epoch <= c.epoch && ChannelsOk(b, c) && OneHolderEach(c) && EntriesOk(b, c)
  }
}
