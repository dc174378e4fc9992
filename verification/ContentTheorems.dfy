/** What whole runs do to the content an application shows: rollback parity and version majors. */
module ContentTheorems {
  import opened Wrappers
  import opened Records
  import opened Versions
  import opened Changes
  import opened Runs
  import opened Invariants
  import opened Preservation
  import opened Reachability
  import opened Durability

  /** The decision installs, updates or switches the package to content of its own. */
  predicate PutsContent(d: Decision, p: PackageId) {
    d.Commit? && (d.change.Installs? || d.change.Updates? || d.change.Switch?) && d.change.receipt.package == p
  }

  predicate RollsBack(d: Decision, p: PackageId) {
    d.Commit? && d.change.ForwardRoll? && d.change.receipt.package == p
  }

  function ContentAt(db: Db, p: PackageId, g: nat): Option<Content> {
    var r := ReceiptAt(db, ApplicationId(p), g);
    if r.Some? then Some(ContentOf(r.value)) else None
  }

  lemma ContentIsStable(w: World, w': World, p: PackageId, g: nat)
    requires Extends(w, w') && ContentAt(w.db, p, g).Some?
    ensures ContentAt(w'.db, p, g) == ContentAt(w.db, p, g)
  {
  }

  lemma ContentExists(db: Db, p: PackageId, g: nat)
    requires ReceiptsKeyed(db) && HistoryDense(db)
    requires p in db.applications && 1 <= g <= db.applications[p].generation
    ensures ContentAt(db, p, g).Some?
  {
    assert RowDense(db, p, db.applications[p]);
    assert Slot(ApplicationId(p), g) in db.slots;
  }

  // ---------- how a generation moves ----------

  lemma QuietChange(w: World, change: Change, p: PackageId)
    requires Applicable(w.db, change) && Grounded(w, change) && p in w.db.applications
    requires !PutsContent(Commit(change, NoFact), p) && !RollsBack(Commit(change, NoFact), p)
    ensures p in Apply(w.db, change).applications
    ensures Apply(w.db, change).applications[p].generation == w.db.applications[p].generation
  {
  }

  lemma RollLands(w: World, r: InstallationReceipt, rb: RollbackReceipt)
    requires NextReceipt(w, r) && RollDue(w, r, rb)
    ensures var db', g := Apply(w.db, ForwardRoll(r, rb)), w.db.applications[r.package].generation;
            && 2 <= g
            && r.package in db'.applications && db'.applications[r.package].generation == g + 1
            && ContentAt(db', r.package, g + 1) == ContentAt(w.db, r.package, g - 1)
  {
  }

  lemma ContentsStay(w: World, w': World, p: PackageId)
    requires ReceiptsKeyed(w.db) && HistoryDense(w.db) && Extends(w, w') && p in w.db.applications
    ensures var g := w.db.applications[p].generation;
            && 1 <= g
            && ContentAt(w'.db, p, g) == ContentAt(w.db, p, g)
            && (1 < g ==> ContentAt(w'.db, p, g - 1) == ContentAt(w.db, p, g - 1))
  {
    var g := w.db.applications[p].generation;
    assert RowDense(w.db, p, w.db.applications[p]);
    ContentExists(w.db, p, g);
    ContentIsStable(w, w', p, g);
    if 1 < g {
      ContentExists(w.db, p, g - 1);
      ContentIsStable(w, w', p, g - 1);
    }
  }

  // ---------- repeated rollback has period two ----------

  /** The generation a package shows, its content, and the content one generation before. */
  datatype Shown = Shown(generation: nat, current: Option<Content>, previous: Option<Content>)

  function ShownOf(db: Db, p: PackageId): Shown
    requires p in db.applications
  {
    var g := db.applications[p].generation;
    Shown(g, ContentAt(db, p, g), if 1 < g then ContentAt(db, p, g - 1) else None)
  }

  function Rolled(s: Shown): Shown {
    Shown(s.generation + 1, s.previous, s.current)
  }

  function RolledTimes(s: Shown, k: nat): Shown
    decreases k
  {
    if k == 0 then s else RolledTimes(Rolled(s), k - 1)
  }

  lemma {:induction false} RollingAlternates(s: Shown, k: nat)
    ensures RolledTimes(s, k) == Shown(
              s.generation + k,
              if k % 2 == 0 then s.current else s.previous,
              if k % 2 == 0 then s.previous else s.current)
    decreases k
  {
    if k != 0 {
      RollingAlternates(Rolled(s), k - 1);
    }
  }

  lemma RollShows(w: World, r: InstallationReceipt, rb: RollbackReceipt, db': Db)
    requires NextReceipt(w, r) && RollDue(w, r, rb) && db' == Apply(w.db, ForwardRoll(r, rb))
    requires var g := w.db.applications[r.package].generation;
             ContentAt(db', r.package, g) == ContentAt(w.db, r.package, g)
    ensures r.package in db'.applications
    ensures 2 <= w.db.applications[r.package].generation
    ensures ShownOf(db', r.package) == Rolled(ShownOf(w.db, r.package))
  {
    RollLands(w, r, rb);
  }

  lemma ChangeShows(w: World, change: Change, p: PackageId, w': World)
    requires ReceiptsKeyed(w.db) && HistoryDense(w.db) && Extends(w, w')
    requires Applicable(w.db, change) && Grounded(w, change) && w'.db == Apply(w.db, change)
    requires p in w.db.applications && !PutsContent(Commit(change, NoFact), p)
    ensures p in w'.db.applications
    ensures RollsBack(Commit(change, NoFact), p) ==>
              2 <= w.db.applications[p].generation && ShownOf(w'.db, p) == Rolled(ShownOf(w.db, p))
    ensures !RollsBack(Commit(change, NoFact), p) ==> ShownOf(w'.db, p) == ShownOf(w.db, p)
  {
    if RollsBack(Commit(change, NoFact), p) {
      ContentsStay(w, w', p);
      RollShows(w, change.receipt, change.rollback, w'.db);
    } else {
      QuietChange(w, change, p);
      ContentsStay(w, w', p);
    }
  }

  lemma StepShows(w: World, c: Command, p: PackageId)
    requires Inv(w) && p in w.db.applications && !PutsContent(Decide(w, c), p)
    ensures p in Step(w, c).db.applications
    ensures RollsBack(Decide(w, c), p) ==>
              2 <= w.db.applications[p].generation && ShownOf(Step(w, c).db, p) == Rolled(ShownOf(w.db, p))
    ensures !RollsBack(Decide(w, c), p) ==> ShownOf(Step(w, c).db, p) == ShownOf(w.db, p)
  {
    if !c.Publish? && Decide(w, c).Commit? {
      CommitIsGrounded(w, c);
      CommandExtends(w, c);
      ChangeShows(w, Decide(w, c).change, p, Step(w, c));
    }
  }

  /** No command of the run gives the package new content; disables, uninstalls and rollbacks may come in any order. */
  predicate OnlyRollsBack(w: World, commands: seq<Command>, p: PackageId)
    decreases |commands|
  {
    commands == [] ||
    (!PutsContent(Decide(w, commands[0]), p) && OnlyRollsBack(Step(w, commands[0]), commands[1..], p))
  }

  function Rollbacks(w: World, commands: seq<Command>, p: PackageId): nat
    decreases |commands|
  {
    if commands == [] then 0
    else (if RollsBack(Decide(w, commands[0]), p) then 1 else 0) + Rollbacks(Step(w, commands[0]), commands[1..], p)
  }

  lemma {:induction false} RunShows(w: World, commands: seq<Command>, p: PackageId)
    requires Inv(w) && p in w.db.applications && OnlyRollsBack(w, commands, p)
    ensures p in Run(w, commands).db.applications
    ensures ShownOf(Run(w, commands).db, p) == RolledTimes(ShownOf(w.db, p), Rollbacks(w, commands, p))
    ensures w.db.applications[p].generation == 1 ==> Rollbacks(w, commands, p) == 0
    decreases |commands|
  {
    if commands != [] {
      StepShows(w, commands[0], p);
      CommandKeepsInv(w, commands[0]);
      RunShows(Step(w, commands[0]), commands[1..], p);
    }
  }

  /** k generations on, showing the content of g when k is even and of g - 1 when k is odd. */
  predicate Alternated(db: Db, db': Db, p: PackageId, k: nat) {
    && p in db.applications && p in db'.applications
    && var g := db.applications[p].generation;
    && db'.applications[p].generation == g + k
    && (g <= 1 ==> k == 0)
    && (k % 2 == 0 ==> ContentAt(db', p, g + k) == ContentAt(db, p, g))
    && (k % 2 == 1 && 1 < g ==> ContentAt(db', p, g + k) == ContentAt(db, p, g - 1))
  }

  lemma RolledTimesAlternates(db: Db, db': Db, p: PackageId, k: nat)
    requires p in db.applications && p in db'.applications
    requires ShownOf(db', p) == RolledTimes(ShownOf(db, p), k)
    requires db.applications[p].generation <= 1 ==> k == 0
    ensures Alternated(db, db', p, k)
  {
    RollingAlternates(ShownOf(db, p), k);
  }

  /** The k-th rollback of a run lands k generations on, alternating between the two contents it started between. */
  lemma RollbackHasPeriodTwo(w: World, commands: seq<Command>, p: PackageId)
    requires Inv(w) && p in w.db.applications && OnlyRollsBack(w, commands, p)
    ensures Alternated(w.db, Run(w, commands).db, p, Rollbacks(w, commands, p))
  {
    RunShows(w, commands, p);
    assert RowDense(w.db, p, w.db.applications[p]);
    RolledTimesAlternates(w.db, Run(w, commands).db, p, Rollbacks(w, commands, p));
  }

  // ---------- one major per installed lineage ----------

  ghost predicate OneMajor(db: Db, p: PackageId) {
    forall j, k | j in db.installations && k in db.installations
      && db.installations[j].package == p && db.installations[k].package == p ::
      MajorOf(db.installations[j].version) == MajorOf(db.installations[k].version)
  }

  ghost predicate HasMajor(db: Db, p: PackageId, major: nat) {
    exists k :: k in db.installations && db.installations[k].package == p
             && MajorOf(db.installations[k].version) == major
  }

  lemma PutKeepsMajor(db: Db, r: InstallationReceipt, p: PackageId)
    requires OneMajor(db, p) && r.key !in db.installations
    requires r.package == p ==>
               (forall k :: k in db.installations ==> db.installations[k].package != p)
               || HasMajor(db, p, MajorOf(r.version))
    ensures OneMajor(PutInstallation(db, r), p)
  {
  }

  lemma ReceiptAtHasMajor(w: World, p: PackageId, g: nat)
    requires ReceiptsKeyed(w.db) && Provenance(w) && ReceiptAt(w.db, ApplicationId(p), g).Some?
    ensures HasMajor(w.db, p, MajorOf(ReceiptAt(w.db, ApplicationId(p), g).value.version))
  {
    ReceiptAtIsFiled(w, p, g);
    var k := w.db.slots[Slot(ApplicationId(p), g)];
    assert w.db.installations[k].package == p;
  }

  lemma RollSharesMajor(w: World, r: InstallationReceipt, rb: RollbackReceipt)
    requires ReceiptsKeyed(w.db) && Provenance(w) && RollDue(w, r, rb)
    ensures HasMajor(w.db, r.package, MajorOf(r.version))
  {
    ReceiptAtHasMajor(w, r.package, w.db.applications[r.package].generation - 1);
  }

  lemma SwitchSharesMajor(w: World, r: InstallationReceipt)
    requires ReceiptsKeyed(w.db) && Provenance(w) && DrillsSound(w) && SwitchDue(w, r)
    ensures HasMajor(w.db, r.package, MajorOf(r.version))
  {
    var m := w.db.migrations[r.key];
    assert DrillBinding(w, m);
    ReceiptAtHasMajor(w, m.package, m.fromGeneration);
    AdmittedKeepsMajor(m.window, m.fromVersion, m.targetVersion);
  }

  /** An update, a rollback and an activation all stay on a major the package already has. */
  lemma AdvanceSharesMajor(w: World, change: Change)
    requires Inv(w) && Grounded(w, change)
    requires change.Updates? || change.Switch? || change.ForwardRoll?
    ensures HasMajor(w.db, change.receipt.package, MajorOf(change.receipt.version))
  {
    match change
    case Updates(r, window) =>
      var g := w.db.applications[r.package].generation;
      ReceiptAtHasMajor(w, r.package, g);
      AdmittedKeepsMajor(window, ReceiptAt(w.db, ApplicationId(r.package), g).value.version, r.version);
    case Switch(r) =>
      SwitchSharesMajor(w, r);
    case ForwardRoll(r, rb) =>
      RollSharesMajor(w, r, rb);
  }

  /** The package is never installed afresh while it already has a row. */
  predicate InstalledAtMostOnce(w: World, commands: seq<Command>, p: PackageId)
    decreases |commands|
  {
    commands == [] ||
    (!Reinstalls(w, commands[0], p) && InstalledAtMostOnce(Step(w, commands[0]), commands[1..], p))
  }

  predicate Reinstalls(w: World, c: Command, p: PackageId) {
    p in w.db.applications && Decide(w, c).Commit? && Decide(w, c).change.Installs?
    && Decide(w, c).change.receipt.package == p
  }

  lemma ChangeKeepsMajor(w: World, change: Change, p: PackageId)
    requires Inv(w) && OneMajor(w.db, p) && Applicable(w.db, change) && Grounded(w, change)
    requires !(change.Installs? && change.receipt.package == p && p in w.db.applications)
    ensures OneMajor(Apply(w.db, change), p)
  {
    if change.Installs? {
      if change.receipt.package == p {
        NoReceiptWithoutRow(w.db, p);
      }
      PutKeepsMajor(w.db, change.receipt, p);
    } else if change.Updates? || change.Switch? || change.ForwardRoll? {
      AdvanceSharesMajor(w, change);
      PutKeepsMajor(w.db, change.receipt, p);
    }
  }

  lemma StepKeepsMajor(w: World, c: Command, p: PackageId)
    requires Inv(w) && OneMajor(w.db, p) && !Reinstalls(w, c, p)
    ensures OneMajor(Step(w, c).db, p)
  {
    if !c.Publish? && Decide(w, c).Commit? {
      CommitIsGrounded(w, c);
      ChangeKeepsMajor(w, Decide(w, c).change, p);
    }
  }

  lemma NoReceiptWithoutRow(db: Db, p: PackageId)
    requires ReceiptsKeyed(db) && HistoryDense(db) && p !in db.applications
    ensures forall k :: k in db.installations ==> db.installations[k].package != p
  {
    forall k | k in db.installations ensures db.installations[k].package != p {
      assert ReceiptFiled(db, k, db.installations[k]);
    }
  }

  /** Installed once and then only updated, migrated and rolled back, a package never leaves its major. */
  lemma {:induction false} LineageKeepsMajor(w: World, commands: seq<Command>, p: PackageId)
    requires Inv(w) && OneMajor(w.db, p) && InstalledAtMostOnce(w, commands, p)
    ensures OneMajor(Run(w, commands).db, p)
    decreases |commands|
  {
    if commands != [] {
      StepKeepsMajor(w, commands[0], p);
      CommandKeepsInv(w, commands[0]);
      LineageKeepsMajor(Step(w, commands[0]), commands[1..], p);
    }
  }

  /** In every run from empty tables that installs a package once, all its generations share one packed major. */
  lemma OneInstallOneMajor(start: World, commands: seq<Command>, p: PackageId)
    requires start == EMPTY_WORLD && InstalledAtMostOnce(start, commands, p)
    ensures OneMajor(Run(start, commands).db, p)
  {
    EmptyIsInvariant(start);
    LineageKeepsMajor(start, commands, p);
  }
}
