/** The staged migration drill over whole runs: its ledger, its isolation, and the update it amounts to. */
module DrillTheorems {
  import opened Wrappers
  import opened Records
  import opened Versions
  import opened Changes
  import opened Commands
  import opened Runs
  import opened Invariants
  import opened Preservation
  import opened Reachability
  import opened DrillReceipts
  import opened Durability

  // ---------- the ledger of one drill ----------

  /** Steps 1..n and no others, in time order between `lo` and `hi`. */
  ghost predicate RecordedInOrder(steps: map<nat, nat>, n: nat, lo: nat, hi: nat) {
    && (forall i :: i in steps <==> 1 <= i <= n)
    && (forall i :: i in steps ==> lo <= steps[i] <= hi)
    && (forall i, j :: i in steps && j in steps && i <= j ==> steps[i] <= steps[j])
  }

  lemma {:induction false} TimelineBounds(steps: map<nat, nat>, n: nat, lo: nat, hi: nat)
    requires Timeline(steps, n, lo, hi)
    ensures lo <= hi
    ensures forall i :: 1 <= i <= n ==> i in steps && lo <= steps[i] <= hi
    ensures forall i, j :: 1 <= i <= j <= n ==> steps[i] <= steps[j]
  {
    if n != 0 {
      TimelineBounds(steps, n - 1, lo, steps[n]);
    }
  }

  lemma ProgressIsOrdered(m: Migration, steps: map<nat, nat>)
    requires DrillProgress(m, steps)
    ensures RecordedInOrder(steps, |steps|, m.createdAt, StepsClosedAt(m))
    ensures m.createdAt <= StepsClosedAt(m) <= m.updatedAt
  {
    TimelineBounds(steps, |steps|, m.createdAt, StepsClosedAt(m));
  }

  /** Everything the durable rows of one drill say about each other. */
  ghost predicate LedgerOf(w: World, k: Key)
    requires k in w.db.migrations
  {
    var m, steps := w.db.migrations[k], StepsOf(w.db, k);
    && RecordedInOrder(steps, CompletedSteps(w.db, k), m.createdAt, StepsClosedAt(m))
    && CompletedSteps(w.db, k) <= m.declaredSteps
    && m.verificationId in w.store
    && w.store[m.verificationId].verifiedAt <= m.createdAt <= StepsClosedAt(m) <= m.updatedAt
    && (m.health.Unchecked? <==> m.checkedAt.None?)
    && (m.checkedAt.Some? ==> CompletedSteps(w.db, k) == m.declaredSteps)
    && (m.state.Pending? <==> CompletedSteps(w.db, k) == 0)
    && (m.state.Done? <==> m.activated.Some?)
    && (m.state.Done? ==>
          && m.health.Passed?
          && k in w.db.installations
          && var r := w.db.installations[k];
          && m.activated == Some(r.installationId)
          && r.package == m.package && r.generation == m.fromGeneration + 1
          && r.digest == m.targetDigest && r.verificationId == m.verificationId
          && r.installedAt == m.updatedAt)
    && (m.state.Failed? <==> k in w.db.migrationRollbacks)
    && (m.state.Failed? ==>
          && m.health.Refuted?
          && w.db.migrationRollbacks[k] ==
             MigrationRollback(k, m.application, m.targetDigest, m.fromGeneration, m.fromDigest, m.updatedAt))
  }

  lemma SoundDrillHasLedger(w: World, k: Key)
    requires ReceiptsKeyed(w.db) && k in w.db.migrations && DrillSound(w, k, w.db.migrations[k])
    ensures LedgerOf(w, k)
  {
    var m := w.db.migrations[k];
    ProgressIsOrdered(m, StepsOf(w.db, k));
    if m.state.Done? {
      assert ReceiptFiled(w.db, k, w.db.installations[k]);
    }
  }

  /**
   In every reachable world every drill's rows agree, and no application has two live drills. Done coincides with
   passed and having its own receipt exactly when no lifecycle request pre-empted that receipt.
   */
  lemma DrillLedger(commands: seq<Command>)
    ensures
      var w := Run(EMPTY_WORLD, commands);
      && (forall k :: k in w.db.migrations ==> LedgerOf(w, k))
      && (forall k :: k in w.db.migrations ==>
            (DoneMeansOwnReceipt(w.db, k) <==> !(PassedAt(w.db, k) && Preempted(commands, w.db, k))))
      && (forall j, k | j in w.db.migrations && k in w.db.migrations && j != k
            && w.db.migrations[j].package == w.db.migrations[k].package ::
            !(IsLive(w.db.migrations[j]) && IsLive(w.db.migrations[k])))
  {
    ReachableWorldsAreInvariant(commands);
    var w := Run(EMPTY_WORLD, commands);
    forall k | k in w.db.migrations
      ensures LedgerOf(w, k)
      ensures DoneMeansOwnReceipt(w.db, k) <==> !(PassedAt(w.db, k) && Preempted(commands, w.db, k))
    {
      SoundDrillHasLedger(w, k);
      DoneMeansOwnReceiptExactlyWhen(commands, k, w);
    }
    LiveDrillsDiffer(w);
  }

  lemma LiveDrillsDiffer(w: World)
    requires DrillsSound(w) && OneLiveDrill(w.db)
    ensures forall j, k | j in w.db.migrations && k in w.db.migrations && j != k
              && w.db.migrations[j].package == w.db.migrations[k].package ::
              !(IsLive(w.db.migrations[j]) && IsLive(w.db.migrations[k]))
  {
    forall k | k in w.db.migrations ensures w.db.migrations[k].application == ApplicationId(w.db.migrations[k].package) {
      assert DrillBinding(w, w.db.migrations[k]);
    }
  }

  // ---------- once the row moves, the drill can never end ----------

  /** A live drill whose application row has left the generation or the status it began from. */
  predicate Stale(db: Db, k: Key) {
    && k in db.migrations
    && IsLive(db.migrations[k])
    && db.migrations[k].package in db.applications
    && var row := db.applications[db.migrations[k].package];
    && (row.generation > db.migrations[k].fromGeneration
        || (row.generation == db.migrations[k].fromGeneration && row.status != Installed))
  }

  lemma StaleChange(w: World, change: Change, k: Key)
    requires Applicable(w.db, change) && Grounded(w, change) && Stale(w.db, k)
    ensures k in Apply(w.db, change).migrations
    ensures IsLive(Apply(w.db, change).migrations[k])
  {
  }

  lemma StaleStep(w: World, c: Command, k: Key)
    requires Inv(w) && Stale(w.db, k)
    ensures Stale(Step(w, c).db, k)
  {
    CommandExtends(w, c);
    if !c.Publish? && Decide(w, c).Commit? {
      CommitIsGrounded(w, c);
      StaleChange(w, Decide(w, c).change, k);
    }
    StaleRowStays(w, Step(w, c), k);
  }

  lemma StaleRowStays(w: World, w': World, k: Key)
    requires Extends(w, w') && Stale(w.db, k)
    requires k in w'.db.migrations && IsLive(w'.db.migrations[k])
    ensures Stale(w'.db, k)
  {
    assert DrillAdvances(w.db.migrations[k], w'.db.migrations[k]);
    assert RowAdvances(w.db.applications[w.db.migrations[k].package], w'.db.applications[w.db.migrations[k].package]);
  }

  /** No continuation of a moved baseline, not even one that restores its digest, ends the drill. */
  lemma {:induction false} StaleForever(w: World, commands: seq<Command>, k: Key)
    requires Inv(w) && Stale(w.db, k)
    ensures Stale(Run(w, commands).db, k)
    decreases |commands|
  {
    if commands != [] {
      StaleStep(w, commands[0], k);
      CommandKeepsInv(w, commands[0]);
      StaleForever(Step(w, commands[0]), commands[1..], k);
    }
  }

  /** While a drill is live no second drill of its application begins, whatever the request. */
  lemma LiveDrillBlocksNext(w: World, k: Key, q: MigrateRequest)
    requires DrillsSound(w) && k in w.db.migrations && IsLive(w.db.migrations[k])
    requires q.package == w.db.migrations[k].package
    ensures !MigrateApplication(w.db, w.store, q).Commit?
  {
    assert DrillBinding(w, w.db.migrations[k]);
    assert HasLiveDrill(w.db, ApplicationId(q.package));
  }

  lemma DrillKeepsPackage(w: World, w': World, k: Key)
    requires Extends(w, w') && k in w.db.migrations
    ensures k in w'.db.migrations && w'.db.migrations[k].package == w.db.migrations[k].package
  {
    assert DrillAdvances(w.db.migrations[k], w'.db.migrations[k]);
  }

  /** A moved baseline leaves its drill live and its application closed to further drills in every continuation. */
  lemma MovedBaselineBlocksForever(w: World, commands: seq<Command>, w': World, k: Key, q: MigrateRequest)
    requires Inv(w) && Stale(w.db, k) && q.package == w.db.migrations[k].package
    requires w' == Run(w, commands)
    ensures k in w'.db.migrations && IsLive(w'.db.migrations[k])
    ensures !MigrateApplication(w'.db, w'.store, q).Commit?
  {
    StaleForever(w, commands, k);
    RunExtends(w, commands);
    DrillKeepsPackage(w, w', k);
    LiveDrillBlocksNext(w', k, q);
  }

  // ---------- isolation ----------

  /** A live drill that is not stale still sees the row it began from. */
  lemma FreshSeesBaseline(w: World, k: Key)
    requires Inv(w) && k in w.db.migrations && IsLive(w.db.migrations[k]) && !Stale(w.db, k)
    ensures var m := w.db.migrations[k];
            && m.package in w.db.applications
            && w.db.applications[m.package].generation == m.fromGeneration
            && w.db.applications[m.package].status == Installed
  {
    assert DrillBinding(w, w.db.migrations[k]);
  }

  lemma SameBaselineSameRow(w: World, w': World, k: Key)
    requires Inv(w) && Inv(w') && Extends(w, w') && k in w.db.migrations
    requires k in w'.db.migrations && IsLive(w.db.migrations[k]) && IsLive(w'.db.migrations[k])
    requires !Stale(w.db, k) && !Stale(w'.db, k)
    ensures var p := w.db.migrations[k].package;
            p in w.db.applications && p in w'.db.applications && w'.db.applications[p] == w.db.applications[p]
  {
    FreshSeesBaseline(w, k);
    FreshSeesBaseline(w', k);
    assert DrillAdvances(w.db.migrations[k], w'.db.migrations[k]);
    var p := w.db.migrations[k].package;
    assert RowAdvances(w.db.applications[p], w'.db.applications[p]);
  }

  lemma NotStaleBefore(w: World, commands: seq<Command>, k: Key)
    requires Inv(w) && !Stale(Run(w, commands).db, k)
    ensures !Stale(w.db, k)
  {
    if Stale(w.db, k) {
      StaleForever(w, commands, k);
    }
  }

  /**
   If a drill that is live in `w` ends in the run, then at every moment of the run at which it is still
   live the application row is bit for bit the row of `w`.
   */
  lemma DrillIsolation(w: World, before: seq<Command>, w1: World, after: seq<Command>, w2: World, k: Key)
    requires Inv(w) && k in w.db.migrations && IsLive(w.db.migrations[k])
    requires w1 == Run(w, before) && k in w1.db.migrations && IsLive(w1.db.migrations[k])
    requires w2 == Run(w1, after) && k in w2.db.migrations && w2.db.migrations[k].state.IsTerminal()
    ensures var p := w.db.migrations[k].package;
            p in w.db.applications && p in w1.db.applications && w1.db.applications[p] == w.db.applications[p]
  {
    RunExtends(w, before);
    NotStaleBefore(w1, after, k);
    NotStaleBefore(w, before, k);
    SameBaselineSameRow(w, w1, k);
  }

  /** The change installs, updates, rolls, switches, disables or uninstalls the package. */
  predicate TouchesRow(change: Change, p: PackageId) {
    match change
    case Installs(r) => r.package == p
    case Updates(r, _) => r.package == p
    case ForwardRoll(r, _) => r.package == p
    case Switch(r) => r.package == p
    case MarkDisabled(d) => d.application.package == p
    case MarkUninstalled(u) => u.application.package == p
    case _ => false
  }

  lemma TouchedRowMoves(w: World, change: Change, p: PackageId)
    requires Applicable(w.db, change) && Grounded(w, change) && TouchesRow(change, p)
    ensures p in Apply(w.db, change).applications
    ensures p in w.db.applications ==> Apply(w.db, change).applications[p] != w.db.applications[p]
  {
  }

  lemma TouchingCommandMovesRow(w: World, c: Command, p: PackageId)
    requires Inv(w) && p in w.db.applications
    requires Decide(w, c).Commit? && TouchesRow(Decide(w, c).change, p)
    ensures p in Step(w, c).db.applications && Step(w, c).db.applications[p] != w.db.applications[p]
  {
    CommitIsGrounded(w, c);
    TouchedRowMoves(w, Decide(w, c).change, p);
  }

  lemma LiveStepKeepsRow(w: World, c: Command, w1: World, k: Key)
    requires Inv(w) && k in w.db.migrations && IsLive(w.db.migrations[k])
    requires w1 == Step(w, c) && k in w1.db.migrations && IsLive(w1.db.migrations[k]) && !Stale(w1.db, k)
    ensures var p := w.db.migrations[k].package;
            p in w.db.applications && p in w1.db.applications && w1.db.applications[p] == w.db.applications[p]
  {
    LiveStepFacts(w, c, w1, k);
    SameBaselineSameRow(w, w1, k);
  }

  lemma LiveStepFacts(w: World, c: Command, w1: World, k: Key)
    requires Inv(w) && w1 == Step(w, c) && !Stale(w1.db, k)
    ensures Inv(w1) && Extends(w, w1) && !Stale(w.db, k)
  {
    CommandKeepsInv(w, c);
    CommandExtends(w, c);
    if Stale(w.db, k) {
      StaleStep(w, c, k);
    }
  }

  lemma LiveStepTouchesNothing(w: World, c: Command, w1: World, k: Key)
    requires Inv(w) && k in w.db.migrations && IsLive(w.db.migrations[k])
    requires w1 == Step(w, c) && k in w1.db.migrations && IsLive(w1.db.migrations[k]) && !Stale(w1.db, k)
    ensures Decide(w, c).Commit? ==> !TouchesRow(Decide(w, c).change, w.db.migrations[k].package)
  {
    LiveStepKeepsRow(w, c, w1, k);
    if Decide(w, c).Commit? && TouchesRow(Decide(w, c).change, w.db.migrations[k].package) {
      TouchingCommandMovesRow(w, c, w.db.migrations[k].package);
    }
  }

  /** Between the beginning and the end of a drill that ends, no lifecycle command commits on its application. */
  lemma NoLifecycleCommitDuringDrill(w: World, c: Command, w1: World, after: seq<Command>, w2: World, k: Key)
    requires Inv(w) && k in w.db.migrations && IsLive(w.db.migrations[k])
    requires w1 == Step(w, c) && k in w1.db.migrations && IsLive(w1.db.migrations[k])
    requires w2 == Run(w1, after) && k in w2.db.migrations && w2.db.migrations[k].state.IsTerminal()
    ensures Decide(w, c).Commit? ==> !TouchesRow(Decide(w, c).change, w.db.migrations[k].package)
  {
    CommandKeepsInv(w, c);
    NotStaleBefore(w1, after, k);
    LiveStepTouchesNothing(w, c, w1, k);
  }

  // ---------- exactly when a drill can activate ----------

  /** The receipt a drill's activation would file. */
  function ActivationReceipt(w: World, m: Migration, at: nat): InstallationReceipt
    requires m.verificationId in w.store
  {
    NewReceipt(ApplicationId(m.package), VerifiedContent(w.store[m.verificationId]), m.fromGeneration + 1, m.key, at)
  }

  /** Storage limits that no invariant can rule out. */
  predicate FitsColumns(row: Application, r: InstallationReceipt) {
    FitsColumn(r.generation) && FitsColumn(r.installedAt) && row.createdAt <= r.installedAt
  }

  /**
   The drill is running with a passed verdict not after the request, the row still is its baseline, its key names
   no installation receipt yet, and the columns can hold the values.
   */
  predicate Activatable(w: World, k: Key, at: nat) {
    && k in w.db.migrations
    && var m := w.db.migrations[k];
    && m.state.Running? && m.health.Passed? && m.checkedAt.Some? && m.checkedAt.value <= at
    && BaselineRefusal(w.db, m).None?
    && k !in w.db.installations
    && m.verificationId in w.store
    && FitsColumns(w.db.applications[m.package], ActivationReceipt(w, m, at))
  }

  /** The remaining guards of the activation ladder. */
  predicate ActivationGuards(w: World, k: Key, at: nat)
    requires k in w.db.migrations && w.db.migrations[k].verificationId in w.store
  {
    var m := w.db.migrations[k];
    var r := ActivationReceipt(w, m, at);
    && CompletedSteps(w.db, k) == m.declaredSteps
    && TargetBound(m, w.store[m.verificationId])
    && BindingError(r, w.store[m.verificationId]).None?
    && ContentFits(r)
    && Slot(r.application, r.generation) !in w.db.slots
    && m.updatedAt <= at
  }

  lemma ActivatableCommits(w: World, q: DrillRequest)
    requires Activatable(w, q.key, q.at) && ActivationGuards(w, q.key, q.at)
    requires w.db.migrations[q.key].key == q.key
    ensures ActivatePackageMigration(w.db, w.store, q) ==
            Commit(Switch(ActivationReceipt(w, w.db.migrations[q.key], q.at)),
                   InstallationFact(ActivationReceipt(w, w.db.migrations[q.key], q.at)))
  {
  }

  lemma CommitsActivatable(w: World, q: DrillRequest)
    requires ActivatePackageMigration(w.db, w.store, q).Commit?
    requires q.key in w.db.migrations && w.db.migrations[q.key].key == q.key
    ensures Activatable(w, q.key, q.at)
  {
  }

  lemma GuardsAreImplied(w: World, k: Key, at: nat)
    requires StoreKeyed(w.store) && HistoryDense(w.db)
    requires Activatable(w, k, at) && DrillSound(w, k, w.db.migrations[k])
    ensures ActivationGuards(w, k, at)
  {
    ProgressIsOrdered(w.db.migrations[k], StepsOf(w.db, k));
  }

  lemma DrillHasItsKey(w: World, k: Key)
    requires DrillsSound(w) && k in w.db.migrations
    ensures w.db.migrations[k].key == k && w.db.migrations[k].verificationId in w.store
  {
    assert DrillBinding(w, w.db.migrations[k]);
  }

  /** Activation commits exactly when the drill is activatable: every other guard on the way is implied. */
  lemma ActivationCommitsIff(w: World, q: DrillRequest)
    requires Inv(w)
    ensures ActivatePackageMigration(w.db, w.store, q).Commit? <==> Activatable(w, q.key, q.at)
  {
    if q.key in w.db.migrations {
      DrillHasItsKey(w, q.key);
      if ActivatePackageMigration(w.db, w.store, q).Commit? {
        CommitsActivatable(w, q);
      }
      if Activatable(w, q.key, q.at) {
        GuardsAreImplied(w, q.key, q.at);
        ActivatableCommits(w, q);
      }
    }
  }

  // ---------- a drill whose key is taken ----------

  /** A passed, live drill whose key another command has already used for an installation receipt. */
  predicate KeyShadowed(db: Db, k: Key) {
    && k in db.migrations && IsLive(db.migrations[k]) && db.migrations[k].health.Passed?
    && k in db.installations
  }

  lemma ShadowedChange(w: World, change: Change, k: Key)
    requires Applicable(w.db, change) && Grounded(w, change) && KeyShadowed(w.db, k)
    ensures k in Apply(w.db, change).migrations && IsLive(Apply(w.db, change).migrations[k])
  {
  }

  lemma ShadowedStep(w: World, c: Command, k: Key)
    requires Inv(w) && KeyShadowed(w.db, k)
    ensures KeyShadowed(Step(w, c).db, k)
  {
    CommandExtends(w, c);
    if !c.Publish? && Decide(w, c).Commit? {
      CommitIsGrounded(w, c);
      ShadowedChange(w, Decide(w, c).change, k);
    }
    assert DrillAdvances(w.db.migrations[k], Step(w, c).db.migrations[k]);
  }

  /** Its baseline may be untouched: the drill still never ends, in any continuation. */
  lemma {:induction false} ShadowedForever(w: World, commands: seq<Command>, k: Key)
    requires Inv(w) && KeyShadowed(w.db, k)
    ensures KeyShadowed(Run(w, commands).db, k)
    decreases |commands|
  {
    if commands != [] {
      ShadowedStep(w, commands[0], k);
      CommandKeepsInv(w, commands[0]);
      ShadowedForever(Step(w, commands[0]), commands[1..], k);
    }
  }

  // ---------- a successful drill is one update ----------

  function EquivalentUpdate(m: Migration, at: nat): UpdateRequest {
    UpdateRequest(m.package, m.verificationId, m.key, at, m.window)
  }

  /** What the update ladder will look at. */
  predicate UpdateGuards(w: World, m: Migration, at: nat) {
    && m.verificationId in w.store && TargetBound(m, w.store[m.verificationId])
    && w.store[m.verificationId].verifiedAt <= at
    && m.package in w.db.applications
    && var row := w.db.applications[m.package];
    && row.status == Installed && row.digest == m.fromDigest && m.fromDigest != m.targetDigest
    && ReceiptAt(w.db, ApplicationId(m.package), row.generation).Some?
    && WindowAdmits(m.window, ReceiptAt(w.db, ApplicationId(m.package), row.generation).value.version, m.targetVersion)
    && NextInstallationGeneration(w.db, ApplicationId(m.package), row) == m.fromGeneration + 1
    && Slot(ApplicationId(m.package), m.fromGeneration + 1) !in w.db.slots
    && m.key !in w.db.installations
    && FitsColumns(row, ActivationReceipt(w, m, at)) && ContentFits(ActivationReceipt(w, m, at))
  }

  lemma GuardedUpdateCommits(w: World, m: Migration, at: nat)
    requires UpdateGuards(w, m, at)
    ensures UpdateApplication(w.db, w.store, EquivalentUpdate(m, at)) ==
            Commit(Updates(ActivationReceipt(w, m, at), m.window), InstallationFact(ActivationReceipt(w, m, at)))
  {
  }

  lemma ActivatableUpdates(w: World, k: Key, at: nat)
    requires StoreKeyed(w.store) && HistoryDense(w.db)
    requires Activatable(w, k, at) && DrillSound(w, k, w.db.migrations[k])
    ensures UpdateGuards(w, w.db.migrations[k], at)
  {
    GuardsAreImplied(w, k, at);
    NextIsSuccessor(w.db, w.db.migrations[k].package);
  }

  /** Switching writes the same application row, receipt and index entry as updating. */
  lemma SwitchWritesAnUpdate(db: Db, r: InstallationReceipt, window: CompatibilityWindow)
    requires r.key in db.migrations
    ensures var u, d := Apply(db, Updates(r, window)), Apply(db, Switch(r));
            u.applications == d.applications && u.installations == d.installations && u.slots == d.slots
  {
  }

  /**
   Whenever activation commits, the one-step update with the drill's key, receipt, window and timestamp would
   commit too, file the identical receipt and leave the identical application row.
   */
  lemma ActivationRefinesUpdate(w: World, q: DrillRequest)
    requires Inv(w) && ActivatePackageMigration(w.db, w.store, q).Commit?
    ensures q.key in w.db.migrations
    ensures
      var m := w.db.migrations[q.key];
      && m.verificationId in w.store
      && var r := ActivationReceipt(w, m, q.at);
      && ActivatePackageMigration(w.db, w.store, q) == Commit(Switch(r), InstallationFact(r))
      && UpdateApplication(w.db, w.store, EquivalentUpdate(m, q.at)) == Commit(Updates(r, m.window), InstallationFact(r))
      && var u, d := Apply(w.db, Updates(r, m.window)), Apply(w.db, Switch(r));
      && u.applications == d.applications && u.installations == d.installations && u.slots == d.slots
  {
    DrillHasItsKey(w, q.key);
    CommitsActivatable(w, q);
    GuardsAreImplied(w, q.key, q.at);
    ActivatableCommits(w, q);
    ActivatableUpdates(w, q.key, q.at);
    GuardedUpdateCommits(w, w.db.migrations[q.key], q.at);
    SwitchWritesAnUpdate(w.db, ActivationReceipt(w, w.db.migrations[q.key], q.at), w.db.migrations[q.key].window);
  }

  // ---------- no drill row contradicts another ----------

  predicate DrillRefusalIsCorruption(d: Decision) {
    d == Refuse(CorruptRecord) || d == Refuse(SchemaGuard) || d == Refuse(InstallationPrecedesVerification)
  }

  lemma DoneDrillReplays(w: World, q: DrillRequest)
    requires ReceiptsKeyed(w.db) && q.key in w.db.migrations && w.db.migrations[q.key].state.Done?
    requires w.db.migrations[q.key].key == q.key && DrillOutcome(w.db, w.db.migrations[q.key])
    ensures ActivatePackageMigration(w.db, w.store, q) == Replay(InstallationFact(w.db.installations[q.key]))
  {
    assert ReceiptFiled(w.db, q.key, w.db.installations[q.key]);
  }

  lemma LiveActivationFindsNoCorruption(w: World, q: DrillRequest)
    requires HistoryDense(w.db) && q.key in w.db.migrations && !w.db.migrations[q.key].state.Done?
    requires w.db.migrations[q.key].key == q.key
    requires DrillBinding(w, w.db.migrations[q.key]) && DrillProgress(w.db.migrations[q.key], StepsOf(w.db, q.key))
    ensures !DrillRefusalIsCorruption(ActivatePackageMigration(w.db, w.store, q))
  {
    ProgressIsOrdered(w.db.migrations[q.key], StepsOf(w.db, q.key));
  }

  lemma KnownActivationFindsNoCorruption(w: World, q: DrillRequest)
    requires ReceiptsKeyed(w.db) && HistoryDense(w.db)
    requires q.key in w.db.migrations && DrillSound(w, q.key, w.db.migrations[q.key])
    ensures !DrillRefusalIsCorruption(ActivatePackageMigration(w.db, w.store, q))
  {
    if w.db.migrations[q.key].state.Done? {
      DoneDrillReplays(w, q);
    } else {
      LiveActivationFindsNoCorruption(w, q);
    }
  }

  /** In no reachable world does activation find contradictory rows, a lost binding or a backdated clock. */
  lemma ActivationFindsNoCorruption(w: World, q: DrillRequest)
    requires Inv(w)
    ensures !DrillRefusalIsCorruption(ActivatePackageMigration(w.db, w.store, q))
  {
    if q.key in w.db.migrations {
      KnownActivationFindsNoCorruption(w, q);
    }
  }

  lemma ClosingFindsNoCorruption(w: World, q: DrillRequest, healthy: bool)
    requires q.key in w.db.migrations && DrillSound(w, q.key, w.db.migrations[q.key])
    ensures RunMigrationHealthCheck(w.db, w.store, q, healthy) != Refuse(CorruptRecord)
    ensures RollbackPackageMigration(w.db, q) != Refuse(CorruptRecord)
    ensures RollbackPackageMigration(w.db, q) != Refuse(SchemaGuard)
  {
  }
}
