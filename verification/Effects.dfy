/** What each call means to its caller: what an answer says, what moved, and that nothing else did. */
module Effects {
  import opened Wrappers
  import opened Records
  import opened Versions
  import opened Changes
  import opened Commands
  import opened Runs
  import opened Invariants
  import opened Preservation
  import opened Reachability

  datatype Reply = Accepted(fact: Fact) | Refused(error: Error)

  /** What the caller sees of a decision; a replay is not distinguishable from the first answer. */
  function ReplyTo(d: Decision): Reply {
    match d
    case Commit(_, fact) => Accepted(fact)
    case Replay(fact) => Accepted(fact)
    case Refuse(error) => Refused(error)
  }

  // ---------- tables that a call leaves alone ----------

  /** No row but the package's moved. */
  predicate OtherRowsKept(before: Db, after: Db, p: PackageId) {
    && before.applications.Keys <= after.applications.Keys <= before.applications.Keys + {p}
    && forall o :: o in before.applications && o != p ==> after.applications[o] == before.applications[o]
  }

  predicate MarksKept(before: Db, after: Db) {
    after.disables == before.disables && after.uninstalls == before.uninstalls
  }

  predicate DrillsUntouched(before: Db, after: Db) {
    && after.migrations == before.migrations && after.steps == before.steps
    && after.migrationRollbacks == before.migrationRollbacks
  }

  /** Every row, receipt and registration is as before; only drill tables may have moved. */
  predicate LifecycleUntouched(before: Db, after: Db) {
    && after.applications == before.applications && after.installations == before.installations
    && after.slots == before.slots && MarksKept(before, after) && after.rollbacks == before.rollbacks
    && after.surfaces == before.surfaces
  }

  /** No drill but the one under the key moved. */
  predicate OtherDrillsKept(before: Db, after: Db, k: Key) {
    && before.migrations.Keys <= after.migrations.Keys <= before.migrations.Keys + {k}
    && (forall j :: j in before.migrations && j != k ==> after.migrations[j] == before.migrations[j])
    && (forall j :: j in before.steps && j != k ==> j in after.steps && after.steps[j] == before.steps[j])
  }

  /** The package's row moved one generation up onto a new receipt; no recorded receipt and no other row changed. */
  predicate MovesTo(before: Db, after: Db, r: InstallationReceipt) {
    var p := r.package;
    var known := p in before.applications;
    && r.application == ApplicationId(p)
    && r.generation == (if known then before.applications[p].generation + 1 else 1)
    && r.key !in before.installations && after.installations == before.installations[r.key := r]
    && p in after.applications
    && after.applications[p] == Application(
         r.digest, r.generation, Installed, if known then before.applications[p].createdAt else r.installedAt,
         r.installedAt)
    && OtherRowsKept(before, after, p) && MarksKept(before, after) && after.surfaces == before.surfaces
  }

  // ---------- lifecycle calls ----------

  predicate InstallEffect(before: Db, store: Store, q: InstallRequest, reply: Reply, after: Db) {
    match reply
    case Refused(_) => after == before
    case Accepted(fact) =>
      && q.receipt in store && fact.InstallationFact?
      && var r := fact.installation;
      && r.key == q.key && r.verificationId == q.receipt && r.installedAt == q.at
      && if q.key in before.installations then after == before && before.installations[q.key] == r
         else
           && ContentOf(r) == VerifiedContent(store[q.receipt]) && store[q.receipt].verifiedAt <= q.at
           && (r.package in before.applications ==> before.applications[r.package].status == Installed)
           && MovesTo(before, after, r) && after.rollbacks == before.rollbacks && DrillsUntouched(before, after)
  }

  predicate UpdateEffect(before: Db, store: Store, q: UpdateRequest, reply: Reply, after: Db) {
    match reply
    case Refused(_) => after == before
    case Accepted(fact) =>
      && q.receipt in store && fact.InstallationFact?
      && var r := fact.installation;
      && r.key == q.key && r.verificationId == q.receipt && r.installedAt == q.at
      && if q.key in before.installations then after == before && before.installations[q.key] == r
         else
           && r.package == q.package && q.package in before.applications
           && ContentOf(r) == VerifiedContent(store[q.receipt]) && store[q.receipt].verifiedAt <= q.at
           && var row := before.applications[q.package];
           && row.status == Installed && r.digest != row.digest
           && ReceiptAt(before, ApplicationId(q.package), row.generation).Some?
           && WindowAdmits(
                q.window, ReceiptAt(before, ApplicationId(q.package), row.generation).value.version, r.version)
           && MovesTo(before, after, r) && after.rollbacks == before.rollbacks && DrillsUntouched(before, after)
  }

  /** The package's row kept its content and took a new status. */
  predicate MarkedAs(before: Db, after: Db, p: PackageId, status: Status, at: nat) {
    && p in before.applications && p in after.applications
    && after.applications[p] == before.applications[p].(status := status, updatedAt := at)
    && before.applications[p].updatedAt <= at
    && OtherRowsKept(before, after, p)
    && after.installations == before.installations && after.rollbacks == before.rollbacks
    && after.surfaces == before.surfaces && DrillsUntouched(before, after)
  }

  predicate DisableEffect(before: Db, q: LifecycleRequest, reply: Reply, after: Db) {
    match reply
    case Refused(_) => after == before
    case Accepted(fact) =>
      && fact.DisableFact?
      && fact.disable.application == ApplicationId(q.package) && fact.disable.key == q.key && fact.disable.at == q.at
      && if q.key in before.disables then after == before && before.disables[q.key] == fact.disable
         else
           && MarkedAs(before, after, q.package, Disabled, q.at)
           && before.applications[q.package].status == Installed
           && fact.disable.generation == before.applications[q.package].generation
           && after.disables == before.disables[q.key := fact.disable] && after.uninstalls == before.uninstalls
  }

  predicate UninstallEffect(before: Db, q: LifecycleRequest, activity: Activity, reply: Reply, after: Db) {
    match reply
    case Refused(_) => after == before
    case Accepted(fact) =>
      && fact.UninstallFact?
      && fact.uninstall.application == ApplicationId(q.package) && fact.uninstall.key == q.key
      && fact.uninstall.at == q.at
      && if q.key in before.uninstalls then after == before && before.uninstalls[q.key] == fact.uninstall
         else
           && Idle(activity)
           && MarkedAs(before, after, q.package, Uninstalled, q.at)
           && before.applications[q.package].status != Uninstalled
           && fact.uninstall.generation == before.applications[q.package].generation
           && after.uninstalls == before.uninstalls[q.key := fact.uninstall] && after.disables == before.disables
  }

  predicate RollbackEffect(before: Db, q: LifecycleRequest, activity: Activity, reply: Reply, after: Db) {
    match reply
    case Refused(_) => after == before
    case Accepted(fact) =>
      && fact.RollbackFact?
      && var rb := fact.rollback;
      && rb.application == ApplicationId(q.package) && rb.key == q.key && rb.at == q.at
      && if q.key in before.rollbacks then after == before && before.rollbacks[q.key] == rb
         else Idle(activity) && RolledBack(before, q, rb, after)
  }

  /** The content one generation before the row's is installed again, one generation after it. */
  predicate RolledBack(before: Db, q: LifecycleRequest, rb: RollbackReceipt, after: Db) {
    && q.package in before.applications && q.key in after.installations
    && var row, r := before.applications[q.package], after.installations[q.key];
    && row.status != Installed && 2 <= row.generation && r.package == q.package && r.installedAt == q.at
    && ReceiptAt(before, ApplicationId(q.package), row.generation - 1).Some?
    && ContentOf(r) == ContentOf(ReceiptAt(before, ApplicationId(q.package), row.generation - 1).value)
    && rb.fromGeneration == row.generation && rb.toGeneration == r.generation
    && MovesTo(before, after, r) && after.rollbacks == before.rollbacks[q.key := rb]
    && DrillsUntouched(before, after)
  }

  predicate RegisterEffect(before: Db, q: SurfacesRequest, reply: Reply, after: Db) {
    match reply
    case Refused(_) => after == before
    case Accepted(fact) =>
      && fact.SurfacesFact? && |fact.rows| == |q.surfaces|
      && (forall i :: 0 <= i < |fact.rows| ==>
            fact.rows[i].surface == q.surfaces[i] && fact.rows[i].index == i)
      && if q.key in before.surfaces then after == before && before.surfaces[q.key] == fact.rows
         else
           && q.package in before.applications && before.applications[q.package].digest == q.declaredDigest
           && before.applications[q.package].status == Installed
           && (forall i :: 0 <= i < |fact.rows| ==>
                 && fact.rows[i].application == ApplicationId(q.package) && fact.rows[i].digest == q.declaredDigest
                 && fact.rows[i].generation == before.applications[q.package].generation
                 && fact.rows[i].registrant == q.registrant && fact.rows[i].key == q.key && fact.rows[i].at == q.at
                 && !HasSurfaceAt(before, ApplicationId(q.package), fact.rows[i].generation, q.surfaces[i].surfaceId))
           && after == before.(surfaces := before.surfaces[q.key := fact.rows])
  }

  // ---------- drill calls ----------

  predicate MigrateEffect(before: Db, store: Store, q: MigrateRequest, reply: Reply, after: Db) {
    match reply
    case Refused(_) => after == before
    case Accepted(fact) =>
      && fact.DrillFact? && q.receipt in store
      && var m := fact.drill;
      && q.key in after.migrations && after.migrations[q.key] == m
      && m.application == ApplicationId(q.package) && m.verificationId == q.receipt && m.window == q.window
      && m.declaredSteps == q.declaredSteps && m.createdAt == q.at
      && if q.key in before.migrations then after == before
         else m.key == q.key && m.package == q.package && Begun(before, store, m, after)
  }

  /** A drill stands at its beginning, frozen on the row it found and on a verified target its window admits. */
  predicate Begun(before: Db, store: Store, m: Migration, after: Db) {
    && m.package in before.applications && !HasLiveDrill(before, m.application) && m.verificationId in store
    && var row, v := before.applications[m.package], store[m.verificationId];
    && row.status == Installed && m.fromGeneration == row.generation && m.fromDigest == row.digest
    && m.targetDigest == v.digest && m.targetVersion == v.version && v.package == m.package
    && m.targetDigest != m.fromDigest && WindowAdmits(m.window, m.fromVersion, m.targetVersion)
    && m.state.Pending? && m.health.Unchecked? && 1 <= m.declaredSteps
    && LifecycleUntouched(before, after) && OtherDrillsKept(before, after, m.key)
    && after.steps == before.steps && after.migrationRollbacks == before.migrationRollbacks
  }

  predicate StepEffect(before: Db, q: StepRequest, reply: Reply, after: Db) {
    match reply
    case Refused(_) => after == before
    case Accepted(fact) =>
      && fact == StepFact(q.key, q.index, q.at)
      && q.key in after.steps && q.index in after.steps[q.key] && after.steps[q.key][q.index] == q.at
      && if q.index in StepsOf(before, q.key) then after == before
         else
           && q.key in before.migrations && q.key in after.migrations
           && q.index == CompletedSteps(before, q.key) + 1 <= CompletedSteps(after, q.key)
           && IsLive(before.migrations[q.key])
           && after.migrations[q.key] == before.migrations[q.key].(state := Running, updatedAt := q.at)
           && after.steps[q.key] == StepsOf(before, q.key)[q.index := q.at]
           && LifecycleUntouched(before, after) && OtherDrillsKept(before, after, q.key)
           && after.migrationRollbacks == before.migrationRollbacks
  }

  predicate HealthEffect(before: Db, q: DrillRequest, healthy: bool, reply: Reply, after: Db) {
    match reply
    case Refused(_) => after == before
    case Accepted(fact) =>
      && fact.HealthFact? && fact.healthKey == q.key && q.key in before.migrations && q.key in after.migrations
      && var m, m' := before.migrations[q.key], after.migrations[q.key];
      && m'.health == (if fact.passed then Passed else Refuted) && m'.checkedAt == Some(fact.checkedAt)
      && IsLive(m)
      && if !m.health.Unchecked? then after == before
         else
           && fact.passed == healthy && fact.checkedAt == q.at
           && CompletedSteps(before, q.key) == m.declaredSteps
           && m' == m.(health := m'.health, checkedAt := Some(q.at), updatedAt := q.at)
           && LifecycleUntouched(before, after) && OtherDrillsKept(before, after, q.key)
           && after.steps == before.steps && after.migrationRollbacks == before.migrationRollbacks
  }

  predicate ActivateEffect(before: Db, q: DrillRequest, reply: Reply, after: Db) {
    match reply
    case Refused(_) => after == before
    case Accepted(fact) =>
      && fact.InstallationFact? && q.key in before.migrations && q.key in after.migrations
      && var m, r := before.migrations[q.key], fact.installation;
      && q.key in after.installations && after.installations[q.key] == r
      && after.migrations[q.key].state.Done? && after.migrations[q.key].activated == Some(r.installationId)
      && r.package == m.package && r.generation == m.fromGeneration + 1 && r.digest == m.targetDigest
      && r.verificationId == m.verificationId
      && if m.state.Done? then after == before else r.installedAt == q.at && Switched(before, q.key, r, after)
  }

  /** A passed drill on its untouched baseline ended, and the row moved onto its target. */
  predicate Switched(before: Db, k: Key, r: InstallationReceipt, after: Db) {
    && k in before.migrations && k in after.migrations
    && var m := before.migrations[k];
    && m.state.Running? && m.health.Passed?
    && m.package in before.applications && before.applications[m.package].status == Installed
    && before.applications[m.package].generation == m.fromGeneration
    && after.migrations[k] == m.(state := Done, activated := Some(r.installationId), updatedAt := r.installedAt)
    && MovesTo(before, after, r) && after.rollbacks == before.rollbacks
    && OtherDrillsKept(before, after, k) && after.steps == before.steps
    && after.migrationRollbacks == before.migrationRollbacks
  }

  predicate AbandonEffect(before: Db, q: DrillRequest, reply: Reply, after: Db) {
    match reply
    case Refused(_) => after == before
    case Accepted(fact) =>
      && fact.MigrationRollbackFact? && fact.abandoned.key == q.key && fact.abandoned.at == q.at
      && q.key in before.migrations && q.key in after.migrations && after.migrations[q.key].state.Failed?
      && if q.key in before.migrationRollbacks
         then after == before && before.migrationRollbacks[q.key] == fact.abandoned
         else
           && before.migrations[q.key].state.Running? && before.migrations[q.key].health.Refuted?
           && after.migrations[q.key] == before.migrations[q.key].(state := Failed, updatedAt := q.at)
           && fact.abandoned.retainedGeneration == before.migrations[q.key].fromGeneration
           && fact.abandoned.retainedDigest == before.migrations[q.key].fromDigest
           && fact.abandoned.abandonedDigest == before.migrations[q.key].targetDigest
           && after.migrationRollbacks == before.migrationRollbacks[q.key := fact.abandoned]
           && LifecycleUntouched(before, after) && OtherDrillsKept(before, after, q.key) && after.steps == before.steps
  }

  // ---------- the ladders have these effects ----------

  lemma PutMoves(w: World, r: InstallationReceipt, after: Db)
    requires NextReceipt(w, r)
    requires after.applications == PutInstallation(w.db, r).applications
    requires after.installations == PutInstallation(w.db, r).installations
    requires MarksKept(w.db, after) && after.surfaces == w.db.surfaces
    ensures MovesTo(w.db, after, r)
  {
  }

  /** A key under which something is filed is that thing's key. */
  predicate FiledUnder(w: World, k: Key) {
    && (k in w.db.installations ==> w.db.installations[k].key == k)
    && (k in w.db.disables ==> w.db.disables[k].key == k)
    && (k in w.db.uninstalls ==> w.db.uninstalls[k].key == k)
    && (k in w.db.rollbacks ==> w.db.rollbacks[k].key == k)
    && (k in w.db.migrationRollbacks ==>
          w.db.migrationRollbacks[k].key == k && k in w.db.migrations && w.db.migrations[k].state.Failed?)
  }

  lemma MarksAreFiled(db: Db, k: Key)
    requires DisablesAgree(db) && UninstallsAgree(db)
    ensures k in db.disables ==> db.disables[k].key == k
    ensures k in db.uninstalls ==> db.uninstalls[k].key == k
  {
  }

  lemma ReceiptsAreFiled(w: World, k: Key)
    requires ReceiptsKeyed(w.db) && RollbacksJustified(w.db) && DrillsSound(w)
    ensures k in w.db.installations ==> w.db.installations[k].key == k
    ensures k in w.db.rollbacks ==> w.db.rollbacks[k].key == k
    ensures k in w.db.migrationRollbacks ==>
              w.db.migrationRollbacks[k].key == k && k in w.db.migrations && w.db.migrations[k].state.Failed?
  {
    if k in w.db.installations {
      assert ReceiptFiled(w.db, k, w.db.installations[k]);
    }
    if k in w.db.rollbacks {
      assert RollbackJustified(w.db, k, w.db.rollbacks[k]);
    }
    if k in w.db.migrationRollbacks {
      assert DrillSound(w, k, w.db.migrations[k]);
    }
  }

  lemma KeysAreFiled(w: World, k: Key)
    requires Inv(w)
    ensures FiledUnder(w, k)
  {
    MarksAreFiled(w.db, k);
    ReceiptsAreFiled(w, k);
  }

  lemma InstallHasEffect(w: World, q: InstallRequest, after: Db)
    requires StoreKeyed(w.store) && HistoryDense(w.db) && FiledUnder(w, q.key)
    requires after == After(w.db, InstallApplication(w.db, w.store, q))
    ensures InstallEffect(w.db, w.store, q, ReplyTo(InstallApplication(w.db, w.store, q)), after)
  {
    if InstallApplication(w.db, w.store, q).Commit? {
      InstallCommits(w, q);
      PutMoves(w, InstallApplication(w.db, w.store, q).change.receipt, after);
    }
  }

  lemma UpdateHasEffect(w: World, q: UpdateRequest, after: Db)
    requires StoreKeyed(w.store) && HistoryDense(w.db) && FiledUnder(w, q.key)
    requires after == After(w.db, UpdateApplication(w.db, w.store, q))
    ensures UpdateEffect(w.db, w.store, q, ReplyTo(UpdateApplication(w.db, w.store, q)), after)
  {
    if UpdateApplication(w.db, w.store, q).Commit? {
      UpdateCommits(w, q);
      PutMoves(w, UpdateApplication(w.db, w.store, q).change.receipt, after);
    }
  }

  lemma DisableHasEffect(w: World, q: LifecycleRequest, after: Db)
    requires FiledUnder(w, q.key) && after == After(w.db, DisableApplication(w.db, q))
    ensures DisableEffect(w.db, q, ReplyTo(DisableApplication(w.db, q)), after)
  {
  }

  lemma UninstallHasEffect(w: World, q: LifecycleRequest, activity: Activity, after: Db)
    requires FiledUnder(w, q.key) && after == After(w.db, UninstallApplication(w.db, q, activity))
    ensures UninstallEffect(w.db, q, activity, ReplyTo(UninstallApplication(w.db, q, activity)), after)
  {
  }

  lemma RollRollsBack(w: World, q: LifecycleRequest, r: InstallationReceipt, rb: RollbackReceipt, after: Db)
    requires NextReceipt(w, r) && RollDue(w, r, rb) && r.package == q.package && r.key == q.key && r.installedAt == q.at
    requires after == Apply(w.db, ForwardRoll(r, rb))
    ensures RolledBack(w.db, q, rb, after)
  {
    PutMoves(w, r, after);
  }

  lemma RollbackAnswers(db: Db, q: LifecycleRequest, activity: Activity)
    ensures var d := RollbackApplication(db, q, activity);
            d.Commit? ==>
              && q.key !in db.rollbacks && Idle(activity)
              && d.change.ForwardRoll? && d.fact == RollbackFact(d.change.rollback)
  {
  }

  lemma StillRollbackEffect(w: World, q: LifecycleRequest, activity: Activity)
    requires !RollbackApplication(w.db, q, activity).Commit? && FiledUnder(w, q.key)
    ensures RollbackEffect(w.db, q, activity, ReplyTo(RollbackApplication(w.db, q, activity)), w.db)
  {
  }

  lemma RolledEffect(w: World, q: LifecycleRequest, activity: Activity, rb: RollbackReceipt, after: Db)
    requires q.key !in w.db.rollbacks && Idle(activity) && RolledBack(w.db, q, rb, after)
    requires rb.application == ApplicationId(q.package) && rb.key == q.key && rb.at == q.at
    ensures RollbackEffect(w.db, q, activity, Accepted(RollbackFact(rb)), after)
  {
  }

  lemma RollbackHasEffect(w: World, q: LifecycleRequest, activity: Activity, after: Db)
    requires ReceiptsKeyed(w.db) && HistoryDense(w.db) && Provenance(w) && FiledUnder(w, q.key)
    requires after == After(w.db, RollbackApplication(w.db, q, activity))
    ensures RollbackEffect(w.db, q, activity, ReplyTo(RollbackApplication(w.db, q, activity)), after)
  {
    if RollbackApplication(w.db, q, activity).Commit? {
      RollbackAnswers(w.db, q, activity);
      RollbackCommits(w, q, activity);
      CommittedRollback(w, q, activity, RollbackApplication(w.db, q, activity).change, after);
    } else {
      StillRollbackEffect(w, q, activity);
    }
  }

  lemma CommittedRollback(w: World, q: LifecycleRequest, activity: Activity, change: Change, after: Db)
    requires change.ForwardRoll? && NextReceipt(w, change.receipt) && RollDue(w, change.receipt, change.rollback)
    requires change.receipt.package == q.package && change.receipt.key == q.key && change.receipt.installedAt == q.at
    requires q.key !in w.db.rollbacks && Idle(activity) && after == Apply(w.db, change)
    ensures RollbackEffect(w.db, q, activity, Accepted(RollbackFact(change.rollback)), after)
  {
    RollRollsBack(w, q, change.receipt, change.rollback, after);
    RolledEffect(w, q, activity, change.rollback, after);
  }

  lemma RegisterHasEffect(db: Db, q: SurfacesRequest, after: Db)
    requires after == After(db, RegisterSurfaces(db, q))
    ensures RegisterEffect(db, q, ReplyTo(RegisterSurfaces(db, q)), after)
  {
  }

  lemma BeginBegins(w: World, m: Migration, after: Db)
    requires BeginDue(w, m) && after == Apply(w.db, Begin(m))
    ensures Begun(w.db, w.store, m, after)
  {
  }

  lemma MigrateAnswers(db: Db, store: Store, q: MigrateRequest)
    ensures var d := MigrateApplication(db, store, q);
            d.Commit? ==>
              && q.receipt in store && q.key !in db.migrations && d.change.Begin?
              && d.fact == DrillFact(d.change.drill, CompletedSteps(db, q.key))
  {
  }

  lemma StillMigrateEffect(w: World, q: MigrateRequest)
    requires !MigrateApplication(w.db, w.store, q).Commit?
    ensures MigrateEffect(w.db, w.store, q, ReplyTo(MigrateApplication(w.db, w.store, q)), w.db)
  {
  }

  lemma CommittedMigrate(w: World, q: MigrateRequest, m: Migration, completed: nat, after: Db)
    requires BeginDue(w, m) && after == Apply(w.db, Begin(m)) && q.receipt in w.store && q.key !in w.db.migrations
    requires m.key == q.key && m.package == q.package && m.verificationId == q.receipt && m.window == q.window
    requires m.declaredSteps == q.declaredSteps && m.createdAt == q.at
    ensures MigrateEffect(w.db, w.store, q, Accepted(DrillFact(m, completed)), after)
  {
    BeginBegins(w, m, after);
  }

  lemma MigrateHasEffect(w: World, q: MigrateRequest, after: Db)
    requires StoreKeyed(w.store) && ReceiptsKeyed(w.db) && HistoryDense(w.db)
    requires after == After(w.db, MigrateApplication(w.db, w.store, q))
    ensures MigrateEffect(w.db, w.store, q, ReplyTo(MigrateApplication(w.db, w.store, q)), after)
  {
    if MigrateApplication(w.db, w.store, q).Commit? {
      MigrateAnswers(w.db, w.store, q);
      MigrateCommits(w, q);
      CommittedMigrate(w, q, MigrateApplication(w.db, w.store, q).change.drill, CompletedSteps(w.db, q.key), after);
    } else {
      StillMigrateEffect(w, q);
    }
  }

  lemma StepHasEffect(db: Db, q: StepRequest, after: Db)
    requires after == After(db, RecordMigrationStep(db, q))
    ensures StepEffect(db, q, ReplyTo(RecordMigrationStep(db, q)), after)
  {
  }

  lemma HealthHasEffect(w: World, q: DrillRequest, healthy: bool, after: Db)
    requires after == After(w.db, RunMigrationHealthCheck(w.db, w.store, q, healthy))
    ensures HealthEffect(w.db, q, healthy, ReplyTo(RunMigrationHealthCheck(w.db, w.store, q, healthy)), after)
  {
  }

  lemma AbandonHasEffect(w: World, q: DrillRequest, after: Db)
    requires FiledUnder(w, q.key) && after == After(w.db, RollbackPackageMigration(w.db, q))
    ensures AbandonEffect(w.db, q, ReplyTo(RollbackPackageMigration(w.db, q)), after)
  {
    if RollbackPackageMigration(w.db, q).Commit? {
      AbandonCommits(w.db, q);
    }
  }

  lemma SwitchSwitches(w: World, r: InstallationReceipt, after: Db)
    requires NextReceipt(w, r) && SwitchDue(w, r) && after == Apply(w.db, Switch(r))
    ensures Switched(w.db, r.key, r, after)
  {
    PutMoves(w, r, after);
  }

  lemma DoneDrillIsShown(w: World, k: Key)
    requires ReceiptsKeyed(w.db) && DrillsSound(w) && k in w.db.migrations && w.db.migrations[k].state.Done?
    ensures var m := w.db.migrations[k];
            && k in w.db.installations
            && var r := w.db.installations[k];
            && m.activated == Some(r.installationId) && r.package == m.package && r.generation == m.fromGeneration + 1
            && r.digest == m.targetDigest && r.verificationId == m.verificationId
            && ReceiptById(w.db, r.installationId) == Some(r)
  {
    assert DrillSound(w, k, w.db.migrations[k]);
    assert ReceiptFiled(w.db, k, w.db.installations[k]);
  }

  lemma ActivationAnswers(db: Db, store: Store, q: DrillRequest)
    ensures var d := ActivatePackageMigration(db, store, q);
            d.Commit? ==> d.change.Switch? && d.fact == InstallationFact(d.change.receipt)
    ensures var d := ActivatePackageMigration(db, store, q);
            d.Replay? ==> q.key in db.migrations && db.migrations[q.key].state.Done?
  {
  }

  lemma CommittedActivation(w: World, q: DrillRequest, r: InstallationReceipt, after: Db)
    requires NextReceipt(w, r) && SwitchDue(w, r) && after == Apply(w.db, Switch(r))
    requires r.key == q.key && r.installedAt == q.at
    ensures ActivateEffect(w.db, q, Accepted(InstallationFact(r)), after)
  {
    SwitchSwitches(w, r, after);
  }

  lemma StillActivateEffect(w: World, q: DrillRequest)
    requires ReceiptsKeyed(w.db) && DrillsSound(w) && !ActivatePackageMigration(w.db, w.store, q).Commit?
    ensures ActivateEffect(w.db, q, ReplyTo(ActivatePackageMigration(w.db, w.store, q)), w.db)
  {
    ActivationAnswers(w.db, w.store, q);
    if ActivatePackageMigration(w.db, w.store, q).Replay? {
      DoneDrillIsShown(w, q.key);
    }
  }

  lemma ActivateHasEffect(w: World, q: DrillRequest, after: Db)
    requires ReceiptsKeyed(w.db) && DrillsSound(w)
    requires after == After(w.db, ActivatePackageMigration(w.db, w.store, q))
    ensures ActivateEffect(w.db, q, ReplyTo(ActivatePackageMigration(w.db, w.store, q)), after)
  {
    if ActivatePackageMigration(w.db, w.store, q).Commit? {
      ActivationAnswers(w.db, w.store, q);
      ActivateCommits(w, q);
      CommittedActivation(w, q, ActivatePackageMigration(w.db, w.store, q).change.receipt, after);
    } else {
      StillActivateEffect(w, q);
    }
  }
}
