/** Exactly when each request of a migration drill is carried out, in terms of the request and the tables alone. */
module DrillAdmissions {
  import opened Records
  import opened Versions
  import opened Changes
  import opened Commands
  import opened Runs
  import opened Invariants
  import opened DrillTheorems
  import opened Admissions

  // ---------- begin ----------

  ghost predicate NoDrillLive(db: Db, p: PackageId) {
    forall k :: k in db.migrations && db.migrations[k].package == p ==>
      db.migrations[k].state.Done? || db.migrations[k].state.Failed?
  }

  ghost predicate CanBegin(w: World, q: MigrateRequest) {
    && q.receipt in w.store && w.store[q.receipt].verifiedAt <= q.at <= I64_MAX
    && q.key !in w.db.migrations && 1 <= q.declaredSteps <= I64_MAX
    && w.store[q.receipt].package == q.package && q.package in w.db.applications
    && var v, row := w.store[q.receipt], w.db.applications[q.package];
    && row.status == Installed && v.digest != row.digest
    && AdmittedNow(w.db, q.package, q.window, v.version) && NoDrillLive(w.db, q.package)
  }

  lemma NoDrillLiveMeans(w: World, p: PackageId)
    requires DrillsSound(w)
    ensures NoDrillLive(w.db, p) <==> !HasLiveDrill(w.db, ApplicationId(p))
  {
    forall k | k in w.db.migrations ensures w.db.migrations[k].application == ApplicationId(w.db.migrations[k].package) {
      assert DrillSound(w, k, w.db.migrations[k]);
    }
  }

  lemma MigrateLadder(w: World, q: MigrateRequest, admitted: bool)
    requires q.receipt in w.store ==> w.store[q.receipt].receiptId == q.receipt && Storable(w.store[q.receipt])
    requires RowStands(w.db, q.package)
    requires NoDrillLive(w.db, q.package) <==> !HasLiveDrill(w.db, ApplicationId(q.package))
    requires q.receipt in w.store && q.package in w.db.applications ==>
      var row := w.db.applications[q.package];
      var current := ReceiptAt(w.db, ApplicationId(q.package), row.generation);
      && (admitted <==> AdmittedNow(w.db, q.package, q.window, w.store[q.receipt].version))
      && (admitted <==> WindowAdmits(q.window, current.value.version, w.store[q.receipt].version))
    ensures MigrateApplication(w.db, w.store, q).Commit? <==> CanBegin(w, q)
  {
  }

  /** A drill of any number of steps begins on an installed row with no live drill and a window that admits its target. */
  lemma MigrateCommitsExactlyWhen(w: World, q: MigrateRequest)
    requires Inv(w)
    ensures MigrateApplication(w.db, w.store, q).Commit? <==> CanBegin(w, q)
  {
    RowsStand(w.db, q.package);
    NoDrillLiveMeans(w, q.package);
    var admitted := false;
    if q.receipt in w.store && q.package in w.db.applications {
      AdmittedByReceipt(w.db, q.package, q.window, w.store[q.receipt].version);
      admitted := AdmittedNow(w.db, q.package, q.window, w.store[q.receipt].version);
    }
    MigrateLadder(w, q, admitted);
  }

  // ---------- steps and verdict ----------

  /** A drill that is known, sound, and whose steps are the first ones. */
  ghost predicate DrillStands(w: World, k: Key) {
    k in w.db.migrations ==> DrillSound(w, k, w.db.migrations[k])
  }

  lemma DrillsStand(w: World, k: Key)
    requires DrillsSound(w)
    ensures DrillStands(w, k) && (k !in w.db.migrations ==> k !in w.db.steps && k !in w.db.migrationRollbacks)
  {
  }

  predicate CanStep(db: Db, q: StepRequest) {
    && q.key in db.migrations
    && var m := db.migrations[q.key];
    && (m.state.Pending? || m.state.Running?)
    && q.index == |StepsOf(db, q.key)| + 1 <= m.declaredSteps && q.index <= I64_MAX
    && m.updatedAt <= q.at <= I64_MAX
  }

  lemma StepCommitsExactlyWhen(w: World, q: StepRequest)
    requires Inv(w)
    ensures RecordMigrationStep(w.db, q).Commit? <==> CanStep(w.db, q)
  {
    DrillsStand(w, q.key);
    StepLadder(w, q);
  }

  lemma StepLadder(w: World, q: StepRequest)
    requires DrillStands(w, q.key) && (q.key !in w.db.migrations ==> q.key !in w.db.steps)
    ensures RecordMigrationStep(w.db, q).Commit? <==> CanStep(w.db, q)
  {
  }

  predicate CanPronounce(db: Db, q: DrillRequest) {
    && q.key in db.migrations
    && var m := db.migrations[q.key];
    && m.health.Unchecked? && |StepsOf(db, q.key)| == m.declaredSteps && m.updatedAt <= q.at <= I64_MAX
  }

  lemma HealthLadder(w: World, q: DrillRequest, healthy: bool)
    requires DrillStands(w, q.key)
    ensures RunMigrationHealthCheck(w.db, w.store, q, healthy).Commit? <==> CanPronounce(w.db, q)
  {
  }

  /** A verdict is recorded exactly when all steps are and none was yet, whatever the verdict. */
  lemma HealthCommitsExactlyWhen(w: World, q: DrillRequest, healthy: bool)
    requires Inv(w)
    ensures RunMigrationHealthCheck(w.db, w.store, q, healthy).Commit? <==> CanPronounce(w.db, q)
  {
    DrillsStand(w, q.key);
    HealthLadder(w, q, healthy);
  }

  // ---------- the two ends ----------

  /** Live with this verdict, its row still installed at the generation it began on, and the request not backdated. */
  predicate CanEndAs(db: Db, q: DrillRequest, verdict: Health) {
    && q.key in db.migrations
    && var m := db.migrations[q.key];
    && m.state.Running? && m.health == verdict && m.updatedAt <= q.at <= I64_MAX
    && m.package in db.applications
    && db.applications[m.package].status == Installed && db.applications[m.package].generation == m.fromGeneration
  }

  /** The row shows the digest recorded at its generation, so a drill's baseline is its generation. */
  lemma BaselineIsGeneration(w: World, m: Migration)
    requires HistoryDense(w.db) && DrillBinding(w, m)
    ensures BaselineRefusal(w.db, m).None?
       <==> w.db.applications[m.package].status == Installed && w.db.applications[m.package].generation == m.fromGeneration
  {
    assert RowDense(w.db, m.package, w.db.applications[m.package]);
  }

  lemma AbandonLadder(w: World, q: DrillRequest)
    requires DrillStands(w, q.key) && (q.key !in w.db.migrations ==> q.key !in w.db.migrationRollbacks)
    requires q.key in w.db.migrations ==>
      var m := w.db.migrations[q.key];
      BaselineRefusal(w.db, m).None?
      <==> w.db.applications[m.package].status == Installed && w.db.applications[m.package].generation == m.fromGeneration
    ensures RollbackPackageMigration(w.db, q).Commit? <==> CanEndAs(w.db, q, Refuted)
  {
  }

  lemma AbandonCommitsExactlyWhen(w: World, q: DrillRequest)
    requires Inv(w)
    ensures RollbackPackageMigration(w.db, q).Commit? <==> CanEndAs(w.db, q, Refuted)
  {
    DrillsStand(w, q.key);
    if q.key in w.db.migrations {
      BaselineIsGeneration(w, w.db.migrations[q.key]);
    }
    AbandonLadder(w, q);
  }

  predicate CanActivate(db: Db, q: DrillRequest) {
    && CanEndAs(db, q, Passed) && q.key !in db.installations
    && var row := db.applications[db.migrations[q.key].package];
    row.createdAt <= q.at && row.generation < I64_MAX
  }

  lemma ActivatableMeans(w: World, q: DrillRequest)
    requires HistoryDense(w.db) && DrillStands(w, q.key)
    ensures Activatable(w, q.key, q.at) <==> CanActivate(w.db, q)
  {
    if q.key in w.db.migrations {
      BaselineIsGeneration(w, w.db.migrations[q.key]);
    }
  }

  lemma ActivationCommitsExactlyWhen(w: World, q: DrillRequest)
    requires Inv(w)
    ensures ActivatePackageMigration(w.db, w.store, q).Commit? <==> CanActivate(w.db, q)
  {
    DrillsStand(w, q.key);
    ActivatableMeans(w, q);
    ActivationCommitsIff(w, q);
  }
}
