/** The authority itself: an object that owns the tables and updates them in place, one transaction per call. */
module Authority {
  import opened Wrappers
  import opened Records
  import opened Versions
  import opened Surfaces
  import opened Changes
  import opened Commands
  import opened Runs
  import opened Invariants
  import opened Reachability
  import opened Durability
  import opened Effects

  // ---------- what each call leaves ----------

  lemma DecisionIsReachable(w: World, c: Command, after: Db)
    requires Reachable(w) && !c.Publish? && after == After(w.db, Decide(w, c))
    ensures Reachable(World(after, w.store))
  {
    StepIsReachable(w, c);
  }

  lemma StepKeepsReceipts(w: World, c: Command)
    requires Reachable(w)
    ensures ReceiptsExtend(w.db, Step(w, c).db)
  {
    ReachableIsInvariant(w);
    CommandExtends(w, c);
  }

  lemma InstallLeaves(w: World, q: InstallRequest, reply: Reply, after: Db)
    requires Reachable(w) && reply == ReplyTo(InstallApplication(w.db, w.store, q))
    requires after == After(w.db, InstallApplication(w.db, w.store, q))
    ensures Reachable(World(after, w.store))
    ensures InstallEffect(w.db, w.store, q, reply, after)
  {
    DecisionIsReachable(w, Command.Install(q), after);
    ReachableIsInvariant(w);
    KeysAreFiled(w, q.key);
    InstallHasEffect(w, q, after);
  }

  lemma UpdateLeaves(w: World, q: UpdateRequest, reply: Reply, after: Db)
    requires Reachable(w) && reply == ReplyTo(UpdateApplication(w.db, w.store, q))
    requires after == After(w.db, UpdateApplication(w.db, w.store, q))
    ensures Reachable(World(after, w.store))
    ensures UpdateEffect(w.db, w.store, q, reply, after)
  {
    DecisionIsReachable(w, Command.Update(q), after);
    ReachableIsInvariant(w);
    KeysAreFiled(w, q.key);
    UpdateHasEffect(w, q, after);
  }

  lemma DisableLeaves(w: World, q: LifecycleRequest, reply: Reply, after: Db)
    requires Reachable(w) && reply == ReplyTo(DisableApplication(w.db, q))
    requires after == After(w.db, DisableApplication(w.db, q))
    ensures Reachable(World(after, w.store))
    ensures DisableEffect(w.db, q, reply, after)
  {
    DecisionIsReachable(w, Command.Disable(q), after);
    ReachableIsInvariant(w);
    KeysAreFiled(w, q.key);
    DisableHasEffect(w, q, after);
  }

  lemma UninstallLeaves(w: World, q: LifecycleRequest, activity: Activity, reply: Reply, after: Db)
    requires Reachable(w) && reply == ReplyTo(UninstallApplication(w.db, q, activity))
    requires after == After(w.db, UninstallApplication(w.db, q, activity))
    ensures Reachable(World(after, w.store))
    ensures UninstallEffect(w.db, q, activity, reply, after)
  {
    DecisionIsReachable(w, Command.Uninstall(q, activity), after);
    ReachableIsInvariant(w);
    KeysAreFiled(w, q.key);
    UninstallHasEffect(w, q, activity, after);
  }

  lemma RollbackLeaves(w: World, q: LifecycleRequest, activity: Activity, reply: Reply, after: Db)
    requires Reachable(w) && reply == ReplyTo(RollbackApplication(w.db, q, activity))
    requires after == After(w.db, RollbackApplication(w.db, q, activity))
    ensures Reachable(World(after, w.store))
    ensures RollbackEffect(w.db, q, activity, reply, after)
  {
    DecisionIsReachable(w, Command.Rollback(q, activity), after);
    ReachableIsInvariant(w);
    KeysAreFiled(w, q.key);
    RollbackHasEffect(w, q, activity, after);
  }

  lemma RegisterLeaves(w: World, q: SurfacesRequest, reply: Reply, after: Db)
    requires Reachable(w) && reply == ReplyTo(RegisterSurfaces(w.db, q))
    requires after == After(w.db, RegisterSurfaces(w.db, q))
    ensures Reachable(World(after, w.store))
    ensures RegisterEffect(w.db, q, reply, after)
  {
    DecisionIsReachable(w, Command.Register(q), after);
    ReachableIsInvariant(w);
    RegisterHasEffect(w.db, q, after);
  }

  lemma MigrateLeaves(w: World, q: MigrateRequest, reply: Reply, after: Db)
    requires Reachable(w) && reply == ReplyTo(MigrateApplication(w.db, w.store, q))
    requires after == After(w.db, MigrateApplication(w.db, w.store, q))
    ensures Reachable(World(after, w.store))
    ensures MigrateEffect(w.db, w.store, q, reply, after)
  {
    DecisionIsReachable(w, Command.Migrate(q), after);
    ReachableIsInvariant(w);
    MigrateHasEffect(w, q, after);
  }

  lemma RecordStepLeaves(w: World, q: StepRequest, reply: Reply, after: Db)
    requires Reachable(w) && reply == ReplyTo(RecordMigrationStep(w.db, q))
    requires after == After(w.db, RecordMigrationStep(w.db, q))
    ensures Reachable(World(after, w.store))
    ensures StepEffect(w.db, q, reply, after)
  {
    DecisionIsReachable(w, Command.RecordStep(q), after);
    ReachableIsInvariant(w);
    StepHasEffect(w.db, q, after);
  }

  lemma CheckHealthLeaves(w: World, q: DrillRequest, healthy: bool, reply: Reply, after: Db)
    requires Reachable(w) && reply == ReplyTo(RunMigrationHealthCheck(w.db, w.store, q, healthy))
    requires after == After(w.db, RunMigrationHealthCheck(w.db, w.store, q, healthy))
    ensures Reachable(World(after, w.store))
    ensures HealthEffect(w.db, q, healthy, reply, after)
  {
    DecisionIsReachable(w, Command.CheckHealth(q, healthy), after);
    ReachableIsInvariant(w);
    HealthHasEffect(w, q, healthy, after);
  }

  lemma ActivateLeaves(w: World, q: DrillRequest, reply: Reply, after: Db)
    requires Reachable(w) && reply == ReplyTo(ActivatePackageMigration(w.db, w.store, q))
    requires after == After(w.db, ActivatePackageMigration(w.db, w.store, q))
    ensures Reachable(World(after, w.store))
    ensures ActivateEffect(w.db, q, reply, after)
  {
    DecisionIsReachable(w, Command.Activate(q), after);
    ReachableIsInvariant(w);
    ActivateHasEffect(w, q, after);
  }

  lemma RollBackDrillLeaves(w: World, q: DrillRequest, reply: Reply, after: Db)
    requires Reachable(w) && reply == ReplyTo(RollbackPackageMigration(w.db, q))
    requires after == After(w.db, RollbackPackageMigration(w.db, q))
    ensures Reachable(World(after, w.store))
    ensures AbandonEffect(w.db, q, reply, after)
  {
    DecisionIsReachable(w, Command.RollBackDrill(q), after);
    ReachableIsInvariant(w);
    KeysAreFiled(w, q.key);
    AbandonHasEffect(w, q, after);
  }

  class ApplicationAuthority {
    var applications: map<PackageId, Application>
    var installations: map<Key, InstallationReceipt>
    var slots: map<Slot, Key>
    var disables: map<Key, DisableReceipt>
    var uninstalls: map<Key, UninstallReceipt>
    var rollbacks: map<Key, RollbackReceipt>
    var surfaces: map<Key, seq<SurfaceRow>>
    var migrations: map<Key, Migration>
    var steps: map<Key, map<nat, nat>>
    var migrationRollbacks: map<Key, MigrationRollback>
    var store: Store

    function Tables(): Db
      reads this
    {
      Db(applications, installations, slots, disables, uninstalls, rollbacks, surfaces, migrations, steps,
         migrationRollbacks)
    }

    /** The tables are those some sequence of calls leaves behind. */
    ghost predicate Valid()
      reads this
    {
      Reachable(World(Tables(), store))
    }

    /** A valid authority satisfies every durable invariant. */
    lemma ValidMeansInv()
      requires Valid()
      ensures Inv(World(Tables(), store))
    {
      ReachableIsInvariant(World(Tables(), store));
    }

    constructor ()
      ensures Tables() == EMPTY_DB && store == map[] && Valid()
    {
      applications, installations, slots := map[], map[], map[];
      disables, uninstalls, rollbacks := map[], map[], map[];
      surfaces, migrations, steps, migrationRollbacks := map[], map[], map[], map[];
      store := map[];
      new;
      assert Run(EMPTY_WORLD, []) == World(Tables(), store);
    }

    /** Moves the application row, then files the receipt and its index entry. */
    method Put(r: InstallationReceipt)
      modifies this`applications, this`installations, this`slots
      ensures Tables() == PutInstallation(old(Tables()), r)
    {
      var p := r.application.package;
      if p in applications {
        var row := applications[p];
        applications := applications[p := row.(digest := r.digest, generation := r.generation, status := Installed,
                                               updatedAt := r.installedAt)];
      } else {
        applications := applications[p := Application(r.digest, r.generation, Installed, r.installedAt, r.installedAt)];
      }
      installations := installations[r.key := r];
      slots := slots[Slot(r.application, r.generation) := r.key];
    }

    method InstallTransaction(q: InstallRequest) returns (reply: Reply)
      modifies this`applications, this`installations, this`slots
      ensures Tables() == After(old(Tables()), InstallApplication(old(Tables()), store, q))
      ensures reply == ReplyTo(InstallApplication(old(Tables()), store, q))
    {
      if q.receipt !in store { return Refused(PackageVerificationReceiptNotFound); }
      if q.key in installations { return ReplyTo(ReplayInstallation(installations[q.key], q.receipt, q.at)); }
      var v := store[q.receipt];
      if q.at < v.verifiedAt { return Refused(InstallationPrecedesVerification); }
      var generation, row := 1, Row(Tables(), v.package);
      if row.Some? {
        if row.value.status == Uninstalled { return Refused(ApplicationUninstalled); }
        if row.value.status == Disabled { return Refused(ApplicationDisabled); }
        generation := NextInstallationGeneration(Tables(), ApplicationId(v.package), row.value);
      }
      var r := NewReceipt(ApplicationId(v.package), VerifiedContent(v), generation, q.key, q.at);
      var refusal := ReceiptRefusal(row, r, BindingError(r, v));
      if refusal.Some? { return Refused(refusal.value); }
      Put(r);
      return Accepted(InstallationFact(r));
    }

    /** The order in which the storage and the binding refuse a receipt about to be written. */
    function ReceiptRefusal(row: Option<Application>, r: InstallationReceipt, binding: Option<Error>): Option<Error>
      reads this
    {
      if RowRefusal(row, r).Some? then RowRefusal(row, r)
      else if binding.Some? then binding
      else InsertRefusal(Tables(), r)
    }

    method UpdateTransaction(q: UpdateRequest) returns (reply: Reply)
      modifies this`applications, this`installations, this`slots
      ensures Tables() == After(old(Tables()), UpdateApplication(old(Tables()), store, q))
      ensures reply == ReplyTo(UpdateApplication(old(Tables()), store, q))
    {
      if q.receipt !in store { return Refused(PackageVerificationReceiptNotFound); }
      if q.key in installations { return ReplyTo(ReplayInstallation(installations[q.key], q.receipt, q.at)); }
      var v := store[q.receipt];
      if q.at < v.verifiedAt { return Refused(InstallationPrecedesVerification); }
      if v.package != q.package { return Refused(PackageIdentityMismatch); }
      if q.package !in applications { return Refused(ApplicationNotFound); }
      var row := applications[q.package];
      if row.status == Uninstalled { return Refused(ApplicationUninstalled); }
      if row.status == Disabled { return Refused(ApplicationDisabled); }
      if v.digest == row.digest { return Refused(UpdateManifestUnchanged); }
      var current := ReceiptAt(Tables(), ApplicationId(q.package), row.generation);
      if current.None? { return Refused(CorruptRecord); }
      if !WindowAdmits(q.window, current.value.version, v.version) { return Refused(UpdateCompatibilityViolation); }
      var generation := NextInstallationGeneration(Tables(), ApplicationId(q.package), row);
      var r := NewReceipt(ApplicationId(q.package), VerifiedContent(v), generation, q.key, q.at);
      var refusal := ReceiptRefusal(Some(row), r, BindingError(r, v));
      if refusal.Some? { return Refused(refusal.value); }
      Put(r);
      return Accepted(InstallationFact(r));
    }

    method DisableTransaction(q: LifecycleRequest) returns (reply: Reply)
      modifies this`applications, this`disables
      ensures Tables() == After(old(Tables()), DisableApplication(old(Tables()), q))
      ensures reply == ReplyTo(DisableApplication(old(Tables()), q))
    {
      if q.key in disables {
        var existing := disables[q.key];
        if existing.application != ApplicationId(q.package) || existing.at != q.at { return Refused(IdempotencyConflict); }
        return Accepted(DisableFact(existing));
      }
      if q.package !in applications { return Refused(ApplicationNotFound); }
      var row := applications[q.package];
      if row.status == Uninstalled { return Refused(ApplicationUninstalled); }
      if row.status == Disabled { return Refused(ApplicationAlreadyDisabled); }
      if q.at < row.updatedAt { return Refused(DisablePrecedesInstallation); }
      if !FitsColumn(q.at) { return Refused(ColumnOverflow); }
      if HasDisableAt(Tables(), ApplicationId(q.package), row.generation) { return Refused(SchemaGuard); }
      var receipt := DisableReceipt(ApplicationId(q.package), row.generation, q.key, q.at);
      applications := applications[q.package := row.(status := Disabled, updatedAt := q.at)];
      disables := disables[q.key := receipt];
      return Accepted(DisableFact(receipt));
    }

    method UninstallTransaction(q: LifecycleRequest, activity: Activity) returns (reply: Reply)
      modifies this`applications, this`uninstalls
      ensures Tables() == After(old(Tables()), UninstallApplication(old(Tables()), q, activity))
      ensures reply == ReplyTo(UninstallApplication(old(Tables()), q, activity))
    {
      if q.key in uninstalls {
        var existing := uninstalls[q.key];
        if existing.application != ApplicationId(q.package) || existing.at != q.at { return Refused(IdempotencyConflict); }
        return Accepted(UninstallFact(existing));
      }
      if q.package !in applications { return Refused(ApplicationNotFound); }
      var row := applications[q.package];
      if row.status == Uninstalled { return Refused(ApplicationAlreadyUninstalled); }
      if q.at < row.updatedAt { return Refused(UninstallPrecedesLastUpdate); }
      if activity.QueryFailed? { return Refused(TaskActivityQueryFailed); }
      if activity.Outstanding? && activity.count > 0 { return Refused(ApplicationActiveTasksRunning); }
      if !FitsColumn(q.at) { return Refused(ColumnOverflow); }
      if HasUninstallAt(Tables(), ApplicationId(q.package), row.generation) { return Refused(SchemaGuard); }
      var receipt := UninstallReceipt(ApplicationId(q.package), row.generation, q.key, q.at);
      applications := applications[q.package := row.(status := Uninstalled, updatedAt := q.at)];
      uninstalls := uninstalls[q.key := receipt];
      return Accepted(UninstallFact(receipt));
    }

    method RollbackTransaction(q: LifecycleRequest, activity: Activity) returns (reply: Reply)
      modifies this`applications, this`installations, this`slots, this`rollbacks
      ensures Tables() == After(old(Tables()), RollbackApplication(old(Tables()), q, activity))
      ensures reply == ReplyTo(RollbackApplication(old(Tables()), q, activity))
    {
      if q.key in rollbacks {
        var existing := rollbacks[q.key];
        if existing.application != ApplicationId(q.package) || existing.at != q.at { return Refused(IdempotencyConflict); }
        return Accepted(RollbackFact(existing));
      }
      if q.key in installations { return Refused(IdempotencyConflict); }
      if q.package !in applications { return Refused(ApplicationNotFound); }
      var row := applications[q.package];
      if row.status == Installed { return Refused(RollbackRequiresDisabledOrUninstalled); }
      if q.at < row.updatedAt { return Refused(RollbackPrecedesLastUpdate); }
      if row.generation <= 1 { return Refused(RollbackAtInitialGeneration); }
      var prior := ReceiptAt(Tables(), ApplicationId(q.package), row.generation - 1);
      if prior.None? { return Refused(PreviousInstallationNotFound); }
      if ActivityRefusal(activity).Some? { return Refused(ActivityRefusal(activity).value); }
      var to := NextInstallationGeneration(Tables(), ApplicationId(q.package), row);
      var r := NewReceipt(ApplicationId(q.package), ContentOf(prior.value), to, q.key, q.at);
      var refusal := ReceiptRefusal(Some(row), r, RollbackBindingError(r, prior.value));
      if refusal.Some? { return Refused(refusal.value); }
      Put(r);
      var receipt := RollbackReceipt(ApplicationId(q.package), row.generation, to, q.key, q.at);
      rollbacks := rollbacks[q.key := receipt];
      return Accepted(RollbackFact(receipt));
    }

    method RegisterTransaction(q: SurfacesRequest) returns (reply: Reply)
      modifies this`surfaces
      ensures Tables() == After(old(Tables()), RegisterSurfaces(old(Tables()), q))
      ensures reply == ReplyTo(RegisterSurfaces(old(Tables()), q))
    {
      var verdict := ValidateSurfaceDeclarations(q.surfaces);
      if verdict.Some? { return Refused(SurfaceSegment(verdict.value)); }
      if q.key in surfaces {
        if SurfaceReplayConflicts(surfaces[q.key], q) { return Refused(IdempotencyConflict); }
        return Accepted(SurfacesFact(surfaces[q.key]));
      }
      if q.package !in applications { return Refused(ApplicationNotFound); }
      var row := applications[q.package];
      if row.status == Uninstalled { return Refused(ApplicationUninstalled); }
      if row.status == Disabled { return Refused(ApplicationDisabled); }
      if q.at < row.updatedAt { return Refused(RegistrationPrecedesLastUpdate); }
      if q.declaredDigest != row.digest { return Refused(SurfaceManifestMismatch); }
      for i := 0 to |q.surfaces|
        invariant forall j :: 0 <= j < i ==>
                    !HasSurfaceAt(Tables(), ApplicationId(q.package), row.generation, q.surfaces[j].surfaceId)
      {
        if HasSurfaceAt(Tables(), ApplicationId(q.package), row.generation, q.surfaces[i].surfaceId) {
          return Refused(SurfaceAlreadyRegistered);
        }
      }
      if !FitsColumn(q.at) { return Refused(ColumnOverflow); }
      var rows: seq<SurfaceRow> := [];
      for i := 0 to |q.surfaces|
        invariant rows == SurfaceRows(row, q)[..i]
      {
        rows := rows + [SurfaceRow(ApplicationId(q.package), i, q.surfaces[i], q.declaredDigest, q.registrant,
                                   row.generation, q.key, q.at)];
      }
      assert rows == SurfaceRows(row, q);
      surfaces := surfaces[q.key := rows];
      return Accepted(SurfacesFact(rows));
    }

    method MigrateTransaction(q: MigrateRequest) returns (reply: Reply)
      modifies this`migrations
      ensures Tables() == After(old(Tables()), MigrateApplication(old(Tables()), store, q))
      ensures reply == ReplyTo(MigrateApplication(old(Tables()), store, q))
    {
      if q.receipt !in store { return Refused(PackageVerificationReceiptNotFound); }
      if q.key in migrations {
        var m := migrations[q.key];
        if m.application != ApplicationId(q.package) || m.verificationId != q.receipt || m.window != q.window
           || m.declaredSteps != q.declaredSteps || m.createdAt != q.at { return Refused(IdempotencyConflict); }
        return Accepted(DrillFact(m, CompletedSteps(Tables(), q.key)));
      }
      var v := store[q.receipt];
      if q.at < v.verifiedAt { return Refused(MigrationPrecedesVerification); }
      if v.package != q.package { return Refused(PackageIdentityMismatch); }
      if q.declaredSteps == 0 { return Refused(MigrationStepCountZero); }
      if q.package !in applications { return Refused(ApplicationNotFound); }
      var row := applications[q.package];
      if row.status == Uninstalled { return Refused(ApplicationUninstalled); }
      if row.status == Disabled { return Refused(ApplicationDisabled); }
      if v.digest == row.digest { return Refused(UpdateManifestUnchanged); }
      var current := ReceiptAt(Tables(), ApplicationId(q.package), row.generation);
      if current.None? { return Refused(CorruptRecord); }
      if !WindowAdmits(q.window, current.value.version, v.version) { return Refused(UpdateCompatibilityViolation); }
      if HasLiveDrill(Tables(), ApplicationId(q.package)) { return Refused(MigrationAlreadyLive); }
      if !VersionFitsColumn(v.version) || !FitsColumn(q.declaredSteps) || !FitsColumn(q.at) {
        return Refused(ColumnOverflow);
      }
      var m := NewDrill(current.value, v, q);
      reply := Accepted(DrillFact(m, CompletedSteps(Tables(), q.key)));
      migrations := migrations[q.key := m];
    }

    method RecordStepTransaction(q: StepRequest) returns (reply: Reply)
      modifies this`migrations, this`steps
      ensures Tables() == After(old(Tables()), RecordMigrationStep(old(Tables()), q))
      ensures reply == ReplyTo(RecordMigrationStep(old(Tables()), q))
    {
      if !FitsColumn(q.index) { return Refused(ColumnOverflow); }
      var recorded := StepsOf(Tables(), q.key);
      if q.index in recorded {
        if recorded[q.index] != q.at { return Refused(IdempotencyConflict); }
        return Accepted(StepFact(q.key, q.index, q.at));
      }
      if q.key !in migrations { return Refused(MigrationNotFound); }
      var m, completed := migrations[q.key], CompletedSteps(Tables(), q.key);
      if m.state.IsTerminal() { return Refused(MigrationTerminal); }
      if completed == m.declaredSteps { return Refused(MigrationDrillComplete); }
      if q.index != completed + 1 { return Refused(MigrationStepOutOfOrder); }
      if q.at < m.updatedAt { return Refused(MigrationStepPrecedesLastUpdate); }
      if !FitsColumn(q.at) { return Refused(ColumnOverflow); }
      steps := steps[q.key := recorded[q.index := q.at]];
      if m.state.Pending? {
        m := m.(state := Running);
      }
      migrations := migrations[q.key := m.(updatedAt := q.at)];
      return Accepted(StepFact(q.key, q.index, q.at));
    }

    method CheckHealthTransaction(q: DrillRequest, healthy: bool) returns (reply: Reply)
      modifies this`migrations
      ensures Tables() == After(old(Tables()), RunMigrationHealthCheck(old(Tables()), store, q, healthy))
      ensures reply == ReplyTo(RunMigrationHealthCheck(old(Tables()), store, q, healthy))
    {
      if q.key !in migrations { return Refused(MigrationNotFound); }
      var m := migrations[q.key];
      if m.state.IsTerminal() { return Refused(MigrationTerminal); }
      if !m.health.Unchecked? {
        if m.checkedAt.None? { return Refused(CorruptRecord); }
        return Accepted(HealthFact(q.key, m.health.Passed?, m.checkedAt.value));
      }
      if m.state.Pending? { return Refused(MigrationNotRunning); }
      if CompletedSteps(Tables(), q.key) != m.declaredSteps { return Refused(MigrationStepsIncomplete); }
      if q.at < m.updatedAt { return Refused(HealthCheckPrecedesLastUpdate); }
      if m.verificationId !in store { return Refused(PackageVerificationReceiptNotFound); }
      if !TargetBound(m, store[m.verificationId]) { return Refused(CorruptRecord); }
      if !FitsColumn(q.at) { return Refused(ColumnOverflow); }
      var verdict := if healthy then Passed else Refuted;
      migrations := migrations[q.key := m.(health := verdict, checkedAt := Some(q.at), updatedAt := q.at)];
      return Accepted(HealthFact(q.key, healthy, q.at));
    }

    method ActivateTransaction(q: DrillRequest) returns (reply: Reply)
      modifies this`applications, this`installations, this`slots, this`migrations
      ensures Tables() == After(old(Tables()), ActivatePackageMigration(old(Tables()), store, q))
      ensures reply == ReplyTo(ActivatePackageMigration(old(Tables()), store, q))
    {
      if q.key !in migrations { return Refused(MigrationNotFound); }
      var m := migrations[q.key];
      if m.state.Done? {
        if m.activated.None? { return Refused(CorruptRecord); }
        var receipt := ReceiptById(Tables(), m.activated.value);
        if receipt.None? { return Refused(CorruptRecord); }
        return Accepted(InstallationFact(receipt.value));
      }
      if m.state.Failed? { return Refused(MigrationTerminal); }
      if m.state.Pending? { return Refused(MigrationNotRunning); }
      if m.health.Unchecked? { return Refused(MigrationHealthUnchecked); }
      if m.health.Refuted? { return Refused(MigrationHealthFailed); }
      if CompletedSteps(Tables(), q.key) != m.declaredSteps { return Refused(MigrationStepsIncomplete); }
      if m.checkedAt.None? { return Refused(CorruptRecord); }
      if q.at < m.checkedAt.value { return Refused(ActivationPrecedesHealthCheck); }
      if m.verificationId !in store { return Refused(PackageVerificationReceiptNotFound); }
      var v := store[m.verificationId];
      if !TargetBound(m, v) { return Refused(CorruptRecord); }
      var moved := BaselineRefusal(Tables(), m);
      if moved.Some? { return Refused(moved.value); }
      var r := NewReceipt(ApplicationId(m.package), VerifiedContent(v), m.fromGeneration + 1, q.key, q.at);
      if BindingError(r, v).Some? { return Refused(BindingError(r, v).value); }
      var refusal := ReceiptRefusal(Some(applications[m.package]), r, None);
      if refusal.Some? { return Refused(refusal.value); }
      if q.at < m.updatedAt { return Refused(SchemaGuard); }
      Put(r);
      migrations := migrations[q.key := m.(state := Done, activated := Some(r.installationId), updatedAt := q.at)];
      return Accepted(InstallationFact(r));
    }

    method RollBackDrillTransaction(q: DrillRequest) returns (reply: Reply)
      modifies this`migrations, this`migrationRollbacks
      ensures Tables() == After(old(Tables()), RollbackPackageMigration(old(Tables()), q))
      ensures reply == ReplyTo(RollbackPackageMigration(old(Tables()), q))
    {
      if q.key in migrationRollbacks {
        if migrationRollbacks[q.key].at != q.at { return Refused(IdempotencyConflict); }
        return Accepted(MigrationRollbackFact(migrationRollbacks[q.key]));
      }
      if q.key !in migrations { return Refused(MigrationNotFound); }
      var m := migrations[q.key];
      if m.state.IsTerminal() { return Refused(MigrationTerminal); }
      if m.state.Pending? { return Refused(MigrationNotRunning); }
      if !m.health.Refuted? { return Refused(MigrationRequiresFailedHealth); }
      if m.checkedAt.None? { return Refused(CorruptRecord); }
      if q.at < m.checkedAt.value { return Refused(MigrationRollbackPrecedesHealthCheck); }
      var moved := BaselineRefusal(Tables(), m);
      if moved.Some? { return Refused(moved.value); }
      if !FitsColumn(q.at) { return Refused(ColumnOverflow); }
      if q.at < m.updatedAt { return Refused(SchemaGuard); }
      var a := MigrationRollback(q.key, m.application, m.targetDigest, m.fromGeneration, m.fromDigest, q.at);
      migrations := migrations[q.key := m.(state := Failed, updatedAt := q.at)];
      migrationRollbacks := migrationRollbacks[q.key := a];
      return Accepted(MigrationRollbackFact(a));
    }

    // ---------- the calls ----------

    method Install(q: InstallRequest) returns (reply: Reply)
      requires Valid()
      modifies this`applications, this`installations, this`slots
      ensures Valid()
      ensures InstallEffect(old(Tables()), store, q, reply, Tables())
      ensures reply == ReplyTo(InstallApplication(old(Tables()), store, q))
      ensures Tables() == After(old(Tables()), InstallApplication(old(Tables()), store, q))
    {
      ghost var before := World(Tables(), store);
      reply := InstallTransaction(q);
      InstallLeaves(before, q, reply, Tables());
    }

    method Update(q: UpdateRequest) returns (reply: Reply)
      requires Valid()
      modifies this`applications, this`installations, this`slots
      ensures Valid()
      ensures UpdateEffect(old(Tables()), store, q, reply, Tables())
      ensures reply == ReplyTo(UpdateApplication(old(Tables()), store, q))
      ensures Tables() == After(old(Tables()), UpdateApplication(old(Tables()), store, q))
    {
      ghost var before := World(Tables(), store);
      reply := UpdateTransaction(q);
      UpdateLeaves(before, q, reply, Tables());
    }

    method Disable(q: LifecycleRequest) returns (reply: Reply)
      requires Valid()
      modifies this`applications, this`disables
      ensures Valid()
      ensures DisableEffect(old(Tables()), q, reply, Tables())
      ensures reply == ReplyTo(DisableApplication(old(Tables()), q))
      ensures Tables() == After(old(Tables()), DisableApplication(old(Tables()), q))
    {
      ghost var before := World(Tables(), store);
      reply := DisableTransaction(q);
      DisableLeaves(before, q, reply, Tables());
    }

    method Uninstall(q: LifecycleRequest, activity: Activity) returns (reply: Reply)
      requires Valid()
      modifies this`applications, this`uninstalls
      ensures Valid()
      ensures UninstallEffect(old(Tables()), q, activity, reply, Tables())
      ensures reply == ReplyTo(UninstallApplication(old(Tables()), q, activity))
      ensures Tables() == After(old(Tables()), UninstallApplication(old(Tables()), q, activity))
    {
      ghost var before := World(Tables(), store);
      reply := UninstallTransaction(q, activity);
      UninstallLeaves(before, q, activity, reply, Tables());
    }

    method Rollback(q: LifecycleRequest, activity: Activity) returns (reply: Reply)
      requires Valid()
      modifies this`applications, this`installations, this`slots, this`rollbacks
      ensures Valid()
      ensures RollbackEffect(old(Tables()), q, activity, reply, Tables())
      ensures reply == ReplyTo(RollbackApplication(old(Tables()), q, activity))
      ensures Tables() == After(old(Tables()), RollbackApplication(old(Tables()), q, activity))
    {
      ghost var before := World(Tables(), store);
      reply := RollbackTransaction(q, activity);
      RollbackLeaves(before, q, activity, reply, Tables());
    }

    method Register(q: SurfacesRequest) returns (reply: Reply)
      requires Valid()
      modifies this`surfaces
      ensures Valid()
      ensures RegisterEffect(old(Tables()), q, reply, Tables())
      ensures reply == ReplyTo(RegisterSurfaces(old(Tables()), q))
      ensures Tables() == After(old(Tables()), RegisterSurfaces(old(Tables()), q))
    {
      ghost var before := World(Tables(), store);
      reply := RegisterTransaction(q);
      RegisterLeaves(before, q, reply, Tables());
    }

    method Migrate(q: MigrateRequest) returns (reply: Reply)
      requires Valid()
      modifies this`migrations
      ensures Valid()
      ensures MigrateEffect(old(Tables()), store, q, reply, Tables())
      ensures reply == ReplyTo(MigrateApplication(old(Tables()), store, q))
      ensures Tables() == After(old(Tables()), MigrateApplication(old(Tables()), store, q))
    {
      ghost var before := World(Tables(), store);
      reply := MigrateTransaction(q);
      MigrateLeaves(before, q, reply, Tables());
    }

    method RecordStep(q: StepRequest) returns (reply: Reply)
      requires Valid()
      modifies this`migrations, this`steps
      ensures Valid()
      ensures StepEffect(old(Tables()), q, reply, Tables())
      ensures reply == ReplyTo(RecordMigrationStep(old(Tables()), q))
      ensures Tables() == After(old(Tables()), RecordMigrationStep(old(Tables()), q))
    {
      ghost var before := World(Tables(), store);
      reply := RecordStepTransaction(q);
      RecordStepLeaves(before, q, reply, Tables());
    }

    method CheckHealth(q: DrillRequest, healthy: bool) returns (reply: Reply)
      requires Valid()
      modifies this`migrations
      ensures Valid()
      ensures HealthEffect(old(Tables()), q, healthy, reply, Tables())
      ensures reply == ReplyTo(RunMigrationHealthCheck(old(Tables()), store, q, healthy))
      ensures Tables() == After(old(Tables()), RunMigrationHealthCheck(old(Tables()), store, q, healthy))
    {
      ghost var before := World(Tables(), store);
      reply := CheckHealthTransaction(q, healthy);
      CheckHealthLeaves(before, q, healthy, reply, Tables());
    }

    method Activate(q: DrillRequest) returns (reply: Reply)
      requires Valid()
      modifies this`applications, this`installations, this`slots, this`migrations
      ensures Valid()
      ensures ActivateEffect(old(Tables()), q, reply, Tables())
      ensures reply == ReplyTo(ActivatePackageMigration(old(Tables()), store, q))
      ensures Tables() == After(old(Tables()), ActivatePackageMigration(old(Tables()), store, q))
    {
      ghost var before := World(Tables(), store);
      reply := ActivateTransaction(q);
      ActivateLeaves(before, q, reply, Tables());
    }

    method RollBackDrill(q: DrillRequest) returns (reply: Reply)
      requires Valid()
      modifies this`migrations, this`migrationRollbacks
      ensures Valid()
      ensures AbandonEffect(old(Tables()), q, reply, Tables())
      ensures reply == ReplyTo(RollbackPackageMigration(old(Tables()), q))
      ensures Tables() == After(old(Tables()), RollbackPackageMigration(old(Tables()), q))
    {
      ghost var before := World(Tables(), store);
      reply := RollBackDrillTransaction(q);
      RollBackDrillLeaves(before, q, reply, Tables());
    }

    method HandleDrill(c: Command) returns (reply: Reply)
      requires Valid() && (c.Migrate? || c.RecordStep? || c.CheckHealth? || c.Activate? || c.RollBackDrill?)
      modifies this
      ensures Valid()
      ensures store == old(store) && Tables() == After(old(Tables()), Decide(old(World(Tables(), store)), c))
      ensures reply == ReplyTo(Decide(old(World(Tables(), store)), c))
    {
      match c
      case Migrate(q) => reply := Migrate(q);
      case RecordStep(q) => reply := RecordStep(q);
      case CheckHealth(q, healthy) => reply := CheckHealth(q, healthy);
      case Activate(q) => reply := Activate(q);
      case RollBackDrill(q) => reply := RollBackDrill(q);
    }

    method HandleLifecycle(c: Command) returns (reply: Reply)
      requires Valid()
      requires c.Install? || c.Update? || c.Disable? || c.Uninstall? || c.Rollback? || c.Register?
      modifies this
      ensures Valid()
      ensures store == old(store) && Tables() == After(old(Tables()), Decide(old(World(Tables(), store)), c))
      ensures reply == ReplyTo(Decide(old(World(Tables(), store)), c))
    {
      match c
      case Install(q) => reply := Install(q);
      case Update(q) => reply := Update(q);
      case Disable(q) => reply := Disable(q);
      case Uninstall(q, activity) => reply := Uninstall(q, activity);
      case Rollback(q, activity) => reply := Rollback(q, activity);
      case Register(q) => reply := Register(q);
    }

    /** One call, whichever it is. */
    method Handle(c: Command) returns (reply: Reply)
      requires Valid()
      modifies this
      ensures Valid()
      ensures reply.Refused? ==> Tables() == old(Tables())
      ensures ReceiptsExtend(old(Tables()), Tables())
      ensures World(Tables(), store) == Step(old(World(Tables(), store)), c)
      ensures reply == ReplyTo(Decide(old(World(Tables(), store)), c))
    {
      ghost var before := World(Tables(), store);
      StepKeepsReceipts(before, c);
      if c.Publish? {
        if c.verified.entryCount == 0 {
          reply := Refused(PackageManifestInvalid);
        } else if !Storable(c.verified) {
          reply := Refused(ColumnOverflow);
        } else {
          if c.verified.receiptId !in store {
            store := store[c.verified.receiptId := c.verified];
          }
          reply := Accepted(NoFact);
        }
        StepIsReachable(before, c);
      } else if c.Migrate? || c.RecordStep? || c.CheckHealth? || c.Activate? || c.RollBackDrill? {
        reply := HandleDrill(c);
      } else {
        reply := HandleLifecycle(c);
      }
    }

    /** Any sequence of calls keeps every durable invariant and leaves the world the run describes. */
    method Serve(commands: seq<Command>)
      requires Valid()
      modifies this
      ensures Valid()
      ensures World(Tables(), store) == Run(old(World(Tables(), store)), commands)
    {
      ghost var before := World(Tables(), store);
      for i := 0 to |commands|
        invariant Valid() && World(Tables(), store) == Run(before, commands[..i])
      {
        var _ := Handle(commands[i]);
        assert commands[..i + 1] == commands[..i] + [commands[i]];
        RunSplits(before, commands[..i], [commands[i]]);
      }
      assert commands[..|commands|] == commands;
    }
  }
}
