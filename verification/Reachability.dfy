/** From the ladders to the invariant: what each committed command rests on, one step, every run. */
module Reachability {
  import opened Records
  import opened Versions
  import opened Changes
  import opened Commands
  import opened Runs
  import opened Invariants
  import opened Preservation

  // ---------- what a commit rests on ----------

  lemma InstallCommits(w: World, q: InstallRequest)
    requires StoreKeyed(w.store) && HistoryDense(w.db)
    requires InstallApplication(w.db, w.store, q).Commit?
    ensures var change := InstallApplication(w.db, w.store, q).change;
            && change.Installs?
            && NextReceipt(w, change.receipt)
            && change.receipt.key == q.key
            && change.receipt.verificationId == q.receipt && change.receipt.installedAt == q.at
            && (change.receipt.package in w.db.applications ==>
                  w.db.applications[change.receipt.package].status == Installed)
  {
    var p := w.store[q.receipt].package;
    if p in w.db.applications {
      NextIsSuccessor(w.db, p);
    }
  }

  lemma UpdateCommits(w: World, q: UpdateRequest)
    requires StoreKeyed(w.store) && HistoryDense(w.db)
    requires UpdateApplication(w.db, w.store, q).Commit?
    ensures var change := UpdateApplication(w.db, w.store, q).change;
            && change.Updates?
            && NextReceipt(w, change.receipt)
            && change.receipt.key == q.key && change.receipt.package == q.package
            && change.receipt.verificationId == q.receipt && change.receipt.installedAt == q.at
            && q.package in w.db.applications
            && w.db.applications[q.package].status == Installed
            && ReceiptAt(w.db, ApplicationId(q.package), w.db.applications[q.package].generation).Some?
            && WindowAdmits(
                 q.window,
                 ReceiptAt(w.db, ApplicationId(q.package), w.db.applications[q.package].generation).value.version,
                 change.receipt.version)
  {
    NextIsSuccessor(w.db, q.package);
  }

  lemma DisableCommits(db: Db, q: LifecycleRequest)
    requires DisableApplication(db, q).Commit?
    ensures q.package in db.applications && q.key !in db.disables
    ensures db.applications[q.package].status == Installed && db.applications[q.package].updatedAt <= q.at
    ensures DisableApplication(db, q).change
         == MarkDisabled(DisableReceipt(ApplicationId(q.package), db.applications[q.package].generation, q.key, q.at))
  {
  }

  lemma UninstallCommits(db: Db, q: LifecycleRequest, activity: Activity)
    requires UninstallApplication(db, q, activity).Commit?
    ensures q.package in db.applications && q.key !in db.uninstalls
    ensures db.applications[q.package].status != Uninstalled && db.applications[q.package].updatedAt <= q.at
    ensures UninstallApplication(db, q, activity).change
         == MarkUninstalled(UninstallReceipt(ApplicationId(q.package), db.applications[q.package].generation, q.key, q.at))
  {
  }

  lemma ReceiptAtIsFiled(w: World, p: PackageId, g: nat)
    requires ReceiptsKeyed(w.db) && Provenance(w)
    requires ReceiptAt(w.db, ApplicationId(p), g).Some?
    ensures var r := ReceiptAt(w.db, ApplicationId(p), g).value;
            r.package == p && r.generation == g && r.application == ApplicationId(p) && Proven(w.store, r)
  {
    var slot := Slot(ApplicationId(p), g);
    var r := w.db.installations[w.db.slots[slot]];
    assert r.application == ApplicationId(r.package);
  }

  lemma RollbackClears(db: Db, q: LifecycleRequest, activity: Activity)
    requires RollbackApplication(db, q, activity).Commit?
    ensures q.package in db.applications && q.key !in db.installations && q.key !in db.rollbacks
    ensures var row := db.applications[q.package];
            var prior := ReceiptAt(db, ApplicationId(q.package), row.generation - 1);
            var to := NextInstallationGeneration(db, ApplicationId(q.package), row);
            && row.status != Installed && 2 <= row.generation && row.createdAt <= q.at
            && prior.Some? && prior.value.installedAt <= q.at
            && RollbackApplication(db, q, activity).change == ForwardRoll(
                 NewReceipt(ApplicationId(q.package), ContentOf(prior.value), to, q.key, q.at),
                 RollbackReceipt(ApplicationId(q.package), row.generation, to, q.key, q.at))
  {
  }

  lemma RollbackCommits(w: World, q: LifecycleRequest, activity: Activity)
    requires ReceiptsKeyed(w.db) && HistoryDense(w.db) && Provenance(w)
    requires RollbackApplication(w.db, q, activity).Commit?
    ensures var change := RollbackApplication(w.db, q, activity).change;
            && change.ForwardRoll?
            && NextReceipt(w, change.receipt)
            && RollDue(w, change.receipt, change.rollback)
            && change.receipt.package == q.package
            && change.receipt.key == q.key && change.receipt.installedAt == q.at
  {
    RollbackClears(w.db, q, activity);
    NextIsSuccessor(w.db, q.package);
    ReceiptAtIsFiled(w, q.package, w.db.applications[q.package].generation - 1);
  }

  lemma MigrateCommits(w: World, q: MigrateRequest)
    requires StoreKeyed(w.store) && ReceiptsKeyed(w.db) && HistoryDense(w.db)
    requires MigrateApplication(w.db, w.store, q).Commit?
    ensures var change := MigrateApplication(w.db, w.store, q).change;
            && change.Begin?
            && BeginDue(w, change.drill)
            && change.drill.key == q.key && change.drill.package == q.package
            && change.drill.verificationId == q.receipt && change.drill.window == q.window
            && change.drill.declaredSteps == q.declaredSteps && change.drill.createdAt == q.at
  {
    assert RowDense(w.db, q.package, w.db.applications[q.package]);
    var slot := Slot(ApplicationId(q.package), w.db.applications[q.package].generation);
    assert slot in w.db.slots;
  }

  lemma StepCommits(db: Db, q: StepRequest)
    requires RecordMigrationStep(db, q).Commit?
    ensures StepDue(db, q.key, q.index, q.at)
    ensures RecordMigrationStep(db, q).change == CompleteStep(q.key, q.index, q.at)
  {
  }

  lemma HealthCommits(db: Db, store: Store, q: DrillRequest, healthy: bool)
    requires RunMigrationHealthCheck(db, store, q, healthy).Commit?
    ensures VerdictDue(db, q.key, q.at)
    ensures RunMigrationHealthCheck(db, store, q, healthy).change == Pronounce(q.key, healthy, q.at)
  {
  }

  lemma ActivateCommits(w: World, q: DrillRequest)
    requires DrillsSound(w)
    requires ActivatePackageMigration(w.db, w.store, q).Commit?
    ensures var change := ActivatePackageMigration(w.db, w.store, q).change;
            && change.Switch?
            && NextReceipt(w, change.receipt)
            && SwitchDue(w, change.receipt)
            && change.receipt.key == q.key && change.receipt.installedAt == q.at
  {
  }

  lemma AbandonCommits(db: Db, q: DrillRequest)
    requires RollbackPackageMigration(db, q).Commit?
    ensures RollbackPackageMigration(db, q).change.Abandon?
    ensures var a := RollbackPackageMigration(db, q).change.abandoned;
            AbandonDue(db, a) && a.key == q.key && a.at == q.at
  {
  }

  /** The grounds on which any change is committed, independent of the ladder that found them. */
  ghost predicate Grounded(w: World, change: Change) {
    match change
    case Installs(r) =>
      NextReceipt(w, r)
      && (r.package in w.db.applications ==> w.db.applications[r.package].status == Installed)
    case Updates(r, window) =>
      && NextReceipt(w, r)
      && r.package in w.db.applications && w.db.applications[r.package].status == Installed
      && ReceiptAt(w.db, ApplicationId(r.package), w.db.applications[r.package].generation).Some?
      && WindowAdmits(
           window, ReceiptAt(w.db, ApplicationId(r.package), w.db.applications[r.package].generation).value.version,
           r.version)
    case ForwardRoll(r, rb) => NextReceipt(w, r) && RollDue(w, r, rb) && rb.key !in w.db.rollbacks
    case Switch(r) => NextReceipt(w, r) && SwitchDue(w, r)
    case MarkDisabled(d) =>
      && d.application.package in w.db.applications && d.key !in w.db.disables
      && w.db.applications[d.application.package].status == Installed
      && d.generation == w.db.applications[d.application.package].generation
    case MarkUninstalled(u) =>
      && u.application.package in w.db.applications && u.key !in w.db.uninstalls
      && w.db.applications[u.application.package].status != Uninstalled
      && u.generation == w.db.applications[u.application.package].generation
    case AddSurfaces(key, _) => key !in w.db.surfaces
    case Begin(m) => BeginDue(w, m)
    case CompleteStep(key, index, at) => StepDue(w.db, key, index, at)
    case Pronounce(key, _, at) => VerdictDue(w.db, key, at)
    case Abandon(a) => AbandonDue(w.db, a)
  }

  lemma LifecycleIsGrounded(w: World, c: Command)
    requires StoreKeyed(w.store) && ReceiptsKeyed(w.db) && HistoryDense(w.db) && Provenance(w)
    requires Decide(w, c).Commit?
    requires c.Install? || c.Update? || c.Disable? || c.Uninstall? || c.Rollback? || c.Register?
    ensures Grounded(w, Decide(w, c).change)
  {
    match c
    case Install(q) => InstallCommits(w, q);
    case Update(q) => UpdateCommits(w, q);
    case Disable(q) => DisableCommits(w.db, q);
    case Uninstall(q, activity) => UninstallCommits(w.db, q, activity);
    case Rollback(q, activity) => RollbackClears(w.db, q, activity); RollbackCommits(w, q, activity);
    case Register(q) => RegisterCommits(w.db, q);
  }

  lemma DrillIsGrounded(w: World, c: Command)
    requires StoreKeyed(w.store) && ReceiptsKeyed(w.db) && HistoryDense(w.db) && DrillsSound(w)
    requires Decide(w, c).Commit?
    requires c.Migrate? || c.RecordStep? || c.CheckHealth? || c.Activate? || c.RollBackDrill?
    ensures Grounded(w, Decide(w, c).change)
  {
    match c
    case Migrate(q) => MigrateCommits(w, q);
    case RecordStep(q) => StepCommits(w.db, q);
    case CheckHealth(q, healthy) => HealthCommits(w.db, w.store, q, healthy);
    case Activate(q) => ActivateCommits(w, q);
    case RollBackDrill(q) => AbandonCommits(w.db, q);
  }

  lemma CommitIsGrounded(w: World, c: Command)
    requires Inv(w) && Decide(w, c).Commit?
    ensures Grounded(w, Decide(w, c).change)
  {
    if c.Install? || c.Update? || c.Disable? || c.Uninstall? || c.Rollback? || c.Register? {
      LifecycleIsGrounded(w, c);
    } else {
      DrillIsGrounded(w, c);
    }
  }

  // ---------- each change keeps the invariant ----------

  lemma MarkKeepsTheRest(w: World, w': World, p: PackageId, status: Status)
    requires Inv(w) && Marks(w.db, w'.db, p, status) && w'.store == w.store
    requires forall k :: k in w.db.disables ==> k in w'.db.disables && w'.db.disables[k] == w.db.disables[k]
    requires forall k :: k in w.db.uninstalls ==> k in w'.db.uninstalls && w'.db.uninstalls[k] == w.db.uninstalls[k]
    requires DisablesAgree(w'.db) && UninstallsAgree(w'.db)
    ensures Inv(w')
  {
    MarkKeepsHistory(w.db, w'.db, p, status);
    MarkKeepsReceiptsAndSurfaces(w.db, w'.db, p, status);
    MarkKeepsDrills(w, w', p, status);
    MarkKeepsRollbacks(w.db, w'.db, p, status);
  }

  lemma DisableKeepsInv(w: World, d: DisableReceipt)
    requires Inv(w)
    requires d.application.package in w.db.applications
    requires d.generation == w.db.applications[d.application.package].generation
    requires w.db.applications[d.application.package].status == Installed
    requires w.db.applications[d.application.package].updatedAt <= d.at
    requires d.key !in w.db.disables
    ensures Inv(World(Apply(w.db, MarkDisabled(d)), w.store))
  {
    DisableKeepsDisables(w.db, d);
    DisableKeepsUninstalls(w.db, d);
    MarkKeepsTheRest(w, World(Apply(w.db, MarkDisabled(d)), w.store), d.application.package, Disabled);
  }

  lemma UninstallKeepsInv(w: World, u: UninstallReceipt)
    requires Inv(w)
    requires u.application.package in w.db.applications
    requires u.generation == w.db.applications[u.application.package].generation
    requires w.db.applications[u.application.package].status != Uninstalled
    requires w.db.applications[u.application.package].updatedAt <= u.at
    requires u.key !in w.db.uninstalls
    ensures Inv(World(Apply(w.db, MarkUninstalled(u)), w.store))
  {
    UninstallKeepsDisables(w.db, u);
    UninstallKeepsUninstalls(w.db, u);
    MarkKeepsTheRest(w, World(Apply(w.db, MarkUninstalled(u)), w.store), u.application.package, Uninstalled);
  }

  /** Tables that a change to the drill, step, surface or rollback tables leaves alone. */
  predicate SameLifecycle(db: Db, db': Db) {
    && db'.applications == db.applications
    && db'.installations == db.installations
    && db'.slots == db.slots
    && db'.disables == db.disables
    && db'.uninstalls == db.uninstalls
  }

  lemma LifecycleKept(w: World, w': World)
    requires ReceiptsKeyed(w.db) && HistoryDense(w.db) && Provenance(w)
    requires SameLifecycle(w.db, w'.db) && w'.store == w.store
    ensures ReceiptsKeyed(w'.db) && HistoryDense(w'.db) && Provenance(w')
  {
    forall k | k in w'.db.installations ensures ReceiptFiled(w'.db, k, w'.db.installations[k]) {
      assert ReceiptFiled(w.db, k, w.db.installations[k]);
    }
    forall p | p in w'.db.applications ensures RowDense(w'.db, p, w'.db.applications[p]) {
      assert RowDense(w.db, p, w.db.applications[p]);
    }
  }

  lemma DisablesKept(db: Db, db': Db)
    requires DisablesAgree(db) && SameLifecycle(db, db')
    ensures DisablesAgree(db')
  {
    forall p | p in db'.applications && db'.applications[p].status == Disabled
      ensures HasDisableAt(db', ApplicationId(p), db'.applications[p].generation)
    {
      assert HasDisableAt(db, ApplicationId(p), db.applications[p].generation);
    }
  }

  lemma UninstallsKept(db: Db, db': Db)
    requires UninstallsAgree(db) && SameLifecycle(db, db')
    ensures UninstallsAgree(db')
  {
    forall p | p in db'.applications && db'.applications[p].status == Uninstalled
      ensures HasUninstallAt(db', ApplicationId(p), db'.applications[p].generation)
    {
      assert HasUninstallAt(db, ApplicationId(p), db.applications[p].generation);
    }
  }

  lemma RollbacksKept(db: Db, db': Db)
    requires RollbacksJustified(db) && SameLifecycle(db, db') && db'.rollbacks == db.rollbacks
    ensures RollbacksJustified(db')
  {
    forall k | k in db'.rollbacks ensures RollbackJustified(db', k, db'.rollbacks[k]) {
      var rb := db.rollbacks[k];
      assert HasDisableAt(db', rb.application, rb.fromGeneration) == HasDisableAt(db, rb.application, rb.fromGeneration);
      assert HasUninstallAt(db', rb.application, rb.fromGeneration) == HasUninstallAt(db, rb.application, rb.fromGeneration);
    }
  }

  lemma SurfacesKept(db: Db, db': Db)
    requires SurfacesBound(db) && SameLifecycle(db, db') && db'.surfaces == db.surfaces
    ensures SurfacesBound(db')
  {
    forall k | k in db'.surfaces ensures SegmentBound(db', k, db'.surfaces[k]) {
      assert SegmentBound(db, k, db.surfaces[k]);
      forall i | 0 <= i < |db.surfaces[k]| ensures SurfaceBound(db', k, i, db.surfaces[k][i]) {
        assert SurfaceBound(db, k, i, db.surfaces[k][i]);
      }
    }
  }

  lemma DrillsKept(w: World, w': World)
    requires DrillsSound(w) && SameLifecycle(w.db, w'.db) && w'.store == w.store
    requires w'.db.migrations == w.db.migrations && w'.db.steps == w.db.steps
    requires w'.db.migrationRollbacks == w.db.migrationRollbacks
    ensures DrillsSound(w')
  {
    forall j | j in w'.db.migrations ensures DrillSound(w', j, w'.db.migrations[j]) {
      UntouchedDrillIsSound(w, w', j);
    }
  }

  lemma DrillChangeKeepsInv(w: World, w': World)
    requires Inv(w)
    requires SameLifecycle(w.db, w'.db) && w'.store == w.store
    requires w'.db.rollbacks == w.db.rollbacks && w'.db.surfaces == w.db.surfaces
    requires DrillsSound(w') && OneLiveDrill(w'.db)
    ensures Inv(w')
  {
    LifecycleKept(w, w');
    DisablesKept(w.db, w'.db);
    UninstallsKept(w.db, w'.db);
    RollbacksKept(w.db, w'.db);
    SurfacesKept(w.db, w'.db);
  }

  lemma RegisterKeepsInv(w: World, q: SurfacesRequest)
    requires Inv(w) && Registered(w.db, q)
    ensures Inv(World(Apply(w.db, AddSurfaces(q.key, SurfaceRows(w.db.applications[q.package], q))), w.store))
  {
    var w' := World(Apply(w.db, AddSurfaces(q.key, SurfaceRows(w.db.applications[q.package], q))), w.store);
    RegisterKeepsSurfaces(w.db, q, w'.db);
    LifecycleKept(w, w');
    DisablesKept(w.db, w'.db);
    UninstallsKept(w.db, w'.db);
    RollbacksKept(w.db, w'.db);
    DrillsKept(w, w');
  }

  lemma RollKeepsInv(w: World, r: InstallationReceipt, rb: RollbackReceipt)
    requires Inv(w) && NextReceipt(w, r) && RollDue(w, r, rb)
    ensures Inv(World(Apply(w.db, ForwardRoll(r, rb)), w.store))
  {
    PutKeepsInv(w, r);
    RollAddsRollback(w, r, rb, World(PutInstallation(w.db, r), w.store), World(Apply(w.db, ForwardRoll(r, rb)), w.store));
  }

  lemma RollAddsRollback(w: World, r: InstallationReceipt, rb: RollbackReceipt, w1: World, w': World)
    requires HistoryDense(w.db) && DisablesAgree(w.db) && UninstallsAgree(w.db)
    requires NextReceipt(w, r) && RollDue(w, r, rb)
    requires w1 == World(PutInstallation(w.db, r), w.store) && Inv(w1)
    requires w' == World(Apply(w.db, ForwardRoll(r, rb)), w.store)
    ensures Inv(w')
  {
    RollIsJustified(w, r, rb);
    AddRollbackKeepsInv(w1, rb, w');
  }

  lemma RollIsJustified(w: World, r: InstallationReceipt, rb: RollbackReceipt)
    requires HistoryDense(w.db) && DisablesAgree(w.db) && UninstallsAgree(w.db)
    requires NextReceipt(w, r) && RollDue(w, r, rb)
    ensures RollbackJustified(Apply(w.db, ForwardRoll(r, rb)), rb.key, rb)
  {
    NextReceiptIsFresh(w, r);
    StatusHasReceipt(w.db, r.package);
    NewRollbackIsJustified(w, r, rb, Apply(w.db, ForwardRoll(r, rb)));
  }

  lemma AddRollbackKeepsInv(w1: World, rb: RollbackReceipt, w': World)
    requires Inv(w1)
    requires w' == World(w1.db.(rollbacks := w1.db.rollbacks[rb.key := rb]), w1.store)
    requires RollbackJustified(w'.db, rb.key, rb)
    ensures Inv(w')
  {
    RollKeepsRollbacks(w1.db, rb, w'.db);
    LifecycleKept(w1, w');
    DisablesKept(w1.db, w'.db);
    UninstallsKept(w1.db, w'.db);
    SurfacesKept(w1.db, w'.db);
    DrillsKept(w1, w');
  }

  lemma SwitchedDrillsAreSound(w: World, r: InstallationReceipt)
    requires HistoryDense(w.db) && DrillsSound(w) && NextReceipt(w, r) && SwitchDue(w, r)
    ensures DrillsSound(World(Apply(w.db, Switch(r)), w.store))
  {
    PutKeepsDrills(w, r);
    SwitchKeepsDrills(w, World(PutInstallation(w.db, r), w.store), r, World(Apply(w.db, Switch(r)), w.store));
  }

  lemma SwitchTouchesOnlyDrills(db: Db, r: InstallationReceipt)
    requires r.key in db.migrations
    ensures var db1, db' := PutInstallation(db, r), Apply(db, Switch(r));
            SameLifecycle(db1, db') && db'.rollbacks == db1.rollbacks && db'.surfaces == db1.surfaces
  {
  }

  lemma SwitchKeepsInv(w: World, r: InstallationReceipt)
    requires Inv(w) && NextReceipt(w, r) && SwitchDue(w, r)
    ensures Inv(World(Apply(w.db, Switch(r)), w.store))
  {
    PutKeepsInv(w, r);
    SwitchedDrillsAreSound(w, r);
    SwitchKeepsOneLive(w.db, r);
    SwitchTouchesOnlyDrills(w.db, r);
    DrillChangeKeepsInv(World(PutInstallation(w.db, r), w.store), World(Apply(w.db, Switch(r)), w.store));
  }

  lemma BeginKeepsInv(w: World, m: Migration)
    requires Inv(w) && BeginDue(w, m)
    ensures Inv(World(Apply(w.db, Begin(m)), w.store))
  {
    var w' := World(Apply(w.db, Begin(m)), w.store);
    BeginKeepsDrills(w, m, w');
    BeginKeepsOneLive(w, m);
    DrillChangeKeepsInv(w, w');
  }

  lemma StepKeepsInv(w: World, key: Key, index: nat, at: nat)
    requires Inv(w) && StepDue(w.db, key, index, at)
    ensures Inv(World(Apply(w.db, CompleteStep(key, index, at)), w.store))
  {
    var w' := World(Apply(w.db, CompleteStep(key, index, at)), w.store);
    StepKeepsDrills(w, key, index, at, w');
    StepMoves(w.db, key, index, at, w'.db);
    MoveKeepsOneLive(w.db, w'.db, key);
    DrillChangeKeepsInv(w, w');
  }

  lemma VerdictKeepsInv(w: World, key: Key, healthy: bool, at: nat)
    requires Inv(w) && VerdictDue(w.db, key, at)
    ensures Inv(World(Apply(w.db, Pronounce(key, healthy, at)), w.store))
  {
    var w' := World(Apply(w.db, Pronounce(key, healthy, at)), w.store);
    VerdictKeepsDrills(w, key, healthy, at, w');
    MoveKeepsOneLive(w.db, w'.db, key);
    DrillChangeKeepsInv(w, w');
  }

  lemma AbandonKeepsInv(w: World, a: MigrationRollback)
    requires Inv(w) && AbandonDue(w.db, a)
    ensures Inv(World(Apply(w.db, Abandon(a)), w.store))
  {
    var w' := World(Apply(w.db, Abandon(a)), w.store);
    AbandonKeepsDrills(w, a, w');
    AbandonMoves(w.db, a, w'.db);
    MoveKeepsOneLive(w.db, w'.db, a.key);
    DrillChangeKeepsInv(w, w');
  }

  // ---------- publishing ----------

  lemma DrillOutlivesPublishing(w: World, w': World, k: Key, m: Migration)
    requires DrillSound(w, k, m) && w'.db == w.db
    requires forall id :: id in w.store ==> id in w'.store && w'.store[id] == w.store[id]
    ensures DrillSound(w', k, m)
  {
  }

  lemma ReceiptsOutlivePublishing(w: World, w': World)
    requires StoreKeyed(w.store) && Provenance(w) && w'.db == w.db
    requires forall id :: id in w.store ==> id in w'.store && w'.store[id] == w.store[id]
    ensures Provenance(w')
  {
  }

  lemma PublishKeepsInv(w: World, v: Verified, w': World)
    requires Inv(w) && w' == World(w.db, Published(w.store, v))
    ensures Inv(w')
  {
    ReceiptsOutlivePublishing(w, w');
    forall k | k in w.db.migrations ensures DrillSound(w', k, w.db.migrations[k]) {
      DrillOutlivesPublishing(w, w', k, w.db.migrations[k]);
    }
  }

  // ---------- one step, every run ----------

  lemma LifecycleStepKeepsInv(w: World, c: Command)
    requires Inv(w) && Decide(w, c).Commit?
    requires c.Install? || c.Update? || c.Disable? || c.Uninstall? || c.Rollback? || c.Register?
    ensures Inv(Step(w, c))
  {
    match c
    case Install(q) =>
      InstallCommits(w, q);
      PutKeepsInv(w, Decide(w, c).change.receipt);
    case Update(q) =>
      UpdateCommits(w, q);
      PutKeepsInv(w, Decide(w, c).change.receipt);
    case Disable(q) =>
      DisableCommits(w.db, q);
      DisableKeepsInv(w, Decide(w, c).change.disable);
    case Uninstall(q, activity) =>
      UninstallCommits(w.db, q, activity);
      UninstallKeepsInv(w, Decide(w, c).change.uninstall);
    case Rollback(q, activity) =>
      RollbackCommits(w, q, activity);
      RollKeepsInv(w, Decide(w, c).change.receipt, Decide(w, c).change.rollback);
    case Register(q) =>
      RegisterCommits(w.db, q);
      RegisterKeepsInv(w, q);
  }

  lemma DrillStepKeepsInv(w: World, c: Command)
    requires Inv(w) && Decide(w, c).Commit?
    requires c.Migrate? || c.RecordStep? || c.CheckHealth? || c.Activate? || c.RollBackDrill?
    ensures Inv(Step(w, c))
  {
    match c
    case Migrate(q) =>
      MigrateCommits(w, q);
      BeginKeepsInv(w, Decide(w, c).change.drill);
    case RecordStep(q) =>
      StepCommits(w.db, q);
      StepKeepsInv(w, q.key, q.index, q.at);
    case CheckHealth(q, healthy) =>
      HealthCommits(w.db, w.store, q, healthy);
      VerdictKeepsInv(w, q.key, healthy, q.at);
    case Activate(q) =>
      ActivateCommits(w, q);
      SwitchKeepsInv(w, Decide(w, c).change.receipt);
    case RollBackDrill(q) =>
      AbandonCommits(w.db, q);
      AbandonKeepsInv(w, Decide(w, c).change.abandoned);
  }

  lemma CommandKeepsInv(w: World, c: Command)
    requires Inv(w)
    ensures Inv(Step(w, c))
  {
    if c.Publish? {
      PublishKeepsInv(w, c.verified, Step(w, c));
    } else if Decide(w, c).Commit? {
      if c.Install? || c.Update? || c.Disable? || c.Uninstall? || c.Rollback? || c.Register? {
        LifecycleStepKeepsInv(w, c);
      } else {
        DrillStepKeepsInv(w, c);
      }
    }
  }

  /** Every world any run reaches from an invariant world is invariant. */
  lemma {:induction false} RunKeepsInv(w: World, commands: seq<Command>)
    requires Inv(w)
    ensures Inv(Run(w, commands))
    decreases |commands|
  {
    if commands != [] {
      CommandKeepsInv(w, commands[0]);
      RunKeepsInv(Step(w, commands[0]), commands[1..]);
    }
  }

  lemma ReachableWorldsAreInvariant(commands: seq<Command>)
    ensures Inv(Run(EMPTY_WORLD, commands))
  {
    RunKeepsInv(EMPTY_WORLD, commands);
  }

  lemma EmptyIsInvariant(w: World)
    requires w == EMPTY_WORLD
    ensures Inv(w)
  {
    ReachableWorldsAreInvariant([]);
  }

  /** A world some run from empty tables reaches. */
  ghost predicate Reachable(w: World) {
    exists commands :: w == Run(EMPTY_WORLD, commands)
  }

  lemma ReachableIsInvariant(w: World)
    requires Reachable(w)
    ensures Inv(w)
  {
    var commands :| w == Run(EMPTY_WORLD, commands);
    ReachableWorldsAreInvariant(commands);
  }

  lemma StepIsReachable(w: World, c: Command)
    requires Reachable(w)
    ensures Reachable(Step(w, c))
  {
    var commands :| w == Run(EMPTY_WORLD, commands);
    RunSplits(EMPTY_WORLD, commands, [c]);
    assert [c][1..] == [];
    assert Run(EMPTY_WORLD, commands + [c]) == Step(w, c);
  }
}
