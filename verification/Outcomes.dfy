/** Every request is carried out, answered from the record, or refused for a reason that is true. */
module Outcomes {
  import opened Wrappers
  import opened Records
  import opened Versions
  import opened Surfaces
  import opened Changes
  import opened Commands
  import opened Runs
  import opened Invariants
  import opened DrillTheorems
  import opened RollbackTheorems
  import opened Admissions
  import opened DrillAdmissions

  // ---------- carried out ----------

  ghost predicate Admissible(w: World, c: Command) {
    match c
    case Publish(_) => false
    case Install(q) => CanInstall(w, q)
    case Update(q) => CanUpdate(w, q)
    case Disable(q) => CanDisable(w.db, q)
    case Uninstall(q, activity) => ReachesUninstallGate(w.db, q) && Idle(activity) && q.at <= I64_MAX
    case Rollback(q, activity) =>
      Restorable(w.db, q, activity) && (Restored(w.db, q).Some? ==> Restored(w.db, q).value.installedAt <= q.at)
    case Register(q) => CanRegister(w.db, q)
    case Migrate(q) => CanBegin(w, q)
    case RecordStep(q) => CanStep(w.db, q)
    case CheckHealth(q, _) => CanPronounce(w.db, q)
    case Activate(q) => CanActivate(w.db, q)
    case RollBackDrill(q) => CanEndAs(w.db, q, Refuted)
  }

  lemma LifecycleCommitsExactlyWhen(w: World, c: Command)
    requires Inv(w)
    requires c.Install? || c.Update? || c.Disable? || c.Uninstall? || c.Rollback? || c.Register?
    ensures Decide(w, c).Commit? <==> Admissible(w, c)
  {
    if c.Install? {
      InstallCommitsExactlyWhen(w, c.install);
    } else if c.Update? {
      UpdateCommitsExactlyWhen(w, c.update);
    } else if c.Disable? {
      DisableCommitsExactlyWhen(w, c.request);
    } else if c.Uninstall? {
      UninstallCommitsExactlyWhen(w, c.request, c.activity);
    } else if c.Rollback? {
      RollbackDecidesByTime(w, c.request, c.activity);
    } else {
      RegisterCommitsExactlyWhen(w.db, c.segment);
    }
  }

  /** In every world that keeps the invariant, a request commits exactly when it is admissible. */
  lemma CommitsExactlyWhen(w: World, c: Command)
    requires Inv(w)
    ensures Decide(w, c).Commit? <==> Admissible(w, c)
  {
    if c.Migrate? {
      MigrateCommitsExactlyWhen(w, c.migrate);
    } else if c.RecordStep? {
      StepCommitsExactlyWhen(w, c.step);
    } else if c.CheckHealth? {
      HealthCommitsExactlyWhen(w, c.drill, c.healthy);
    } else if c.Activate? {
      ActivationCommitsExactlyWhen(w, c.drill);
    } else if c.RollBackDrill? {
      AbandonCommitsExactlyWhen(w, c.drill);
    } else if !c.Publish? {
      LifecycleCommitsExactlyWhen(w, c);
    }
  }

  // ---------- answered from the record ----------

  /** The rows are those of this very segment. */
  predicate SegmentRecorded(rows: seq<SurfaceRow>, q: SurfacesRequest) {
    && |rows| == |q.surfaces| && rows != []
    && rows[0].application == ApplicationId(q.package) && rows[0].registrant == q.registrant
    && rows[0].at == q.at && rows[0].digest == q.declaredDigest
    && forall i :: 0 <= i < |rows| ==> rows[i].index == i && rows[i].surface == q.surfaces[i]
  }

  predicate InstallationRecorded(db: Db, key: Key, receipt: ReceiptId, at: nat) {
    && key in db.installations
    && db.installations[key].verificationId == receipt && db.installations[key].installedAt == at
  }

  predicate DrillRecorded(db: Db, q: MigrateRequest) {
    && q.key in db.migrations
    && var m := db.migrations[q.key];
    && m.package == q.package && m.verificationId == q.receipt && m.window == q.window
    && m.declaredSteps == q.declaredSteps && m.createdAt == q.at
  }

  /** What is recorded under the key was recorded for the same request. */
  predicate Repeats(w: World, c: Command) {
    match c
    case Publish(v) => Storable(v)
    case Install(q) => q.receipt in w.store && InstallationRecorded(w.db, q.key, q.receipt, q.at)
    case Update(q) => q.receipt in w.store && InstallationRecorded(w.db, q.key, q.receipt, q.at)
    case Disable(q) =>
      && q.key in w.db.disables
      && w.db.disables[q.key].application == ApplicationId(q.package) && w.db.disables[q.key].at == q.at
    case Uninstall(q, _) =>
      && q.key in w.db.uninstalls
      && w.db.uninstalls[q.key].application == ApplicationId(q.package) && w.db.uninstalls[q.key].at == q.at
    case Rollback(q, _) =>
      && q.key in w.db.rollbacks
      && w.db.rollbacks[q.key].application == ApplicationId(q.package) && w.db.rollbacks[q.key].at == q.at
    case Register(q) =>
      WellFormedSegment(q.surfaces) && q.key in w.db.surfaces && SegmentRecorded(w.db.surfaces[q.key], q)
    case Migrate(q) => q.receipt in w.store && DrillRecorded(w.db, q)
    case RecordStep(q) =>
      q.index <= I64_MAX && q.index in StepsOf(w.db, q.key) && StepsOf(w.db, q.key)[q.index] == q.at
    case CheckHealth(q, _) =>
      q.key in w.db.migrations && w.db.migrations[q.key].state.Running? && !w.db.migrations[q.key].health.Unchecked?
    case Activate(q) => q.key in w.db.migrations && w.db.migrations[q.key].state.Done?
    case RollBackDrill(q) => q.key in w.db.migrationRollbacks && w.db.migrationRollbacks[q.key].at == q.at
  }

  lemma LifecycleReplaysExactlyWhen(w: World, c: Command)
    requires c.Install? || c.Update? || c.Disable? || c.Uninstall? || c.Rollback? || c.Register?
    requires c.Register? ==> (SegmentVerdict(c.segment.surfaces).None? <==> WellFormedSegment(c.segment.surfaces))
    ensures Decide(w, c).Replay? <==> Repeats(w, c)
  {
  }

  lemma DrillReplaysExactlyWhen(w: World, c: Command, k: Key)
    requires c.Migrate? || c.RecordStep? || c.CheckHealth? || c.Activate? || c.RollBackDrill?
    requires k == (if c.Migrate? then c.migrate.key else if c.RecordStep? then c.step.key else c.drill.key)
    requires DrillStands(w, k) && (k in w.db.installations ==> ReceiptFiled(w.db, k, w.db.installations[k]))
    ensures Decide(w, c).Replay? <==> Repeats(w, c)
  {
  }

  /** And it is answered from the record exactly when it repeats the request the record was made for. */
  lemma ReplaysExactlyWhen(w: World, c: Command)
    requires Inv(w)
    ensures Decide(w, c).Replay? <==> Repeats(w, c)
  {
    if c.Migrate? || c.RecordStep? || c.CheckHealth? || c.Activate? || c.RollBackDrill? {
      var k := if c.Migrate? then c.migrate.key else if c.RecordStep? then c.step.key else c.drill.key;
      DrillsStand(w, k);
      DrillReplaysExactlyWhen(w, c, k);
    } else if !c.Publish? {
      if c.Register? {
        AdmittedIffWellFormed(c.segment.surfaces);
      }
      LifecycleReplaysExactlyWhen(w, c);
    }
  }

  // ---------- refused ----------

  predicate StatusIs(db: Db, p: PackageId, status: Status) {
    p in db.applications && db.applications[p].status == status
  }

  predicate DatedBefore(db: Db, p: PackageId, at: nat) {
    p in db.applications && at < db.applications[p].updatedAt
  }

  /** What a refused install claims; it is never refused otherwise. */
  predicate InstallClaim(w: World, q: InstallRequest, e: Error) {
    if q.receipt !in w.store then e == PackageVerificationReceiptNotFound
    else
      var v := w.store[q.receipt];
      || (e == IdempotencyConflict
          && q.key in w.db.installations && !InstallationRecorded(w.db, q.key, q.receipt, q.at))
      || (e == InstallationPrecedesVerification && q.at < v.verifiedAt)
      || (e == ApplicationUninstalled && StatusIs(w.db, v.package, Uninstalled))
      || (e == ApplicationDisabled && StatusIs(w.db, v.package, Disabled))
      || (e == ColumnOverflow
          && (I64_MAX < q.at || (v.package in w.db.applications && I64_MAX <= w.db.applications[v.package].generation)))
      || (e == CheckFailed && v.package in w.db.applications && q.at < w.db.applications[v.package].createdAt)
  }

  lemma InstallRefusals(w: World, q: InstallRequest)
    requires InstallApplication(w.db, w.store, q).Refuse?
    requires q.receipt in w.store ==>
      var v := w.store[q.receipt];
      && v.receiptId == q.receipt && Storable(v) && RowStands(w.db, v.package)
      && (v.package !in w.db.applications ==> Slot(ApplicationId(v.package), 1) !in w.db.slots)
    ensures InstallClaim(w, q, InstallApplication(w.db, w.store, q).error)
  {
  }

  ghost predicate UpdateClaim(w: World, q: UpdateRequest, e: Error) {
    if q.receipt !in w.store then e == PackageVerificationReceiptNotFound
    else
      var v, p := w.store[q.receipt], q.package;
      || (e == IdempotencyConflict
          && q.key in w.db.installations && !InstallationRecorded(w.db, q.key, q.receipt, q.at))
      || (e == InstallationPrecedesVerification && q.at < v.verifiedAt)
      || (e == PackageIdentityMismatch && v.package != p)
      || (e == ApplicationNotFound && p !in w.db.applications)
      || (e == ApplicationUninstalled && StatusIs(w.db, p, Uninstalled))
      || (e == ApplicationDisabled && StatusIs(w.db, p, Disabled))
      || (e == UpdateManifestUnchanged && p in w.db.applications && v.digest == w.db.applications[p].digest)
      || (e == UpdateCompatibilityViolation && p in w.db.applications && !AdmittedNow(w.db, p, q.window, v.version))
      || (e == ColumnOverflow
          && (I64_MAX < q.at || (p in w.db.applications && I64_MAX <= w.db.applications[p].generation)))
      || (e == CheckFailed && p in w.db.applications && q.at < w.db.applications[p].createdAt)
  }

  /** Past every check but those of storage. */
  predicate ReachesUpdate(w: World, q: UpdateRequest) {
    && q.receipt in w.store && q.key !in w.db.installations && w.store[q.receipt].verifiedAt <= q.at
    && w.store[q.receipt].package == q.package && StatusIs(w.db, q.package, Installed)
    && w.store[q.receipt].digest != w.db.applications[q.package].digest
  }

  lemma EarlyUpdateRefusals(w: World, q: UpdateRequest)
    requires UpdateApplication(w.db, w.store, q).Refuse? && !ReachesUpdate(w, q)
    ensures UpdateClaim(w, q, UpdateApplication(w.db, w.store, q).error)
  {
  }

  lemma LateUpdateRefusals(w: World, q: UpdateRequest)
    requires UpdateApplication(w.db, w.store, q).Refuse? && ReachesUpdate(w, q)
    requires w.store[q.receipt].receiptId == q.receipt && Storable(w.store[q.receipt]) && RowStands(w.db, q.package)
    requires var current := ReceiptAt(w.db, ApplicationId(q.package), w.db.applications[q.package].generation);
             AdmittedNow(w.db, q.package, q.window, w.store[q.receipt].version)
             <==> WindowAdmits(q.window, current.value.version, w.store[q.receipt].version)
    ensures UpdateClaim(w, q, UpdateApplication(w.db, w.store, q).error)
  {
  }

  predicate DisableClaim(w: World, q: LifecycleRequest, e: Error) {
    || (e == IdempotencyConflict
        && q.key in w.db.disables
        && (w.db.disables[q.key].application != ApplicationId(q.package) || w.db.disables[q.key].at != q.at))
    || (e == ApplicationNotFound && q.package !in w.db.applications)
    || (e == ApplicationUninstalled && StatusIs(w.db, q.package, Uninstalled))
    || (e == ApplicationAlreadyDisabled && StatusIs(w.db, q.package, Disabled))
    || (e == DisablePrecedesInstallation && DatedBefore(w.db, q.package, q.at))
    || (e == ColumnOverflow && I64_MAX < q.at)
  }

  lemma DisableRefusals(w: World, q: LifecycleRequest)
    requires DisableApplication(w.db, q).Refuse? && RowStands(w.db, q.package)
    ensures DisableClaim(w, q, DisableApplication(w.db, q).error)
  {
  }

  predicate UninstallClaim(w: World, q: LifecycleRequest, activity: Activity, e: Error) {
    || (e == IdempotencyConflict
        && q.key in w.db.uninstalls
        && (w.db.uninstalls[q.key].application != ApplicationId(q.package) || w.db.uninstalls[q.key].at != q.at))
    || (e == ApplicationNotFound && q.package !in w.db.applications)
    || (e == ApplicationAlreadyUninstalled && StatusIs(w.db, q.package, Uninstalled))
    || (e == UninstallPrecedesLastUpdate && DatedBefore(w.db, q.package, q.at))
    || (e == ApplicationActiveTasksRunning && Busy(activity))
    || (e == TaskActivityQueryFailed && activity.QueryFailed?)
    || (e == ColumnOverflow && I64_MAX < q.at)
  }

  lemma UninstallRefusals(w: World, q: LifecycleRequest, activity: Activity)
    requires UninstallApplication(w.db, q, activity).Refuse? && RowStands(w.db, q.package)
    ensures UninstallClaim(w, q, activity, UninstallApplication(w.db, q, activity).error)
  {
  }

  predicate RollbackClaim(w: World, q: LifecycleRequest, activity: Activity, e: Error) {
    || (e == IdempotencyConflict
        && if q.key in w.db.rollbacks
           then w.db.rollbacks[q.key].application != ApplicationId(q.package) || w.db.rollbacks[q.key].at != q.at
           else q.key in w.db.installations)
    || (e == ApplicationNotFound && q.package !in w.db.applications)
    || (e == RollbackRequiresDisabledOrUninstalled && StatusIs(w.db, q.package, Installed))
    || (e == RollbackPrecedesLastUpdate && DatedBefore(w.db, q.package, q.at))
    || (e == RollbackAtInitialGeneration
        && q.package in w.db.applications && w.db.applications[q.package].generation == 1)
    || (e == ApplicationActiveTasksRunning && Busy(activity))
    || (e == TaskActivityQueryFailed && activity.QueryFailed?)
    || (e == ColumnOverflow
        && (I64_MAX < q.at || (q.package in w.db.applications && I64_MAX <= w.db.applications[q.package].generation)))
    || (e == RollbackPrecedesRestoredInstallation
        && Restored(w.db, q).Some? && q.at < Restored(w.db, q).value.installedAt)
  }

  lemma EarlyRollbackRefusals(w: World, q: LifecycleRequest, activity: Activity)
    requires RollbackApplication(w.db, q, activity).Refuse? && !ReachesRollbackGate(w.db, q)
    requires q.package in w.db.applications ==> 1 <= w.db.applications[q.package].generation
    ensures RollbackClaim(w, q, activity, RollbackApplication(w.db, q, activity).error)
  {
  }

  lemma OverflowingRollback(db: Db, q: LifecycleRequest, activity: Activity)
    requires ReachesRollbackGate(db, q) && HistoryStands(db, q) && Idle(activity)
    requires I64_MAX <= db.applications[q.package].generation || I64_MAX < q.at
    ensures RollbackApplication(db, q, activity) == Refuse(ColumnOverflow)
  {
  }

  lemma LateRollbackClaims(w: World, q: LifecycleRequest, activity: Activity, d: Decision)
    requires ReachesRollbackGate(w.db, q) && d.Refuse? && Restored(w.db, q).Some?
    requires Busy(activity) ==> d == Refuse(ApplicationActiveTasksRunning)
    requires activity.QueryFailed? ==> d == Refuse(TaskActivityQueryFailed)
    requires Idle(activity) ==>
      if Restorable(w.db, q, activity)
      then d == Refuse(RollbackPrecedesRestoredInstallation) && q.at < Restored(w.db, q).value.installedAt
      else d == Refuse(ColumnOverflow)
    ensures RollbackClaim(w, q, activity, d.error)
  {
  }

  lemma LateRollbackRefusals(w: World, q: LifecycleRequest, activity: Activity)
    requires RollbackApplication(w.db, q, activity).Refuse? && ReachesRollbackGate(w.db, q)
    requires HistoryStands(w.db, q)
    ensures RollbackClaim(w, q, activity, RollbackApplication(w.db, q, activity).error)
  {
    RollbackLadder(w.db, q, activity);
    if Idle(activity) && !Restorable(w.db, q, activity) {
      OverflowingRollback(w.db, q, activity);
    }
    LateRollbackClaims(w, q, activity, RollbackApplication(w.db, q, activity));
  }

  predicate SegmentFault(surfaces: seq<Surface>, e: SegmentError) {
    match e
    case Empty => surfaces == []
    case TooManySurfaces => |surfaces| > MAX_SURFACES_PER_SEGMENT
    case DuplicateSurfaceId => !DistinctIds(surfaces)
    case InvalidTitle => exists i :: 0 <= i < |surfaces| && !ValidText(surfaces[i].title)
    case InvalidEntryName =>
      exists i :: 0 <= i < |surfaces| && surfaces[i].entryName.Some? && !ValidText(surfaces[i].entryName.value)
  }

  lemma {:induction false} ViolationIsFault(surfaces: seq<Surface>, from: nat)
    requires from <= |surfaces| && FirstViolation(surfaces, from).Some?
    ensures SegmentFault(surfaces, FirstViolation(surfaces, from).value)
    decreases |surfaces| - from
  {
    if Violation(surfaces, from).None? {
      ViolationIsFault(surfaces, from + 1);
    } else if SeenBefore(surfaces, from) {
      assert !DistinctIds(surfaces);
    }
  }

  lemma VerdictIsFault(surfaces: seq<Surface>)
    requires SegmentVerdict(surfaces).Some?
    ensures SegmentFault(surfaces, SegmentVerdict(surfaces).value)
  {
    if 0 < |surfaces| <= MAX_SURFACES_PER_SEGMENT {
      ViolationIsFault(surfaces, 0);
    }
  }

  ghost predicate RegisterClaim(w: World, q: SurfacesRequest, e: Error) {
    || (e.SurfaceSegment? && SegmentFault(q.surfaces, e.segment))
    || (e == IdempotencyConflict && q.key in w.db.surfaces && !SegmentRecorded(w.db.surfaces[q.key], q))
    || (e == ApplicationNotFound && q.package !in w.db.applications)
    || (e == ApplicationUninstalled && StatusIs(w.db, q.package, Uninstalled))
    || (e == ApplicationDisabled && StatusIs(w.db, q.package, Disabled))
    || (e == RegistrationPrecedesLastUpdate && DatedBefore(w.db, q.package, q.at))
    || (e == SurfaceManifestMismatch
        && q.package in w.db.applications && q.declaredDigest != w.db.applications[q.package].digest)
    || (e == SurfaceAlreadyRegistered && q.package in w.db.applications && !NoneRegistered(w.db, q))
    || (e == ColumnOverflow && I64_MAX < q.at)
  }

  lemma RegisterRefusals(w: World, q: SurfacesRequest)
    requires RegisterSurfaces(w.db, q).Refuse?
    requires SegmentVerdict(q.surfaces).None? ==> WellFormedSegment(q.surfaces)
    requires SegmentVerdict(q.surfaces).Some? ==> SegmentFault(q.surfaces, SegmentVerdict(q.surfaces).value)
    requires q.package in w.db.applications ==>
      (NoneRegistered(w.db, q)
       <==> !AnyRegistered(w.db, ApplicationId(q.package), w.db.applications[q.package].generation, q.surfaces))
    ensures RegisterClaim(w, q, RegisterSurfaces(w.db, q).error)
  {
  }

  ghost predicate MigrateClaim(w: World, q: MigrateRequest, e: Error) {
    if q.receipt !in w.store then e == PackageVerificationReceiptNotFound
    else
      var v, p := w.store[q.receipt], q.package;
      || (e == IdempotencyConflict && q.key in w.db.migrations && !DrillRecorded(w.db, q))
      || (e == MigrationPrecedesVerification && q.at < v.verifiedAt)
      || (e == PackageIdentityMismatch && v.package != p)
      || (e == MigrationStepCountZero && q.declaredSteps == 0)
      || (e == ApplicationNotFound && p !in w.db.applications)
      || (e == ApplicationUninstalled && StatusIs(w.db, p, Uninstalled))
      || (e == ApplicationDisabled && StatusIs(w.db, p, Disabled))
      || (e == UpdateManifestUnchanged && p in w.db.applications && v.digest == w.db.applications[p].digest)
      || (e == UpdateCompatibilityViolation && p in w.db.applications && !AdmittedNow(w.db, p, q.window, v.version))
      || (e == MigrationAlreadyLive && !NoDrillLive(w.db, p))
      || (e == ColumnOverflow && (I64_MAX < q.at || I64_MAX < q.declaredSteps))
  }

  lemma MigrateRefusals(w: World, q: MigrateRequest)
    requires MigrateApplication(w.db, w.store, q).Refuse?
    requires q.receipt in w.store ==> w.store[q.receipt].receiptId == q.receipt && Storable(w.store[q.receipt])
    requires RowStands(w.db, q.package) && DrillStands(w, q.key)
    requires NoDrillLive(w.db, q.package) <==> !HasLiveDrill(w.db, ApplicationId(q.package))
    requires q.receipt in w.store && q.package in w.db.applications ==>
      var current := ReceiptAt(w.db, ApplicationId(q.package), w.db.applications[q.package].generation);
      AdmittedNow(w.db, q.package, q.window, w.store[q.receipt].version)
      <==> WindowAdmits(q.window, current.value.version, w.store[q.receipt].version)
    ensures MigrateClaim(w, q, MigrateApplication(w.db, w.store, q).error)
  {
  }

  predicate StepClaim(w: World, q: StepRequest, e: Error) {
    || (e == IdempotencyConflict && q.index in StepsOf(w.db, q.key) && StepsOf(w.db, q.key)[q.index] != q.at)
    || (e == MigrationNotFound && q.key !in w.db.migrations)
    || (e == ColumnOverflow && (I64_MAX < q.index || I64_MAX < q.at))
    || (e == MigrationTerminal && q.key in w.db.migrations && w.db.migrations[q.key].state.IsTerminal())
    || (e == MigrationDrillComplete
        && q.key in w.db.migrations && |StepsOf(w.db, q.key)| == w.db.migrations[q.key].declaredSteps)
    || (e == MigrationStepOutOfOrder && q.index != |StepsOf(w.db, q.key)| + 1)
    || (e == MigrationStepPrecedesLastUpdate && q.key in w.db.migrations && q.at < w.db.migrations[q.key].updatedAt)
  }

  lemma StepRefusals(w: World, q: StepRequest)
    requires RecordMigrationStep(w.db, q).Refuse?
    ensures StepClaim(w, q, RecordMigrationStep(w.db, q).error)
  {
  }

  predicate HealthClaim(w: World, q: DrillRequest, e: Error) {
    if q.key !in w.db.migrations then e == MigrationNotFound
    else
      var m := w.db.migrations[q.key];
      || (e == MigrationTerminal && m.state.IsTerminal())
      || (e == MigrationNotRunning && m.state.Pending?)
      || (e == MigrationStepsIncomplete && |StepsOf(w.db, q.key)| < m.declaredSteps)
      || (e == HealthCheckPrecedesLastUpdate && q.at < m.updatedAt)
      || (e == ColumnOverflow && I64_MAX < q.at)
  }

  lemma HealthRefusals(w: World, q: DrillRequest, healthy: bool)
    requires RunMigrationHealthCheck(w.db, w.store, q, healthy).Refuse?
    requires DrillStands(w, q.key)
    ensures HealthClaim(w, q, RunMigrationHealthCheck(w.db, w.store, q, healthy).error)
  {
  }

  /** The row is not the one the drill began on. */
  predicate BaselineClaim(db: Db, m: Migration, e: Error) {
    || (e == ApplicationUninstalled && StatusIs(db, m.package, Uninstalled))
    || (e == ApplicationDisabled && StatusIs(db, m.package, Disabled))
    || (e == MigrationBaselineMoved
        && m.package in db.applications && m.fromGeneration < db.applications[m.package].generation)
  }

  lemma BaselineRefusals(w: World, m: Migration)
    requires HistoryDense(w.db) && DrillBinding(w, m) && BaselineRefusal(w.db, m).Some?
    ensures BaselineClaim(w.db, m, BaselineRefusal(w.db, m).value)
  {
    assert RowDense(w.db, m.package, w.db.applications[m.package]);
  }

  predicate AbandonClaim(w: World, q: DrillRequest, e: Error) {
    if q.key in w.db.migrationRollbacks then e == IdempotencyConflict && w.db.migrationRollbacks[q.key].at != q.at
    else if q.key !in w.db.migrations then e == MigrationNotFound
    else
      var m := w.db.migrations[q.key];
      || (e == MigrationTerminal && m.state.IsTerminal())
      || (e == MigrationNotRunning && m.state.Pending?)
      || (e == MigrationRequiresFailedHealth && !m.health.Refuted?)
      || (e == MigrationRollbackPrecedesHealthCheck && q.at < m.updatedAt)
      || (e == ColumnOverflow && I64_MAX < q.at)
      || (e == ApplicationUninstalled && StatusIs(w.db, m.package, Uninstalled))
      || (e == ApplicationDisabled && StatusIs(w.db, m.package, Disabled))
      || (e == MigrationBaselineMoved
          && m.package in w.db.applications && m.fromGeneration < w.db.applications[m.package].generation)
  }

  /** What the invariant gives the ladder of the package rollback. */
  predicate AbandonStands(w: World, q: DrillRequest) {
    if q.key in w.db.migrations then
      var m := w.db.migrations[q.key];
      && (m.health.Unchecked? <==> m.checkedAt.None?)
      && (m.checkedAt.Some? && IsLive(m) ==> m.checkedAt.value == m.updatedAt)
      && (BaselineRefusal(w.db, m).Some? ==> BaselineClaim(w.db, m, BaselineRefusal(w.db, m).value))
    else q.key !in w.db.migrationRollbacks
  }

  lemma AbandonRefusals(w: World, q: DrillRequest)
    requires RollbackPackageMigration(w.db, q).Refuse? && AbandonStands(w, q)
    ensures AbandonClaim(w, q, RollbackPackageMigration(w.db, q).error)
  {
  }

  lemma AbandonRefusesTruly(w: World, q: DrillRequest)
    requires Inv(w) && RollbackPackageMigration(w.db, q).Refuse?
    ensures AbandonClaim(w, q, RollbackPackageMigration(w.db, q).error)
  {
    DrillsStand(w, q.key);
    if q.key in w.db.migrations && BaselineRefusal(w.db, w.db.migrations[q.key]).Some? {
      BaselineRefusals(w, w.db.migrations[q.key]);
    }
    AbandonRefusals(w, q);
  }

  predicate ActivateClaim(w: World, q: DrillRequest, e: Error) {
    if q.key !in w.db.migrations then e == MigrationNotFound
    else
      var m := w.db.migrations[q.key];
      || (e == MigrationTerminal && m.state.Failed?)
      || (e == MigrationNotRunning && m.state.Pending?)
      || (e == MigrationHealthUnchecked && m.health.Unchecked?)
      || (e == MigrationHealthFailed && m.health.Refuted?)
      || (e == ActivationPrecedesHealthCheck && q.at < m.updatedAt)
      || (e == ColumnOverflow && (I64_MAX < q.at || I64_MAX <= m.fromGeneration))
      || (e == CheckFailed && m.package in w.db.applications && q.at < w.db.applications[m.package].createdAt)
      || (e == KeyTaken && q.key in w.db.installations)
      || (e == ApplicationUninstalled && StatusIs(w.db, m.package, Uninstalled))
      || (e == ApplicationDisabled && StatusIs(w.db, m.package, Disabled))
      || (e == MigrationBaselineMoved
          && m.package in w.db.applications && m.fromGeneration < w.db.applications[m.package].generation)
  }

  /** What the invariant gives the activation ladder. */
  predicate ActivationStands(w: World, q: DrillRequest) {
    q.key in w.db.migrations ==>
      var m := w.db.migrations[q.key];
      && m.key == q.key && m.application == ApplicationId(m.package)
      && m.verificationId in w.store && TargetBound(m, w.store[m.verificationId])
      && Storable(w.store[m.verificationId]) && w.store[m.verificationId].verifiedAt <= m.createdAt
      && (m.health.Unchecked? <==> m.checkedAt.None?)
      && (m.checkedAt.Some? ==> m.createdAt <= m.checkedAt.value && |StepsOf(w.db, q.key)| == m.declaredSteps)
      && (m.checkedAt.Some? && IsLive(m) ==> m.checkedAt.value == m.updatedAt)
      && (m.state.Done? ==> m.activated.Some? && ReceiptById(w.db, m.activated.value).Some?)
      && (BaselineRefusal(w.db, m).Some? ==> BaselineClaim(w.db, m, BaselineRefusal(w.db, m).value))
      && (BaselineRefusal(w.db, m).None? ==> Slot(ApplicationId(m.package), m.fromGeneration + 1) !in w.db.slots)
  }

  lemma DoneHasItsReceipt(w: World, k: Key)
    requires ReceiptsKeyed(w.db) && k in w.db.migrations && DrillSound(w, k, w.db.migrations[k])
    ensures w.db.migrations[k].state.Done? ==>
              w.db.migrations[k].activated.Some? && ReceiptById(w.db, w.db.migrations[k].activated.value).Some?
  {
    if w.db.migrations[k].state.Done? {
      assert ReceiptFiled(w.db, k, w.db.installations[k]);
    }
  }

  lemma ActivationsStand(w: World, q: DrillRequest)
    requires StoreKeyed(w.store) && ReceiptsKeyed(w.db) && HistoryDense(w.db) && DrillStands(w, q.key)
    ensures ActivationStands(w, q)
  {
    if q.key in w.db.migrations {
      var m := w.db.migrations[q.key];
      ProgressIsOrdered(m, StepsOf(w.db, q.key));
      DoneHasItsReceipt(w, q.key);
      if BaselineRefusal(w.db, m).Some? {
        BaselineRefusals(w, m);
      }
    }
  }

  predicate RunsPassed(db: Db, k: Key) {
    k in db.migrations && db.migrations[k].state.Running? && db.migrations[k].health.Passed?
  }

  lemma EarlyActivateRefusals(w: World, q: DrillRequest)
    requires ActivatePackageMigration(w.db, w.store, q).Refuse? && ActivationStands(w, q)
    requires !RunsPassed(w.db, q.key)
    ensures ActivateClaim(w, q, ActivatePackageMigration(w.db, w.store, q).error)
  {
  }

  /** What the invariant leaves of the guards of a passed drill. */
  predicate LateGuards(w: World, q: DrillRequest)
    requires RunsPassed(w.db, q.key)
  {
    var m := w.db.migrations[q.key];
    && m.checkedAt == Some(m.updatedAt) && CompletedSteps(w.db, q.key) == m.declaredSteps
    && m.verificationId in w.store && TargetBound(m, w.store[m.verificationId])
    && Storable(w.store[m.verificationId]) && w.store[m.verificationId].verifiedAt <= m.updatedAt
  }

  lemma MovedActivation(w: World, q: DrillRequest, moved: Error)
    requires RunsPassed(w.db, q.key) && LateGuards(w, q)
    requires BaselineRefusal(w.db, w.db.migrations[q.key]) == Some(moved)
    ensures ActivatePackageMigration(w.db, w.store, q)
         == Refuse(if q.at < w.db.migrations[q.key].updatedAt then ActivationPrecedesHealthCheck else moved)
  {
  }

  lemma MovedActivateClaims(w: World, q: DrillRequest, moved: Error, e: Error)
    requires RunsPassed(w.db, q.key) && BaselineClaim(w.db, w.db.migrations[q.key], moved)
    requires e == if q.at < w.db.migrations[q.key].updatedAt then ActivationPrecedesHealthCheck else moved
    ensures ActivateClaim(w, q, e)
  {
  }

  lemma MovedActivateRefusals(w: World, q: DrillRequest)
    requires RunsPassed(w.db, q.key) && LateGuards(w, q)
    requires var m := w.db.migrations[q.key];
             BaselineRefusal(w.db, m).Some? && BaselineClaim(w.db, m, BaselineRefusal(w.db, m).value)
    ensures ActivatePackageMigration(w.db, w.store, q).Refuse?
    ensures ActivateClaim(w, q, ActivatePackageMigration(w.db, w.store, q).error)
  {
    var moved := BaselineRefusal(w.db, w.db.migrations[q.key]).value;
    MovedActivation(w, q, moved);
    MovedActivateClaims(w, q, moved, ActivatePackageMigration(w.db, w.store, q).error);
  }

  lemma LateActivateRefusals(w: World, q: DrillRequest)
    requires ActivatePackageMigration(w.db, w.store, q).Refuse? && RunsPassed(w.db, q.key) && LateGuards(w, q)
    requires var m := w.db.migrations[q.key];
             && BaselineRefusal(w.db, m).None?
             && Slot(ApplicationId(m.package), m.fromGeneration + 1) !in w.db.slots
    ensures ActivateClaim(w, q, ActivatePackageMigration(w.db, w.store, q).error)
  {
  }

  predicate PublishClaim(v: Verified, e: Error) {
    || (e == PackageManifestInvalid && v.entryCount == 0)
    || (e == ColumnOverflow && (I64_MAX < v.entryCount || I64_MAX < v.version || I64_MAX < v.verifiedAt))
  }

  /** What a refusal says about the request and the tables. */
  ghost predicate Claim(w: World, c: Command, e: Error) {
    match c
    case Publish(v) => PublishClaim(v, e)
    case Install(q) => InstallClaim(w, q, e)
    case Update(q) => UpdateClaim(w, q, e)
    case Disable(q) => DisableClaim(w, q, e)
    case Uninstall(q, activity) => UninstallClaim(w, q, activity, e)
    case Rollback(q, activity) => RollbackClaim(w, q, activity, e)
    case Register(q) => RegisterClaim(w, q, e)
    case Migrate(q) => MigrateClaim(w, q, e)
    case RecordStep(q) => StepClaim(w, q, e)
    case CheckHealth(q, _) => HealthClaim(w, q, e)
    case Activate(q) => ActivateClaim(w, q, e)
    case RollBackDrill(q) => AbandonClaim(w, q, e)
  }

  lemma InstallRefusesTruly(w: World, q: InstallRequest)
    requires Inv(w) && InstallApplication(w.db, w.store, q).Refuse?
    ensures InstallClaim(w, q, InstallApplication(w.db, w.store, q).error)
  {
    if q.receipt in w.store {
      RowsStand(w.db, w.store[q.receipt].package);
      if w.store[q.receipt].package !in w.db.applications {
        FirstSlotIsFree(w.db, w.store[q.receipt].package);
      }
    }
    InstallRefusals(w, q);
  }

  lemma UpdateRefusesTruly(w: World, q: UpdateRequest)
    requires Inv(w) && UpdateApplication(w.db, w.store, q).Refuse?
    ensures UpdateClaim(w, q, UpdateApplication(w.db, w.store, q).error)
  {
    if ReachesUpdate(w, q) {
      RowsStand(w.db, q.package);
      AdmittedByReceipt(w.db, q.package, q.window, w.store[q.receipt].version);
      LateUpdateRefusals(w, q);
    } else {
      EarlyUpdateRefusals(w, q);
    }
  }

  lemma RollbackRefusesTruly(w: World, q: LifecycleRequest, activity: Activity)
    requires Inv(w) && RollbackApplication(w.db, q, activity).Refuse?
    ensures RollbackClaim(w, q, activity, RollbackApplication(w.db, q, activity).error)
  {
    HistoryAllowsRollback(w, q);
    if q.package in w.db.applications {
      assert RowDense(w.db, q.package, w.db.applications[q.package]);
    }
    if ReachesRollbackGate(w.db, q) {
      LateRollbackRefusals(w, q, activity);
    } else {
      EarlyRollbackRefusals(w, q, activity);
    }
  }

  lemma RegisterRefusesTruly(w: World, q: SurfacesRequest)
    requires RegisterSurfaces(w.db, q).Refuse?
    ensures RegisterClaim(w, q, RegisterSurfaces(w.db, q).error)
  {
    AdmittedIffWellFormed(q.surfaces);
    if SegmentVerdict(q.surfaces).Some? {
      VerdictIsFault(q.surfaces);
    }
    if q.package in w.db.applications {
      NoneRegisteredMeans(w.db, q);
    }
    RegisterRefusals(w, q);
  }

  lemma MigrateRefusesTruly(w: World, q: MigrateRequest)
    requires Inv(w) && MigrateApplication(w.db, w.store, q).Refuse?
    ensures MigrateClaim(w, q, MigrateApplication(w.db, w.store, q).error)
  {
    RowsStand(w.db, q.package);
    DrillsStand(w, q.key);
    NoDrillLiveMeans(w, q.package);
    if q.receipt in w.store && q.package in w.db.applications {
      AdmittedByReceipt(w.db, q.package, q.window, w.store[q.receipt].version);
    }
    MigrateRefusals(w, q);
  }

  lemma ActivateRefusesTruly(w: World, q: DrillRequest)
    requires Inv(w) && ActivatePackageMigration(w.db, w.store, q).Refuse?
    ensures ActivateClaim(w, q, ActivatePackageMigration(w.db, w.store, q).error)
  {
    DrillsStand(w, q.key);
    ActivationsStand(w, q);
    if RunsPassed(w.db, q.key) && BaselineRefusal(w.db, w.db.migrations[q.key]).Some? {
      MovedActivateRefusals(w, q);
    } else if RunsPassed(w.db, q.key) {
      LateActivateRefusals(w, q);
    } else {
      EarlyActivateRefusals(w, q);
    }
  }

  lemma HealthRefusesTruly(w: World, q: DrillRequest, healthy: bool)
    requires Inv(w) && RunMigrationHealthCheck(w.db, w.store, q, healthy).Refuse?
    ensures HealthClaim(w, q, RunMigrationHealthCheck(w.db, w.store, q, healthy).error)
  {
    DrillsStand(w, q.key);
    HealthRefusals(w, q, healthy);
  }

  lemma MarkRefusesTruly(w: World, c: Command)
    requires Inv(w) && (c.Disable? || c.Uninstall?) && Decide(w, c).Refuse?
    ensures c.Disable? ==> DisableClaim(w, c.request, Decide(w, c).error)
    ensures c.Uninstall? ==> UninstallClaim(w, c.request, c.activity, Decide(w, c).error)
  {
    RowsStand(w.db, c.request.package);
    if c.Disable? {
      DisableRefusals(w, c.request);
    } else {
      UninstallRefusals(w, c.request, c.activity);
    }
  }

  lemma DrillRefusalsAreTrue(w: World, c: Command)
    requires Inv(w) && Decide(w, c).Refuse?
    requires c.Migrate? || c.RecordStep? || c.CheckHealth? || c.Activate? || c.RollBackDrill?
    ensures Claim(w, c, Decide(w, c).error)
  {
    if c.Migrate? {
      MigrateRefusesTruly(w, c.migrate);
    } else if c.RecordStep? {
      StepRefusals(w, c.step);
    } else if c.CheckHealth? {
      HealthRefusesTruly(w, c.drill, c.healthy);
    } else if c.Activate? {
      ActivateRefusesTruly(w, c.drill);
    } else {
      AbandonRefusesTruly(w, c.drill);
    }
  }

  /** A refusal is never wrong about the request or the tables, and never means that the tables are contradictory. */
  lemma RefusalsAreTrue(w: World, c: Command)
    requires Inv(w) && Decide(w, c).Refuse?
    ensures Claim(w, c, Decide(w, c).error)
  {
    if c.Install? {
      InstallRefusesTruly(w, c.install);
    } else if c.Update? {
      UpdateRefusesTruly(w, c.update);
    } else if c.Disable? || c.Uninstall? {
      MarkRefusesTruly(w, c);
    } else if c.Rollback? {
      RollbackRefusesTruly(w, c.request, c.activity);
    } else if c.Register? {
      RegisterRefusesTruly(w, c.segment);
    } else if !c.Publish? {
      DrillRefusalsAreTrue(w, c);
    }
  }
}
