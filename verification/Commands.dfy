/**
 Every command as the ladder of checks the authority runs inside one transaction: the first check
 that fails decides the refusal; a recorded idempotency key decides a replay; otherwise the command
 commits exactly one change.
 */
module Commands {
  import opened Wrappers
  import opened Records
  import opened Versions
  import opened Surfaces
  import opened Changes

  // ---------- generations ----------

  predicate IsMax(s: set<nat>, m: nat) {
    m in s && forall x :: x in s ==> x <= m
  }

  lemma MaxWith(s: set<nat>, y: nat, m: nat)
    requires y in s && IsMax(s - {y}, m)
    ensures IsMax(s, if m < y then y else m)
  {
    assert forall x :: x in s ==> x == y || x in s - {y};
  }

  lemma {:induction false} MaxExists(s: set<nat>)
    requires s != {}
    ensures exists m :: IsMax(s, m)
    decreases |s|
  {
    var y :| y in s;
    if s == {y} {
      assert IsMax(s, y);
    } else {
      MaxExists(s - {y});
      var m :| IsMax(s - {y}, m);
      MaxWith(s, y, m);
    }
  }

  function MaxOf(s: set<nat>): (m: nat)
    requires s != {}
    ensures IsMax(s, m)
  {
    MaxExists(s);
    var m :| IsMax(s, m);
    m
  }

  function GenerationsOf(db: Db, application: ApplicationId): set<nat> {
    set s | s in db.slots && s.application == application :: s.generation
  }

  /** One past the greater of the row's generation and the greatest recorded generation. */
  function NextInstallationGeneration(db: Db, application: ApplicationId, row: Application): nat {
    var recorded := GenerationsOf(db, application);
    var durableMax := if recorded == {} then 0 else MaxOf(recorded);
    (if durableMax > row.generation then durableMax else row.generation) + 1
  }

  function GenerationPrev(generation: nat): Option<nat> {
    if generation <= 1 then None else Some(generation - 1)
  }

  // ---------- bindings and storage constraints ----------

  /** The seven equations between an installation receipt and the verified package behind it. */
  function BindingError(r: InstallationReceipt, v: Verified): Option<Error> {
    if ContentOf(r) != VerifiedContent(v) then Some(CorruptRecord)
    else if r.installedAt < v.verifiedAt then Some(InstallationPrecedesVerification)
    else None
  }

  /** The same seven equations with the restored installation standing in for the verified package. */
  function RollbackBindingError(r: InstallationReceipt, prior: InstallationReceipt): Option<Error> {
    if ContentOf(r) != ContentOf(prior) then Some(CorruptRecord)
    else if r.installedAt < prior.installedAt then Some(RollbackPrecedesRestoredInstallation)
    else None
  }

  function RowRefusal(row: Option<Application>, r: InstallationReceipt): Option<Error> {
    if !FitsColumn(r.generation) || !FitsColumn(r.installedAt) then Some(ColumnOverflow)
    else if row.Some? && r.installedAt < row.value.createdAt then Some(CheckFailed)
    else None
  }

  /** Storage limits that the artifact authority has already enforced. */
  predicate ContentFits(r: InstallationReceipt) {
    VersionFitsColumn(r.version) && FitsColumn(r.entryCount) && 1 <= r.entryCount
  }

  function InsertRefusal(db: Db, r: InstallationReceipt): Option<Error> {
    if !VersionFitsColumn(r.version) || !FitsColumn(r.entryCount) then Some(ColumnOverflow)
    else if r.entryCount < 1 then Some(CheckFailed)
    else if r.key in db.installations then Some(KeyTaken)
    else if Slot(r.application, r.generation) in db.slots then Some(SchemaGuard)
    else None
  }

  function Row(db: Db, package: PackageId): Option<Application> {
    if package in db.applications then Some(db.applications[package]) else None
  }

  function ReplayInstallation(existing: InstallationReceipt, receipt: ReceiptId, at: nat): Decision {
    if existing.verificationId != receipt || existing.installedAt != at
    then Refuse(IdempotencyConflict)
    else Replay(InstallationFact(existing))
  }

  // ---------- lifecycle commands ----------

  function InstallApplication(db: Db, store: Store, q: InstallRequest): (d: Decision)
    ensures d.Commit? ==> Applicable(db, d.change)
  {
    if q.receipt !in store then Refuse(PackageVerificationReceiptNotFound)
    else if q.key in db.installations then ReplayInstallation(db.installations[q.key], q.receipt, q.at)
    else
      var v := store[q.receipt];
      var row := Row(db, v.package);
      if q.at < v.verifiedAt then Refuse(InstallationPrecedesVerification)
      else if row.Some? && row.value.status == Uninstalled then Refuse(ApplicationUninstalled)
      else if row.Some? && row.value.status == Disabled then Refuse(ApplicationDisabled)
      else
        var application := ApplicationId(v.package);
        var generation := if row.Some? then NextInstallationGeneration(db, application, row.value) else 1;
        var r := NewReceipt(application, VerifiedContent(v), generation, q.key, q.at);
        if RowRefusal(row, r).Some? then Refuse(RowRefusal(row, r).value)
        else if BindingError(r, v).Some? then Refuse(BindingError(r, v).value)
        else if InsertRefusal(db, r).Some? then Refuse(InsertRefusal(db, r).value)
        else Commit(Installs(r), InstallationFact(r))
  }

  function UpdateApplication(db: Db, store: Store, q: UpdateRequest): (d: Decision)
    ensures d.Commit? ==> Applicable(db, d.change)
  {
    if q.receipt !in store then Refuse(PackageVerificationReceiptNotFound)
    else if q.key in db.installations then ReplayInstallation(db.installations[q.key], q.receipt, q.at)
    else
      var v := store[q.receipt];
      if q.at < v.verifiedAt then Refuse(InstallationPrecedesVerification)
      else if v.package != q.package then Refuse(PackageIdentityMismatch)
      else if q.package !in db.applications then Refuse(ApplicationNotFound)
      else
        var row := db.applications[q.package];
        if row.status == Uninstalled then Refuse(ApplicationUninstalled)
        else if row.status == Disabled then Refuse(ApplicationDisabled)
        else if v.digest == row.digest then Refuse(UpdateManifestUnchanged)
        else
          var current := ReceiptAt(db, ApplicationId(q.package), row.generation);
          if current.None? then Refuse(CorruptRecord)
          else if !WindowAdmits(q.window, current.value.version, v.version) then
            Refuse(UpdateCompatibilityViolation)
          else
            var generation := NextInstallationGeneration(db, ApplicationId(q.package), row);
            var r := NewReceipt(ApplicationId(q.package), VerifiedContent(v), generation, q.key, q.at);
            if RowRefusal(Some(row), r).Some? then Refuse(RowRefusal(Some(row), r).value)
            else if BindingError(r, v).Some? then Refuse(BindingError(r, v).value)
            else if InsertRefusal(db, r).Some? then Refuse(InsertRefusal(db, r).value)
            else Commit(Updates(r, q.window), InstallationFact(r))
  }

  function DisableApplication(db: Db, q: LifecycleRequest): (d: Decision)
    ensures d.Commit? ==> Applicable(db, d.change)
  {
    if q.key in db.disables then
      var existing := db.disables[q.key];
      if existing.application != ApplicationId(q.package) || existing.at != q.at
      then Refuse(IdempotencyConflict)
      else Replay(DisableFact(existing))
    else if q.package !in db.applications then Refuse(ApplicationNotFound)
    else
      var row := db.applications[q.package];
      if row.status == Uninstalled then Refuse(ApplicationUninstalled)
      else if row.status == Disabled then Refuse(ApplicationAlreadyDisabled)
      else if q.at < row.updatedAt then Refuse(DisablePrecedesInstallation)
      else if !FitsColumn(q.at) then Refuse(ColumnOverflow)
      else if HasDisableAt(db, ApplicationId(q.package), row.generation) then Refuse(SchemaGuard)
      else
        var receipt := DisableReceipt(ApplicationId(q.package), row.generation, q.key, q.at);
        Commit(MarkDisabled(receipt), DisableFact(receipt))
  }

  function ActivityRefusal(activity: Activity): Option<Error> {
    match activity
    case Ungated => None
    case QueryFailed => Some(TaskActivityQueryFailed)
    case Outstanding(count) => if count > 0 then Some(ApplicationActiveTasksRunning) else None
  }

  function UninstallApplication(db: Db, q: LifecycleRequest, activity: Activity): (d: Decision)
    ensures d.Commit? ==> Applicable(db, d.change)
  {
    if q.key in db.uninstalls then
      var existing := db.uninstalls[q.key];
      if existing.application != ApplicationId(q.package) || existing.at != q.at
      then Refuse(IdempotencyConflict)
      else Replay(UninstallFact(existing))
    else if q.package !in db.applications then Refuse(ApplicationNotFound)
    else
      var row := db.applications[q.package];
      if row.status == Uninstalled then Refuse(ApplicationAlreadyUninstalled)
      else if q.at < row.updatedAt then Refuse(UninstallPrecedesLastUpdate)
      else if ActivityRefusal(activity).Some? then Refuse(ActivityRefusal(activity).value)
      else if !FitsColumn(q.at) then Refuse(ColumnOverflow)
      else if HasUninstallAt(db, ApplicationId(q.package), row.generation) then Refuse(SchemaGuard)
      else
        var receipt := UninstallReceipt(ApplicationId(q.package), row.generation, q.key, q.at);
        Commit(MarkUninstalled(receipt), UninstallFact(receipt))
  }

  function RollbackApplication(db: Db, q: LifecycleRequest, activity: Activity): (d: Decision)
    ensures d.Commit? ==> Applicable(db, d.change)
  {
    if q.key in db.rollbacks then
      var existing := db.rollbacks[q.key];
      if existing.application != ApplicationId(q.package) || existing.at != q.at
      then Refuse(IdempotencyConflict)
      else Replay(RollbackFact(existing))
    else if q.key in db.installations then Refuse(IdempotencyConflict)
    else if q.package !in db.applications then Refuse(ApplicationNotFound)
    else
      var row := db.applications[q.package];
      if row.status == Installed then Refuse(RollbackRequiresDisabledOrUninstalled)
      else if q.at < row.updatedAt then Refuse(RollbackPrecedesLastUpdate)
      else if GenerationPrev(row.generation).None? then Refuse(RollbackAtInitialGeneration)
      else
        var prior := ReceiptAt(db, ApplicationId(q.package), GenerationPrev(row.generation).value);
        if prior.None? then Refuse(PreviousInstallationNotFound)
        else if ActivityRefusal(activity).Some? then Refuse(ActivityRefusal(activity).value)
        else
          var to := NextInstallationGeneration(db, ApplicationId(q.package), row);
          var r := NewReceipt(ApplicationId(q.package), ContentOf(prior.value), to, q.key, q.at);
          if RowRefusal(Some(row), r).Some? then Refuse(RowRefusal(Some(row), r).value)
          else if RollbackBindingError(r, prior.value).Some? then
            Refuse(RollbackBindingError(r, prior.value).value)
          else if InsertRefusal(db, r).Some? then Refuse(InsertRefusal(db, r).value)
          else
            var receipt := RollbackReceipt(ApplicationId(q.package), row.generation, to, q.key, q.at);
            Commit(ForwardRoll(r, receipt), RollbackFact(receipt))
  }

  // ---------- surface registration ----------

  predicate SurfaceReplayConflicts(existing: seq<SurfaceRow>, q: SurfacesRequest) {
    || |existing| == 0
    || existing[0].application != ApplicationId(q.package)
    || existing[0].registrant != q.registrant
    || existing[0].at != q.at
    || existing[0].digest != q.declaredDigest
    || |existing| != |q.surfaces|
    || exists i :: 0 <= i < |existing| && (existing[i].index != i || existing[i].surface != q.surfaces[i])
  }

  function SurfaceRows(row: Application, q: SurfacesRequest): (rows: seq<SurfaceRow>)
    ensures |rows| == |q.surfaces|
  {
    seq(|q.surfaces|, i requires 0 <= i < |q.surfaces| =>
      SurfaceRow(ApplicationId(q.package), i, q.surfaces[i], q.declaredDigest, q.registrant, row.generation, q.key, q.at))
  }

  predicate AnyRegistered(db: Db, application: ApplicationId, generation: nat, surfaces: seq<Surface>) {
    exists i :: 0 <= i < |surfaces| && HasSurfaceAt(db, application, generation, surfaces[i].surfaceId)
  }

  function RegisterSurfaces(db: Db, q: SurfacesRequest): (d: Decision)
    ensures d.Commit? ==> Applicable(db, d.change)
  {
    if SegmentVerdict(q.surfaces).Some? then Refuse(SurfaceSegment(SegmentVerdict(q.surfaces).value))
    else if q.key in db.surfaces then
      if SurfaceReplayConflicts(db.surfaces[q.key], q)
      then Refuse(IdempotencyConflict)
      else Replay(SurfacesFact(db.surfaces[q.key]))
    else if q.package !in db.applications then Refuse(ApplicationNotFound)
    else
      var row := db.applications[q.package];
      if row.status == Uninstalled then Refuse(ApplicationUninstalled)
      else if row.status == Disabled then Refuse(ApplicationDisabled)
      else if q.at < row.updatedAt then Refuse(RegistrationPrecedesLastUpdate)
      else if q.declaredDigest != row.digest then Refuse(SurfaceManifestMismatch)
      else if AnyRegistered(db, ApplicationId(q.package), row.generation, q.surfaces) then Refuse(SurfaceAlreadyRegistered)
      else if !FitsColumn(q.at) then Refuse(ColumnOverflow)
      else
        var rows := SurfaceRows(row, q);
        Commit(AddSurfaces(q.key, rows), SurfacesFact(rows))
  }

  // ---------- the staged migration drill ----------

  function MigrateApplication(db: Db, store: Store, q: MigrateRequest): (d: Decision)
    ensures d.Commit? ==> Applicable(db, d.change)
  {
    if q.receipt !in store then Refuse(PackageVerificationReceiptNotFound)
    else if q.key in db.migrations then
      var m := db.migrations[q.key];
      if m.application != ApplicationId(q.package) || m.verificationId != q.receipt || m.window != q.window
         || m.declaredSteps != q.declaredSteps || m.createdAt != q.at
      then Refuse(IdempotencyConflict)
      else Replay(DrillFact(m, CompletedSteps(db, q.key)))
    else
      var v := store[q.receipt];
      if q.at < v.verifiedAt then Refuse(MigrationPrecedesVerification)
      else if v.package != q.package then Refuse(PackageIdentityMismatch)
      else if q.declaredSteps == 0 then Refuse(MigrationStepCountZero)
      else if q.package !in db.applications then Refuse(ApplicationNotFound)
      else
        var row := db.applications[q.package];
        if row.status == Uninstalled then Refuse(ApplicationUninstalled)
        else if row.status == Disabled then Refuse(ApplicationDisabled)
        else if v.digest == row.digest then Refuse(UpdateManifestUnchanged)
        else
          var current := ReceiptAt(db, ApplicationId(q.package), row.generation);
          if current.None? then Refuse(CorruptRecord)
          else if !WindowAdmits(q.window, current.value.version, v.version) then
            Refuse(UpdateCompatibilityViolation)
          else if HasLiveDrill(db, ApplicationId(q.package)) then Refuse(MigrationAlreadyLive)
          else if !VersionFitsColumn(v.version) || !FitsColumn(q.declaredSteps) || !FitsColumn(q.at) then
            Refuse(ColumnOverflow)
          else
            var m := NewDrill(current.value, v, q);
            Commit(Begin(m), DrillFact(m, CompletedSteps(db, q.key)))
  }

  function NewDrill(current: InstallationReceipt, v: Verified, q: MigrateRequest): Migration {
    Migration(
      q.key, current.application, q.package,
      current.generation, current.digest, current.version,
      v.receiptId, v.digest, v.version,
      q.window, q.declaredSteps,
      Pending, Unchecked, None, None, q.at, q.at)
  }

  function RecordMigrationStep(db: Db, q: StepRequest): (d: Decision)
    ensures d.Commit? ==> Applicable(db, d.change)
  {
    if !FitsColumn(q.index) then Refuse(ColumnOverflow)
    else if q.index in StepsOf(db, q.key) then
      if StepsOf(db, q.key)[q.index] != q.at
      then Refuse(IdempotencyConflict)
      else Replay(StepFact(q.key, q.index, q.at))
    else if q.key !in db.migrations then Refuse(MigrationNotFound)
    else
      var m := db.migrations[q.key];
      var completed := CompletedSteps(db, q.key);
      if m.state.IsTerminal() then Refuse(MigrationTerminal)
      else if completed == m.declaredSteps then Refuse(MigrationDrillComplete)
      else if q.index != completed + 1 then Refuse(MigrationStepOutOfOrder)
      else if q.at < m.updatedAt then Refuse(MigrationStepPrecedesLastUpdate)
      else if !FitsColumn(q.at) then Refuse(ColumnOverflow)
      else Commit(CompleteStep(q.key, q.index, q.at), StepFact(q.key, q.index, q.at))
  }

  predicate TargetBound(m: Migration, v: Verified) {
    && v.receiptId == m.verificationId
    && v.digest == m.targetDigest
    && v.version == m.targetVersion
    && v.package == m.package
  }

  /** `healthy` is the probe's answer, used only when the ladder reaches the probe. */
  function RunMigrationHealthCheck(db: Db, store: Store, q: DrillRequest, healthy: bool): (d: Decision)
    ensures d.Commit? ==> Applicable(db, d.change)
  {
    if q.key !in db.migrations then Refuse(MigrationNotFound)
    else
      var m := db.migrations[q.key];
      if m.state.IsTerminal() then Refuse(MigrationTerminal)
      else if !m.health.Unchecked? then
        if m.checkedAt.None? then Refuse(CorruptRecord)
        else Replay(HealthFact(q.key, m.health.Passed?, m.checkedAt.value))
      else if m.state.Pending? then Refuse(MigrationNotRunning)
      else if CompletedSteps(db, q.key) != m.declaredSteps then Refuse(MigrationStepsIncomplete)
      else if q.at < m.updatedAt then Refuse(HealthCheckPrecedesLastUpdate)
      else if m.verificationId !in store then Refuse(PackageVerificationReceiptNotFound)
      else if !TargetBound(m, store[m.verificationId]) then Refuse(CorruptRecord)
      else if !FitsColumn(q.at) then Refuse(ColumnOverflow)
      else Commit(Pronounce(q.key, healthy, q.at), HealthFact(q.key, healthy, q.at))
  }

  /** Why the application row no longer carries the drill's frozen baseline, if it does not. */
  function BaselineRefusal(db: Db, m: Migration): Option<Error> {
    if m.package !in db.applications then Some(ApplicationNotFound)
    else
      var row := db.applications[m.package];
      if row.status == Uninstalled then Some(ApplicationUninstalled)
      else if row.status == Disabled then Some(ApplicationDisabled)
      else if row.generation != m.fromGeneration || row.digest != m.fromDigest then Some(MigrationBaselineMoved)
      else None
  }

  function ReceiptById(db: Db, id: InstallationId): Option<InstallationReceipt> {
    if id.key in db.installations && db.installations[id.key].installationId == id
    then Some(db.installations[id.key])
    else None
  }

  function ActivatePackageMigration(db: Db, store: Store, q: DrillRequest): (d: Decision)
    ensures d.Commit? ==> Applicable(db, d.change)
  {
    if q.key !in db.migrations then Refuse(MigrationNotFound)
    else
      var m := db.migrations[q.key];
      if m.state.Done? then
        if m.activated.None? then Refuse(CorruptRecord)
        else
          var receipt := ReceiptById(db, m.activated.value);
          if receipt.None? then Refuse(CorruptRecord) else Replay(InstallationFact(receipt.value))
      else if m.state.Failed? then Refuse(MigrationTerminal)
      else if m.state.Pending? then Refuse(MigrationNotRunning)
      else if m.health.Unchecked? then Refuse(MigrationHealthUnchecked)
      else if m.health.Refuted? then Refuse(MigrationHealthFailed)
      else if CompletedSteps(db, q.key) != m.declaredSteps then Refuse(MigrationStepsIncomplete)
      else if m.checkedAt.None? then Refuse(CorruptRecord)
      else if q.at < m.checkedAt.value then Refuse(ActivationPrecedesHealthCheck)
      else if m.verificationId !in store then Refuse(PackageVerificationReceiptNotFound)
      else
        var v := store[m.verificationId];
        if !TargetBound(m, v) then Refuse(CorruptRecord)
        else if BaselineRefusal(db, m).Some? then Refuse(BaselineRefusal(db, m).value)
        else
          var row := db.applications[m.package];
          var r := NewReceipt(ApplicationId(m.package), VerifiedContent(v), m.fromGeneration + 1, q.key, q.at);
          if BindingError(r, v).Some? then Refuse(BindingError(r, v).value)
          else if RowRefusal(Some(row), r).Some? then Refuse(RowRefusal(Some(row), r).value)
          else if InsertRefusal(db, r).Some? then Refuse(InsertRefusal(db, r).value)
          else if q.at < m.updatedAt then Refuse(SchemaGuard)
          else Commit(Switch(r), InstallationFact(r))
  }

  function RollbackPackageMigration(db: Db, q: DrillRequest): (d: Decision)
    ensures d.Commit? ==> Applicable(db, d.change)
  {
    if q.key in db.migrationRollbacks then
      if db.migrationRollbacks[q.key].at != q.at
      then Refuse(IdempotencyConflict)
      else Replay(MigrationRollbackFact(db.migrationRollbacks[q.key]))
    else if q.key !in db.migrations then Refuse(MigrationNotFound)
    else
      var m := db.migrations[q.key];
      if m.state.IsTerminal() then Refuse(MigrationTerminal)
      else if m.state.Pending? then Refuse(MigrationNotRunning)
      else if !m.health.Refuted? then Refuse(MigrationRequiresFailedHealth)
      else if m.checkedAt.None? then Refuse(CorruptRecord)
      else if q.at < m.checkedAt.value then Refuse(MigrationRollbackPrecedesHealthCheck)
      else if BaselineRefusal(db, m).Some? then Refuse(BaselineRefusal(db, m).value)
      else if !FitsColumn(q.at) then Refuse(ColumnOverflow)
      else if q.at < m.updatedAt then Refuse(SchemaGuard)
      else
        var a := MigrationRollback(
          q.key, m.application, m.targetDigest, m.fromGeneration, m.fromDigest, q.at);
        Commit(Abandon(a), MigrationRollbackFact(a))
  }
}
