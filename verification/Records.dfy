/** Identities, rows, receipts and requests of the application authority. */
module Records {
  import opened Wrappers
  import opened Versions

  // 16-byte identities and 32-byte digests, read as numbers.
  newtype PackageId = n: int | 0 <= n < 0x1_0000_0000_0000_0000_0000_0000_0000_0000
  newtype Key = n: int | 0 <= n < 0x1_0000_0000_0000_0000_0000_0000_0000_0000
  newtype ReceiptId = n: int | 0 <= n < 0x1_0000_0000_0000_0000_0000_0000_0000_0000
  newtype PrincipalId = n: int | 0 <= n < 0x1_0000_0000_0000_0000_0000_0000_0000_0000
  newtype Digest = n: int
    | 0 <= n < 0x1_0000_0000_0000_0000_0000_0000_0000_0000_0000_0000_0000_0000_0000_0000_0000_0000

  /** The domain-separated digests are taken to be injective in what they hash. */
  datatype ApplicationId = ApplicationId(package: PackageId)
  datatype InstallationId = InstallationId(key: Key, application: ApplicationId, generation: nat)

  datatype Status = Installed | Disabled | Uninstalled

  /** One row per package; its identity columns are the package and the identity derived from it. */
  datatype Application = Application(
    digest: Digest, generation: nat, status: Status, createdAt: nat, updatedAt: nat)

  /** The artifact authority's immutable fact that a signed package was verified. */
  datatype Verified = Verified(
    receiptId: ReceiptId, package: PackageId, digest: Digest, version: Version,
    entryCount: nat, signer: PrincipalId, verifiedAt: nat)

  /** What the artifact authority's own table admits: at least one entry, and values its columns hold. */
  predicate Storable(v: Verified) {
    && 1 <= v.entryCount && FitsColumn(v.entryCount) && VersionFitsColumn(v.version) && FitsColumn(v.verifiedAt)
  }

  type Store = map<ReceiptId, Verified>

  datatype InstallationReceipt = InstallationReceipt(
    installationId: InstallationId, application: ApplicationId, generation: nat,
    package: PackageId, digest: Digest, version: Version, entryCount: nat,
    verificationId: ReceiptId, installer: PrincipalId, key: Key, installedAt: nat)

  datatype DisableReceipt = DisableReceipt(application: ApplicationId, generation: nat, key: Key, at: nat)
  datatype UninstallReceipt = UninstallReceipt(application: ApplicationId, generation: nat, key: Key, at: nat)
  datatype RollbackReceipt = RollbackReceipt(
    application: ApplicationId, fromGeneration: nat, toGeneration: nat, key: Key, at: nat)

  newtype byte = n: int | 0 <= n < 256
  datatype SurfaceKind = Window | Panel

  /** A declared surface; titles and entry names are their UTF-8 bytes. */
  datatype Surface = Surface(surfaceId: nat, kind: SurfaceKind, title: seq<byte>, entryName: Option<seq<byte>>)
  datatype SurfaceRow = SurfaceRow(
    application: ApplicationId, index: nat, surface: Surface, digest: Digest,
    registrant: PrincipalId, generation: nat, key: Key, at: nat)

  datatype MigrationState = Pending | Running | Done | Failed {
    predicate IsTerminal() {
      Done? || Failed?
    }
  }
  datatype Health = Unchecked | Passed | Refuted

  /** One staged migration drill: a frozen baseline, a frozen target, and its progress. */
  datatype Migration = Migration(
    key: Key, application: ApplicationId, package: PackageId,
    fromGeneration: nat, fromDigest: Digest, fromVersion: Version,
    verificationId: ReceiptId, targetDigest: Digest, targetVersion: Version,
    window: CompatibilityWindow, declaredSteps: nat,
    state: MigrationState, health: Health, checkedAt: Option<nat>,
    activated: Option<InstallationId>, createdAt: nat, updatedAt: nat)

  datatype MigrationRollback = MigrationRollback(
    key: Key, application: ApplicationId, abandonedDigest: Digest,
    retainedGeneration: nat, retainedDigest: Digest, at: nat)

  datatype InstallRequest = InstallRequest(receipt: ReceiptId, key: Key, at: nat)
  datatype UpdateRequest = UpdateRequest(
    package: PackageId, receipt: ReceiptId, key: Key, at: nat, window: CompatibilityWindow)
  /** Disable, uninstall and rollback requests share one shape. */
  datatype LifecycleRequest = LifecycleRequest(package: PackageId, key: Key, at: nat)
  datatype SurfacesRequest = SurfacesRequest(
    package: PackageId, declaredDigest: Digest, surfaces: seq<Surface>, registrant: PrincipalId,
    key: Key, at: nat)
  datatype MigrateRequest = MigrateRequest(
    package: PackageId, receipt: ReceiptId, key: Key, window: CompatibilityWindow,
    declaredSteps: nat, at: nat)
  datatype StepRequest = StepRequest(key: Key, index: nat, at: nat)
  datatype DrillRequest = DrillRequest(key: Key, at: nat)

  /** What the activity gate of an uninstall or rollback learned, if it was asked at all. */
  datatype Activity = Ungated | Outstanding(count: nat) | QueryFailed

  /** No gate, or nothing outstanding. */
  predicate Idle(activity: Activity) {
    activity.Ungated? || activity == Outstanding(0)
  }

  predicate Busy(activity: Activity) {
    activity.Outstanding? && 0 < activity.count
  }

  datatype SegmentError = Empty | TooManySurfaces | DuplicateSurfaceId | InvalidTitle | InvalidEntryName

  datatype Error =
    | PackageManifestInvalid
    | PackageVerificationReceiptNotFound
    | IdempotencyConflict
    | InstallationPrecedesVerification
    | PackageIdentityMismatch
    | ApplicationNotFound
    | ApplicationDisabled
    | ApplicationUninstalled
    | ApplicationAlreadyDisabled
    | ApplicationAlreadyUninstalled
    | DisablePrecedesInstallation
    | UninstallPrecedesLastUpdate
    | RollbackPrecedesLastUpdate
    | RollbackRequiresDisabledOrUninstalled
    | RollbackAtInitialGeneration
    | PreviousInstallationNotFound
    | ApplicationActiveTasksRunning
    | TaskActivityQueryFailed
    | UpdateManifestUnchanged
    | UpdateCompatibilityViolation
    | RegistrationPrecedesLastUpdate
    | SurfaceSegment(segment: SegmentError)
    | SurfaceManifestMismatch
    | SurfaceAlreadyRegistered
    | MigrationNotFound
    | MigrationStepCountZero
    | MigrationAlreadyLive
    | MigrationTerminal
    | MigrationNotRunning
    | MigrationStepOutOfOrder
    | MigrationDrillComplete
    | MigrationStepPrecedesLastUpdate
    | MigrationStepsIncomplete
    | HealthCheckPrecedesLastUpdate
    | MigrationPrecedesVerification
    | ActivationPrecedesHealthCheck
    | MigrationHealthUnchecked
    | MigrationHealthFailed
    | MigrationRequiresFailedHealth
    | MigrationRollbackPrecedesHealthCheck
    | MigrationBaselineMoved
    | RollbackPrecedesRestoredInstallation  // the seventh equation of the forward-roll binding
    | CorruptRecord                         // a durable row contradicts another one
    | ColumnOverflow                        // a value exceeds the signed 64-bit column
    | CheckFailed                           // a column CHECK refuses an admissible-looking value
    | KeyTaken                              // the drill's key already names an installation receipt
    | SchemaGuard                           // a uniqueness index or a transition trigger fires

  /** The (application, generation) uniqueness index over installation receipts. */
  datatype Slot = Slot(application: ApplicationId, generation: nat)

  /** The durable tables. Maps keyed by idempotency key are the tables' unique key columns. */
  datatype Db = Db(
    applications: map<PackageId, Application>,
    installations: map<Key, InstallationReceipt>,
    slots: map<Slot, Key>,
    disables: map<Key, DisableReceipt>,
    uninstalls: map<Key, UninstallReceipt>,
    rollbacks: map<Key, RollbackReceipt>,
    surfaces: map<Key, seq<SurfaceRow>>,
    migrations: map<Key, Migration>,
    steps: map<Key, map<nat, nat>>,
    migrationRollbacks: map<Key, MigrationRollback>)

  const EMPTY_DB := Db(map[], map[], map[], map[], map[], map[], map[], map[], map[], map[])

  const I64_MAX: nat := 0x7FFF_FFFF_FFFF_FFFF

  predicate FitsColumn(n: nat) {
    n <= I64_MAX
  }

  predicate VersionFitsColumn(v: Version) {
    v <= I64_MAX
  }

  function ReceiptAt(db: Db, application: ApplicationId, generation: nat): Option<InstallationReceipt> {
    var slot := Slot(application, generation);
    if slot in db.slots && db.slots[slot] in db.installations
    then Some(db.installations[db.slots[slot]])
    else None
  }

  function CompletedSteps(db: Db, key: Key): nat {
    if key in db.steps then |db.steps[key]| else 0
  }

  predicate IsLive(m: Migration) {
    !m.state.IsTerminal()
  }

  predicate HasLiveDrill(db: Db, application: ApplicationId) {
    exists k :: k in db.migrations && db.migrations[k].application == application && IsLive(db.migrations[k])
  }

  predicate HasDisableAt(db: Db, application: ApplicationId, generation: nat) {
    exists k :: k in db.disables
             && db.disables[k].application == application && db.disables[k].generation == generation
  }

  predicate HasUninstallAt(db: Db, application: ApplicationId, generation: nat) {
    exists k :: k in db.uninstalls
             && db.uninstalls[k].application == application && db.uninstalls[k].generation == generation
  }

  predicate HasSurfaceAt(db: Db, application: ApplicationId, generation: nat, surfaceId: nat) {
    exists k :: k in db.surfaces && RowsHold(db.surfaces[k], application, generation, surfaceId)
  }

  predicate RowsHold(rows: seq<SurfaceRow>, application: ApplicationId, generation: nat, surfaceId: nat) {
    exists i :: 0 <= i < |rows|
             && rows[i].application == application && rows[i].generation == generation
             && rows[i].surface.surfaceId == surfaceId
  }

  // The six content fields an installation receipt copies from its verified package.
  datatype Content = Content(
    verificationId: ReceiptId, package: PackageId, digest: Digest, version: Version,
    entryCount: nat, installer: PrincipalId)

  function ContentOf(r: InstallationReceipt): Content {
    Content(r.verificationId, r.package, r.digest, r.version, r.entryCount, r.installer)
  }

  function VerifiedContent(v: Verified): Content {
    Content(v.receiptId, v.package, v.digest, v.version, v.entryCount, v.signer)
  }

  function NewReceipt(application: ApplicationId, content: Content, generation: nat, key: Key, at: nat)
    : InstallationReceipt
  {
    InstallationReceipt(
      InstallationId(key, application, generation), application, generation,
      content.package, content.digest, content.version, content.entryCount,
      content.verificationId, content.installer, key, at)
  }
}
