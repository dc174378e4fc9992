/** What one committed transaction writes, and what a command decides before it commits. */
module Changes {
  import opened Wrappers
  import opened Records
  import opened Versions

  datatype Change =
    | Installs(receipt: InstallationReceipt)
    | Updates(receipt: InstallationReceipt, window: CompatibilityWindow)
    | ForwardRoll(receipt: InstallationReceipt, rollback: RollbackReceipt)
    | Switch(receipt: InstallationReceipt)
    | MarkDisabled(disable: DisableReceipt)
    | MarkUninstalled(uninstall: UninstallReceipt)
    | AddSurfaces(rowsKey: Key, rows: seq<SurfaceRow>)
    | Begin(drill: Migration)
    | CompleteStep(stepKey: Key, index: nat, stepAt: nat)
    | Pronounce(healthKey: Key, healthy: bool, checkedAt: nat)
    | Abandon(abandoned: MigrationRollback)

  datatype Fact =
    | InstallationFact(installation: InstallationReceipt)
    | DisableFact(disable: DisableReceipt)
    | UninstallFact(uninstall: UninstallReceipt)
    | RollbackFact(rollback: RollbackReceipt)
    | SurfacesFact(rows: seq<SurfaceRow>)
    | DrillFact(drill: Migration, completed: nat)
    | StepFact(stepKey: Key, index: nat, stepAt: nat)
    | HealthFact(healthKey: Key, passed: bool, checkedAt: nat)
    | MigrationRollbackFact(abandoned: MigrationRollback)
    | NoFact

  datatype Decision =
    | Commit(change: Change, fact: Fact)
    | Replay(recorded: Fact)
    | Refuse(error: Error)

  predicate Applicable(db: Db, change: Change) {
    match change
    case Switch(r) => r.key in db.migrations
    case MarkDisabled(d) => d.application.package in db.applications
    case MarkUninstalled(u) => u.application.package in db.applications
    case CompleteStep(key, _, _) => key in db.migrations
    case Pronounce(key, _, _) => key in db.migrations
    case Abandon(a) => a.key in db.migrations
    case _ => true
  }

  /** Installation receipt, its uniqueness index entry, and the application row it moves. */
  function PutInstallation(db: Db, r: InstallationReceipt): Db {
    var p := r.application.package;
    var created := if p in db.applications then db.applications[p].createdAt else r.installedAt;
    db.(applications := db.applications[
          p := Application(r.digest, r.generation, Installed, created, r.installedAt)],
        installations := db.installations[r.key := r],
        slots := db.slots[Slot(r.application, r.generation) := r.key])
  }

  function Apply(db: Db, change: Change): Db
    requires Applicable(db, change)
  {
    match change
    case Installs(r) => PutInstallation(db, r)
    case Updates(r, _) => PutInstallation(db, r)
    case ForwardRoll(r, rollback) =>
      PutInstallation(db, r).(rollbacks := db.rollbacks[rollback.key := rollback])
    case Switch(r) =>
      PutInstallation(db, r).(migrations := db.migrations[r.key := Finished(db.migrations[r.key], r)])
    case MarkDisabled(d) =>
      var p := d.application.package;
      db.(applications := db.applications[p := db.applications[p].(status := Disabled, updatedAt := d.at)],
          disables := db.disables[d.key := d])
    case MarkUninstalled(u) =>
      var p := u.application.package;
      db.(applications := db.applications[p := db.applications[p].(status := Uninstalled, updatedAt := u.at)],
          uninstalls := db.uninstalls[u.key := u])
    case AddSurfaces(key, rows) =>
      db.(surfaces := db.surfaces[key := rows])
    case Begin(m) =>
      db.(migrations := db.migrations[m.key := m])
    case CompleteStep(key, index, at) =>
      db.(migrations := db.migrations[key := Advanced(db.migrations[key], at)],
          steps := db.steps[key := StepsOf(db, key)[index := at]])
    case Pronounce(key, healthy, at) =>
      db.(migrations := db.migrations[key := Pronounced(db.migrations[key], healthy, at)])
    case Abandon(a) =>
      db.(migrations := db.migrations[a.key := db.migrations[a.key].(state := Failed, updatedAt := a.at)],
          migrationRollbacks := db.migrationRollbacks[a.key := a])
  }

  function StepsOf(db: Db, key: Key): map<nat, nat> {
    if key in db.steps then db.steps[key] else map[]
  }

  function Finished(m: Migration, r: InstallationReceipt): Migration {
    m.(state := Done, activated := Some(r.installationId), updatedAt := r.installedAt)
  }

  function Advanced(m: Migration, at: nat): Migration {
    m.(state := if m.state.Pending? then Running else m.state, updatedAt := at)
  }

  function Pronounced(m: Migration, healthy: bool, at: nat): Migration {
    m.(health := if healthy then Passed else Refuted, checkedAt := Some(at), updatedAt := at)
  }

  function After(db: Db, decision: Decision): Db
    requires decision.Commit? ==> Applicable(db, decision.change)
  {
    if decision.Commit? then Apply(db, decision.change) else db
  }
}
