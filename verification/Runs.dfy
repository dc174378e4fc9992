/** Worlds, commands, and whole runs of the authority next to the append-only artifact store. */
module Runs {
  import opened Records
  import opened Changes
  import opened Commands

  datatype World = World(db: Db, store: Store)

  const EMPTY_WORLD := World(EMPTY_DB, map[])

  datatype Command =
    | Publish(verified: Verified)
    | Install(install: InstallRequest)
    | Update(update: UpdateRequest)
    | Disable(request: LifecycleRequest)
    | Uninstall(request: LifecycleRequest, activity: Activity)
    | Rollback(request: LifecycleRequest, activity: Activity)
    | Register(segment: SurfacesRequest)
    | Migrate(migrate: MigrateRequest)
    | RecordStep(step: StepRequest)
    | CheckHealth(drill: DrillRequest, healthy: bool)
    | Activate(drill: DrillRequest)
    | RollBackDrill(drill: DrillRequest)

  function PublishPackage(v: Verified): Decision {
    if v.entryCount == 0 then Refuse(PackageManifestInvalid)
    else if !Storable(v) then Refuse(ColumnOverflow)
    else Replay(NoFact)
  }

  function Decide(w: World, c: Command): (d: Decision)
    ensures d.Commit? ==> Applicable(w.db, d.change)
  {
    match c
    case Publish(v) => PublishPackage(v)
    case Install(q) => InstallApplication(w.db, w.store, q)
    case Update(q) => UpdateApplication(w.db, w.store, q)
    case Disable(q) => DisableApplication(w.db, q)
    case Uninstall(q, activity) => UninstallApplication(w.db, q, activity)
    case Rollback(q, activity) => RollbackApplication(w.db, q, activity)
    case Register(q) => RegisterSurfaces(w.db, q)
    case Migrate(q) => MigrateApplication(w.db, w.store, q)
    case RecordStep(q) => RecordMigrationStep(w.db, q)
    case CheckHealth(q, healthy) => RunMigrationHealthCheck(w.db, w.store, q, healthy)
    case Activate(q) => ActivatePackageMigration(w.db, w.store, q)
    case RollBackDrill(q) => RollbackPackageMigration(w.db, q)
  }

  /** The artifact authority appends verified packages its table admits, and never replaces one. */
  function Published(store: Store, v: Verified): Store {
    if v.receiptId in store || !Storable(v) then store else store[v.receiptId := v]
  }

  function Step(w: World, c: Command): World {
    if c.Publish?
    then World(w.db, Published(w.store, c.verified))
    else World(After(w.db, Decide(w, c)), w.store)
  }

  function Run(w: World, commands: seq<Command>): World
    decreases |commands|
  {
    if commands == [] then w else Run(Step(w, commands[0]), commands[1..])
  }

  lemma {:induction false} RunSplits(w: World, before: seq<Command>, after: seq<Command>)
    ensures Run(w, before + after) == Run(Run(w, before), after)
    decreases |before|
  {
    if before == [] {
      assert before + after == after;
    } else {
      assert (before + after)[1..] == before[1..] + after;
      RunSplits(Step(w, before[0]), before[1..], after);
    }
  }
}
