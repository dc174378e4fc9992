/** Nothing recorded is ever altered: every run only extends the tables it starts from. */
module Durability {
  import opened Records
  import opened Changes
  import opened Runs
  import opened Invariants
  import opened Preservation
  import opened Reachability

  ghost predicate Submap<K(!new), V(!new)>(m: map<K, V>, m': map<K, V>) {
    forall k :: k in m ==> k in m' && m'[k] == m[k]
  }

  function Rank(status: Status): nat {
    match status
    case Installed => 0
    case Disabled => 1
    case Uninstalled => 2
  }

  /** Within one generation a row keeps its content and only moves towards uninstalled. */
  predicate RowAdvances(row: Application, row': Application) {
    && row'.createdAt == row.createdAt
    && row.generation <= row'.generation
    && (row.generation == row'.generation ==>
          && row'.digest == row.digest
          && Rank(row.status) <= Rank(row'.status)
          && (row.status == row'.status ==> row' == row))
  }

  /** A drill keeps what it froze, keeps a verdict once it has one, and stops once terminal. */
  predicate DrillAdvances(m: Migration, m': Migration) {
    && SameFrozen(m, m')
    && (m.state.IsTerminal() ==> m' == m)
    && (!m.health.Unchecked? ==> m'.health == m.health && m'.checkedAt == m.checkedAt)
    && (!m.state.Pending? ==> !m'.state.Pending?)
  }

  ghost predicate ReceiptsExtend(db: Db, db': Db) {
    && Submap(db.installations, db'.installations)
    && Submap(db.slots, db'.slots)
    && Submap(db.disables, db'.disables)
    && Submap(db.uninstalls, db'.uninstalls)
    && Submap(db.rollbacks, db'.rollbacks)
    && Submap(db.surfaces, db'.surfaces)
    && Submap(db.migrationRollbacks, db'.migrationRollbacks)
  }

  ghost predicate RowsExtend(db: Db, db': Db) {
    forall p :: p in db.applications ==>
      p in db'.applications && RowAdvances(db.applications[p], db'.applications[p])
  }

  ghost predicate DrillsExtend(db: Db, db': Db) {
    && (forall k :: k in db.migrations ==>
          k in db'.migrations && DrillAdvances(db.migrations[k], db'.migrations[k]))
    && (forall k :: k in db.steps ==> k in db'.steps && Submap(db.steps[k], db'.steps[k]))
  }

  ghost predicate Extends(w: World, w': World) {
    && Submap(w.store, w'.store)
    && ReceiptsExtend(w.db, w'.db)
    && RowsExtend(w.db, w'.db)
    && DrillsExtend(w.db, w'.db)
  }

  lemma ExtendsTransitive(w0: World, w1: World, w2: World)
    requires Extends(w0, w1) && Extends(w1, w2)
    ensures Extends(w0, w2)
  {
    RowsTransitive(w0.db, w1.db, w2.db);
    DrillsTransitive(w0.db, w1.db, w2.db);
  }

  lemma RowsTransitive(db0: Db, db1: Db, db2: Db)
    requires RowsExtend(db0, db1) && RowsExtend(db1, db2)
    ensures RowsExtend(db0, db2)
  {
  }

  lemma DrillsTransitive(db0: Db, db1: Db, db2: Db)
    requires DrillsExtend(db0, db1) && DrillsExtend(db1, db2)
    ensures DrillsExtend(db0, db2)
  {
    forall k | k in db0.steps ensures Submap(db0.steps[k], db2.steps[k]) {
      assert Submap(db0.steps[k], db1.steps[k]) && Submap(db1.steps[k], db2.steps[k]);
    }
  }

  // ---------- one change extends ----------

  ghost predicate DbExtends(db: Db, db': Db) {
    ReceiptsExtend(db, db') && RowsExtend(db, db') && DrillsExtend(db, db')
  }

  lemma PutExtends(db: Db, r: InstallationReceipt)
    requires r.key !in db.installations && Slot(r.application, r.generation) !in db.slots
    requires r.application.package in db.applications ==>
               db.applications[r.application.package].generation < r.generation
    ensures DbExtends(db, PutInstallation(db, r))
  {
  }

  lemma RollExtends(db: Db, r: InstallationReceipt, rb: RollbackReceipt)
    requires DbExtends(db, PutInstallation(db, r))
    requires rb.key !in db.rollbacks
    ensures DbExtends(db, Apply(db, ForwardRoll(r, rb)))
  {
  }

  lemma SwitchExtendsDrills(db: Db, r: InstallationReceipt)
    requires r.key in db.migrations && db.migrations[r.key].state.Running?
    ensures DrillsExtend(db, Apply(db, Switch(r)))
    ensures Apply(db, Switch(r)).migrationRollbacks == PutInstallation(db, r).migrationRollbacks
  {
  }

  lemma SwitchExtends(db: Db, r: InstallationReceipt, db': Db)
    requires ReceiptsExtend(db, PutInstallation(db, r)) && RowsExtend(db, PutInstallation(db, r))
    requires r.key in db.migrations && db.migrations[r.key].state.Running?
    requires db' == Apply(db, Switch(r))
    ensures DbExtends(db, db')
  {
    SwitchTouchesOnlyDrills(db, r);
    SwitchExtendsDrills(db, r);
  }

  lemma MarkExtends(db: Db, change: Change)
    requires change.MarkDisabled? || change.MarkUninstalled?
    requires Applicable(db, change)
    requires change.MarkDisabled? ==>
               change.disable.key !in db.disables
               && db.applications[change.disable.application.package].status == Installed
    requires change.MarkUninstalled? ==>
               change.uninstall.key !in db.uninstalls
               && db.applications[change.uninstall.application.package].status != Uninstalled
    ensures DbExtends(db, Apply(db, change))
  {
  }

  lemma SurfacesExtend(db: Db, key: Key, rows: seq<SurfaceRow>)
    requires key !in db.surfaces
    ensures DbExtends(db, Apply(db, AddSurfaces(key, rows)))
  {
  }

  lemma BeginExtends(db: Db, m: Migration)
    requires m.key !in db.migrations
    ensures DbExtends(db, Apply(db, Begin(m)))
  {
  }

  lemma StepExtends(db: Db, key: Key, index: nat, at: nat)
    requires key in db.migrations && IsLive(db.migrations[key]) && index !in StepsOf(db, key)
    ensures DbExtends(db, Apply(db, CompleteStep(key, index, at)))
  {
    var db' := Apply(db, CompleteStep(key, index, at));
    StepMoves(db, key, index, at, db');
    assert DrillAdvances(db.migrations[key], db'.migrations[key]);
  }

  lemma VerdictExtends(db: Db, key: Key, healthy: bool, at: nat)
    requires VerdictDue(db, key, at)
    ensures DbExtends(db, Apply(db, Pronounce(key, healthy, at)))
  {
    var db' := Apply(db, Pronounce(key, healthy, at));
    assert DrillAdvances(db.migrations[key], db'.migrations[key]);
  }

  lemma AbandonExtends(db: Db, a: MigrationRollback)
    requires AbandonDue(db, a)
    ensures DbExtends(db, Apply(db, Abandon(a)))
  {
    var db' := Apply(db, Abandon(a));
    assert DrillAdvances(db.migrations[a.key], db'.migrations[a.key]);
  }

  lemma InstallationExtends(w: World, r: InstallationReceipt)
    requires HistoryDense(w.db) && NextReceipt(w, r)
    ensures DbExtends(w.db, PutInstallation(w.db, r))
  {
    NextReceiptIsFresh(w, r);
    PutExtends(w.db, r);
  }

  lemma LifecycleCommandExtends(w: World, c: Command)
    requires Inv(w) && Decide(w, c).Commit?
    requires c.Install? || c.Update? || c.Disable? || c.Uninstall? || c.Rollback? || c.Register?
    ensures DbExtends(w.db, Apply(w.db, Decide(w, c).change))
  {
    match c
    case Install(q) =>
      InstallCommits(w, q);
      InstallationExtends(w, Decide(w, c).change.receipt);
    case Update(q) =>
      UpdateCommits(w, q);
      InstallationExtends(w, Decide(w, c).change.receipt);
    case Disable(q) =>
      DisableCommits(w.db, q);
      MarkExtends(w.db, Decide(w, c).change);
    case Uninstall(q, activity) =>
      UninstallCommits(w.db, q, activity);
      MarkExtends(w.db, Decide(w, c).change);
    case Rollback(q, activity) =>
      RollbackClears(w.db, q, activity);
      RollbackCommits(w, q, activity);
      InstallationExtends(w, Decide(w, c).change.receipt);
      RollExtends(w.db, Decide(w, c).change.receipt, Decide(w, c).change.rollback);
    case Register(q) =>
      RegisterCommits(w.db, q);
      SurfacesExtend(w.db, q.key, Decide(w, c).change.rows);
  }

  lemma NextStepIsUnrecorded(w: World, key: Key, index: nat, at: nat)
    requires DrillsSound(w) && StepDue(w.db, key, index, at)
    ensures index !in StepsOf(w.db, key)
  {
    assert DrillSound(w, key, w.db.migrations[key]);
  }

  lemma DrillCommandExtends(w: World, c: Command)
    requires Inv(w) && Decide(w, c).Commit?
    requires c.Migrate? || c.RecordStep? || c.CheckHealth? || c.Activate? || c.RollBackDrill?
    ensures DbExtends(w.db, Apply(w.db, Decide(w, c).change))
  {
    match c
    case Migrate(q) =>
      MigrateCommits(w, q);
      BeginExtends(w.db, Decide(w, c).change.drill);
    case RecordStep(q) =>
      StepCommits(w.db, q);
      NextStepIsUnrecorded(w, q.key, q.index, q.at);
      StepExtends(w.db, q.key, q.index, q.at);
    case CheckHealth(q, healthy) =>
      HealthCommits(w.db, w.store, q, healthy);
      VerdictExtends(w.db, q.key, healthy, q.at);
    case Activate(q) =>
      ActivateCommits(w, q);
      InstallationExtends(w, Decide(w, c).change.receipt);
      SwitchExtends(w.db, Decide(w, c).change.receipt, Apply(w.db, Decide(w, c).change));
    case RollBackDrill(q) =>
      AbandonCommits(w.db, q);
      AbandonExtends(w.db, Decide(w, c).change.abandoned);
  }

  lemma DbExtendsItself(db: Db)
    ensures DbExtends(db, db)
  {
  }

  lemma CommandExtends(w: World, c: Command)
    requires Inv(w)
    ensures Extends(w, Step(w, c))
  {
    DbExtendsItself(w.db);
    if !c.Publish? && Decide(w, c).Commit? {
      if c.Install? || c.Update? || c.Disable? || c.Uninstall? || c.Rollback? || c.Register? {
        LifecycleCommandExtends(w, c);
      } else {
        DrillCommandExtends(w, c);
      }
    }
  }

  /**
   Over every run, however long: receipts, steps, verdicts and frozen drill bindings stay as recorded,
   generations never decrease, and terminal drills never move.
   */
  lemma {:induction false} RunExtends(w: World, commands: seq<Command>)
    requires Inv(w)
    ensures Extends(w, Run(w, commands))
    ensures Inv(Run(w, commands))
    decreases |commands|
  {
    if commands != [] {
      CommandExtends(w, commands[0]);
      CommandKeepsInv(w, commands[0]);
      RunExtends(Step(w, commands[0]), commands[1..]);
      ExtendsTransitive(w, Step(w, commands[0]), Run(w, commands));
    }
  }
}
