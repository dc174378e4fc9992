/** The numbers that rows, drills and installation receipts hold fit their columns. */
module Clocks {
  import opened Records
  import opened Changes
  import opened Commands
  import opened Runs
  import opened Reachability

  predicate RowFits(row: Application) {
    FitsColumn(row.generation) && FitsColumn(row.createdAt) && FitsColumn(row.updatedAt)
  }

  predicate DrillFits(m: Migration) {
    FitsColumn(m.updatedAt) && FitsColumn(m.declaredSteps)
  }

  predicate ReceiptFits(r: InstallationReceipt) {
    FitsColumn(r.generation) && FitsColumn(r.installedAt) && ContentFits(r)
  }

  ghost predicate ColumnsHold(db: Db) {
    && (forall p :: p in db.applications ==> RowFits(db.applications[p]))
    && (forall k :: k in db.migrations ==> DrillFits(db.migrations[k]))
    && (forall k :: k in db.installations ==> ReceiptFits(db.installations[k]))
  }

  predicate ChangeFits(change: Change) {
    match change
    case Installs(r) => ReceiptFits(r)
    case Updates(r, _) => ReceiptFits(r)
    case ForwardRoll(r, _) => ReceiptFits(r)
    case Switch(r) => ReceiptFits(r)
    case MarkDisabled(d) => FitsColumn(d.at)
    case MarkUninstalled(u) => FitsColumn(u.at)
    case AddSurfaces(_, _) => true
    case Begin(m) => DrillFits(m)
    case CompleteStep(_, _, at) => FitsColumn(at)
    case Pronounce(_, _, at) => FitsColumn(at)
    case Abandon(a) => FitsColumn(a.at)
  }

  lemma LifecycleCommitFits(w: World, c: Command)
    requires Decide(w, c).Commit?
    requires c.Install? || c.Update? || c.Disable? || c.Uninstall? || c.Rollback? || c.Register?
    ensures ChangeFits(Decide(w, c).change)
  {
  }

  lemma DrillCommitFits(w: World, c: Command)
    requires Decide(w, c).Commit?
    requires c.Migrate? || c.RecordStep? || c.CheckHealth? || c.Activate? || c.RollBackDrill?
    ensures ChangeFits(Decide(w, c).change)
  {
  }

  lemma ChangeKeepsColumns(db: Db, change: Change)
    requires Applicable(db, change) && ChangeFits(change) && ColumnsHold(db)
    ensures ColumnsHold(Apply(db, change))
  {
  }

  lemma StepKeepsColumns(w: World, c: Command)
    requires ColumnsHold(w.db)
    ensures ColumnsHold(Step(w, c).db)
  {
    if !c.Publish? && Decide(w, c).Commit? {
      if c.Install? || c.Update? || c.Disable? || c.Uninstall? || c.Rollback? || c.Register? {
        LifecycleCommitFits(w, c);
      } else {
        DrillCommitFits(w, c);
      }
      ChangeKeepsColumns(w.db, Decide(w, c).change);
    }
  }

  lemma {:induction false} RunKeepsColumns(w: World, commands: seq<Command>)
    requires ColumnsHold(w.db)
    ensures ColumnsHold(Run(w, commands).db)
    decreases |commands|
  {
    if commands != [] {
      StepKeepsColumns(w, commands[0]);
      RunKeepsColumns(Step(w, commands[0]), commands[1..]);
    }
  }

  /** In every reachable world these numbers fit their columns, and no receipt is of a package without entries. */
  lemma ReachableHoldsColumns(w: World)
    requires Reachable(w)
    ensures ColumnsHold(w.db)
  {
    var commands :| w == Run(EMPTY_WORLD, commands);
    RunKeepsColumns(EMPTY_WORLD, commands);
  }
}
