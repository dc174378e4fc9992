/** Exactly which live drills can still end. */
module DrillEndings {
  import opened Records
  import opened Changes
  import opened Commands
  import opened Runs
  import opened Invariants
  import opened Preservation
  import opened Reachability
  import opened Durability
  import opened Clocks
  import opened DrillTheorems

  predicate LiveAt(db: Db, k: Key) {
    k in db.migrations && IsLive(db.migrations[k])
  }

  predicate LivePassed(db: Db, k: Key) {
    LiveAt(db, k) && db.migrations[k].health.Passed?
  }

  predicate EndedAt(db: Db, k: Key) {
    k in db.migrations && !IsLive(db.migrations[k])
  }

  ghost predicate CanEnd(w: World, k: Key) {
    exists commands :: EndedAt(Run(w, commands).db, k)
  }

  lemma EndsByOne(w: World, c: Command, k: Key)
    requires EndedAt(Step(w, c).db, k)
    ensures CanEnd(w, k)
  {
    assert [c][1..] == [];
    assert Run(w, [c]) == Step(w, c);
  }

  lemma EndsAfterOne(w: World, c: Command, w1: World, k: Key)
    requires w1 == Step(w, c) && CanEnd(w1, k)
    ensures CanEnd(w, k)
  {
    var rest :| EndedAt(Run(w1, rest).db, k);
    assert ([c] + rest)[1..] == rest;
    assert Run(w, [c] + rest) == Run(w1, rest);
  }

  /** The first moment the drill's and the row's clocks allow. */
  function EarliestEnd(row: Application, m: Migration): nat {
    if row.createdAt <= m.updatedAt then m.updatedAt else row.createdAt
  }

  /** The row is still the drill's baseline, its key is free, and there is a next generation. */
  predicate CanStillSwitch(db: Db, k: Key)
    requires k in db.migrations
  {
    !Stale(db, k) && k !in db.installations && FitsColumn(db.migrations[k].fromGeneration + 1)
  }

  // ---------- a passed drill can end ----------

  lemma ReadyIsActivatable(w: World, k: Key, at: nat)
    requires HistoryDense(w.db) && LivePassed(w.db, k) && DrillSound(w, k, w.db.migrations[k])
    requires CanStillSwitch(w.db, k) && RowFits(w.db.applications[w.db.migrations[k].package])
    requires DrillFits(w.db.migrations[k])
    requires at == EarliestEnd(w.db.applications[w.db.migrations[k].package], w.db.migrations[k])
    ensures Activatable(w, k, at)
  {
    var m := w.db.migrations[k];
    assert RowDense(w.db, m.package, w.db.applications[m.package]);
  }

  lemma ActivationEnds(w: World, q: DrillRequest)
    requires ActivatePackageMigration(w.db, w.store, q).Commit?
    ensures EndedAt(Step(w, Activate(q)).db, q.key)
  {
  }

  lemma BaselineIsThere(w: World, k: Key)
    requires DrillsSound(w) && k in w.db.migrations
    ensures w.db.migrations[k].package in w.db.applications && DrillSound(w, k, w.db.migrations[k])
  {
    assert DrillSound(w, k, w.db.migrations[k]);
  }

  lemma ReadyCommits(w: World, q: DrillRequest)
    requires Inv(w) && ColumnsHold(w.db) && LivePassed(w.db, q.key) && CanStillSwitch(w.db, q.key)
    requires w.db.migrations[q.key].package in w.db.applications
    requires q.at == EarliestEnd(w.db.applications[w.db.migrations[q.key].package], w.db.migrations[q.key])
    ensures ActivatePackageMigration(w.db, w.store, q).Commit?
  {
    ReadyIsActivatable(w, q.key, q.at);
    ActivationCommitsIff(w, q);
  }

  lemma PassedCanEnd(w: World, k: Key)
    requires Inv(w) && ColumnsHold(w.db) && LivePassed(w.db, k) && CanStillSwitch(w.db, k)
    ensures CanEnd(w, k)
  {
    BaselineIsThere(w, k);
    var m := w.db.migrations[k];
    var q := DrillRequest(k, EarliestEnd(w.db.applications[m.package], m));
    ReadyCommits(w, q);
    ActivationEnds(w, q);
    EndsByOne(w, Activate(q), k);
  }

  // ---------- a refuted drill can end ----------

  /** What a drill needs to be closed at its own clock: a sound row on its baseline. */
  ghost predicate Closable(w: World, k: Key) {
    && LiveAt(w.db, k) && DrillSound(w, k, w.db.migrations[k]) && DrillFits(w.db.migrations[k])
    && BaselineRefusal(w.db, w.db.migrations[k]).None?
  }

  lemma NotStaleIsClosable(w: World, k: Key)
    requires Inv(w) && ColumnsHold(w.db) && LiveAt(w.db, k) && !Stale(w.db, k)
    ensures Closable(w, k)
  {
    FreshSeesBaseline(w, k);
    BaselineIsThere(w, k);
    assert RowDense(w.db, w.db.migrations[k].package, w.db.applications[w.db.migrations[k].package]);
  }

  lemma RefutedRollsBack(w: World, q: DrillRequest)
    requires Closable(w, q.key) && w.db.migrations[q.key].health.Refuted? && q.at == w.db.migrations[q.key].updatedAt
    ensures RollbackPackageMigration(w.db, q).Commit?
    ensures EndedAt(Step(w, RollBackDrill(q)).db, q.key)
  {
  }

  lemma RefutedCanEnd(w: World, k: Key)
    requires Inv(w) && ColumnsHold(w.db) && LiveAt(w.db, k) && !Stale(w.db, k)
    requires w.db.migrations[k].health.Refuted?
    ensures CanEnd(w, k)
  {
    NotStaleIsClosable(w, k);
    var q := DrillRequest(k, w.db.migrations[k].updatedAt);
    RefutedRollsBack(w, q);
    EndsByOne(w, RollBackDrill(q), k);
  }

  // ---------- an unchecked drill can end ----------

  /** The drill moved along, at its own clock, and its row did not. */
  predicate Moved(w: World, w1: World, k: Key) {
    && LiveAt(w.db, k) && LiveAt(w1.db, k)
    && w1.db.applications == w.db.applications && SameFrozen(w.db.migrations[k], w1.db.migrations[k])
  }

  lemma MovedIsNotStale(w: World, w1: World, k: Key)
    requires Moved(w, w1, k) && !Stale(w.db, k)
    ensures !Stale(w1.db, k)
  {
  }

  lemma FailingVerdict(w: World, q: DrillRequest, w1: World)
    requires Closable(w, q.key) && q.at == w.db.migrations[q.key].updatedAt && w1 == Step(w, CheckHealth(q, false))
    requires w.db.migrations[q.key].health.Unchecked?
    requires CompletedSteps(w.db, q.key) == w.db.migrations[q.key].declaredSteps
    ensures Moved(w, w1, q.key) && w1.db.migrations[q.key].health.Refuted?
  {
  }

  lemma FullDrillCanEnd(w: World, k: Key)
    requires Inv(w) && ColumnsHold(w.db) && LiveAt(w.db, k) && !Stale(w.db, k)
    requires w.db.migrations[k].health.Unchecked? && CompletedSteps(w.db, k) == w.db.migrations[k].declaredSteps
    ensures CanEnd(w, k)
  {
    NotStaleIsClosable(w, k);
    var q := DrillRequest(k, w.db.migrations[k].updatedAt);
    var c := CheckHealth(q, false);
    var w1 := Step(w, c);
    FailingVerdict(w, q, w1);
    MovedIsNotStale(w, w1, k);
    CommandKeepsInv(w, c);
    StepKeepsColumns(w, c);
    RefutedCanEnd(w1, k);
    EndsAfterOne(w, c, w1, k);
  }

  lemma OneMoreStep(steps: map<nat, nat>, index: nat, at: nat)
    requires index !in steps
    ensures |steps[index := at]| == |steps| + 1
  {
    assert steps[index := at].Keys == steps.Keys + {index};
  }

  lemma NextStep(w: World, q: StepRequest, w1: World)
    requires Closable(w, q.key) && w.db.migrations[q.key].health.Unchecked?
    requires CompletedSteps(w.db, q.key) < w.db.migrations[q.key].declaredSteps
    requires q.index == CompletedSteps(w.db, q.key) + 1 && q.at == w.db.migrations[q.key].updatedAt
    requires w1 == Step(w, RecordStep(q))
    ensures Moved(w, w1, q.key) && w1.db.migrations[q.key].health.Unchecked?
    ensures CompletedSteps(w1.db, q.key) == CompletedSteps(w.db, q.key) + 1
  {
    OneMoreStep(StepsOf(w.db, q.key), q.index, q.at);
  }

  lemma {:induction false} UncheckedCanEnd(w: World, k: Key)
    requires Inv(w) && ColumnsHold(w.db) && LiveAt(w.db, k) && !Stale(w.db, k)
    requires w.db.migrations[k].health.Unchecked?
    ensures CanEnd(w, k)
    decreases w.db.migrations[k].declaredSteps - CompletedSteps(w.db, k)
  {
    NotStaleIsClosable(w, k);
    var m, completed := w.db.migrations[k], CompletedSteps(w.db, k);
    if completed == m.declaredSteps {
      FullDrillCanEnd(w, k);
    } else {
      var q := StepRequest(k, completed + 1, m.updatedAt);
      var c := RecordStep(q);
      var w1 := Step(w, c);
      NextStep(w, q, w1);
      MovedIsNotStale(w, w1, k);
      CommandKeepsInv(w, c);
      StepKeepsColumns(w, c);
      UncheckedCanEnd(w1, k);
      EndsAfterOne(w, c, w1, k);
    }
  }

  // ---------- only then ----------

  lemma EndingChange(w: World, change: Change, k: Key)
    requires Applicable(w.db, change) && Grounded(w, change) && LivePassed(w.db, k)
    requires EndedAt(Apply(w.db, change), k)
    ensures change.Switch? && change.receipt.key == k
  {
  }

  lemma EndingCommand(w: World, c: Command, k: Key)
    requires Inv(w) && LivePassed(w.db, k) && EndedAt(Step(w, c).db, k)
    ensures c.Activate? && c.drill.key == k && ActivatePackageMigration(w.db, w.store, c.drill).Commit?
  {
    CommitIsGrounded(w, c);
    EndingChange(w, Decide(w, c).change, k);
    SwitchIsActivation(w, c);
  }

  lemma SwitchIsActivation(w: World, c: Command)
    requires Decide(w, c).Commit? && Decide(w, c).change.Switch?
    ensures c.Activate? && Decide(w, c).change.receipt.key == c.drill.key
  {
  }

  lemma ActivatableCanSwitch(w: World, k: Key, at: nat)
    requires LivePassed(w.db, k) && Activatable(w, k, at)
    ensures CanStillSwitch(w.db, k)
  {
  }

  lemma EndedDrillsCould(w: World, c: Command, k: Key)
    requires Inv(w) && LivePassed(w.db, k) && EndedAt(Step(w, c).db, k)
    ensures CanStillSwitch(w.db, k)
  {
    EndingCommand(w, c, k);
    ActivationCommitsIff(w, c.drill);
    ActivatableCanSwitch(w, k, c.drill.at);
  }

  /** A passed drill that is still live has not moved. */
  lemma PassedDrillStays(w: World, w': World, k: Key)
    requires Extends(w, w') && DrillsSound(w) && DrillsSound(w') && LivePassed(w.db, k)
    requires k in w'.db.migrations && IsLive(w'.db.migrations[k])
    ensures LivePassed(w'.db, k) && w'.db.migrations[k].updatedAt == w.db.migrations[k].updatedAt
    ensures SameFrozen(w.db.migrations[k], w'.db.migrations[k])
  {
    assert DrillAdvances(w.db.migrations[k], w'.db.migrations[k]);
    assert DrillSound(w, k, w.db.migrations[k]) && DrillSound(w', k, w'.db.migrations[k]);
  }

  lemma CouldBefore(w: World, c: Command, w1: World, k: Key)
    requires Inv(w) && LivePassed(w.db, k) && w1 == Step(w, c) && Inv(w1) && Extends(w, w1)
    requires LivePassed(w1.db, k) && CanStillSwitch(w1.db, k)
    ensures CanStillSwitch(w.db, k)
  {
    PassedDrillStays(w, w1, k);
    LiveStepKeepsRow(w, c, w1, k);
    DrillHasItsKey(w, k);
    LiveStepFacts(w, c, w1, k);
  }

  lemma {:induction false} EndsOnlyIfItCan(w: World, commands: seq<Command>, k: Key)
    requires Inv(w) && LivePassed(w.db, k) && EndedAt(Run(w, commands).db, k)
    ensures CanStillSwitch(w.db, k)
    decreases |commands|
  {
    var c, rest := commands[0], commands[1..];
    if EndedAt(Step(w, c).db, k) {
      EndedDrillsCould(w, c, k);
    } else {
      CommandKeepsInv(w, c);
      CommandExtends(w, c);
      PassedDrillStays(w, Step(w, c), k);
      EndsOnlyIfItCan(Step(w, c), rest, k);
      CouldBefore(w, c, Step(w, c), k);
    }
  }

  lemma PassedCanEndExactlyWhen(w: World, k: Key)
    requires Inv(w) && ColumnsHold(w.db) && LivePassed(w.db, k)
    ensures CanEnd(w, k) <==> CanStillSwitch(w.db, k)
  {
    if CanEnd(w, k) {
      var commands :| EndedAt(Run(w, commands).db, k);
      EndsOnlyIfItCan(w, commands, k);
    }
    if CanStillSwitch(w.db, k) {
      PassedCanEnd(w, k);
    }
  }

  lemma StaleCannotEnd(w: World, k: Key)
    requires Inv(w) && Stale(w.db, k)
    ensures !CanEnd(w, k)
  {
    forall commands ensures !EndedAt(Run(w, commands).db, k) {
      StaleForever(w, commands, k);
    }
  }

  lemma UnpassedCanEndExactlyWhen(w: World, k: Key)
    requires Inv(w) && ColumnsHold(w.db) && LiveAt(w.db, k) && !w.db.migrations[k].health.Passed?
    ensures CanEnd(w, k) <==> !Stale(w.db, k)
  {
    if Stale(w.db, k) {
      StaleCannotEnd(w, k);
    } else if w.db.migrations[k].health.Refuted? {
      RefutedCanEnd(w, k);
    } else {
      UncheckedCanEnd(w, k);
    }
  }

  /**
   In every reachable world a live drill ends in some continuation if and only if its row is still its baseline and,
   once it has passed, its key names no receipt and there is a next generation.
   */
  lemma DrillCanEndExactlyWhen(w: World, k: Key)
    requires Reachable(w) && LiveAt(w.db, k)
    ensures CanEnd(w, k)
       <==> && !Stale(w.db, k)
            && (w.db.migrations[k].health.Passed? ==>
                  k !in w.db.installations && FitsColumn(w.db.migrations[k].fromGeneration + 1))
  {
    ReachableIsInvariant(w);
    ReachableHoldsColumns(w);
    if w.db.migrations[k].health.Passed? {
      PassedCanEndExactlyWhen(w, k);
    } else {
      UnpassedCanEndExactlyWhen(w, k);
    }
  }
}
