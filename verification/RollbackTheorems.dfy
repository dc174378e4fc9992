/** Exactly when a rollback commits, and the one refusal its binding can still cause. */
module RollbackTheorems {
  import opened Wrappers
  import opened Records
  import opened Versions
  import opened Changes
  import opened Commands
  import opened Runs
  import opened Invariants
  import opened Reachability
  import opened LifecycleTheorems
  import opened Witnesses

  /** An unused key, and a disabled or uninstalled row past its first generation that is not dated after the request. */
  predicate ReachesRollbackGate(db: Db, q: LifecycleRequest) {
    && q.key !in db.rollbacks && q.key !in db.installations
    && q.package in db.applications
    && var row := db.applications[q.package];
    row.status != Installed && 2 <= row.generation && row.updatedAt <= q.at
  }

  /** And an idle application, and room for the next generation. */
  predicate Restorable(db: Db, q: LifecycleRequest, activity: Activity) {
    && ReachesRollbackGate(db, q) && Idle(activity)
    && db.applications[q.package].generation < I64_MAX && q.at <= I64_MAX
  }

  /** The installation that a rollback restores. */
  function Restored(db: Db, q: LifecycleRequest): Option<InstallationReceipt> {
    if q.package in db.applications && 2 <= db.applications[q.package].generation
    then ReceiptAt(db, ApplicationId(q.package), db.applications[q.package].generation - 1)
    else None
  }

  /** What a row's history and its verified packages give a rollback of it. */
  predicate HistoryStands(db: Db, q: LifecycleRequest) {
    q.package in db.applications ==>
      var row := db.applications[q.package];
      && row.createdAt <= row.updatedAt
      && (2 <= row.generation ==> Restored(db, q).Some? && ContentFits(Restored(db, q).value))
      && Slot(ApplicationId(q.package), row.generation + 1) !in db.slots
      && NextInstallationGeneration(db, ApplicationId(q.package), row) == row.generation + 1
  }

  lemma ReceiptContentFits(w: World, r: InstallationReceipt)
    requires StoreKeyed(w.store) && Proven(w.store, r)
    ensures ContentFits(r)
  {
  }

  lemma HistoryAllowsRollback(w: World, q: LifecycleRequest)
    requires StoreKeyed(w.store) && Provenance(w) && ReceiptsKeyed(w.db) && HistoryDense(w.db)
    ensures HistoryStands(w.db, q)
  {
    if q.package in w.db.applications {
      HistoryAroundRow(w.db, q.package);
      assert RowDense(w.db, q.package, w.db.applications[q.package]);
      if Restored(w.db, q).Some? {
        ReceiptContentFits(w, Restored(w.db, q).value);
      }
    }
  }

  lemma RollbackLadder(db: Db, q: LifecycleRequest, activity: Activity)
    requires HistoryStands(db, q)
    ensures Restorable(db, q, activity) ==> Restored(db, q).Some?
    ensures RollbackApplication(db, q, activity).Commit?
       <==> Restorable(db, q, activity) && Restored(db, q).value.installedAt <= q.at
    ensures RollbackApplication(db, q, activity) == Refuse(RollbackPrecedesRestoredInstallation)
       <==> Restorable(db, q, activity) && q.at < Restored(db, q).value.installedAt
    ensures RollbackApplication(db, q, activity) != Refuse(CorruptRecord)
    ensures RollbackApplication(db, q, activity) == Refuse(ApplicationActiveTasksRunning)
       <==> ReachesRollbackGate(db, q) && Busy(activity)
    ensures RollbackApplication(db, q, activity) == Refuse(TaskActivityQueryFailed)
       <==> ReachesRollbackGate(db, q) && activity.QueryFailed?
  {
  }

  /**
   A restorable application is rolled back exactly when the request is not dated before the installation it
   restores, and is refused with that very error exactly when it is. One that reaches the gate is refused by it exactly
   when work is running or cannot be asked for; no rollback finds a corrupt record.
   */
  lemma RollbackDecidesByTime(w: World, q: LifecycleRequest, activity: Activity)
    requires Inv(w)
    ensures Restorable(w.db, q, activity) ==> Restored(w.db, q).Some?
    ensures RollbackApplication(w.db, q, activity).Commit?
       <==> Restorable(w.db, q, activity) && Restored(w.db, q).value.installedAt <= q.at
    ensures RollbackApplication(w.db, q, activity) == Refuse(RollbackPrecedesRestoredInstallation)
       <==> Restorable(w.db, q, activity) && q.at < Restored(w.db, q).value.installedAt
    ensures RollbackApplication(w.db, q, activity) != Refuse(CorruptRecord)
    ensures RollbackApplication(w.db, q, activity) == Refuse(ApplicationActiveTasksRunning)
       <==> ReachesRollbackGate(w.db, q) && Busy(activity)
    ensures RollbackApplication(w.db, q, activity) == Refuse(TaskActivityQueryFailed)
       <==> ReachesRollbackGate(w.db, q) && activity.QueryFailed?
  {
    HistoryAllowsRollback(w, q);
    RollbackLadder(w.db, q, activity);
  }

  // ---------- a run in which it does ----------

  const V4 := Verified(4, 1, 4, 0, 1, 0, 0)

  const STORE: Store := map[1 := V1, 2 := V2, 4 := V4]

  const G1 := NewReceipt(ApplicationId(1), VerifiedContent(V1), 1, 10, 100)
  const G2 := NewReceipt(ApplicationId(1), VerifiedContent(V2), 2, 11, 300)
  const G3 := NewReceipt(ApplicationId(1), VerifiedContent(V4), 3, 12, 200)
  const OFF := DisableReceipt(ApplicationId(1), 3, 13, 200)

  const AT_ONE := World(PutInstallation(EMPTY_DB, G1), STORE)
  const AT_TWO := World(PutInstallation(AT_ONE.db, G2), STORE)
  const AT_THREE := World(PutInstallation(AT_TWO.db, G3), STORE)
  const SWITCHED_OFF := World(Apply(AT_THREE.db, MarkDisabled(OFF)), STORE)

  lemma PublishThem()
    ensures Step(Step(Step(EMPTY_WORLD, Publish(V1)), Publish(V2)), Publish(V4)) == World(EMPTY_DB, STORE)
  {
  }

  lemma ReachOne()
    ensures Step(World(EMPTY_DB, STORE), Install(InstallRequest(1, 10, 100))) == AT_ONE
  {
  }

  lemma NextAfterOne()
    ensures NextInstallationGeneration(AT_ONE.db, ApplicationId(1), AT_ONE.db.applications[1]) == 2
  {
    assert Slot(ApplicationId(1), 1) in AT_ONE.db.slots;
    assert GenerationsOf(AT_ONE.db, ApplicationId(1)) == {1};
  }

  lemma NextAfterTwo()
    ensures NextInstallationGeneration(AT_TWO.db, ApplicationId(1), AT_TWO.db.applications[1]) == 3
  {
    assert Slot(ApplicationId(1), 1) in AT_TWO.db.slots && Slot(ApplicationId(1), 2) in AT_TWO.db.slots;
    assert GenerationsOf(AT_TWO.db, ApplicationId(1)) == {1, 2};
  }

  lemma ReachTwo()
    ensures Step(AT_ONE, Update(UpdateRequest(1, 2, 11, 300, SameMajor))) == AT_TWO
  {
    NextAfterOne();
  }

  lemma ReachThree()
    ensures Step(AT_TWO, Update(UpdateRequest(1, 4, 12, 200, SameMajor))) == AT_THREE
  {
    NextAfterTwo();
  }

  lemma SwitchOff()
    ensures Step(AT_THREE, Disable(LifecycleRequest(1, 13, 200))) == SWITCHED_OFF
  {
  }

  lemma RefusedByTheBinding()
    ensures RollbackApplication(SWITCHED_OFF.db, LifecycleRequest(1, 14, 250), Ungated)
         == Refuse(RollbackPrecedesRestoredInstallation)
  {
  }

  lemma StockIsReachable()
    ensures Reachable(World(EMPTY_DB, STORE))
  {
    assert Run(EMPTY_WORLD, []) == EMPTY_WORLD;
    StepIsReachable(EMPTY_WORLD, Publish(V1));
    StepIsReachable(Step(EMPTY_WORLD, Publish(V1)), Publish(V2));
    StepIsReachable(Step(Step(EMPTY_WORLD, Publish(V1)), Publish(V2)), Publish(V4));
    PublishThem();
  }

  lemma SwitchedOffIsReachable()
    ensures Reachable(SWITCHED_OFF)
  {
    StockIsReachable();
    StepIsReachable(World(EMPTY_DB, STORE), Install(InstallRequest(1, 10, 100)));
    ReachOne();
    StepIsReachable(AT_ONE, Update(UpdateRequest(1, 2, 11, 300, SameMajor)));
    ReachTwo();
    StepIsReachable(AT_TWO, Update(UpdateRequest(1, 4, 12, 200, SameMajor)));
    ReachThree();
    StepIsReachable(AT_THREE, Disable(LifecycleRequest(1, 13, 200)));
    SwitchOff();
  }

  /**
   A reachable world whose second generation is dated after its third: a rollback to it, dated in between, passes
   every other guard and is refused by the binding.
   */
  lemma BindingCanRefuse()
    ensures Reachable(SWITCHED_OFF)
    ensures RollbackApplication(SWITCHED_OFF.db, LifecycleRequest(1, 14, 250), Ungated)
         == Refuse(RollbackPrecedesRestoredInstallation)
  {
    SwitchedOffIsReachable();
    RefusedByTheBinding();
  }
}
