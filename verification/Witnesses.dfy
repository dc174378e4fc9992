/** Concrete runs that show where a tempting promise of the drill fails. */
module Witnesses {
  import opened Wrappers
  import opened Records
  import opened Versions
  import opened Changes
  import opened Commands
  import opened Runs
  import opened Reachability
  import opened DrillReceipts
  import opened DrillTheorems

  const V1 := Verified(1, 1, 1, 0, 1, 0, 0)
  const V2 := Verified(2, 1, 2, 0, 1, 0, 0)
  const V3 := Verified(3, 2, 3, 0, 1, 0, 0)

  const DRILL: Key := 20

  const BEGIN_DRILL := MigrateRequest(1, 2, DRILL, SameMajor, 1, 0)

  const STOCKED := World(EMPTY_DB, map[1 := V1, 2 := V2, 3 := V3])

  const R1 := NewReceipt(ApplicationId(1), VerifiedContent(V1), 1, 10, 0)
  const R3 := NewReceipt(ApplicationId(2), VerifiedContent(V3), 1, DRILL, 0)

  const INSTALLED_WORLD := World(PutInstallation(EMPTY_DB, R1), STOCKED.store)

  const DRILL_ROW := Migration(
    DRILL, ApplicationId(1), 1, 1, 1, 0, 2, 2, 0, SameMajor, 1, Pending, Unchecked, None, None, 0, 0)

  const BEGUN_WORLD := World(Apply(INSTALLED_WORLD.db, Begin(DRILL_ROW)), STOCKED.store)
  const STEPPED_WORLD := World(Apply(BEGUN_WORLD.db, CompleteStep(DRILL, 1, 0)), STOCKED.store)
  const PASSED_WORLD := World(Apply(STEPPED_WORLD.db, Pronounce(DRILL, true, 0)), STOCKED.store)
  const SHADOWED_WORLD := World(PutInstallation(PASSED_WORLD.db, R3), STOCKED.store)

  lemma PublishAll()
    ensures Step(Step(Step(EMPTY_WORLD, Publish(V1)), Publish(V2)), Publish(V3)) == STOCKED
  {
  }

  lemma InstallFirst()
    ensures Step(STOCKED, Install(InstallRequest(1, 10, 0))) == INSTALLED_WORLD
  {
  }

  lemma BeginIt()
    ensures Step(INSTALLED_WORLD, Migrate(BEGIN_DRILL)) == BEGUN_WORLD
  {
    assert !HasLiveDrill(INSTALLED_WORLD.db, ApplicationId(1));
  }

  lemma StepIt()
    ensures Step(BEGUN_WORLD, RecordStep(StepRequest(DRILL, 1, 0))) == STEPPED_WORLD
  {
  }

  lemma SteppedFacts()
    ensures DRILL in STEPPED_WORLD.db.migrations
    ensures STEPPED_WORLD.db.migrations[DRILL] == DRILL_ROW.(state := Running)
    ensures CompletedSteps(STEPPED_WORLD.db, DRILL) == 1
  {
    assert STEPPED_WORLD.db.steps[DRILL] == map[1 := 0];
  }

  lemma PassDecides()
    ensures RunMigrationHealthCheck(STEPPED_WORLD.db, STOCKED.store, DrillRequest(DRILL, 0), true)
         == Commit(Pronounce(DRILL, true, 0), HealthFact(DRILL, true, 0))
  {
    SteppedFacts();
  }

  lemma StepOfCommit(w: World, c: Command, change: Change, fact: Fact)
    requires !c.Publish? && Decide(w, c) == Commit(change, fact)
    ensures Applicable(w.db, change) && Step(w, c) == World(Apply(w.db, change), w.store)
  {
  }

  lemma PassIt()
    ensures Step(STEPPED_WORLD, CheckHealth(DrillRequest(DRILL, 0), true)) == PASSED_WORLD
  {
    PassDecides();
    StepOfCommit(
      STEPPED_WORLD, CheckHealth(DrillRequest(DRILL, 0), true), Pronounce(DRILL, true, 0), HealthFact(DRILL, true, 0));
  }

  lemma ShadowDecides()
    ensures InstallApplication(PASSED_WORLD.db, STOCKED.store, InstallRequest(3, DRILL, 0))
         == Commit(Installs(R3), InstallationFact(R3))
  {
    PassedFacts();
  }

  lemma ShadowIt()
    ensures Step(PASSED_WORLD, Install(InstallRequest(3, DRILL, 0))) == SHADOWED_WORLD
  {
    ShadowDecides();
    StepOfCommit(PASSED_WORLD, Install(InstallRequest(3, DRILL, 0)), Installs(R3), InstallationFact(R3));
  }

  lemma RunCons(w: World, c: Command, w1: World, rest: seq<Command>, last: World)
    requires Step(w, c) == w1 && Run(w1, rest) == last
    ensures Run(w, [c] + rest) == last
  {
    assert ([c] + rest)[1..] == rest;
  }

  // The run up to the verdict, last command first.
  const FROM_VERDICT: seq<Command> := [CheckHealth(DrillRequest(DRILL, 0), true)] + []
  const FROM_STEP: seq<Command> := [RecordStep(StepRequest(DRILL, 1, 0))] + FROM_VERDICT
  const FROM_BEGIN: seq<Command> := [Migrate(BEGIN_DRILL)] + FROM_STEP
  const FROM_INSTALL: seq<Command> := [Install(InstallRequest(1, 10, 0))] + FROM_BEGIN

  /** Install package 1 and drill it through to a passed verdict. */
  const TO_PASSED: seq<Command> := [Publish(V1), Publish(V2), Publish(V3)] + FROM_INSTALL

  lemma PassedRunFrom()
    ensures Run(STOCKED, FROM_INSTALL) == PASSED_WORLD
  {
    PassIt();
    assert Run(PASSED_WORLD, []) == PASSED_WORLD;
    RunCons(STEPPED_WORLD, CheckHealth(DrillRequest(DRILL, 0), true), PASSED_WORLD, [], PASSED_WORLD);
    StepIt();
    RunCons(BEGUN_WORLD, RecordStep(StepRequest(DRILL, 1, 0)), STEPPED_WORLD, FROM_VERDICT, PASSED_WORLD);
    BeginIt();
    RunCons(INSTALLED_WORLD, Migrate(BEGIN_DRILL), BEGUN_WORLD, FROM_STEP, PASSED_WORLD);
    InstallFirst();
    RunCons(STOCKED, Install(InstallRequest(1, 10, 0)), INSTALLED_WORLD, FROM_BEGIN, PASSED_WORLD);
  }

  lemma PassedRun()
    ensures Run(EMPTY_WORLD, TO_PASSED) == PASSED_WORLD
  {
    PublishAll();
    PassedRunFrom();
    var tail := FROM_INSTALL;
    RunCons(Step(Step(EMPTY_WORLD, Publish(V1)), Publish(V2)), Publish(V3), STOCKED, tail, PASSED_WORLD);
    RunCons(
      Step(EMPTY_WORLD, Publish(V1)), Publish(V2), Step(Step(EMPTY_WORLD, Publish(V1)), Publish(V2)),
      [Publish(V3)] + tail, PASSED_WORLD);
    RunCons(
      EMPTY_WORLD, Publish(V1), Step(EMPTY_WORLD, Publish(V1)), [Publish(V2)] + ([Publish(V3)] + tail), PASSED_WORLD);
    assert TO_PASSED == [Publish(V1)] + ([Publish(V2)] + ([Publish(V3)] + tail));
  }

  lemma OneMore(w: World, c: Command, w': World)
    requires Step(w, c) == w'
    ensures Run(w, [c]) == w'
  {
    assert [c][1..] == [];
  }

  /** A passed drill, then package 2 installed under the drill's key. */
  const SHADOWING: seq<Command> := TO_PASSED + [Install(InstallRequest(3, DRILL, 0))]

  lemma ShadowingRun()
    ensures Run(EMPTY_WORLD, SHADOWING) == SHADOWED_WORLD
  {
    RunSplits(EMPTY_WORLD, TO_PASSED, [Install(InstallRequest(3, DRILL, 0))]);
    PassedRun();
    ShadowIt();
    OneMore(PASSED_WORLD, Install(InstallRequest(3, DRILL, 0)), SHADOWED_WORLD);
  }

  lemma PassedFacts()
    ensures DRILL in PASSED_WORLD.db.migrations
    ensures PASSED_WORLD.db.migrations[DRILL] == DRILL_ROW.(state := Running, health := Passed, checkedAt := Some(0))
    ensures PASSED_WORLD.db.applications == INSTALLED_WORLD.db.applications
  {
    SteppedFacts();
  }

  lemma ShadowedFacts()
    ensures KeyShadowed(SHADOWED_WORLD.db, DRILL)
    ensures BaselineRefusal(SHADOWED_WORLD.db, SHADOWED_WORLD.db.migrations[DRILL]).None?
  {
    PassedFacts();
  }

  /**
   A drill with every step done, a passed verdict and an untouched baseline need not be activatable: another
   package's install under the drill's key takes the receipt key first. In no continuation does the drill end.
   */
  lemma UntouchedPassedDrillMayNeverEnd(w: World, commands: seq<Command>, w': World)
    requires w == Run(EMPTY_WORLD, SHADOWING) && w' == Run(w, commands)
    ensures KeyShadowed(w.db, DRILL) && BaselineRefusal(w.db, w.db.migrations[DRILL]).None?
    ensures KeyShadowed(w'.db, DRILL)
  {
    ShadowingRun();
    ShadowedFacts();
    ReachableWorldsAreInvariant(SHADOWING);
    ShadowedForever(w, commands, DRILL);
  }

  // ---------- the drill's own receipt without its activation ----------

  const SHARED_UPDATE := UpdateRequest(1, 2, DRILL, 0, SameMajor)
  const R2 := NewReceipt(ApplicationId(1), VerifiedContent(V2), 2, DRILL, 0)

  lemma NextIsTwo()
    ensures NextInstallationGeneration(PASSED_WORLD.db, ApplicationId(1), PASSED_WORLD.db.applications[1]) == 2
  {
    var recorded := GenerationsOf(PASSED_WORLD.db, ApplicationId(1));
    assert Slot(ApplicationId(1), 1) in PASSED_WORLD.db.slots;
    assert recorded == {1};
  }

  lemma SharedUpdateCommits()
    ensures UpdateApplication(PASSED_WORLD.db, STOCKED.store, SHARED_UPDATE)
         == Commit(Updates(R2, SameMajor), InstallationFact(R2))
  {
    PassedFacts();
    NextIsTwo();
  }

  const SHARING: seq<Command> := TO_PASSED + [Update(SHARED_UPDATE)]

  lemma SharingRun(w: World)
    requires w == Step(PASSED_WORLD, Update(SHARED_UPDATE))
    ensures Run(EMPTY_WORLD, SHARING) == w
  {
    RunSplits(EMPTY_WORLD, TO_PASSED, [Update(SHARED_UPDATE)]);
    PassedRun();
    OneMore(PASSED_WORLD, Update(SHARED_UPDATE), w);
  }

  lemma SharedReceipt(w: World)
    requires w == Step(PASSED_WORLD, Update(SHARED_UPDATE))
    ensures DRILL in w.db.installations && w.db.installations[DRILL] == R2
    ensures PassedAt(w.db, DRILL) && HasOwnReceipt(w.db, DRILL) && !DoneAt(w.db, DRILL)
  {
    SharedUpdateCommits();
    PassedFacts();
  }

  /**
   After the drill has passed, an update to the drill's own target under the drill's own key leaves a receipt at the
   next generation with the target digest, although the drill has not ended.
   */
  lemma ReceiptWithoutActivation(w: World)
    requires w == Run(EMPTY_WORLD, SHARING)
    ensures DRILL in w.db.installations && w.db.installations[DRILL] == R2
    ensures PassedAt(w.db, DRILL) && HasOwnReceipt(w.db, DRILL) && !DoneAt(w.db, DRILL)
  {
    var reached := Step(PASSED_WORLD, Update(SHARED_UPDATE));
    SharingRun(reached);
    SharedReceipt(reached);
  }
}
