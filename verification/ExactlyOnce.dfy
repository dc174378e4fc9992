/** Redelivering a committed request, at any later point of any run, answers with the recorded fact and changes nothing. */
module ExactlyOnce {
  import opened Records
  import opened Surfaces
  import opened Changes
  import opened Commands
  import opened Runs
  import opened Invariants
  import opened Preservation
  import opened Reachability
  import opened Durability

  /** The tables record `f` as the answer to this very request. */
  predicate Answers(w: World, c: Command, f: Fact) {
    match c
    case Publish(_) => false
    case Install(q) => q.receipt in w.store && AnswersInstallation(w.db, q.key, q.receipt, q.at, f)
    case Update(q) => q.receipt in w.store && AnswersInstallation(w.db, q.key, q.receipt, q.at, f)
    case Disable(q) =>
      q.key in w.db.disables && f == DisableFact(w.db.disables[q.key])
      && f.disable.application == ApplicationId(q.package) && f.disable.at == q.at
    case Uninstall(q, _) =>
      q.key in w.db.uninstalls && f == UninstallFact(w.db.uninstalls[q.key])
      && f.uninstall.application == ApplicationId(q.package) && f.uninstall.at == q.at
    case Rollback(q, _) =>
      q.key in w.db.rollbacks && f == RollbackFact(w.db.rollbacks[q.key])
      && f.rollback.application == ApplicationId(q.package) && f.rollback.at == q.at
    case Register(q) =>
      q.key in w.db.surfaces && f == SurfacesFact(w.db.surfaces[q.key])
      && SegmentVerdict(q.surfaces).None? && !SurfaceReplayConflicts(f.rows, q)
    case Migrate(q) =>
      && q.receipt in w.store && q.key in w.db.migrations
      && f.DrillFact? && SameFrozen(f.drill, w.db.migrations[q.key])
      && f.drill.application == ApplicationId(q.package) && f.drill.verificationId == q.receipt
      && f.drill.window == q.window && f.drill.declaredSteps == q.declaredSteps && f.drill.createdAt == q.at
    case RecordStep(q) =>
      FitsColumn(q.index) && q.key in w.db.steps && q.index in w.db.steps[q.key]
      && w.db.steps[q.key][q.index] == q.at && f == StepFact(q.key, q.index, q.at)
    case CheckHealth(q, _) =>
      && q.key in w.db.migrations && !w.db.migrations[q.key].health.Unchecked?
      && w.db.migrations[q.key].checkedAt.Some?
      && f == HealthFact(q.key, w.db.migrations[q.key].health.Passed?, w.db.migrations[q.key].checkedAt.value)
    case Activate(q) =>
      && q.key in w.db.migrations && w.db.migrations[q.key].state.Done?
      && q.key in w.db.installations && f == InstallationFact(w.db.installations[q.key])
    case RollBackDrill(q) =>
      q.key in w.db.migrationRollbacks && f == MigrationRollbackFact(w.db.migrationRollbacks[q.key])
      && f.abandoned.at == q.at
  }

  predicate AnswersInstallation(db: Db, key: Key, receipt: ReceiptId, at: nat, f: Fact) {
    key in db.installations && f == InstallationFact(db.installations[key])
    && f.installation.verificationId == receipt && f.installation.installedAt == at
  }

  /**
   How a redelivery is answered: with the recorded fact; a drill's begin with the drill's present state, its frozen
   part unchanged; a health check with the recorded verdict while the drill is live, and refused once it has ended.
   */
  predicate RepliesWith(w: World, c: Command, f: Fact) {
    match c
    case Migrate(q) =>
      && q.key in w.db.migrations && f.DrillFact? && SameFrozen(f.drill, w.db.migrations[q.key])
      && Decide(w, c) == Replay(DrillFact(w.db.migrations[q.key], CompletedSteps(w.db, q.key)))
    case CheckHealth(q, _) =>
      && q.key in w.db.migrations
      && Decide(w, c) == if IsLive(w.db.migrations[q.key]) then Replay(f) else Refuse(MigrationTerminal)
    case _ => Decide(w, c) == Replay(f)
  }

  /** What the caller sends: everything but what the activity query and the health probe happen to answer. */
  function Request(c: Command): Command {
    match c
    case Uninstall(q, _) => Uninstall(q, Ungated)
    case Rollback(q, _) => Rollback(q, Ungated)
    case CheckHealth(q, _) => CheckHealth(q, true)
    case _ => c
  }

  predicate SameRequest(c: Command, c': Command) {
    Request(c) == Request(c')
  }

  /** A recorded answer is an answer to the request, whatever the query or the probe says this time. */
  lemma AnswersTheRequest(w: World, c: Command, c': Command, f: Fact)
    requires SameRequest(c, c') && Answers(w, c, f)
    ensures Answers(w, c', f)
  {
  }

  // ---------- a commit records its answer ----------

  lemma InstallAnswers(w: World, q: InstallRequest)
    requires StoreKeyed(w.store) && HistoryDense(w.db) && InstallApplication(w.db, w.store, q).Commit?
    ensures Answers(Step(w, Install(q)), Install(q), InstallApplication(w.db, w.store, q).fact)
  {
    InstallCommits(w, q);
  }

  lemma UpdateAnswers(w: World, q: UpdateRequest)
    requires StoreKeyed(w.store) && HistoryDense(w.db) && UpdateApplication(w.db, w.store, q).Commit?
    ensures Answers(Step(w, Update(q)), Update(q), UpdateApplication(w.db, w.store, q).fact)
  {
    UpdateCommits(w, q);
  }

  lemma DisableAnswers(w: World, q: LifecycleRequest)
    requires DisableApplication(w.db, q).Commit?
    ensures Answers(Step(w, Disable(q)), Disable(q), DisableApplication(w.db, q).fact)
  {
    DisableCommits(w.db, q);
  }

  lemma UninstallAnswers(w: World, q: LifecycleRequest, activity: Activity)
    requires UninstallApplication(w.db, q, activity).Commit?
    ensures Answers(Step(w, Uninstall(q, activity)), Uninstall(q, activity), UninstallApplication(w.db, q, activity).fact)
  {
    UninstallCommits(w.db, q, activity);
  }

  lemma RollbackAnswers(w: World, q: LifecycleRequest, activity: Activity)
    requires RollbackApplication(w.db, q, activity).Commit?
    ensures Answers(Step(w, Rollback(q, activity)), Rollback(q, activity), RollbackApplication(w.db, q, activity).fact)
  {
    RollbackClears(w.db, q, activity);
  }

  lemma RegisterAnswers(w: World, q: SurfacesRequest)
    requires RegisterSurfaces(w.db, q).Commit?
    ensures Answers(Step(w, Register(q)), Register(q), RegisterSurfaces(w.db, q).fact)
  {
    RegisterCommits(w.db, q);
  }

  lemma MigrateAnswers(w: World, q: MigrateRequest)
    requires StoreKeyed(w.store) && ReceiptsKeyed(w.db) && MigrateApplication(w.db, w.store, q).Commit?
    ensures Answers(Step(w, Migrate(q)), Migrate(q), MigrateApplication(w.db, w.store, q).fact)
  {
  }

  lemma StepAnswers(w: World, q: StepRequest)
    requires RecordMigrationStep(w.db, q).Commit?
    ensures Answers(Step(w, RecordStep(q)), RecordStep(q), RecordMigrationStep(w.db, q).fact)
  {
    StepCommits(w.db, q);
  }

  lemma HealthAnswers(w: World, q: DrillRequest, healthy: bool)
    requires RunMigrationHealthCheck(w.db, w.store, q, healthy).Commit?
    ensures Answers(Step(w, CheckHealth(q, healthy)), CheckHealth(q, healthy),
                    RunMigrationHealthCheck(w.db, w.store, q, healthy).fact)
  {
    HealthCommits(w.db, w.store, q, healthy);
  }

  lemma AbandonAnswers(w: World, q: DrillRequest)
    requires RollbackPackageMigration(w.db, q).Commit?
    ensures Answers(Step(w, RollBackDrill(q)), RollBackDrill(q), RollbackPackageMigration(w.db, q).fact)
  {
    AbandonCommits(w.db, q);
  }

  lemma ActivateAnswers(w: World, q: DrillRequest)
    requires DrillsSound(w) && ActivatePackageMigration(w.db, w.store, q).Commit?
    ensures Answers(Step(w, Activate(q)), Activate(q), ActivatePackageMigration(w.db, w.store, q).fact)
  {
    ActivateCommits(w, q);
  }

  lemma CommitAnswers(w: World, c: Command)
    requires Inv(w) && Decide(w, c).Commit?
    ensures Answers(Step(w, c), c, Decide(w, c).fact)
  {
    match c
    case Install(q) => InstallAnswers(w, q);
    case Update(q) => UpdateAnswers(w, q);
    case Disable(q) => DisableAnswers(w, q);
    case Uninstall(q, activity) => UninstallAnswers(w, q, activity);
    case Rollback(q, activity) => RollbackAnswers(w, q, activity);
    case Register(q) => RegisterAnswers(w, q);
    case Migrate(q) => MigrateAnswers(w, q);
    case RecordStep(q) => StepAnswers(w, q);
    case CheckHealth(q, healthy) => HealthAnswers(w, q, healthy);
    case Activate(q) => ActivateAnswers(w, q);
    case RollBackDrill(q) => AbandonAnswers(w, q);
  }

  // ---------- an answer stays ----------

  lemma AnswerStays(w: World, w': World, c: Command, f: Fact)
    requires Extends(w, w') && Answers(w, c, f)
    ensures Answers(w', c, f)
  {
  }

  // ---------- an answer is given ----------

  lemma LifecycleAnswerIsGiven(w: World, c: Command, f: Fact)
    requires Answers(w, c, f)
    requires c.Install? || c.Update? || c.Disable? || c.Uninstall? || c.Rollback? || c.Register?
    ensures Decide(w, c) == Replay(f)
  {
  }

  lemma DrillAnswerIsGiven(w: World, c: Command, f: Fact)
    requires Answers(w, c, f) && (c.Migrate? || c.RecordStep? || c.CheckHealth? || c.RollBackDrill?)
    ensures RepliesWith(w, c, f)
  {
  }

  lemma AnswerIsGiven(w: World, c: Command, f: Fact)
    requires Inv(w) && Answers(w, c, f)
    ensures RepliesWith(w, c, f)
    ensures Step(w, c) == w
  {
    if c.Activate? {
      DoneDrillAnswers(w, c.drill);
    } else if c.Migrate? || c.RecordStep? || c.CheckHealth? || c.RollBackDrill? {
      DrillAnswerIsGiven(w, c, f);
    } else {
      LifecycleAnswerIsGiven(w, c, f);
    }
    NothingCommitted(w, c);
  }

  lemma NothingCommitted(w: World, c: Command)
    requires !Decide(w, c).Commit? && !c.Publish?
    ensures Step(w, c) == w
  {
  }

  lemma DoneDrillAnswers(w: World, q: DrillRequest)
    requires ReceiptsKeyed(w.db) && DrillsSound(w)
    requires q.key in w.db.migrations && w.db.migrations[q.key].state.Done?
    ensures q.key in w.db.installations
    ensures ActivatePackageMigration(w.db, w.store, q) == Replay(InstallationFact(w.db.installations[q.key]))
  {
    assert DrillSound(w, q.key, w.db.migrations[q.key]);
    assert ReceiptFiled(w.db, q.key, w.db.installations[q.key]);
  }

  /**
   Once committed, a request redelivered after any further commands is answered as recorded and changes nothing, even
   when the activity query or the health probe would answer otherwise by then.
   */
  lemma RedeliveryReplays(w: World, c: Command, w1: World, commands: seq<Command>, w2: World, c': Command)
    requires Inv(w) && Decide(w, c).Commit? && SameRequest(c, c')
    requires w1 == Step(w, c) && w2 == Run(w1, commands)
    ensures RepliesWith(w2, c', Decide(w, c).fact)
    ensures Step(w2, c') == w2
  {
    CommitAnswers(w, c);
    CommandKeepsInv(w, c);
    RunExtends(w1, commands);
    AnswerStays(w1, w2, c, Decide(w, c).fact);
    AnswersTheRequest(w2, c, c', Decide(w, c).fact);
    AnswerIsGiven(w2, c', Decide(w, c).fact);
  }

  // ---------- removing redeliveries from a run ----------

  /** The run without any command whose request committed earlier in it, whatever the oracles answered to either. */
  function WithoutRedeliveries(w: World, commands: seq<Command>, done: set<Command>): seq<Command>
    decreases |commands|
  {
    if commands == [] then []
    else if Request(commands[0]) in done then WithoutRedeliveries(w, commands[1..], done)
    else
      var done' := if Decide(w, commands[0]).Commit? then done + {Request(commands[0])} else done;
      [commands[0]] + WithoutRedeliveries(Step(w, commands[0]), commands[1..], done')
  }

  ghost predicate AllAnswered(w: World, done: set<Command>) {
    forall c :: c in done ==> Answered(w, c)
  }

  ghost predicate Answered(w: World, c: Command) {
    exists f :: Answers(w, c, f)
  }

  lemma AnsweredStays(w: World, w': World, done: set<Command>)
    requires Extends(w, w') && AllAnswered(w, done)
    ensures AllAnswered(w', done)
  {
    forall c | c in done ensures Answered(w', c) {
      assert Answered(w, c);
      var f :| Answers(w, c, f);
      AnswerStays(w, w', c, f);
    }
  }

  lemma AnsweredForAnyOracle(w: World, c: Command)
    requires Answered(w, Request(c))
    ensures Answered(w, c)
  {
    var f :| Answers(w, Request(c), f);
    AnswersTheRequest(w, Request(c), c, f);
  }

  lemma AnsweredChangesNothing(w: World, c: Command)
    requires Inv(w) && Answered(w, c)
    ensures Step(w, c) == w
  {
    var f :| Answers(w, c, f);
    AnswerIsGiven(w, c, f);
  }

  lemma DoneAfter(w: World, c: Command, done: set<Command>)
    requires Inv(w) && AllAnswered(w, done)
    ensures AllAnswered(Step(w, c), if Decide(w, c).Commit? then done + {Request(c)} else done)
  {
    CommandExtends(w, c);
    AnsweredStays(w, Step(w, c), done);
    if Decide(w, c).Commit? {
      CommitAnswers(w, c);
      AnswersTheRequest(Step(w, c), c, Request(c), Decide(w, c).fact);
      assert Answered(Step(w, c), Request(c));
    }
  }

  lemma RunOfCons(w: World, c: Command, rest: seq<Command>)
    ensures Run(w, [c] + rest) == Run(Step(w, c), rest)
  {
    assert ([c] + rest)[1..] == rest;
  }

  /** Redeliveries are invisible: the run without them ends in the same world. */
  lemma {:induction false} RedeliveriesAreInvisible(w: World, commands: seq<Command>, done: set<Command>)
    requires Inv(w) && AllAnswered(w, done)
    ensures Run(w, WithoutRedeliveries(w, commands, done)) == Run(w, commands)
    decreases |commands|
  {
    if commands != [] {
      var c, rest := commands[0], commands[1..];
      if Request(c) in done {
        AnsweredForAnyOracle(w, c);
        AnsweredChangesNothing(w, c);
        RedeliveriesAreInvisible(w, rest, done);
      } else {
        var done' := if Decide(w, c).Commit? then done + {Request(c)} else done;
        DoneAfter(w, c, done);
        CommandKeepsInv(w, c);
        RedeliveriesAreInvisible(Step(w, c), rest, done');
        RunOfCons(w, c, WithoutRedeliveries(Step(w, c), rest, done'));
      }
    }
  }

  /** Every run from empty tables ends where the same run without redeliveries ends. */
  lemma RunsIgnoreRedeliveries(start: World, commands: seq<Command>)
    requires start == EMPTY_WORLD
    ensures Run(start, WithoutRedeliveries(start, commands, {})) == Run(start, commands)
  {
    EmptyIsInvariant(start);
    RedeliveriesAreInvisible(start, commands, {});
  }
}
