/** When a receipt filed under a drill's key means that the drill was activated. */
module DrillReceipts {
  import opened Wrappers
  import opened Records
  import opened Changes
  import opened Commands
  import opened Runs
  import opened Invariants
  import opened Reachability

  /** What a receipt installs: an application, a generation of it, and the digest found there. */
  datatype Filing = Filing(application: ApplicationId, generation: nat, digest: Digest)

  function FilingOf(r: InstallationReceipt): Filing {
    Filing(r.application, r.generation, r.digest)
  }

  /** The filing a drill's activation makes: the target on the generation after the baseline. */
  function OwnFiling(m: Migration): Filing {
    Filing(m.application, m.fromGeneration + 1, m.targetDigest)
  }

  /** A receipt is wanted if it makes the given filing, or any if none is given. */
  predicate Wanted(r: InstallationReceipt, want: Option<Filing>) {
    want.Some? ==> FilingOf(r) == want.value
  }

  /** The key under which a lifecycle request would file its installation receipt. */
  function FilesUnder(c: Command): Option<Key> {
    match c
    case Install(q) => Some(q.key)
    case Update(q) => Some(q.key)
    case Rollback(q, _) => Some(q.key)
    case _ => None
  }

  function FiledBy(change: Change): Option<InstallationReceipt> {
    match change
    case Installs(r) => Some(r)
    case Updates(r, _) => Some(r)
    case ForwardRoll(r, _) => Some(r)
    case _ => None
  }

  predicate Files(change: Change, k: Key, want: Option<Filing>) {
    FiledBy(change).Some? && FiledBy(change).value.key == k && Wanted(FiledBy(change).value, want)
  }

  predicate DoneAt(db: Db, k: Key) {
    k in db.migrations && db.migrations[k].state.Done?
  }

  /** A wanted receipt under the key that no drill's activation filed. */
  predicate Stray(db: Db, k: Key, want: Option<Filing>) {
    k in db.installations && Wanted(db.installations[k], want) && !DoneAt(db, k)
  }

  lemma DoneHasReceipt(w: World, k: Key)
    requires DrillsSound(w) && DoneAt(w.db, k)
    ensures k in w.db.installations
  {
    assert DrillSound(w, k, w.db.migrations[k]);
  }

  /** What a change may touch: a key without a receipt, and drills that are not done. */
  predicate Fresh(db: Db, change: Change) {
    match change
    case Installs(r) => r.key !in db.installations
    case Updates(r, _) => r.key !in db.installations
    case ForwardRoll(r, _) => r.key !in db.installations
    case Switch(r) => r.key !in db.installations
    case Begin(m) => !DoneAt(db, m.key) && !m.state.Done?
    case CompleteStep(key, _, _) => !DoneAt(db, key)
    case Pronounce(key, _, _) => !DoneAt(db, key)
    case Abandon(a) => !DoneAt(db, a.key)
    case _ => true
  }

  lemma GroundedIsFresh(w: World, change: Change)
    requires Grounded(w, change)
    ensures Fresh(w.db, change)
  {
  }

  /** Only a lifecycle request under that very key makes a stray receipt, and nothing ever unmakes one. */
  lemma StrayChange(db: Db, change: Change, k: Key, want: Option<Filing>)
    requires Applicable(db, change) && Fresh(db, change) && (DoneAt(db, k) ==> k in db.installations)
    ensures Stray(Apply(db, change), k, want) <==> Stray(db, k, want) || Files(change, k, want)
  {
  }

  predicate FilesKey(change: Change, key: Option<Key>) {
    if FiledBy(change).Some? then key == Some(FiledBy(change).value.key) else key.None?
  }

  lemma InstallFiles(w: World, q: InstallRequest)
    requires StoreKeyed(w.store) && HistoryDense(w.db) && InstallApplication(w.db, w.store, q).Commit?
    ensures FilesKey(InstallApplication(w.db, w.store, q).change, Some(q.key))
  {
    InstallCommits(w, q);
  }

  lemma UpdateFiles(w: World, q: UpdateRequest)
    requires StoreKeyed(w.store) && HistoryDense(w.db) && UpdateApplication(w.db, w.store, q).Commit?
    ensures FilesKey(UpdateApplication(w.db, w.store, q).change, Some(q.key))
  {
    UpdateCommits(w, q);
  }

  lemma RollbackFiles(db: Db, q: LifecycleRequest, activity: Activity)
    requires RollbackApplication(db, q, activity).Commit?
    ensures FilesKey(RollbackApplication(db, q, activity).change, Some(q.key))
  {
    RollbackClears(db, q, activity);
  }

  lemma MarksFileNothing(w: World, q: LifecycleRequest, activity: Activity)
    ensures DisableApplication(w.db, q).Commit? ==> DisableApplication(w.db, q).change.MarkDisabled?
    ensures UninstallApplication(w.db, q, activity).Commit? ==> UninstallApplication(w.db, q, activity).change.MarkUninstalled?
  {
  }

  lemma DrillsFileNothing(w: World, q: DrillRequest, healthy: bool)
    ensures var d := RunMigrationHealthCheck(w.db, w.store, q, healthy); d.Commit? ==> d.change.Pronounce?
    ensures var d := RollbackPackageMigration(w.db, q); d.Commit? ==> d.change.Abandon?
  {
  }

  lemma ActivationSwitches(w: World, q: DrillRequest)
    ensures var d := ActivatePackageMigration(w.db, w.store, q); d.Commit? ==> d.change.Switch?
  {
  }

  lemma CommandFiles(w: World, c: Command)
    requires StoreKeyed(w.store) && HistoryDense(w.db) && Decide(w, c).Commit?
    ensures FilesKey(Decide(w, c).change, FilesUnder(c))
  {
    match c
    case Install(q) => InstallFiles(w, q);
    case Update(q) => UpdateFiles(w, q);
    case Rollback(q, activity) => RollbackFiles(w.db, q, activity);
    case Disable(q) => MarksFileNothing(w, q, Ungated);
    case Uninstall(q, activity) => MarksFileNothing(w, q, activity);
    case CheckHealth(q, healthy) => DrillsFileNothing(w, q, healthy);
    case RollBackDrill(q) => DrillsFileNothing(w, q, true);
    case Activate(q) => ActivationSwitches(w, q);
    case _ => OtherFilesNothing(w, c);
  }

  lemma OtherFilesNothing(w: World, c: Command)
    requires c.Register? || c.Migrate? || c.RecordStep?
    ensures Decide(w, c).Commit? ==> FiledBy(Decide(w, c).change).None?
  {
  }

  /** A lifecycle request commits now, under the key, what is wanted. */
  predicate FilesNow(w: World, c: Command, k: Key, want: Option<Filing>) {
    Decide(w, c).Commit? && FilesUnder(c) == Some(k) && Files(Decide(w, c).change, k, want)
  }

  lemma CommitFacts(w: World, c: Command)
    requires Inv(w) && Decide(w, c).Commit?
    ensures Fresh(w.db, Decide(w, c).change) && FilesKey(Decide(w, c).change, FilesUnder(c))
  {
    CommitIsGrounded(w, c);
    GroundedIsFresh(w, Decide(w, c).change);
    CommandFiles(w, c);
  }

  lemma StrayStep(w: World, c: Command, k: Key, want: Option<Filing>)
    requires Inv(w)
    ensures Stray(Step(w, c).db, k, want) <==> Stray(w.db, k, want) || FilesNow(w, c, k, want)
  {
    if Decide(w, c).Commit? {
      CommitFacts(w, c);
      if DoneAt(w.db, k) {
        DoneHasReceipt(w, k);
      }
      StrayChange(w.db, Decide(w, c).change, k, want);
    }
  }

  /** Some install, update or rollback of the run committed under the key what is wanted. */
  predicate FiledInRun(w: World, commands: seq<Command>, k: Key, want: Option<Filing>)
    decreases |commands|
  {
    commands != []
    && (FilesNow(w, commands[0], k, want) || FiledInRun(Step(w, commands[0]), commands[1..], k, want))
  }

  lemma {:induction false} StrayExactlyWhenFiled(w: World, commands: seq<Command>, k: Key, want: Option<Filing>)
    requires Inv(w)
    ensures Stray(Run(w, commands).db, k, want) <==> Stray(w.db, k, want) || FiledInRun(w, commands, k, want)
    decreases |commands|
  {
    if commands != [] {
      StrayStep(w, commands[0], k, want);
      CommandKeepsInv(w, commands[0]);
      StrayExactlyWhenFiled(Step(w, commands[0]), commands[1..], k, want);
    }
  }

  lemma StrayFromEmpty(start: World, commands: seq<Command>, k: Key, want: Option<Filing>)
    requires start == EMPTY_WORLD && Inv(start)
    ensures Stray(Run(start, commands).db, k, want) <==> FiledInRun(start, commands, k, want)
  {
    StrayExactlyWhenFiled(start, commands, k, want);
  }

  lemma StrayInRun(commands: seq<Command>, k: Key, want: Option<Filing>, w: World)
    requires w == Run(EMPTY_WORLD, commands)
    ensures Stray(w.db, k, want) <==> FiledInRun(EMPTY_WORLD, commands, k, want)
  {
    EmptyIsInvariant(EMPTY_WORLD);
    StrayFromEmpty(EMPTY_WORLD, commands, k, want);
  }

  // ---------- a receipt under the drill's key ----------

  lemma ReachableDoneHasReceipt(commands: seq<Command>, k: Key, w: World)
    requires w == Run(EMPTY_WORLD, commands) && DoneAt(w.db, k)
    ensures k in w.db.installations
  {
    ReachableWorldsAreInvariant(commands);
    DoneHasReceipt(w, k);
  }

  /**
   In every run, a drill is done exactly when some receipt is filed under its key, if and only if no install, update
   or rollback of the run committed under that key.
   */
  lemma AnyReceiptMeansActivationExactlyWhen(commands: seq<Command>, k: Key, w: World)
    requires w == Run(EMPTY_WORLD, commands)
    ensures (DoneAt(w.db, k) <==> k in w.db.installations) <==> !FiledInRun(EMPTY_WORLD, commands, k, None)
  {
    StrayInRun(commands, k, None, w);
    if DoneAt(w.db, k) {
      ReachableDoneHasReceipt(commands, k, w);
    }
  }

  // ---------- the drill's own receipt ----------

  /** The receipt under the drill's key is of its application, on the generation after its baseline, with its target. */
  predicate HasOwnReceipt(db: Db, k: Key) {
    k in db.migrations && k in db.installations && FilingOf(db.installations[k]) == OwnFiling(db.migrations[k])
  }

  predicate PassedAt(db: Db, k: Key) {
    k in db.migrations && db.migrations[k].health.Passed?
  }

  lemma DoneHasOwnReceipt(w: World, k: Key)
    requires ReceiptsKeyed(w.db) && DrillsSound(w) && DoneAt(w.db, k)
    ensures PassedAt(w.db, k) && HasOwnReceipt(w.db, k)
  {
    assert DrillSound(w, k, w.db.migrations[k]);
    assert ReceiptFiled(w.db, k, w.db.installations[k]);
  }

  /** Done means passed with its own receipt, in both directions. */
  predicate DoneMeansOwnReceipt(db: Db, k: Key) {
    DoneAt(db, k) <==> PassedAt(db, k) && HasOwnReceipt(db, k)
  }

  /** A lifecycle request of the run installed the drill's target on the generation after its baseline under its key. */
  predicate Preempted(commands: seq<Command>, db: Db, k: Key)
    requires k in db.migrations
  {
    FiledInRun(EMPTY_WORLD, commands, k, Some(OwnFiling(db.migrations[k])))
  }

  lemma OwnReceiptOfUnfinished(commands: seq<Command>, k: Key, w: World)
    requires w == Run(EMPTY_WORLD, commands) && k in w.db.migrations
    ensures !DoneAt(w.db, k) && HasOwnReceipt(w.db, k) <==> Preempted(commands, w.db, k)
  {
    StrayInRun(commands, k, Some(OwnFiling(w.db.migrations[k])), w);
  }

  lemma ReachableDoneHasOwnReceipt(commands: seq<Command>, k: Key, w: World)
    requires w == Run(EMPTY_WORLD, commands) && DoneAt(w.db, k)
    ensures PassedAt(w.db, k) && HasOwnReceipt(w.db, k)
  {
    ReachableWorldsAreInvariant(commands);
    DoneHasOwnReceipt(w, k);
  }

  /**
   In every run and for every drill of its last world: done coincides with passed and having its own receipt, if and
   only if the drill did not pass or no lifecycle request of the run made that very filing under its key.
   */
  lemma DoneMeansOwnReceiptExactlyWhen(commands: seq<Command>, k: Key, w: World)
    requires w == Run(EMPTY_WORLD, commands) && k in w.db.migrations
    ensures DoneMeansOwnReceipt(w.db, k) <==> !(PassedAt(w.db, k) && Preempted(commands, w.db, k))
  {
    OwnReceiptOfUnfinished(commands, k, w);
    if DoneAt(w.db, k) {
      ReachableDoneHasOwnReceipt(commands, k, w);
    }
  }
}
