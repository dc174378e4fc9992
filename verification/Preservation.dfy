/** Every command keeps the invariant, so every run from the empty world does. */
module Preservation {
  import opened Wrappers
  import opened Records
  import opened Versions
  import opened Surfaces
  import opened Changes
  import opened Commands
  import opened Runs
  import opened Invariants

  // ---------- installing one more generation ----------

  /** With a dense history the next generation is the successor of the row's. */
  lemma NextIsSuccessor(db: Db, p: PackageId)
    requires HistoryDense(db) && p in db.applications
    ensures NextInstallationGeneration(db, ApplicationId(p), db.applications[p]) == db.applications[p].generation + 1
  {
    var row := db.applications[p];
    var recorded := GenerationsOf(db, ApplicationId(p));
    assert Slot(ApplicationId(p), row.generation) in db.slots;
    assert row.generation in recorded;
    assert MaxOf(recorded) in recorded;
    var s :| s in db.slots && s.application == ApplicationId(p) && s.generation == MaxOf(recorded);
  }

  /** A receipt one past the row's generation (or the first), under an unused key, backed by a verified package. */
  ghost predicate NextReceipt(w: World, r: InstallationReceipt) {
    && r == NewReceipt(ApplicationId(r.package), ContentOf(r), r.generation, r.key, r.installedAt)
    && r.key !in w.db.installations
    && Proven(w.store, r)
    && r.generation ==
       (if r.package in w.db.applications then w.db.applications[r.package].generation + 1 else 1)
    && (r.package in w.db.applications ==> w.db.applications[r.package].createdAt <= r.installedAt)
  }

  lemma NextReceiptIsFresh(w: World, r: InstallationReceipt)
    requires HistoryDense(w.db) && NextReceipt(w, r)
    ensures Slot(r.application, r.generation) !in w.db.slots
  {
  }

  lemma PutKeepsReceipts(db: Db, r: InstallationReceipt)
    requires ReceiptsKeyed(db)
    requires r == NewReceipt(ApplicationId(r.package), ContentOf(r), r.generation, r.key, r.installedAt)
    requires r.key !in db.installations && Slot(r.application, r.generation) !in db.slots
    ensures ReceiptsKeyed(PutInstallation(db, r))
  {
    var db' := PutInstallation(db, r);
    forall k | k in db'.installations ensures ReceiptFiled(db', k, db'.installations[k]) {
      if k != r.key {
        assert ReceiptFiled(db, k, db.installations[k]);
      }
    }
  }

  lemma PutKeepsReceiptAt(db: Db, r: InstallationReceipt, a: ApplicationId, g: nat)
    requires r.key !in db.installations && Slot(r.application, r.generation) !in db.slots
    ensures ReceiptAt(db, a, g).Some? ==> ReceiptAt(PutInstallation(db, r), a, g) == ReceiptAt(db, a, g)
    ensures ReceiptAt(PutInstallation(db, r), r.application, r.generation) == Some(r)
  {
  }

  lemma PutKeepsHistory(w: World, r: InstallationReceipt)
    requires HistoryDense(w.db) && NextReceipt(w, r)
    ensures HistoryDense(PutInstallation(w.db, r))
  {
    NextReceiptIsFresh(w, r);
    var db' := PutInstallation(w.db, r);
    forall p | p in db'.applications ensures RowDense(db', p, db'.applications[p]) {
      if p == r.package {
        PutKeepsReceiptAt(w.db, r, r.application, r.generation);
      } else {
        assert RowDense(w.db, p, w.db.applications[p]);
        PutKeepsReceiptAt(w.db, r, ApplicationId(p), w.db.applications[p].generation);
      }
    }
  }

  lemma PutKeepsDisables(w: World, r: InstallationReceipt)
    requires DisablesAgree(w.db) && NextReceipt(w, r)
    ensures DisablesAgree(PutInstallation(w.db, r))
  {
    var db' := PutInstallation(w.db, r);
    forall p | p in db'.applications && db'.applications[p].status == Disabled
      ensures HasDisableAt(db', ApplicationId(p), db'.applications[p].generation)
    {
      assert HasDisableAt(w.db, ApplicationId(p), w.db.applications[p].generation);
    }
  }

  lemma PutKeepsUninstalls(w: World, r: InstallationReceipt)
    requires UninstallsAgree(w.db) && NextReceipt(w, r)
    ensures UninstallsAgree(PutInstallation(w.db, r))
  {
    var db' := PutInstallation(w.db, r);
    forall p | p in db'.applications && db'.applications[p].status == Uninstalled
      ensures HasUninstallAt(db', ApplicationId(p), db'.applications[p].generation)
    {
      assert HasUninstallAt(w.db, ApplicationId(p), w.db.applications[p].generation);
    }
  }

  lemma PutKeepsRollbacks(db: Db, r: InstallationReceipt)
    requires RollbacksJustified(db)
    requires r.key !in db.installations && Slot(r.application, r.generation) !in db.slots
    ensures RollbacksJustified(PutInstallation(db, r))
  {
    var db' := PutInstallation(db, r);
    forall k | k in db'.rollbacks ensures RollbackJustified(db', k, db'.rollbacks[k]) {
      var rb := db.rollbacks[k];
      assert RollbackJustified(db, k, rb);
      PutKeepsReceiptAt(db, r, rb.application, rb.fromGeneration - 1);
      assert HasDisableAt(db', rb.application, rb.fromGeneration) == HasDisableAt(db, rb.application, rb.fromGeneration);
      assert HasUninstallAt(db', rb.application, rb.fromGeneration) == HasUninstallAt(db, rb.application, rb.fromGeneration);
    }
  }

  lemma PutKeepsSurfaces(db: Db, r: InstallationReceipt)
    requires SurfacesBound(db)
    requires r.key !in db.installations && Slot(r.application, r.generation) !in db.slots
    ensures SurfacesBound(PutInstallation(db, r))
  {
    var db' := PutInstallation(db, r);
    forall k | k in db'.surfaces ensures SegmentBound(db', k, db'.surfaces[k]) {
      var rows := db.surfaces[k];
      assert SegmentBound(db, k, rows);
      forall i | 0 <= i < |rows| ensures SurfaceBound(db', k, i, rows[i]) {
        assert SurfaceBound(db, k, i, rows[i]);
        PutKeepsReceiptAt(db, r, rows[i].application, rows[i].generation);
      }
    }
  }

  lemma PutKeepsDrill(w: World, r: InstallationReceipt, k: Key, m: Migration)
    requires DrillSound(w, k, m)
    requires r.key !in w.db.installations && Slot(r.application, r.generation) !in w.db.slots
    requires r.application == ApplicationId(r.package)
    requires r.package in w.db.applications ==> w.db.applications[r.package].generation <= r.generation
    ensures DrillSound(World(PutInstallation(w.db, r), w.store), k, m)
  {
    PutKeepsReceiptAt(w.db, r, m.application, m.fromGeneration);
  }

  lemma PutKeepsDrills(w: World, r: InstallationReceipt)
    requires HistoryDense(w.db) && DrillsSound(w) && NextReceipt(w, r)
    ensures DrillsSound(World(PutInstallation(w.db, r), w.store))
  {
    NextReceiptIsFresh(w, r);
    var db' := PutInstallation(w.db, r);
    forall k | k in db'.migrations ensures DrillSound(World(db', w.store), k, db'.migrations[k]) {
      assert DrillSound(w, k, w.db.migrations[k]);
      PutKeepsDrill(w, r, k, w.db.migrations[k]);
    }
  }

  lemma PutKeepsInv(w: World, r: InstallationReceipt)
    requires Inv(w) && NextReceipt(w, r)
    ensures Inv(World(PutInstallation(w.db, r), w.store))
  {
    NextReceiptIsFresh(w, r);
    PutKeepsReceipts(w.db, r);
    PutKeepsHistory(w, r);
    PutKeepsDisables(w, r);
    PutKeepsUninstalls(w, r);
    PutKeepsRollbacks(w.db, r);
    PutKeepsSurfaces(w.db, r);
    PutKeepsDrills(w, r);
  }

  // ---------- marking a row disabled or uninstalled ----------

  /** The row keeps its generation and content; only status and last update move forward. */
  predicate Marks(db: Db, db': Db, p: PackageId, status: Status) {
    && p in db.applications
    && p in db'.applications
    && status != Installed
    && db.applications[p].updatedAt <= db'.applications[p].updatedAt
    && db'.applications ==
       db.applications[p := db.applications[p].(status := status, updatedAt := db'.applications[p].updatedAt)]
    && db'.installations == db.installations
    && db'.slots == db.slots
    && db'.rollbacks == db.rollbacks
    && db'.surfaces == db.surfaces
    && db'.migrations == db.migrations
    && db'.steps == db.steps
    && db'.migrationRollbacks == db.migrationRollbacks
  }

  lemma MarkKeepsHistory(db: Db, db': Db, p: PackageId, status: Status)
    requires HistoryDense(db) && Marks(db, db', p, status)
    ensures HistoryDense(db')
  {
    forall q | q in db'.applications ensures RowDense(db', q, db'.applications[q]) {
      assert RowDense(db, q, db.applications[q]);
    }
  }

  lemma MarkKeepsReceiptsAndSurfaces(db: Db, db': Db, p: PackageId, status: Status)
    requires ReceiptsKeyed(db) && SurfacesBound(db) && Marks(db, db', p, status)
    ensures ReceiptsKeyed(db') && SurfacesBound(db')
  {
    forall k | k in db'.installations ensures ReceiptFiled(db', k, db'.installations[k]) {
      assert ReceiptFiled(db, k, db.installations[k]);
    }
    forall k | k in db'.surfaces ensures SegmentBound(db', k, db'.surfaces[k]) {
      assert SegmentBound(db, k, db.surfaces[k]);
      forall i | 0 <= i < |db.surfaces[k]| ensures SurfaceBound(db', k, i, db.surfaces[k][i]) {
        assert SurfaceBound(db, k, i, db.surfaces[k][i]);
      }
    }
  }

  lemma MarkKeepsDrills(w: World, w': World, p: PackageId, status: Status)
    requires DrillsSound(w) && Marks(w.db, w'.db, p, status) && w'.store == w.store
    ensures DrillsSound(w')
  {
    forall k | k in w'.db.migrations ensures DrillSound(w', k, w'.db.migrations[k]) {
      assert DrillSound(w, k, w.db.migrations[k]);
    }
  }

  lemma MarkKeepsRollbacks(db: Db, db': Db, p: PackageId, status: Status)
    requires RollbacksJustified(db) && Marks(db, db', p, status)
    requires forall k :: k in db.disables ==> k in db'.disables && db'.disables[k] == db.disables[k]
    requires forall k :: k in db.uninstalls ==> k in db'.uninstalls && db'.uninstalls[k] == db.uninstalls[k]
    ensures RollbacksJustified(db')
  {
    forall k | k in db'.rollbacks ensures RollbackJustified(db', k, db'.rollbacks[k]) {
      var rb := db.rollbacks[k];
      assert RollbackJustified(db, k, rb);
      if HasDisableAt(db, rb.application, rb.fromGeneration) {
        assert HasDisableAt(db', rb.application, rb.fromGeneration);
      } else {
        assert HasUninstallAt(db', rb.application, rb.fromGeneration);
      }
    }
  }

  lemma DisableKeepsDisables(db: Db, d: DisableReceipt)
    requires DisablesAgree(db)
    requires d.application.package in db.applications
    requires d.generation == db.applications[d.application.package].generation
    requires db.applications[d.application.package].status == Installed
    requires d.key !in db.disables
    ensures DisablesAgree(Apply(db, MarkDisabled(d)))
  {
    var db' := Apply(db, MarkDisabled(d));
    assert db'.disables[d.key] == d;
    forall p | p in db'.applications && db'.applications[p].status == Disabled
      ensures HasDisableAt(db', ApplicationId(p), db'.applications[p].generation)
    {
      if p != d.application.package {
        assert HasDisableAt(db, ApplicationId(p), db.applications[p].generation);
        var k :| k in db.disables && db.disables[k].application == ApplicationId(p)
              && db.disables[k].generation == db.applications[p].generation;
        assert db'.disables[k] == db.disables[k];
      }
    }
  }

  lemma DisableKeepsUninstalls(db: Db, d: DisableReceipt)
    requires UninstallsAgree(db)
    requires d.application.package in db.applications
    requires db.applications[d.application.package].status == Installed
    ensures UninstallsAgree(Apply(db, MarkDisabled(d)))
  {
    var db' := Apply(db, MarkDisabled(d));
    forall p | p in db'.applications && db'.applications[p].status == Uninstalled
      ensures HasUninstallAt(db', ApplicationId(p), db'.applications[p].generation)
    {
      assert HasUninstallAt(db, ApplicationId(p), db.applications[p].generation);
    }
  }

  lemma UninstallKeepsUninstalls(db: Db, u: UninstallReceipt)
    requires UninstallsAgree(db)
    requires u.application.package in db.applications
    requires u.generation == db.applications[u.application.package].generation
    requires db.applications[u.application.package].status != Uninstalled
    requires u.key !in db.uninstalls
    ensures UninstallsAgree(Apply(db, MarkUninstalled(u)))
  {
    var db' := Apply(db, MarkUninstalled(u));
    assert db'.uninstalls[u.key] == u;
    forall p | p in db'.applications && db'.applications[p].status == Uninstalled
      ensures HasUninstallAt(db', ApplicationId(p), db'.applications[p].generation)
    {
      if p != u.application.package {
        assert HasUninstallAt(db, ApplicationId(p), db.applications[p].generation);
        var k :| k in db.uninstalls && db.uninstalls[k].application == ApplicationId(p)
              && db.uninstalls[k].generation == db.applications[p].generation;
        assert db'.uninstalls[k] == db.uninstalls[k];
      }
    }
  }

  lemma UninstallKeepsDisables(db: Db, u: UninstallReceipt)
    requires DisablesAgree(db)
    requires u.application.package in db.applications
    ensures DisablesAgree(Apply(db, MarkUninstalled(u)))
  {
    var db' := Apply(db, MarkUninstalled(u));
    forall p | p in db'.applications && db'.applications[p].status == Disabled
      ensures HasDisableAt(db', ApplicationId(p), db'.applications[p].generation)
    {
      assert HasDisableAt(db, ApplicationId(p), db.applications[p].generation);
    }
  }

  // ---------- registering surfaces ----------

  /** What a committed registration wrote and on what grounds. */
  ghost predicate Registered(db: Db, q: SurfacesRequest) {
    && q.key !in db.surfaces
    && q.package in db.applications
    && q.declaredDigest == db.applications[q.package].digest
    && 0 < |q.surfaces|
    && DistinctIds(q.surfaces)
    && !AnyRegistered(db, ApplicationId(q.package), db.applications[q.package].generation, q.surfaces)
  }

  lemma RegisterCommits(db: Db, q: SurfacesRequest)
    requires RegisterSurfaces(db, q).Commit?
    ensures Registered(db, q)
    ensures RegisterSurfaces(db, q).change == AddSurfaces(q.key, SurfaceRows(db.applications[q.package], q))
  {
    AdmittedIffWellFormed(q.surfaces);
  }

  lemma RegisterKeepsSegments(db: Db, q: SurfacesRequest, db': Db)
    requires HistoryDense(db) && SurfacesBound(db) && Registered(db, q)
    requires db' == Apply(db, AddSurfaces(q.key, SurfaceRows(db.applications[q.package], q)))
    ensures forall k :: k in db'.surfaces ==> SegmentBound(db', k, db'.surfaces[k])
  {
    assert RowDense(db, q.package, db.applications[q.package]);
    forall k | k in db'.surfaces ensures SegmentBound(db', k, db'.surfaces[k]) {
      if k != q.key {
        assert SegmentBound(db, k, db.surfaces[k]);
        forall i | 0 <= i < |db.surfaces[k]| ensures SurfaceBound(db', k, i, db.surfaces[k][i]) {
          assert SurfaceBound(db, k, i, db.surfaces[k][i]);
        }
      }
    }
  }

  lemma RegisterKeepsSurfaces(db: Db, q: SurfacesRequest, db': Db)
    requires HistoryDense(db) && SurfacesBound(db) && Registered(db, q)
    requires db' == Apply(db, AddSurfaces(q.key, SurfaceRows(db.applications[q.package], q)))
    ensures SurfacesBound(db')
  {
    RegisterKeepsSegments(db, q, db');
    forall j, k, a, b | j in db'.surfaces && k in db'.surfaces
                     && 0 <= a < |db'.surfaces[j]| && 0 <= b < |db'.surfaces[k]|
                     && SameSurface(db'.surfaces[j][a], db'.surfaces[k][b])
      ensures j == k && a == b
    {
      if j == q.key && k != q.key {
        SegmentIsNew(db, q, k, b, a);
      } else if k == q.key && j != q.key {
        SegmentIsNew(db, q, j, a, b);
      }
    }
  }

  lemma SegmentIsNew(db: Db, q: SurfacesRequest, k: Key, b: nat, a: nat)
    requires Registered(db, q)
    requires k in db.surfaces && b < |db.surfaces[k]| && a < |q.surfaces|
    ensures !SameSurface(db.surfaces[k][b], SurfaceRows(db.applications[q.package], q)[a])
  {
    var row := db.applications[q.package];
    assert !HasSurfaceAt(db, ApplicationId(q.package), row.generation, q.surfaces[a].surfaceId);
    assert !RowsHold(db.surfaces[k], ApplicationId(q.package), row.generation, q.surfaces[a].surfaceId);
  }

  // ---------- moving one drill ----------

  /** A drill changes state but nothing it froze, and no other drill moves. */
  ghost predicate MovesDrill(db: Db, db': Db, k: Key) {
    && k in db.migrations
    && k in db'.migrations
    && db'.migrations == db.migrations[k := db'.migrations[k]]
    && (forall j :: j in db.steps && j != k ==> j in db'.steps && db'.steps[j] == db.steps[j])
    && (forall j :: j in db'.steps && j != k ==> j in db.steps)
    && (forall j :: j in db.migrationRollbacks && j != k ==>
          j in db'.migrationRollbacks && db'.migrationRollbacks[j] == db.migrationRollbacks[j])
    && (forall j :: j in db'.migrationRollbacks && j != k ==> j in db.migrationRollbacks)
  }

  /** The tables a drill's binding and outcome refer to are untouched. */
  predicate SameHistory(w: World, w': World) {
    && w'.store == w.store
    && w'.db.applications == w.db.applications
    && w'.db.installations == w.db.installations
    && w'.db.slots == w.db.slots
  }

  predicate SameFrozen(m: Migration, m': Migration) {
    m' == m.(state := m'.state, health := m'.health, checkedAt := m'.checkedAt, activated := m'.activated,
             updatedAt := m'.updatedAt)
  }

  lemma BindingIsStable(w: World, w': World, m: Migration, m': Migration)
    requires DrillBinding(w, m) && SameHistory(w, w') && SameFrozen(m, m')
    ensures DrillBinding(w', m')
  {
  }

  lemma OtherDrillIsStable(w: World, w': World, k: Key, j: Key)
    requires j in w.db.migrations && j != k
    requires DrillSound(w, j, w.db.migrations[j])
    requires SameHistory(w, w') && MovesDrill(w.db, w'.db, k)
    ensures DrillSound(w', j, w.db.migrations[j])
  {
    BindingIsStable(w, w', w.db.migrations[j], w.db.migrations[j]);
  }

  lemma OtherDrillsAreStable(w: World, w': World, k: Key)
    requires DrillsSound(w) && SameHistory(w, w') && MovesDrill(w.db, w'.db, k)
    ensures forall j :: j in w'.db.migrations && j != k ==> DrillSound(w', j, w'.db.migrations[j])
  {
    forall j | j in w'.db.migrations && j != k ensures DrillSound(w', j, w'.db.migrations[j]) {
      OtherDrillIsStable(w, w', k, j);
    }
  }

  lemma MoveKeepsOneLive(db: Db, db': Db, k: Key)
    requires OneLiveDrill(db) && MovesDrill(db, db', k)
    requires db'.migrations[k].application == db.migrations[k].application
    requires IsLive(db'.migrations[k]) ==> IsLive(db.migrations[k])
    ensures OneLiveDrill(db')
  {
  }

  lemma {:induction false} TimelineExtends(
      steps: map<nat, nat>, next: nat, at: nat, n: nat, lo: nat, hi: nat, hi': nat)
    requires Timeline(steps, n, lo, hi) && hi <= hi' && n < next
    ensures Timeline(steps[next := at], n, lo, hi')
  {
    if n != 0 {
      TimelineExtends(steps, next, at, n - 1, lo, steps[n], steps[n]);
    }
  }

  lemma StepKeepsProgress(m: Migration, steps: map<nat, nat>, at: nat)
    requires DrillProgress(m, steps) && IsLive(m)
    requires |steps| < m.declaredSteps && m.updatedAt <= at
    ensures DrillProgress(Advanced(m, at), steps[|steps| + 1 := at])
  {
    TimelineExtends(steps, |steps| + 1, at, |steps|, m.createdAt, StepsClosedAt(m), at);
    assert |steps[|steps| + 1 := at]| == |steps| + 1;
  }

  /** The grounds on which a step is recorded. */
  predicate StepDue(db: Db, key: Key, index: nat, at: nat) {
    && key in db.migrations
    && IsLive(db.migrations[key])
    && index == CompletedSteps(db, key) + 1
    && CompletedSteps(db, key) != db.migrations[key].declaredSteps
    && db.migrations[key].updatedAt <= at
  }

  lemma StepMoves(db: Db, key: Key, index: nat, at: nat, db': Db)
    requires key in db.migrations && db' == Apply(db, CompleteStep(key, index, at))
    ensures MovesDrill(db, db', key)
    ensures SameFrozen(db.migrations[key], db'.migrations[key])
    ensures db'.migrations[key] == Advanced(db.migrations[key], at)
    ensures StepsOf(db', key) == StepsOf(db, key)[index := at]
    ensures db'.migrationRollbacks == db.migrationRollbacks
  {
  }

  lemma StepKeepsDrill(w: World, key: Key, index: nat, at: nat, w': World)
    requires StepDue(w.db, key, index, at) && DrillSound(w, key, w.db.migrations[key])
    requires w' == World(Apply(w.db, CompleteStep(key, index, at)), w.store)
    ensures DrillSound(w', key, w'.db.migrations[key])
    ensures MovesDrill(w.db, w'.db, key)
    ensures SameFrozen(w.db.migrations[key], w'.db.migrations[key])
  {
    StepMoves(w.db, key, index, at, w'.db);
    StepKeepsProgress(w.db.migrations[key], StepsOf(w.db, key), at);
    BindingIsStable(w, w', w.db.migrations[key], w'.db.migrations[key]);
  }

  lemma StepKeepsDrills(w: World, key: Key, index: nat, at: nat, w': World)
    requires DrillsSound(w) && StepDue(w.db, key, index, at)
    requires w' == World(Apply(w.db, CompleteStep(key, index, at)), w.store)
    ensures DrillsSound(w')
  {
    StepKeepsDrill(w, key, index, at, w');
    OtherDrillsAreStable(w, w', key);
  }

  /** The grounds on which a verdict is recorded. */
  predicate VerdictDue(db: Db, key: Key, at: nat) {
    && key in db.migrations
    && db.migrations[key].state.Running?
    && db.migrations[key].health.Unchecked?
    && CompletedSteps(db, key) == db.migrations[key].declaredSteps
    && db.migrations[key].updatedAt <= at
  }

  lemma {:induction false} TimelineLater(steps: map<nat, nat>, n: nat, lo: nat, hi: nat, at: nat)
    requires Timeline(steps, n, lo, hi) && hi <= at
    ensures Timeline(steps, n, lo, at)
  {
  }

  lemma VerdictKeepsProgress(m: Migration, steps: map<nat, nat>, healthy: bool, at: nat)
    requires DrillProgress(m, steps) && m.state.Running? && |steps| == m.declaredSteps && m.updatedAt <= at
    ensures DrillProgress(Pronounced(m, healthy, at), steps)
  {
    TimelineLater(steps, |steps|, m.createdAt, StepsClosedAt(m), at);
  }

  lemma VerdictKeepsDrill(w: World, key: Key, healthy: bool, at: nat, w': World)
    requires VerdictDue(w.db, key, at) && DrillSound(w, key, w.db.migrations[key])
    requires w' == World(Apply(w.db, Pronounce(key, healthy, at)), w.store)
    ensures DrillSound(w', key, w'.db.migrations[key])
    ensures MovesDrill(w.db, w'.db, key)
    ensures SameFrozen(w.db.migrations[key], w'.db.migrations[key])
  {
    VerdictKeepsProgress(w.db.migrations[key], StepsOf(w.db, key), healthy, at);
    BindingIsStable(w, w', w.db.migrations[key], w'.db.migrations[key]);
  }

  lemma VerdictKeepsDrills(w: World, key: Key, healthy: bool, at: nat, w': World)
    requires DrillsSound(w) && VerdictDue(w.db, key, at)
    requires w' == World(Apply(w.db, Pronounce(key, healthy, at)), w.store)
    ensures DrillsSound(w')
  {
    VerdictKeepsDrill(w, key, healthy, at, w');
    OtherDrillsAreStable(w, w', key);
  }

  /** The grounds on which a failed drill is closed. */
  predicate AbandonDue(db: Db, a: MigrationRollback) {
    && a.key in db.migrations
    && a.key !in db.migrationRollbacks
    && db.migrations[a.key].state.Running?
    && db.migrations[a.key].health.Refuted?
    && db.migrations[a.key].updatedAt <= a.at
    && a == MigrationRollback(
              a.key, db.migrations[a.key].application, db.migrations[a.key].targetDigest,
              db.migrations[a.key].fromGeneration, db.migrations[a.key].fromDigest, a.at)
    && BaselineRefusal(db, db.migrations[a.key]).None?
  }

  lemma AbandonMoves(db: Db, a: MigrationRollback, db': Db)
    requires a.key in db.migrations && db' == Apply(db, Abandon(a))
    ensures MovesDrill(db, db', a.key)
    ensures SameFrozen(db.migrations[a.key], db'.migrations[a.key])
  {
  }

  lemma AbandonKeepsDrill(w: World, a: MigrationRollback, w': World)
    requires AbandonDue(w.db, a) && DrillSound(w, a.key, w.db.migrations[a.key])
    requires w' == World(Apply(w.db, Abandon(a)), w.store)
    ensures DrillSound(w', a.key, w'.db.migrations[a.key])
    ensures MovesDrill(w.db, w'.db, a.key)
    ensures SameFrozen(w.db.migrations[a.key], w'.db.migrations[a.key])
  {
    BindingIsStable(w, w', w.db.migrations[a.key], w'.db.migrations[a.key]);
  }

  lemma AbandonKeepsDrills(w: World, a: MigrationRollback, w': World)
    requires DrillsSound(w) && AbandonDue(w.db, a)
    requires w' == World(Apply(w.db, Abandon(a)), w.store)
    ensures DrillsSound(w')
  {
    AbandonKeepsDrill(w, a, w');
    OtherDrillsAreStable(w, w', a.key);
  }

  // ---------- beginning a drill ----------

  /** The grounds on which a drill begins: its baseline is the current installation, its target a verified package. */
  ghost predicate BeginDue(w: World, m: Migration) {
    && m.key !in w.db.migrations
    && m.application == ApplicationId(m.package)
    && m.package in w.db.applications
    && w.db.applications[m.package].status == Installed
    && m.fromGeneration == w.db.applications[m.package].generation
    && m.fromDigest == w.db.applications[m.package].digest
    && ReceiptAt(w.db, m.application, m.fromGeneration).Some?
    && ReceiptAt(w.db, m.application, m.fromGeneration).value.version == m.fromVersion
    && m.verificationId in w.store
    && TargetBound(m, w.store[m.verificationId])
    && w.store[m.verificationId].verifiedAt <= m.createdAt
    && m.targetDigest != m.fromDigest
    && WindowAdmits(m.window, m.fromVersion, m.targetVersion)
    && 1 <= m.declaredSteps
    && m.state.Pending? && m.health.Unchecked? && m.checkedAt.None? && m.activated.None?
    && m.updatedAt == m.createdAt
    && !HasLiveDrill(w.db, m.application)
  }

  lemma NewDrillIsSound(w: World, m: Migration, w': World)
    requires HistoryDense(w.db) && BeginDue(w, m)
    requires m.key !in w.db.steps && m.key !in w.db.migrationRollbacks
    requires w' == World(Apply(w.db, Begin(m)), w.store)
    ensures DrillSound(w', m.key, m)
  {
  }

  lemma BeginKeepsDrills(w: World, m: Migration, w': World)
    requires HistoryDense(w.db) && DrillsSound(w) && BeginDue(w, m)
    requires w' == World(Apply(w.db, Begin(m)), w.store)
    ensures DrillsSound(w')
  {
    NewDrillIsSound(w, m, w');
    forall j | j in w'.db.migrations ensures DrillSound(w', j, w'.db.migrations[j]) {
      if j != m.key {
        UntouchedDrillIsSound(w, w', j);
      }
    }
  }

  lemma UntouchedDrillIsSound(w: World, w': World, j: Key)
    requires j in w.db.migrations && DrillSound(w, j, w.db.migrations[j])
    requires SameHistory(w, w')
    requires w'.db.steps == w.db.steps && w'.db.migrationRollbacks == w.db.migrationRollbacks
    ensures DrillSound(w', j, w.db.migrations[j])
  {
  }

  lemma BeginKeepsOneLive(w: World, m: Migration)
    requires OneLiveDrill(w.db) && BeginDue(w, m)
    ensures OneLiveDrill(Apply(w.db, Begin(m)))
  {
    var db' := Apply(w.db, Begin(m));
    forall j | j in w.db.migrations && IsLive(w.db.migrations[j])
      ensures w.db.migrations[j].application != m.application
    {
    }
  }

  // ---------- the atomic switch ----------

  /** The grounds on which a passed drill switches its application to the target. */
  ghost predicate SwitchDue(w: World, r: InstallationReceipt) {
    && r.key in w.db.migrations
    && var m := w.db.migrations[r.key];
    && m.state.Running? && m.health.Passed?
    && m.checkedAt.Some? && m.checkedAt.value <= r.installedAt
    && m.updatedAt <= r.installedAt
    && r.package == m.package
    && r.verificationId == m.verificationId && r.digest == m.targetDigest && r.version == m.targetVersion
    && r.generation == m.fromGeneration + 1
    && BaselineRefusal(w.db, m).None?
  }

  lemma SwitchKeepsDrill(w: World, w1: World, r: InstallationReceipt, w': World)
    requires SwitchDue(w, r) && r.application == ApplicationId(r.package)
    requires w1 == World(PutInstallation(w.db, r), w.store)
    requires w' == World(Apply(w.db, Switch(r)), w.store)
    requires DrillSound(w1, r.key, w.db.migrations[r.key])
    ensures DrillSound(w', r.key, w'.db.migrations[r.key])
    ensures MovesDrill(w1.db, w'.db, r.key)
    ensures SameFrozen(w.db.migrations[r.key], w'.db.migrations[r.key])
  {
    BindingIsStable(w1, w', w.db.migrations[r.key], w'.db.migrations[r.key]);
  }

  lemma SwitchKeepsDrills(w: World, w1: World, r: InstallationReceipt, w': World)
    requires SwitchDue(w, r) && r.application == ApplicationId(r.package)
    requires w1 == World(PutInstallation(w.db, r), w.store)
    requires w' == World(Apply(w.db, Switch(r)), w.store)
    requires DrillsSound(w1)
    ensures DrillsSound(w')
  {
    SwitchKeepsDrill(w, w1, r, w');
    OtherDrillsAreStable(w1, w', r.key);
  }

  lemma SwitchKeepsOneLive(db: Db, r: InstallationReceipt)
    requires OneLiveDrill(db) && r.key in db.migrations
    ensures OneLiveDrill(Apply(db, Switch(r)))
  {
  }

  // ---------- the forward roll ----------

  /** The grounds on which a disabled or uninstalled application rolls forward onto its previous content. */
  ghost predicate RollDue(w: World, r: InstallationReceipt, rb: RollbackReceipt) {
    && r.package in w.db.applications
    && w.db.applications[r.package].status != Installed
    && 2 <= w.db.applications[r.package].generation
    && rb == RollbackReceipt(
               ApplicationId(r.package), w.db.applications[r.package].generation, r.generation, r.key, r.installedAt)
    && ReceiptAt(w.db, ApplicationId(r.package), w.db.applications[r.package].generation - 1).Some?
    && ContentOf(ReceiptAt(w.db, ApplicationId(r.package), w.db.applications[r.package].generation - 1).value)
       == ContentOf(r)
  }

  lemma StatusHasReceipt(db: Db, p: PackageId)
    requires DisablesAgree(db) && UninstallsAgree(db)
    requires p in db.applications && db.applications[p].status != Installed
    ensures HasDisableAt(db, ApplicationId(p), db.applications[p].generation)
         || HasUninstallAt(db, ApplicationId(p), db.applications[p].generation)
  {
  }

  lemma NewRollbackIsJustified(w: World, r: InstallationReceipt, rb: RollbackReceipt, db': Db)
    requires RollDue(w, r, rb) && r.application == ApplicationId(r.package)
    requires HasDisableAt(w.db, rb.application, rb.fromGeneration) || HasUninstallAt(w.db, rb.application, rb.fromGeneration)
    requires r.generation == w.db.applications[r.package].generation + 1
    requires r.key !in w.db.installations && Slot(r.application, r.generation) !in w.db.slots
    requires db' == Apply(w.db, ForwardRoll(r, rb))
    ensures RollbackJustified(db', rb.key, rb)
  {
    PutKeepsReceiptAt(w.db, r, rb.application, rb.fromGeneration - 1);
    assert HasDisableAt(db', rb.application, rb.fromGeneration) == HasDisableAt(w.db, rb.application, rb.fromGeneration);
    assert HasUninstallAt(db', rb.application, rb.fromGeneration)
        == HasUninstallAt(w.db, rb.application, rb.fromGeneration);
  }

  lemma RollKeepsRollbacks(db1: Db, rb: RollbackReceipt, db': Db)
    requires RollbacksJustified(db1)
    requires db' == db1.(rollbacks := db1.rollbacks[rb.key := rb])
    requires RollbackJustified(db', rb.key, rb)
    ensures RollbacksJustified(db')
  {
    forall k | k in db'.rollbacks && k != rb.key ensures RollbackJustified(db', k, db'.rollbacks[k]) {
      var past := db1.rollbacks[k];
      assert HasDisableAt(db', past.application, past.fromGeneration) == HasDisableAt(db1, past.application, past.fromGeneration);
      assert HasUninstallAt(db', past.application, past.fromGeneration)
          == HasUninstallAt(db1, past.application, past.fromGeneration);
    }
  }
}
