/** Exactly when each lifecycle request is carried out, in terms of the request and the tables alone. */
module Admissions {
  import opened Records
  import opened Versions
  import opened Surfaces
  import opened Changes
  import opened Commands
  import opened Runs
  import opened Invariants
  import opened LifecycleTheorems

  // ---------- what the invariant gives a ladder ----------

  /** A row has its receipt, room for the next one, and the marks its status says. */
  predicate RowStands(db: Db, p: PackageId) {
    p in db.applications ==>
      var row := db.applications[p];
      && row.createdAt <= row.updatedAt
      && ReceiptAt(db, ApplicationId(p), row.generation).Some?
      && Slot(ApplicationId(p), row.generation + 1) !in db.slots
      && NextInstallationGeneration(db, ApplicationId(p), row) == row.generation + 1
      && StatusShown(db, p)
  }

  lemma RowsStand(db: Db, p: PackageId)
    requires ReceiptsKeyed(db) && HistoryDense(db) && DisablesAgree(db) && UninstallsAgree(db)
    ensures RowStands(db, p)
  {
    if p in db.applications {
      HistoryAroundRow(db, p);
      assert RowDense(db, p, db.applications[p]);
      StatusIsShown(db, p);
    }
  }

  // ---------- install ----------

  predicate CanInstall(w: World, q: InstallRequest) {
    && q.receipt in w.store && w.store[q.receipt].verifiedAt <= q.at <= I64_MAX
    && q.key !in w.db.installations
    && (w.store[q.receipt].package in w.db.applications ==>
          var row := w.db.applications[w.store[q.receipt].package];
          row.status == Installed && row.createdAt <= q.at && row.generation < I64_MAX)
  }

  lemma FirstSlotIsFree(db: Db, p: PackageId)
    requires HistoryDense(db) && p !in db.applications
    ensures Slot(ApplicationId(p), 1) !in db.slots
  {
  }

  lemma InstallLadder(w: World, q: InstallRequest)
    requires q.receipt in w.store ==>
      var v := w.store[q.receipt];
      && v.receiptId == q.receipt && Storable(v) && RowStands(w.db, v.package)
      && (v.package !in w.db.applications ==> Slot(ApplicationId(v.package), 1) !in w.db.slots)
    ensures InstallApplication(w.db, w.store, q).Commit? <==> CanInstall(w, q)
  {
  }

  lemma InstallCommitsExactlyWhen(w: World, q: InstallRequest)
    requires Inv(w)
    ensures InstallApplication(w.db, w.store, q).Commit? <==> CanInstall(w, q)
  {
    if q.receipt in w.store {
      RowsStand(w.db, w.store[q.receipt].package);
      if w.store[q.receipt].package !in w.db.applications {
        FirstSlotIsFree(w.db, w.store[q.receipt].package);
      }
    }
    InstallLadder(w, q);
  }

  // ---------- update ----------

  /** The window admits the version against what is recorded at the row's generation. */
  ghost predicate AdmittedNow(db: Db, p: PackageId, window: CompatibilityWindow, version: Version)
    requires p in db.applications
  {
    forall k :: RecordedAt(db, k, p, db.applications[p].generation) ==>
      WindowAdmits(window, db.installations[k].version, version)
  }

  lemma AdmittedByReceipt(db: Db, p: PackageId, window: CompatibilityWindow, version: Version)
    requires ReceiptsKeyed(db) && p in db.applications
    requires ReceiptAt(db, ApplicationId(p), db.applications[p].generation).Some?
    ensures AdmittedNow(db, p, window, version)
       <==> WindowAdmits(window, ReceiptAt(db, ApplicationId(p), db.applications[p].generation).value.version, version)
  {
    var g := db.applications[p].generation;
    var key := db.slots[Slot(ApplicationId(p), g)];
    RecordedIffSlotted(db, key, p, g);
    forall k | RecordedAt(db, k, p, g) ensures k == key {
      RecordedIffSlotted(db, k, p, g);
    }
  }

  ghost predicate CanUpdate(w: World, q: UpdateRequest) {
    && q.receipt in w.store && w.store[q.receipt].verifiedAt <= q.at <= I64_MAX
    && q.key !in w.db.installations
    && w.store[q.receipt].package == q.package && q.package in w.db.applications
    && var v, row := w.store[q.receipt], w.db.applications[q.package];
    && row.status == Installed && row.createdAt <= q.at && row.generation < I64_MAX
    && v.digest != row.digest && AdmittedNow(w.db, q.package, q.window, v.version)
  }

  lemma UpdateLadder(w: World, q: UpdateRequest, admitted: bool)
    requires q.receipt in w.store ==> w.store[q.receipt].receiptId == q.receipt && Storable(w.store[q.receipt])
    requires RowStands(w.db, q.package)
    requires q.receipt in w.store && q.package in w.db.applications ==>
      var row := w.db.applications[q.package];
      var current := ReceiptAt(w.db, ApplicationId(q.package), row.generation);
      && (admitted <==> AdmittedNow(w.db, q.package, q.window, w.store[q.receipt].version))
      && (admitted <==> WindowAdmits(q.window, current.value.version, w.store[q.receipt].version))
    ensures UpdateApplication(w.db, w.store, q).Commit? <==> CanUpdate(w, q)
  {
  }

  lemma UpdateCommitsExactlyWhen(w: World, q: UpdateRequest)
    requires Inv(w)
    ensures UpdateApplication(w.db, w.store, q).Commit? <==> CanUpdate(w, q)
  {
    RowsStand(w.db, q.package);
    var admitted := false;
    if q.receipt in w.store && q.package in w.db.applications {
      AdmittedByReceipt(w.db, q.package, q.window, w.store[q.receipt].version);
      admitted := AdmittedNow(w.db, q.package, q.window, w.store[q.receipt].version);
    }
    UpdateLadder(w, q, admitted);
  }

  // ---------- disable and uninstall ----------

  predicate CanDisable(db: Db, q: LifecycleRequest) {
    && q.key !in db.disables && q.package in db.applications
    && db.applications[q.package].status == Installed && db.applications[q.package].updatedAt <= q.at <= I64_MAX
  }

  lemma DisableLadder(db: Db, q: LifecycleRequest)
    requires RowStands(db, q.package)
    ensures DisableApplication(db, q).Commit? <==> CanDisable(db, q)
  {
  }

  lemma DisableCommitsExactlyWhen(w: World, q: LifecycleRequest)
    requires Inv(w)
    ensures DisableApplication(w.db, q).Commit? <==> CanDisable(w.db, q)
  {
    RowsStand(w.db, q.package);
    DisableLadder(w.db, q);
  }

  /** An unused key and a row that is not uninstalled yet and not dated after the request: the gate is asked. */
  predicate ReachesUninstallGate(db: Db, q: LifecycleRequest) {
    && q.key !in db.uninstalls && q.package in db.applications
    && db.applications[q.package].status != Uninstalled && db.applications[q.package].updatedAt <= q.at
  }

  lemma UninstallLadder(db: Db, q: LifecycleRequest, activity: Activity)
    requires RowStands(db, q.package)
    ensures UninstallApplication(db, q, activity).Commit?
       <==> ReachesUninstallGate(db, q) && Idle(activity) && q.at <= I64_MAX
    ensures UninstallApplication(db, q, activity) == Refuse(ApplicationActiveTasksRunning)
       <==> ReachesUninstallGate(db, q) && Busy(activity)
    ensures UninstallApplication(db, q, activity) == Refuse(TaskActivityQueryFailed)
       <==> ReachesUninstallGate(db, q) && activity.QueryFailed?
  {
  }

  /** An uninstall that reaches the gate is decided by it; only past it does the time have to fit. */
  lemma UninstallCommitsExactlyWhen(w: World, q: LifecycleRequest, activity: Activity)
    requires Inv(w)
    ensures UninstallApplication(w.db, q, activity).Commit?
       <==> ReachesUninstallGate(w.db, q) && Idle(activity) && q.at <= I64_MAX
    ensures UninstallApplication(w.db, q, activity) == Refuse(ApplicationActiveTasksRunning)
       <==> ReachesUninstallGate(w.db, q) && Busy(activity)
    ensures UninstallApplication(w.db, q, activity) == Refuse(TaskActivityQueryFailed)
       <==> ReachesUninstallGate(w.db, q) && activity.QueryFailed?
  {
    RowsStand(w.db, q.package);
    UninstallLadder(w.db, q, activity);
  }

  // ---------- surface registration ----------

  /** No surface of the segment is registered yet at the row's generation. */
  ghost predicate NoneRegistered(db: Db, q: SurfacesRequest)
    requires q.package in db.applications
  {
    forall k, i, j | k in db.surfaces && 0 <= i < |db.surfaces[k]| && 0 <= j < |q.surfaces|
      && db.surfaces[k][i].application == ApplicationId(q.package)
      && db.surfaces[k][i].generation == db.applications[q.package].generation ::
      db.surfaces[k][i].surface.surfaceId != q.surfaces[j].surfaceId
  }

  lemma NoneRegisteredMeans(db: Db, q: SurfacesRequest)
    requires q.package in db.applications
    ensures NoneRegistered(db, q)
       <==> !AnyRegistered(db, ApplicationId(q.package), db.applications[q.package].generation, q.surfaces)
  {
    var a, g := ApplicationId(q.package), db.applications[q.package].generation;
    if AnyRegistered(db, a, g, q.surfaces) {
      var j :| 0 <= j < |q.surfaces| && HasSurfaceAt(db, a, g, q.surfaces[j].surfaceId);
      var k :| k in db.surfaces && RowsHold(db.surfaces[k], a, g, q.surfaces[j].surfaceId);
      var i :| 0 <= i < |db.surfaces[k]| && db.surfaces[k][i].application == a && db.surfaces[k][i].generation == g
            && db.surfaces[k][i].surface.surfaceId == q.surfaces[j].surfaceId;
    }
    forall k, i, j | k in db.surfaces && 0 <= i < |db.surfaces[k]| && 0 <= j < |q.surfaces|
      && db.surfaces[k][i].application == a && db.surfaces[k][i].generation == g
      && db.surfaces[k][i].surface.surfaceId == q.surfaces[j].surfaceId
      ensures AnyRegistered(db, a, g, q.surfaces)
    {
      assert RowsHold(db.surfaces[k], a, g, q.surfaces[j].surfaceId);
      assert HasSurfaceAt(db, a, g, q.surfaces[j].surfaceId);
    }
  }

  predicate WellFormedSegment(surfaces: seq<Surface>) {
    0 < |surfaces| <= MAX_SURFACES_PER_SEGMENT && DistinctIds(surfaces) && ValidTexts(surfaces)
  }

  ghost predicate CanRegister(db: Db, q: SurfacesRequest) {
    && WellFormedSegment(q.surfaces) && q.key !in db.surfaces && q.package in db.applications
    && var row := db.applications[q.package];
    && row.status == Installed && row.digest == q.declaredDigest && row.updatedAt <= q.at <= I64_MAX
    && NoneRegistered(db, q)
  }

  lemma RegisterLadder(db: Db, q: SurfacesRequest, free: bool)
    requires SegmentVerdict(q.surfaces).None? <==> WellFormedSegment(q.surfaces)
    requires q.package in db.applications ==>
      && (free <==> NoneRegistered(db, q))
      && (free <==> !AnyRegistered(db, ApplicationId(q.package), db.applications[q.package].generation, q.surfaces))
    ensures RegisterSurfaces(db, q).Commit? <==> CanRegister(db, q)
  {
  }

  lemma RegisterCommitsExactlyWhen(db: Db, q: SurfacesRequest)
    ensures RegisterSurfaces(db, q).Commit? <==> CanRegister(db, q)
  {
    AdmittedIffWellFormed(q.surfaces);
    if q.package in db.applications {
      NoneRegisteredMeans(db, q);
      RegisterLadder(db, q, NoneRegistered(db, q));
    } else {
      RegisterLadder(db, q, false);
    }
  }
}
