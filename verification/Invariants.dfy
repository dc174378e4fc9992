/** The invariant every run keeps. */
module Invariants {
  import opened Wrappers
  import opened Records
  import opened Versions
  import opened Changes
  import opened Commands
  import opened Runs

  /** Verified packages are filed under their own identity and are what the artifact authority's table admits. */
  ghost predicate StoreKeyed(store: Store) {
    forall id :: id in store ==> store[id].receiptId == id && Storable(store[id])
  }

  /** Receipts are filed under their own key, and the uniqueness index mirrors the table exactly. */
  ghost predicate ReceiptsKeyed(db: Db) {
    && (forall k :: k in db.installations ==> ReceiptFiled(db, k, db.installations[k]))
    && (forall s :: s in db.slots ==>
          && db.slots[s] in db.installations
          && db.installations[db.slots[s]].application == s.application
          && db.installations[db.slots[s]].generation == s.generation)
  }

  ghost predicate ReceiptFiled(db: Db, k: Key, r: InstallationReceipt) {
    && r == NewReceipt(ApplicationId(r.package), ContentOf(r), r.generation, k, r.installedAt)
    && Slot(r.application, r.generation) in db.slots
    && db.slots[Slot(r.application, r.generation)] == k
  }

  /** One receipt at every generation from 1 to the current one, none beyond; the row shows the last. */
  ghost predicate HistoryDense(db: Db) {
    && (forall p :: p in db.applications ==> RowDense(db, p, db.applications[p]))
    && (forall s :: s in db.slots ==>
          && s.application.package in db.applications
          && 1 <= s.generation <= db.applications[s.application.package].generation)
  }

  ghost predicate RowDense(db: Db, p: PackageId, row: Application) {
    && 1 <= row.generation
    && row.createdAt <= row.updatedAt
    && (forall g :: 1 <= g <= row.generation ==> Slot(ApplicationId(p), g) in db.slots)
    && ReceiptAt(db, ApplicationId(p), row.generation).Some?
    && ReceiptAt(db, ApplicationId(p), row.generation).value.digest == row.digest
  }

  /** Every installation receipt agrees with a verified package and is not dated before it. */
  ghost predicate Provenance(w: World) {
    forall k :: k in w.db.installations ==> Proven(w.store, w.db.installations[k])
  }

  ghost predicate Proven(store: Store, r: InstallationReceipt) {
    && r.verificationId in store
    && ContentOf(r) == VerifiedContent(store[r.verificationId])
    && store[r.verificationId].verifiedAt <= r.installedAt
  }

  ghost predicate DisablesAgree(db: Db) {
    && (forall k :: k in db.disables ==>
          var d := db.disables[k];
          && d.key == k
          && d.application.package in db.applications
          && d.generation <= db.applications[d.application.package].generation
          && (d.generation == db.applications[d.application.package].generation ==>
                db.applications[d.application.package].status != Installed))
    && (forall p :: p in db.applications && db.applications[p].status == Disabled ==>
          HasDisableAt(db, ApplicationId(p), db.applications[p].generation))
    && (forall j, k | j in db.disables && k in db.disables
          && db.disables[j].application == db.disables[k].application
          && db.disables[j].generation == db.disables[k].generation :: j == k)
  }

  ghost predicate UninstallsAgree(db: Db) {
    && (forall k :: k in db.uninstalls ==>
          var u := db.uninstalls[k];
          && u.key == k
          && u.application.package in db.applications
          && u.generation <= db.applications[u.application.package].generation
          && (u.generation == db.applications[u.application.package].generation ==>
                db.applications[u.application.package].status == Uninstalled))
    && (forall p :: p in db.applications && db.applications[p].status == Uninstalled ==>
          HasUninstallAt(db, ApplicationId(p), db.applications[p].generation))
    && (forall j, k | j in db.uninstalls && k in db.uninstalls
          && db.uninstalls[j].application == db.uninstalls[k].application
          && db.uninstalls[j].generation == db.uninstalls[k].generation :: j == k)
  }

  /** A rollback lands one generation on, restores the content two back, and was let in by a disable or uninstall. */
  ghost predicate RollbacksJustified(db: Db) {
    forall k :: k in db.rollbacks ==> RollbackJustified(db, k, db.rollbacks[k])
  }

  ghost predicate RollbackJustified(db: Db, k: Key, rb: RollbackReceipt) {
    && rb.key == k
    && 2 <= rb.fromGeneration
    && rb.toGeneration == rb.fromGeneration + 1
    && (HasDisableAt(db, rb.application, rb.fromGeneration) || HasUninstallAt(db, rb.application, rb.fromGeneration))
    && k in db.installations
    && db.installations[k].application == rb.application
    && db.installations[k].generation == rb.toGeneration
    && db.installations[k].installedAt == rb.at
    && ReceiptAt(db, rb.application, rb.fromGeneration - 1).Some?
    && ContentOf(ReceiptAt(db, rb.application, rb.fromGeneration - 1).value) == ContentOf(db.installations[k])
  }

  ghost predicate SurfacesBound(db: Db) {
    && (forall k :: k in db.surfaces ==> SegmentBound(db, k, db.surfaces[k]))
    && (forall j, k, a, b | j in db.surfaces && k in db.surfaces
          && 0 <= a < |db.surfaces[j]| && 0 <= b < |db.surfaces[k]|
          && SameSurface(db.surfaces[j][a], db.surfaces[k][b]) :: j == k && a == b)
  }

  predicate SameSurface(x: SurfaceRow, y: SurfaceRow) {
    x.application == y.application && x.generation == y.generation
    && x.surface.surfaceId == y.surface.surfaceId
  }

  ghost predicate SegmentBound(db: Db, k: Key, rows: seq<SurfaceRow>) {
    && 0 < |rows|
    && forall i :: 0 <= i < |rows| ==> SurfaceBound(db, k, i, rows[i])
  }

  ghost predicate SurfaceBound(db: Db, k: Key, i: nat, row: SurfaceRow) {
    && row.key == k
    && row.index == i
    && ReceiptAt(db, row.application, row.generation).Some?
    && ReceiptAt(db, row.application, row.generation).value.digest == row.digest
  }

  /** What a drill froze when it began still names a recorded baseline and a verified target. */
  ghost predicate DrillBinding(w: World, m: Migration) {
    && m.application == ApplicationId(m.package)
    && m.package in w.db.applications
    && 1 <= m.fromGeneration <= w.db.applications[m.package].generation
    && ReceiptAt(w.db, m.application, m.fromGeneration).Some?
    && ReceiptAt(w.db, m.application, m.fromGeneration).value.digest == m.fromDigest
    && ReceiptAt(w.db, m.application, m.fromGeneration).value.version == m.fromVersion
    && m.verificationId in w.store
    && TargetBound(m, w.store[m.verificationId])
    && w.store[m.verificationId].verifiedAt <= m.createdAt
    && m.targetDigest != m.fromDigest
    && WindowAdmits(m.window, m.fromVersion, m.targetVersion)
    && 1 <= m.declaredSteps
  }

  /** Steps n, n-1, ..., 1 are recorded, at times that fall back from `hi` to `lo`. */
  ghost predicate Timeline(steps: map<nat, nat>, n: nat, lo: nat, hi: nat) {
    if n == 0 then lo <= hi
    else n in steps && steps[n] <= hi && Timeline(steps, n - 1, lo, steps[n])
  }

  /** The last moment at which a step may have been recorded. */
  function StepsClosedAt(m: Migration): nat {
    if m.checkedAt.Some? then m.checkedAt.value else m.updatedAt
  }

  /** Steps are exactly 1..completed in time order; a verdict needs them all and closes the drill's clock. */
  ghost predicate DrillProgress(m: Migration, steps: map<nat, nat>) {
    && (forall i :: i in steps ==> 1 <= i <= |steps|)
    && Timeline(steps, |steps|, m.createdAt, StepsClosedAt(m))
    && StepsClosedAt(m) <= m.updatedAt
    && |steps| <= m.declaredSteps
    && (m.state.Pending? <==> |steps| == 0)
    && (m.health.Unchecked? <==> m.checkedAt.None?)
    && (m.checkedAt.Some? ==> |steps| == m.declaredSteps)
    && (m.checkedAt.Some? && IsLive(m) ==> m.checkedAt.value == m.updatedAt)
    && (m.state.Done? ==> m.health.Passed?)
    && (m.state.Failed? ==> m.health.Refuted?)
    && (m.activated.Some? <==> m.state.Done?)
  }

  /** A finished drill left its receipt one past the baseline; a failed one left its rollback receipt. */
  ghost predicate DrillOutcome(db: Db, m: Migration) {
    && (m.state.Done? ==>
          && m.key in db.installations
          && m.activated == Some(db.installations[m.key].installationId)
          && db.installations[m.key].application == m.application
          && db.installations[m.key].generation == m.fromGeneration + 1
          && db.installations[m.key].verificationId == m.verificationId
          && db.installations[m.key].digest == m.targetDigest
          && db.installations[m.key].version == m.targetVersion
          && db.installations[m.key].installedAt == m.updatedAt)
    && (m.state.Failed? <==> m.key in db.migrationRollbacks)
    && (m.state.Failed? ==>
          db.migrationRollbacks[m.key] == MigrationRollback(
            m.key, m.application, m.targetDigest, m.fromGeneration, m.fromDigest, m.updatedAt))
  }

  ghost predicate DrillsSound(w: World) {
    && (forall k :: k in w.db.migrations ==> DrillSound(w, k, w.db.migrations[k]))
    && (forall k :: k in w.db.steps ==> k in w.db.migrations)
    && (forall k :: k in w.db.migrationRollbacks ==> k in w.db.migrations)
  }

  ghost predicate DrillSound(w: World, k: Key, m: Migration) {
    m.key == k && DrillBinding(w, m) && DrillProgress(m, StepsOf(w.db, k)) && DrillOutcome(w.db, m)
  }

  ghost predicate OneLiveDrill(db: Db) {
    forall j, k | j in db.migrations && k in db.migrations
      && db.migrations[j].application == db.migrations[k].application
      && IsLive(db.migrations[j]) && IsLive(db.migrations[k]) :: j == k
  }

  ghost predicate Inv(w: World) {
    && StoreKeyed(w.store)
    && ReceiptsKeyed(w.db)
    && HistoryDense(w.db)
    && Provenance(w)
    && DisablesAgree(w.db)
    && UninstallsAgree(w.db)
    && RollbacksJustified(w.db)
    && SurfacesBound(w.db)
    && DrillsSound(w)
    && OneLiveDrill(w.db)
  }
}
