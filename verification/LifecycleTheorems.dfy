/** What holds of the application rows and receipts in every world any run reaches. */
module LifecycleTheorems {
  import opened Records
  import opened Changes
  import opened Commands
  import opened Runs
  import opened Invariants
  import opened Preservation
  import opened Reachability

  // ---------- dense history ----------

  predicate RecordedAt(db: Db, k: Key, p: PackageId, g: nat) {
    k in db.installations && db.installations[k].package == p && db.installations[k].generation == g
  }

  lemma RecordedIffSlotted(db: Db, k: Key, p: PackageId, g: nat)
    requires ReceiptsKeyed(db)
    ensures RecordedAt(db, k, p, g) <==>
            Slot(ApplicationId(p), g) in db.slots && db.slots[Slot(ApplicationId(p), g)] == k
  {
    if RecordedAt(db, k, p, g) {
      assert ReceiptFiled(db, k, db.installations[k]);
    }
    if Slot(ApplicationId(p), g) in db.slots && db.slots[Slot(ApplicationId(p), g)] == k {
      assert ReceiptFiled(db, k, db.installations[k]);
    }
  }

  ghost predicate Recorded(db: Db, p: PackageId, g: nat) {
    exists k :: RecordedAt(db, k, p, g)
  }

  /** Exactly one receipt at every generation from 1 to the current one, none beyond, and the row shows the last. */
  ghost predicate ExactHistory(db: Db, p: PackageId) {
    && (forall g: nat :: Recorded(db, p, g) <==> p in db.applications && 1 <= g <= db.applications[p].generation)
    && (forall j, k, g: nat :: RecordedAt(db, j, p, g) && RecordedAt(db, k, p, g) ==> j == k)
    && (p in db.applications ==>
          forall k :: RecordedAt(db, k, p, db.applications[p].generation) ==>
            db.installations[k].digest == db.applications[p].digest)
  }

  lemma EveryGenerationRecordedOnce(commands: seq<Command>, p: PackageId)
    ensures ExactHistory(Run(EMPTY_WORLD, commands).db, p)
  {
    ReachableWorldsAreInvariant(commands);
    HistoryIsExact(Run(EMPTY_WORLD, commands).db, p);
  }

  lemma HistoryIsExact(db: Db, p: PackageId)
    requires ReceiptsKeyed(db) && HistoryDense(db)
    ensures ExactHistory(db, p)
  {
    forall k: Key, g: nat
      ensures RecordedAt(db, k, p, g) <==>
              Slot(ApplicationId(p), g) in db.slots && db.slots[Slot(ApplicationId(p), g)] == k
    {
      RecordedIffSlotted(db, k, p, g);
    }
    forall g: nat ensures Recorded(db, p, g) <==> p in db.applications && 1 <= g <= db.applications[p].generation {
      if p in db.applications && 1 <= g <= db.applications[p].generation {
        assert RowDense(db, p, db.applications[p]);
        assert RecordedAt(db, db.slots[Slot(ApplicationId(p), g)], p, g);
      }
      if Recorded(db, p, g) {
        assert Slot(ApplicationId(p), g) in db.slots;
      }
    }
    if p in db.applications {
      assert RowDense(db, p, db.applications[p]);
    }
  }

  // ---------- provenance ----------

  /** However many forward rolls deep, a receipt's content is a verified package's and is not dated before it. */
  lemma EveryReceiptIsVerified(commands: seq<Command>, k: Key)
    ensures
      var w := Run(EMPTY_WORLD, commands);
      k in w.db.installations ==>
        exists id :: id in w.store
                  && ContentOf(w.db.installations[k]) == VerifiedContent(w.store[id])
                  && w.store[id].verifiedAt <= w.db.installations[k].installedAt
  {
    ReachableWorldsAreInvariant(commands);
    var w := Run(EMPTY_WORLD, commands);
    if k in w.db.installations {
      assert Proven(w.store, w.db.installations[k]);
      assert w.db.installations[k].verificationId in w.store;
    }
  }

  // ---------- status against receipts ----------

  predicate StatusShown(db: Db, p: PackageId)
    requires p in db.applications
  {
    var a, g := ApplicationId(p), db.applications[p].generation;
    match db.applications[p].status
    case Installed => !HasDisableAt(db, a, g) && !HasUninstallAt(db, a, g)
    case Disabled => HasDisableAt(db, a, g) && !HasUninstallAt(db, a, g)
    case Uninstalled => HasUninstallAt(db, a, g)
  }

  /** The status column says exactly which receipts exist at the current generation, each at most once. */
  lemma StatusMatchesReceipts(commands: seq<Command>)
    ensures
      var db := Run(EMPTY_WORLD, commands).db;
      && (forall p :: p in db.applications ==> StatusShown(db, p))
      && (forall j, k :: j in db.disables && k in db.disables && j != k ==>
            (db.disables[j].application, db.disables[j].generation) != (db.disables[k].application, db.disables[k].generation))
      && (forall j, k :: j in db.uninstalls && k in db.uninstalls && j != k ==>
            (db.uninstalls[j].application, db.uninstalls[j].generation)
            != (db.uninstalls[k].application, db.uninstalls[k].generation))
  {
    ReachableWorldsAreInvariant(commands);
    StatusIsExact(Run(EMPTY_WORLD, commands).db);
  }

  lemma StatusIsExact(db: Db)
    requires DisablesAgree(db) && UninstallsAgree(db)
    ensures forall p :: p in db.applications ==> StatusShown(db, p)
  {
    forall p | p in db.applications ensures StatusShown(db, p) {
    }
  }

  /** A rollback lands one generation on, with the content from just before the generation it left. */
  ghost predicate RestoresPreviousContent(db: Db, k: Key, rb: RollbackReceipt) {
    && (HasDisableAt(db, rb.application, rb.fromGeneration) || HasUninstallAt(db, rb.application, rb.fromGeneration))
    && 2 <= rb.fromGeneration && rb.toGeneration == rb.fromGeneration + 1
    && RecordedAt(db, k, rb.application.package, rb.toGeneration)
    && exists j :: RecordedAt(db, j, rb.application.package, rb.fromGeneration - 1)
                && ContentOf(db.installations[j]) == ContentOf(db.installations[k])
  }

  lemma JustifiedRestores(db: Db, k: Key, rb: RollbackReceipt)
    requires ReceiptsKeyed(db) && RollbackJustified(db, k, rb)
    ensures RestoresPreviousContent(db, k, rb)
  {
    var slot := Slot(rb.application, rb.fromGeneration - 1);
    RecordedIffSlotted(db, db.slots[slot], rb.application.package, rb.fromGeneration - 1);
    assert ReceiptFiled(db, k, db.installations[k]);
    assert RecordedAt(db, db.slots[slot], rb.application.package, rb.fromGeneration - 1);
  }

  /** Every rollback was let in by a disable or uninstall of the generation it left. */
  lemma RollbacksRestorePreviousContent(commands: seq<Command>)
    ensures var db := Run(EMPTY_WORLD, commands).db;
            forall k :: k in db.rollbacks ==> RestoresPreviousContent(db, k, db.rollbacks[k])
  {
    ReachableWorldsAreInvariant(commands);
    var db := Run(EMPTY_WORLD, commands).db;
    forall k | k in db.rollbacks ensures RestoresPreviousContent(db, k, db.rollbacks[k]) {
      JustifiedRestores(db, k, db.rollbacks[k]);
    }
  }

  // ---------- surfaces ----------

  ghost predicate DigestInstalledAt(db: Db, application: ApplicationId, g: nat, digest: Digest) {
    exists key :: RecordedAt(db, key, application.package, g) && db.installations[key].digest == digest
  }

  /** Every registered surface carries the digest installed at its own generation, and no identity is registered twice there. */
  lemma SurfacesFollowInstalledContent(commands: seq<Command>)
    ensures
      var db := Run(EMPTY_WORLD, commands).db;
      && (forall k, i :: k in db.surfaces && 0 <= i < |db.surfaces[k]| ==>
            DigestInstalledAt(db, db.surfaces[k][i].application, db.surfaces[k][i].generation, db.surfaces[k][i].digest))
      && (forall j, k, a, b | j in db.surfaces && k in db.surfaces
            && 0 <= a < |db.surfaces[j]| && 0 <= b < |db.surfaces[k]| && (j, a) != (k, b) ::
            !SameSurface(db.surfaces[j][a], db.surfaces[k][b]))
  {
    ReachableWorldsAreInvariant(commands);
    var db := Run(EMPTY_WORLD, commands).db;
    forall k, i | k in db.surfaces && 0 <= i < |db.surfaces[k]|
      ensures DigestInstalledAt(db, db.surfaces[k][i].application, db.surfaces[k][i].generation, db.surfaces[k][i].digest)
    {
      SurfaceHasReceipt(db, k, i);
    }
  }

  lemma SurfaceHasReceipt(db: Db, k: Key, i: nat)
    requires ReceiptsKeyed(db) && SurfacesBound(db)
    requires k in db.surfaces && i < |db.surfaces[k]|
    ensures DigestInstalledAt(db, db.surfaces[k][i].application, db.surfaces[k][i].generation, db.surfaces[k][i].digest)
  {
    var row := db.surfaces[k][i];
    assert SegmentBound(db, k, db.surfaces[k]);
    assert SurfaceBound(db, k, i, row);
    var key := db.slots[Slot(row.application, row.generation)];
    RecordedIffSlotted(db, key, row.application.package, row.generation);
  }

  // ---------- no row contradicts another ----------

  /** Refusals that would mean the durable tables contradict themselves. */
  predicate FindsCorruption(d: Decision) {
    || d == Refuse(SchemaGuard) || d == Refuse(KeyTaken)
    || d == Refuse(CorruptRecord) || d == Refuse(PreviousInstallationNotFound)
  }

  lemma InstallFindsNoCorruption(w: World, q: InstallRequest)
    requires StoreKeyed(w.store) && HistoryDense(w.db)
    ensures !FindsCorruption(InstallApplication(w.db, w.store, q))
  {
    if q.receipt in w.store && w.store[q.receipt].package in w.db.applications {
      NextIsSuccessor(w.db, w.store[q.receipt].package);
    }
  }

  lemma UpdateFindsNoCorruption(w: World, q: UpdateRequest)
    requires StoreKeyed(w.store) && HistoryDense(w.db)
    ensures !FindsCorruption(UpdateApplication(w.db, w.store, q))
  {
    if q.package in w.db.applications {
      NextIsSuccessor(w.db, q.package);
      assert RowDense(w.db, q.package, w.db.applications[q.package]);
    }
  }

  lemma StatusIsShown(db: Db, p: PackageId)
    requires DisablesAgree(db) && UninstallsAgree(db)
    ensures p in db.applications ==> StatusShown(db, p)
  {
    StatusIsExact(db);
  }

  lemma DisableFindsNoCorruption(db: Db, q: LifecycleRequest)
    requires q.package in db.applications ==> StatusShown(db, q.package)
    ensures !FindsCorruption(DisableApplication(db, q))
  {
  }

  lemma UninstallFindsNoCorruption(db: Db, q: LifecycleRequest, activity: Activity)
    requires q.package in db.applications ==> StatusShown(db, q.package)
    ensures !FindsCorruption(UninstallApplication(db, q, activity))
  {
  }

  lemma HistoryAroundRow(db: Db, p: PackageId)
    requires ReceiptsKeyed(db) && HistoryDense(db) && p in db.applications
    ensures var g := db.applications[p].generation;
            && (2 <= g ==> ReceiptAt(db, ApplicationId(p), g - 1).Some?)
            && ReceiptAt(db, ApplicationId(p), g).Some?
            && Slot(ApplicationId(p), g + 1) !in db.slots
            && NextInstallationGeneration(db, ApplicationId(p), db.applications[p]) == g + 1
  {
    NextIsSuccessor(db, p);
    assert RowDense(db, p, db.applications[p]);
    if 2 <= db.applications[p].generation {
      assert Slot(ApplicationId(p), db.applications[p].generation - 1) in db.slots;
    }
  }

  lemma RollbackFindsNoCorruption(db: Db, q: LifecycleRequest, activity: Activity)
    requires q.package in db.applications ==>
      var g := db.applications[q.package].generation;
      && (2 <= g ==> ReceiptAt(db, ApplicationId(q.package), g - 1).Some?)
      && Slot(ApplicationId(q.package), g + 1) !in db.slots
      && NextInstallationGeneration(db, ApplicationId(q.package), db.applications[q.package]) == g + 1
    ensures !FindsCorruption(RollbackApplication(db, q, activity))
  {
  }

  lemma RegisterFindsNoCorruption(db: Db, q: SurfacesRequest)
    ensures !FindsCorruption(RegisterSurfaces(db, q))
  {
  }

  /** In no reachable world does a lifecycle command find a missing, duplicate or contradictory row. */
  lemma LifecycleFindsNoCorruption(w: World, c: Command)
    requires Inv(w)
    requires c.Install? || c.Update? || c.Disable? || c.Uninstall? || c.Rollback? || c.Register?
    ensures !FindsCorruption(Decide(w, c))
  {
    if c.Install? {
      InstallFindsNoCorruption(w, c.install);
    } else if c.Update? {
      UpdateFindsNoCorruption(w, c.update);
    } else if c.Disable? {
      StatusIsShown(w.db, c.request.package);
      DisableFindsNoCorruption(w.db, c.request);
    } else if c.Uninstall? {
      StatusIsShown(w.db, c.request.package);
      UninstallFindsNoCorruption(w.db, c.request, c.activity);
    } else if c.Register? {
      RegisterFindsNoCorruption(w.db, c.segment);
    } else {
      if c.request.package in w.db.applications {
        HistoryAroundRow(w.db, c.request.package);
      }
      RollbackFindsNoCorruption(w.db, c.request, c.activity);
    }
  }
}
