/** Exactly which passes of the job worker keep the world safe. */
module JobVisibility {
  import opened Options
  import opened Records
  import opened Store
  import opened StoreIntegrity
  import opened VersionHistory
  import opened Ingestion
  import opened IngestionIntegrity
  import opened JobOutcome
  import opened Visibility
  import opened IngestVisibility

  // ---------------------------------------------------------------- helpers

  lemma SameContentIsCalm(db: Db, after: Db)
    requires SameContent(db, after) && db.nextId <= after.nextId
    ensures Calm(db, after)
  {
  }

  lemma SameContentIsSafe(w: World, after: World)
    requires Safe(w) && Integrity(after.db) && SameContent(w.db, after.db) && w.db.nextId <= after.db.nextId
    requires after.points == w.points
    ensures Safe(after)
  {
    hide Integrity, PointsSound, ReviewsSound, Calm;
    SameContentIsCalm(w.db, after.db);
    CalmIsSafe(w, after.db);
  }

  lemma StartedIsSafe(w: World, j: Id)
    requires Safe(w) && j in w.db.jobs
    ensures Safe(Started(w, j))
  {
    StartedKeeps(w, j);
    hide Integrity, PointsSound, ReviewsSound;
    SameContentIsSafe(w, Started(w, j));
  }

  /** Deleting documents removes the live chunks that could be exposed. */
  lemma DeletedIsSafe(w: World, D: set<Id>, gone: set<Id>)
    requires Integrity(w.db) && PointsSoundBut(w, D) && ReviewsSound(w.db) && D <= gone
    ensures Safe(World(DeleteDocuments(w.db, gone), w.points))
  {
    DeleteKeeps(w.db, gone);
    var after := DeleteDocuments(w.db, gone);
    assert References(after);
    assert Steady(w.db, after);
    hide Integrity, References;
    SteadyKeepsReviews(w.db, after);
    DeletedPointsSound(w, D, gone);
  }

  lemma DeletedPointsSound(w: World, D: set<Id>, gone: set<Id>)
    requires PointsSoundBut(w, D) && D <= gone
    ensures PointsSound(World(DeleteDocuments(w.db, gone), w.points))
  {
    var after := DeleteDocuments(w.db, gone);
    forall c | c in w.points
      ensures w.points[c].chunkId == c && c < after.nextId
      ensures c in after.chunks ==> Sound(after.documents, w.points[c], after.chunks[c].documentId)
    {
    }
  }

  /** A failed or finished attempt changes the job table only. */
  lemma JobRowIsSafe(w: World, after: Db)
    requires Safe(w) && Integrity(after) && after == w.db.(jobs := after.jobs)
    ensures Safe(World(after, w.points))
  {
    hide Integrity, PointsSound, ReviewsSound;
    SameContentIsSafe(w, World(after, w.points));
  }

  // ---------------------------------------------------------------- new uploads

  /** When one document's ingestion fails before its chunks are replaced, only that document,
      which lies at the path, may be exposed. */
  lemma ExposedAtPath(w: World, run: Id, request: Request, doc: ParsedDocument, setup: Setup)
    requires Safe(w) && request.target == None
    ensures var after := IngestDocument(w, run, request, doc, setup, ReplaceFails).world;
            PointsSoundBut(after, set d | d in after.db.documents
                                          && after.db.documents[d].fields.sourcePath == doc.sourcePath)
  {
    var u := UpsertDocument(w.db, doc, request.workspaceId, request.uploadedBy);
    UpsertForRows(w.db, request, doc);
    UpsertLeavesOthersSound(w, u.db, u.id);
    assert u.db.documents[u.id].fields.sourcePath == doc.sourcePath;
    var after := IngestDocument(w, run, request, doc, setup, ReplaceFails).world;
    assert after.db == u.db && after.points == w.points;
    hide Sound, UpsertDocument, Integrity;
  }

  lemma NewUploadRun(w: World, j: Id, setup: Setup, plan: Plan)
    requires Safe(w) && j in w.db.jobs && w.db.jobs[j].targetDocumentId == None
    requires StagedFile(plan, w.db.jobs[j].sourcePath)
    ensures var r := JobRun(w, j, setup, plan);
            && ReviewsSound(r.world.db)
            && PointsSoundBut(r.world, set d | d in r.world.db.documents
                                              && r.world.db.documents[d].fields.sourcePath == w.db.jobs[j].sourcePath)
            && (r.status == Completed ==> PointsSound(r.world))
  {
    hide JobRun, IngestDocument;
    var r := JobRun(w, j, setup, plan);
    JobRunKeeps(w, j, setup, plan);
    if plan.load == None || plan.load.value == [] {
      NothingLoaded(w, j, setup, plan);
      SameContentIsSafe(w, r.world);
      SoundIsSoundBut(r.world, w.db.jobs[j].sourcePath);
    } else {
      var doc := plan.load.value[0];
      assert plan.load.value == [doc];
      OneLoaded(w, j, setup, plan, doc);
      StartedIsSafe(w, j);
      var s, request, fault := Started(w, j), JobRequest(w.db.jobs[j]), FaultOf(plan.faults, 0);
      var d := IngestDocument(s, w.db.nextId, request, doc, setup, fault);
      IngestDocumentIsSafe(s, w.db.nextId, request, doc, setup, fault);
      hide Integrity, StagedFile;
      if PointsSound(d.world) {
        SameContentIsSafe(d.world, r.world);
        SoundIsSoundBut(r.world, w.db.jobs[j].sourcePath);
      } else {
        ExposedAtPath(s, w.db.nextId, request, doc, setup);
        RaisedOnFault(s, w.db.nextId, request, doc, setup);
        SameContentSoundBut(d.world, r.world, set e | e in d.world.db.documents
                                          && d.world.db.documents[e].fields.sourcePath == doc.sourcePath);
        SameContentReviews(d.world.db, r.world.db);
      }
    }
  }

  lemma RaisedOnFault(w: World, run: Id, request: Request, doc: ParsedDocument, setup: Setup)
    ensures UpsertFor(w.db, request, doc).Some? && UpsertFor(w.db, request, doc).value.changed ==>
              IngestDocument(w, run, request, doc, setup, ReplaceFails).outcome == Raised
  {
  }

  lemma SoundIsSoundBut(w: World, path: string)
    requires PointsSound(w)
    ensures PointsSoundBut(w, set d | d in w.db.documents && w.db.documents[d].fields.sourcePath == path)
  {
  }

  lemma SameContentSoundBut(w: World, after: World, D: set<Id>)
    requires PointsSoundBut(w, D) && SameContent(w.db, after.db) && w.db.nextId <= after.db.nextId
    requires after.points == w.points
    ensures PointsSoundBut(after, D)
  {
  }

  lemma SameContentReviews(db: Db, after: Db)
    requires ReviewsSound(db) && SameContent(db, after) && db.nextId <= after.nextId
    ensures ReviewsSound(after)
  {
  }

  /** A new upload keeps the world safe wherever it fails. */
  lemma NewUploadIsSafe(w: World, j: Id, setup: Setup, plan: Plan)
    requires Safe(w) && IsNext(w.db.jobs, j) && w.db.jobs[j].targetDocumentId == None
    requires StagedFile(plan, w.db.jobs[j].sourcePath)
    ensures Safe(RunOnce(w, j, setup, plan).world)
  {
    var r := JobRun(w, j, setup, plan);
    NewUploadRun(w, j, setup, plan);
    JobRunKeeps(w, j, setup, plan);
    RunOnceKeeps(w, j, setup, plan);
    hide JobRun, Integrity, ReviewsSound, StagedFile, PointsSoundBut;
    var o, path := RunOnce(w, j, setup, plan), w.db.jobs[j].sourcePath;
    if r.status == Completed && Owner(r.world.db.documents, path).Some? {
      JobRowIsSafe(r.world, o.world.db);
    } else {
      var gone := set d | d in r.world.db.documents && r.world.db.documents[d].fields.sourcePath == path;
      DeletedIsSafe(r.world, gone, gone);
      JobRowIsSafe(World(DeleteByPath(r.world.db, path), r.world.points), o.world.db);
    }
  }

  // ---------------------------------------------------------------- version uploads

  /** Only document `d` changed, within its workspace, and no acknowledgement was taken back. */
  lemma OneDocumentCalm(db: Db, after: Db, d: Id)
    requires FreshIds(db) && db.nextId <= after.nextId && after.chunks == db.chunks && d in db.documents
    requires d in after.documents && after.documents == db.documents[d := after.documents[d]]
    requires after.documents[d].workspaceId == db.documents[d].workspaceId
    requires db.documents[d].fields.ackedAt.Some? ==> after.documents[d].fields.ackedAt.Some?
    ensures Calm(db, after)
  {
    SteadyRow(db, after, d);
    hide Steady;
  }

  lemma OneDocumentIsSafe(w: World, after: Db, d: Id)
    requires Safe(w) && Integrity(after) && w.db.nextId <= after.nextId && after.chunks == w.db.chunks
    requires after.reviews == w.db.reviews && d in w.db.documents
    requires d in after.documents && after.documents == w.db.documents[d := after.documents[d]]
    requires after.documents[d].workspaceId == w.db.documents[d].workspaceId
    requires w.db.documents[d].fields.ackedAt.Some? ==> after.documents[d].fields.ackedAt.Some?
    ensures Safe(World(after, w.points))
  {
    assert FreshIds(w.db);
    OneDocumentCalm(w.db, after, d);
    hide Integrity, PointsSound, ReviewsSound, Calm, FreshIds;
    CalmIsSafe(w, after);
  }

  /** Once the upsert went through, the pass keeps the world safe wherever it fails. */
  lemma UpsertedVersionIsSafe(w: World, j: Id, setup: Setup, plan: Plan)
    requires Safe(w) && IsNext(w.db.jobs, j) && StagedFile(plan, w.db.jobs[j].sourcePath) && Upserts(w, j, plan)
    ensures Safe(RunOnce(w, j, setup, plan).world)
  {
    hide JobRun, Integrity, ReviewsSound, PointsSoundBut, IngestDocument, RunOnce;
    if FaultOf(plan.faults, 0) == ReplaceFails {
      UnreplacedVersionIsSafe(w, j, setup, plan);
    } else {
      ReplacedVersionIsSafe(w, j, setup, plan);
    }
  }

  lemma UnreplacedVersionIsSafe(w: World, j: Id, setup: Setup, plan: Plan)
    requires Safe(w) && IsNext(w.db.jobs, j) && StagedFile(plan, w.db.jobs[j].sourcePath) && Upserts(w, j, plan)
    requires FaultOf(plan.faults, 0) == ReplaceFails
    ensures Safe(RunOnce(w, j, setup, plan).world)
  {
    hide JobRun, RunOnce, ReviewsSound, PointsSoundBut, RollbackVersion;
    var t := w.db.jobs[j].targetDocumentId.value;
    RunOnceKeeps(w, j, setup, plan);
    VersionRolledBack(w, j, setup, plan);
    VersionRunContent(w, j, setup, plan);
    UnreplacedRows(w, j, setup, plan);
    VersionPassIs(w, j, setup, plan);
    RollbackRowsStay(JobRun(w, j, setup, plan).world.db, t);
    hide Integrity, Upserts, StagedFile;
    OneDocumentIsSafe(w, RunOnce(w, j, setup, plan).world.db, t);
  }

  /** A run that fails before replacing the chunks leaves chunks, reviews and points alone. */
  lemma UnreplacedRows(w: World, j: Id, setup: Setup, plan: Plan)
    requires Integrity(w.db) && j in w.db.jobs && StagedFile(plan, w.db.jobs[j].sourcePath) && Upserts(w, j, plan)
    requires FaultOf(plan.faults, 0) == ReplaceFails
    ensures var r := JobRun(w, j, setup, plan).world;
            && r.points == w.points && r.db.chunks == w.db.chunks && r.db.reviews == w.db.reviews
            && w.db.nextId <= r.db.nextId
  {
    hide JobRun, IngestDocument;
    var doc := plan.load.value[0];
    assert plan.load.value == [doc];
    OneLoaded(w, j, setup, plan, doc);
    StartedKeeps(w, j);
    assert FreshIds(Started(w, j).db);
    hide Integrity, FreshIds, Upserts, StagedFile;
    UnreplacedDocument(Started(w, j), w.db.nextId, JobRequest(w.db.jobs[j]), doc, setup);
  }

  lemma UnreplacedDocument(w: World, run: Id, request: Request, doc: ParsedDocument, setup: Setup)
    requires FreshIds(w.db)
    ensures var d := IngestDocument(w, run, request, doc, setup, ReplaceFails).world;
            && d.points == w.points && d.db.chunks == w.db.chunks && d.db.reviews == w.db.reviews
            && w.db.nextId <= d.db.nextId
  {
    hide UpsertFor, FreshIds;
    if UpsertFor(w.db, request, doc).Some? { UpsertForRows(w.db, request, doc); }
  }

  lemma ReplacedVersionIsSafe(w: World, j: Id, setup: Setup, plan: Plan)
    requires Safe(w) && IsNext(w.db.jobs, j) && StagedFile(plan, w.db.jobs[j].sourcePath) && Upserts(w, j, plan)
    requires FaultOf(plan.faults, 0) != ReplaceFails
    ensures Safe(RunOnce(w, j, setup, plan).world)
  {
    hide JobRun, RunOnce, ReviewsSound, PointsSoundBut, IngestDocument;
    var doc := plan.load.value[0];
    var s, request, fault := Started(w, j), JobRequest(w.db.jobs[j]), FaultOf(plan.faults, 0);
    JobRunKeeps(w, j, setup, plan);
    assert plan.load.value == [doc];
    OneLoaded(w, j, setup, plan, doc);
    StartedIsSafe(w, j);
    hide Integrity, StagedFile, Upserts, Started;
    IngestDocumentIsSafe(s, w.db.nextId, request, doc, setup, fault);
    SameContentIsSafe(IngestDocument(s, w.db.nextId, request, doc, setup, fault).world,
                      JobRun(w, j, setup, plan).world);
    AfterVersionRun(w, j, setup, plan);
  }

  lemma AfterVersionRun(w: World, j: Id, setup: Setup, plan: Plan)
    requires Integrity(w.db) && IsNext(w.db.jobs, j)
    requires StagedFile(plan, w.db.jobs[j].sourcePath) && Upserts(w, j, plan)
    requires Safe(JobRun(w, j, setup, plan).world)
    ensures Safe(RunOnce(w, j, setup, plan).world)
  {
    hide JobRun, RunOnce, ReviewsSound, PointsSoundBut, RollbackVersion;
    var t := w.db.jobs[j].targetDocumentId.value;
    var r, o := JobRun(w, j, setup, plan), RunOnce(w, j, setup, plan);
    RunOnceKeeps(w, j, setup, plan);
    VersionRunContent(w, j, setup, plan);
    VersionPassIs(w, j, setup, plan);
    VersionRolledBack(w, j, setup, plan);
    UnackedTarget(w, j, plan);
    RollbackRowsStay(r.world.db, t);
    hide Integrity, StagedFile, PointsSound, Upserts, AfterUpsert;
    if r.status == Completed && Owner(r.world.db.documents, w.db.jobs[j].sourcePath).Some? {
      JobRowIsSafe(r.world, o.world.db);
    } else {
      Overwritten(w.db.documents, r.world.db.documents, o.world.db.documents, t);
      OneDocumentIsSafe(r.world, o.world.db, t);
    }
  }

  lemma Overwritten(a: map<Id, Document>, b: map<Id, Document>, c: map<Id, Document>, d: Id)
    requires d in b && d in c && b == a[d := b[d]] && c == a[d := c[d]]
    ensures c == b[d := c[d]]
  {
  }

  lemma UnackedTarget(w: World, j: Id, plan: Plan)
    requires Integrity(w.db) && j in w.db.jobs
    requires plan.load.Some? && |plan.load.value| == 1 && w.db.jobs[j].targetDocumentId.Some?
    requires AfterUpsert(w, j, plan.load.value[0]).Some?
    ensures var t, u := w.db.jobs[j].targetDocumentId.value, AfterUpsert(w, j, plan.load.value[0]).value;
            t in u.documents && u.documents[t].fields.ackedAt == None && t in w.db.documents
            && u.documents == w.db.documents[t := u.documents[t]]
            && u.documents[t].workspaceId == w.db.documents[t].workspaceId
  {
    StartedKeeps(w, j);
    hide Integrity;
  }

  lemma RollbackRowsStay(db: Db, d: Id)
    requires RollbackVersion(db, d).Some?
    ensures var after := RollbackVersion(db, d).value;
            && after.chunks == db.chunks && after.reviews == db.reviews && after.nextId == db.nextId
            && after.jobs == db.jobs
  {
  }

  // ---------------------------------------------------------------- exactly when a pass is safe

  /** The pass would take back the acknowledgement of a document whose chunks are published:
      a version job that fails before its upsert, whose target has an older version that was
      never acknowledged. All of this can be read off the stores before the pass. */
  ghost predicate TakesBackAck(w: World, j: Id, plan: Plan)
    requires j in w.db.jobs
  {
    && FailsEarly(w, j, plan)
    && var t := w.db.jobs[j].targetDocumentId.value;
       && t in w.db.documents && w.db.documents[t].currentVersion > 1 && Exposed(w, t)
       && UnackedBelow(w.db, t)
  }

  /** The version below the current one was never acknowledged, and its path can be taken. */
  ghost predicate UnackedBelow(db: Db, t: Id)
    requires t in db.documents
  {
    exists v :: IsSnapshot(db.versions, v, t, db.documents[t].currentVersion - 1)
                && db.versions[v].fields.ackedAt == None
                && PathFree(db.documents, t, db.versions[v].fields.sourcePath)
  }

  /** What a rollback does to soundness. */
  lemma RollbackIsSafeUnless(w: World, t: Id)
    requires Safe(w) && t in w.db.documents && RollbackVersion(w.db, t).Some?
    ensures var after := World(RollbackVersion(w.db, t).value, w.points);
            && Integrity(after.db) && ReviewsSound(after.db)
            && (PointsSound(after)
                <==> !(w.db.documents[t].currentVersion > 1 && Exposed(w, t) && UnackedBelow(w.db, t)))
  {
    RollbackKeeps(w.db, t);
    RollbackRowsStay(w.db, t);
    if w.db.documents[t].currentVersion > 1 {
      var v := RollbackIs(w.db, t);
      assert VersionsOf(w.db, t);
      assert UnackedBelow(w.db, t) <==> w.db.versions[v].fields.ackedAt == None by {
        var n := w.db.documents[t].currentVersion - 1;
        forall u | IsSnapshot(w.db.versions, u, t, n) ensures u == v { NewestSnapshot(w.db, t, u, v); }
      }
      RolledRowIsSafeUnless(w, RollbackVersion(w.db, t).value, t);
    } else {
      RollbackRows(w.db, t);
    }
  }

  lemma RolledRowIsSafeUnless(w: World, after: Db, t: Id)
    requires Safe(w) && Integrity(after) && t in w.db.documents && t in after.documents
    requires after.chunks == w.db.chunks && after.reviews == w.db.reviews && after.nextId == w.db.nextId
    requires after.documents == w.db.documents[t := after.documents[t]]
    requires after.documents[t].workspaceId == w.db.documents[t].workspaceId
    ensures ReviewsSound(after)
    ensures PointsSound(World(after, w.points)) <==> !(Exposed(w, t) && after.documents[t].fields.ackedAt == None)
  {
    assert References(after) && FreshIds(w.db);
    SteadyRow(w.db, after, t);
    SteadyKeepsReviews(w.db, after);
    hide ReviewsSound, Steady;
    if after.documents[t].fields.ackedAt == None {
      UnackedExposure(w, after, t);
    } else {
      OneDocumentIsSafe(w, after, t);
    }
  }

  lemma ExposureIsLocal(w: World, r: World, t: Id)
    requires SameContent(w.db, r.db) && r.points == w.points && t in w.db.documents
    ensures Exposed(r, t) <==> Exposed(w, t)
    ensures UnackedBelow(r.db, t) <==> UnackedBelow(w.db, t)
  {
    hide PathFree, IsSnapshot;
  }

  lemma EarlyFailureIsSafeUnless(w: World, j: Id, setup: Setup, plan: Plan)
    requires Safe(w) && IsNext(w.db.jobs, j) && StagedFile(plan, w.db.jobs[j].sourcePath)
    requires FailsEarly(w, j, plan)
    ensures var after := RunOnce(w, j, setup, plan).world;
            ReviewsSound(after.db) && (PointsSound(after) <==> !TakesBackAck(w, j, plan))
  {
    var t := w.db.jobs[j].targetDocumentId.value;
    var r, o := JobRun(w, j, setup, plan).world, RunOnce(w, j, setup, plan);
    hide JobRun, RunOnce, RollbackVersion, ReviewsSound, PointsSoundBut;
    JobRefs(w.db, j);
    EarlyFailureRollsBack(w, j, setup, plan);
    RunOnceKeeps(w, j, setup, plan);
    SameContentIsSafe(w, r);
    ExposureIsLocal(w, r, t);
    if o.Done? {
      RollbackIsSafeUnless(r, t);
      SoundAfterJobRow(World(RollbackVersion(r.db, t).value, w.points), o.world.db);
    } else {
      NoRollback(r.db, t);
      SoundAfterJobRow(r, o.world.db);
    }
  }

  lemma NoRollback(db: Db, t: Id)
    requires Integrity(db) && t in db.documents && RollbackVersion(db, t) == None
    ensures !UnackedBelow(db, t)
  {
    var v := RollbackIs(db, t);
    assert VersionsOf(db, t);
    var n := db.documents[t].currentVersion - 1;
    forall u | IsSnapshot(db.versions, u, t, n) ensures u == v { NewestSnapshot(db, t, u, v); }
  }

  lemma SoundAfterJobRow(w: World, after: Db)
    requires after == w.db.(jobs := after.jobs)
    ensures PointsSound(World(after, w.points)) <==> PointsSound(w)
    ensures ReviewsSound(after) <==> ReviewsSound(w.db)
  {
    hide Sound;
  }

  /** The remaining kind of pass: nothing was loaded, yet some document lies at the path. */
  lemma CompletedEarlyIsSafe(w: World, j: Id, setup: Setup, plan: Plan)
    requires Safe(w) && IsNext(w.db.jobs, j) && StagedFile(plan, w.db.jobs[j].sourcePath)
    requires w.db.jobs[j].targetDocumentId.Some? && !Upserts(w, j, plan) && !FailsEarly(w, j, plan)
    ensures Safe(RunOnce(w, j, setup, plan).world)
  {
    var r := JobRun(w, j, setup, plan);
    hide JobRun, RunOnce, RollbackVersion, ReviewsSound, PointsSoundBut;
    EarlyRunContent(w, j, setup, plan);
    JobRunKeeps(w, j, setup, plan);
    RunOnceKeeps(w, j, setup, plan);
    VersionPassIs(w, j, setup, plan);
    SameContentIsSafe(w, r.world);
    JobRowIsSafe(r.world, RunOnce(w, j, setup, plan).world.db);
  }

  /** A pass of the job worker keeps the world safe, wherever it fails, except in exactly one
      case. */
  lemma RunOnceIsSafeUnless(w: World, j: Id, setup: Setup, plan: Plan)
    requires Safe(w) && IsNext(w.db.jobs, j) && StagedFile(plan, w.db.jobs[j].sourcePath)
    ensures var after := RunOnce(w, j, setup, plan).world;
            && Integrity(after.db) && ReviewsSound(after.db)
            && (PointsSound(after) <==> !TakesBackAck(w, j, plan))
  {
    hide RunOnce, Integrity, ReviewsSound, PointsSoundBut, StagedFile;
    RunOnceKeeps(w, j, setup, plan);
    if w.db.jobs[j].targetDocumentId == None {
      NewUploadIsSafe(w, j, setup, plan);
    } else if Upserts(w, j, plan) {
      UpsertedVersionIsSafe(w, j, setup, plan);
    } else if FailsEarly(w, j, plan) {
      EarlyFailureIsSafeUnless(w, j, setup, plan);
    } else {
      CompletedEarlyIsSafe(w, j, setup, plan);
    }
  }
}
