/** Ingestion runs and job passes keep the integrity of the database, wherever they fail. */
module IngestionIntegrity {
  import opened Options
  import opened Records
  import opened Store
  import opened StoreIntegrity
  import opened Ingestion

  lemma {:induction false} RouteReviewsKeeps(db: Db, run: Id, d: Id, workspaceId: Option<Id>, doc: ParsedDocument,
                                             first: Id, cands: seq<ChunkCandidate>, n: nat, threshold: real)
    requires Integrity(db) && n <= |cands|
    ensures Integrity(RouteReviews(db, run, d, workspaceId, doc, first, cands, n, threshold))
    ensures db.nextId <= RouteReviews(db, run, d, workspaceId, doc, first, cands, n, threshold).nextId
  {
    hide Integrity;
    if n > 0 {
      RouteReviewsKeeps(db, run, d, workspaceId, doc, first, cands, n - 1, threshold);
      var r := RouteReviews(db, run, d, workspaceId, doc, first, cands, n - 1, threshold);
      var cand := cands[n - 1];
      CreateReviewKeeps(r, NewReview(run, cand, NewPoint(d, workspaceId, doc, first + n - 1, cand)));
    }
  }

  lemma IndexDocumentKeeps(w: World, run: Id, d: Id, doc: ParsedDocument, setup: Setup, fault: Fault)
    requires Integrity(w.db) && d in w.db.documents
    ensures var after := IndexDocument(w, run, d, doc, setup, fault).world;
            Integrity(after.db) && w.db.nextId <= after.db.nextId && after.db.documents == w.db.documents
  {
    hide Integrity, RouteReviews, PointsFor;
    if fault != ReplaceFails {
      var cands := setup.chunker(doc);
      var first, workspaceId := w.db.nextId, w.db.documents[d].workspaceId;
      var replaced := ReplaceChunks(w.db, d, cands);
      ReplaceChunksKeeps(w.db, d, cands);
      RouteReviewsKeeps(replaced, run, d, workspaceId, doc, first, cands, |cands|, setup.threshold);
      if fault.StopsAfter? && fault.routed <= |cands| {
        RouteReviewsKeeps(replaced, run, d, workspaceId, doc, first, cands, fault.routed, setup.threshold);
      }
    }
  }

  lemma UpsertForKeeps(db: Db, request: Request, doc: ParsedDocument)
    requires Integrity(db) && UpsertFor(db, request, doc).Some?
    ensures var u := UpsertFor(db, request, doc).value;
            Integrity(u.db) && db.nextId <= u.db.nextId && u.id in u.db.documents && u.id < u.db.nextId
  {
    hide UniquePaths, References, VersionsOf;
    if request.target.Some? {
      UpsertVersionKeeps(db, request.target.value, doc, request.uploadedBy);
    } else {
      UpsertDocumentKeeps(db, doc, request.workspaceId, request.uploadedBy);
    }
    assert FreshIds(UpsertFor(db, request, doc).value.db);
  }

  lemma UnchangedUpsert(db: Db, request: Request, doc: ParsedDocument)
    ensures var u := UpsertDocument(db, doc, request.workspaceId, request.uploadedBy); !u.changed ==> u.db == db
  {
  }

  lemma IngestDocumentKeeps(w: World, run: Id, request: Request, doc: ParsedDocument, setup: Setup, fault: Fault)
    requires Integrity(w.db)
    ensures var after := IngestDocument(w, run, request, doc, setup, fault).world;
            Integrity(after.db) && w.db.nextId <= after.db.nextId
  {
    hide Integrity, IndexDocument, UpsertFor;
    var u := UpsertFor(w.db, request, doc);
    if u.Some? {
      UpsertForKeeps(w.db, request, doc);
      IndexDocumentKeeps(World(u.value.db, w.points), run, u.value.id, doc, setup, fault);
    }
  }

  lemma {:induction false} IngestUpToKeeps(w: World, run: Id, request: Request, docs: seq<ParsedDocument>, setup: Setup,
                                           faults: seq<Fault>, n: nat)
    requires Integrity(w.db) && n <= |docs|
    ensures var after := IngestUpTo(w, run, request, docs, setup, faults, n).world;
            Integrity(after.db) && w.db.nextId <= after.db.nextId
  {
    hide Integrity, IngestDocument;
    if n > 0 {
      IngestUpToKeeps(w, run, request, docs, setup, faults, n - 1);
      var p := IngestUpTo(w, run, request, docs, setup, faults, n - 1);
      IngestDocumentKeeps(p.world, run, request, docs[n - 1], setup, FaultOf(faults, n - 1));
    }
  }

  lemma IngestKeeps(w: World, request: Request, setup: Setup, plan: Plan)
    requires Integrity(w.db)
    ensures Integrity(Ingest(w, request, setup, plan).world.db)
  {
    hide Integrity, IngestUpTo;
    var run := w.db.nextId;
    var started := World(CreateRun(w.db, request.sourcePath), w.points);
    CreateRunKeeps(w.db, request.sourcePath);
    if plan.load == None {
      FinishRunKeeps(started.db, run, Aborted, 0, 0, 0);
    } else {
      var docs := plan.load.value;
      IngestUpToKeeps(started, run, request, docs, setup, plan.faults, |docs|);
      var p := IngestUpTo(started, run, request, docs, setup, plan.faults, |docs|);
      var status := if p.ok && !plan.finishFails then Completed else Aborted;
      FinishRunKeeps(p.world.db, run, status, |docs|, p.indexed, p.chunks);
    }
  }

  lemma JobRefs(db: Db, j: Id)
    requires Integrity(db) && j in db.jobs
    ensures JobRefersTo(db.documents, db.jobs[j])
  {
  }

  lemma FailKeeps(db: Db, j: Id, error: string)
    requires Integrity(db) && j in db.jobs
    ensures Integrity(FailJob(db, j, error))
  {
    JobRefs(db, j);
    hide Integrity;
    JobRowKeeps(db, j, FailJob(db, j, error).jobs[j]);
  }

  lemma JobRunKeeps(w: World, j: Id, setup: Setup, plan: Plan)
    requires Integrity(w.db) && j in w.db.jobs
    ensures Integrity(JobRun(w, j, setup, plan).world.db)
  {
    JobRefs(w.db, j);
    hide Integrity, Ingest;
    JobRowKeeps(w.db, j, ClaimJob(w.db, j).jobs[j]);
    IngestKeeps(World(ClaimJob(w.db, j), w.points), JobRequest(w.db.jobs[j]), setup, plan);
  }

  lemma CompensateKeeps(w: World, j: Id, job: Job)
    requires Integrity(w.db) && j in w.db.jobs
    ensures Integrity(Compensate(w, j, job).world.db)
  {
    hide Integrity, RollbackVersion, DeleteDocuments;
    if job.targetDocumentId.Some? {
      if RollbackVersion(w.db, job.targetDocumentId.value).Some? {
        RollbackKeeps(w.db, job.targetDocumentId.value);
        RollbackKeepsJobs(w.db, job.targetDocumentId.value);
        FailKeeps(RollbackVersion(w.db, job.targetDocumentId.value).value, j, FAILURE);
      }
    } else {
      DeleteKeeps(w.db, set d | d in w.db.documents && w.db.documents[d].fields.sourcePath == job.sourcePath);
      DeleteKeepsJobs(w.db, set d | d in w.db.documents && w.db.documents[d].fields.sourcePath == job.sourcePath);
      FailKeeps(DeleteByPath(w.db, job.sourcePath), j, FAILURE);
    }
  }

  lemma RollbackKeepsJobs(db: Db, d: Id)
    ensures RollbackVersion(db, d).Some? ==> RollbackVersion(db, d).value.jobs == db.jobs
  {
  }

  lemma DeleteKeepsJobs(db: Db, gone: set<Id>)
    ensures DeleteDocuments(db, gone).jobs.Keys == db.jobs.Keys
  {
  }

  lemma RunOnceKeeps(w: World, j: Id, setup: Setup, plan: Plan)
    requires Integrity(w.db) && IsNext(w.db.jobs, j)
    ensures Integrity(RunOnce(w, j, setup, plan).world.db)
  {
    var job := w.db.jobs[j];
    var r := JobRun(w, j, setup, plan);
    hide Integrity, JobRun;
    JobRunKeeps(w, j, setup, plan);
    var owner := Owner(r.world.db.documents, job.sourcePath);
    if r.status == Completed && owner.Some? {
      JobRefs(r.world.db, j);
      JobRowKeeps(r.world.db, j, CompleteJob(r.world.db, j, owner.value, r.run).jobs[j]);
    } else {
      CompensateKeeps(r.world, j, job);
    }
  }
}
