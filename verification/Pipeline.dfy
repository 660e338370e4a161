/** The ingestion pipeline and the job worker as they run: loops over documents and chunks
    that write to both stores, held against the functions of `Ingestion`. */
module Pipeline {
  import opened Options
  import opened Records
  import opened Store
  import opened StoreIntegrity
  import opened Ingestion
  import opened IngestionIntegrity
  import opened Repository
  import opened VectorStore

  class IngestionPipeline {
    const repository: MetadataRepository
    const index: VectorIndex
    const setup: Setup

    constructor (repository: MetadataRepository, index: VectorIndex, setup: Setup)
      ensures this.repository == repository && this.index == index && this.setup == setup
    {
      this.repository, this.index, this.setup := repository, index, setup;
    }

    ghost function World(): World
      reads repository, index
    {
      Records.World(repository.State(), index.points)
    }

    /** One pass over the new chunks of a document: an audited chunk becomes a pending review
        item or waits in `points` for the write to the index. */
    method RouteChunks(run: Id, d: Id, doc: ParsedDocument, persisted: seq<(Id, ChunkCandidate)>, ghost first: Id,
                       ghost cands: seq<ChunkCandidate>, stop: Option<nat>)
      returns (points: seq<(Id, Payload)>)
      requires d in repository.documents && |persisted| == |cands| && (stop.Some? ==> stop.value <= |cands|)
      requires forall i | 0 <= i < |cands| :: persisted[i] == (first + i, cands[i])
      modifies repository
      ensures var n := if stop.Some? then stop.value else |cands|;
              var workspaceId := old(repository.documents)[d].workspaceId;
              && repository.State() == RouteReviews(old(repository.State()), run, d, workspaceId, doc, first, cands, n,
                                                    setup.threshold)
              && AsMap(points) == PointsFor(d, workspaceId, doc, first, cands, n, setup.threshold)
              && |points| == |PointsFor(d, workspaceId, doc, first, cands, n, setup.threshold)|
    {
      hide *;
      points := [];
      var workspaceId := repository.documents[d].workspaceId;
      ghost var db := repository.State();
      PointsForNone(d, workspaceId, doc, first, cands, setup.threshold);
      RouteStep(db, run, d, workspaceId, doc, first, cands, 0, setup.threshold);
      var n := if stop.Some? then stop.value else |persisted|;
      for i := 0 to n
        invariant repository.State() == RouteReviews(db, run, d, workspaceId, doc, first, cands, i, setup.threshold)
        invariant AsMap(points) == PointsFor(d, workspaceId, doc, first, cands, i, setup.threshold)
        invariant |points| == |PointsFor(d, workspaceId, doc, first, cands, i, setup.threshold)|
      {
        var (c, cand) := persisted[i];
        var payload := Payload(d, c, doc.labels.sourceType, doc.labels.tags, cand.chunkIndex, workspaceId, false);
        RoutedPayload(run, d, workspaceId, doc, c, cand);
        PointsForOneMore(d, workspaceId, doc, first, cands, i, setup.threshold);
        RouteStep(db, run, d, workspaceId, doc, first, cands, i, setup.threshold);
        if cand.confidence < setup.threshold {
          repository.CreateReviewItem(ReviewItem(run, cand.content, cand.confidence, Pending, payload, None));
        } else {
          AsMapGrows(points, c, payload);
          points := points + [(c, payload)];
        }
      }
    }

    /** The body of the loop over documents in `ingest`. */
    method IngestOne(run: Id, request: Request, doc: ParsedDocument, fault: Fault) returns (outcome: Outcome)
      requires Integrity(repository.State())
      modifies repository, index
      ensures DocResult(World(), outcome) == IngestDocument(old(World()), run, request, doc, setup, fault)
    {
      hide Integrity, RouteReviews, PointsFor, Store.ReplaceChunks, UpsertVersion, Store.UpsertDocument;
      ghost var w := World();
      var d: Id, changed := 0, true;
      if request.target.Some? {
        var ok := repository.UpsertDocumentVersion(request.target.value, doc, request.uploadedBy);
        if !ok {
          return Raised;
        }
        d := request.target.value;
      } else {
        d, changed := repository.UpsertDocument(doc, request.workspaceId, request.uploadedBy);
      }
      if !changed {
        UnchangedUpsert(w.db, request, doc);
        return Unchanged;
      }
      UpsertForKeeps(w.db, request, doc);
      if fault == ReplaceFails {
        return Raised;
      }
      outcome := IndexOne(run, d, doc, fault);
    }

    method IndexOne(run: Id, d: Id, doc: ParsedDocument, fault: Fault) returns (outcome: Outcome)
      requires d in repository.documents && fault != ReplaceFails
      modifies repository, index
      ensures DocResult(World(), outcome) == IndexDocument(old(World()), run, d, doc, setup, fault)
    {
      hide RouteReviews, PointsFor;
      var chunks := setup.chunker(doc);
      ghost var first := repository.nextId;
      var persisted := repository.ReplaceChunks(d, chunks);
      hide Store.ReplaceChunks;
      if fault.StopsAfter? {
        var n := if fault.routed <= |persisted| then fault.routed else |persisted|;
        var lost := RouteChunks(run, d, doc, persisted, first, chunks, Some(n));
        return Raised;
      }
      var points := RouteChunks(run, d, doc, persisted, first, chunks, None);
      index.UpsertChunks(points);
      outcome := Changed(|points|);
    }

    method Ingest(request: Request, plan: Plan) returns (run: Id, status: RunStatus)
      requires Integrity(repository.State())
      modifies repository, index
      ensures IngestResult(World(), run, status) == Ingestion.Ingest(old(World()), request, setup, plan)
    {
      hide Integrity, IngestDocument;
      CreateRunKeeps(repository.State(), request.sourcePath);
      run := repository.CreateIngestionRun(request.sourcePath);
      ghost var started := World();
      if plan.load == None {
        repository.FinishIngestionRun(run, Aborted, 0, 0, 0);
        return run, Aborted;
      }
      var docs := plan.load.value;
      var indexed: nat, chunksIndexed: nat, ok, i := 0, 0, true, 0;
      while ok && i < |docs|
        invariant 0 <= i <= |docs|
        invariant Progress(World(), indexed, chunksIndexed, ok)
                  == IngestUpTo(started, run, request, docs, setup, plan.faults, i)
      {
        IngestUpToKeeps(started, run, request, docs, setup, plan.faults, i);
        var fault := if i < |plan.faults| then plan.faults[i] else NoFault;
        var outcome := IngestOne(run, request, docs[i], fault);
        match outcome {
          case Raised => ok := false;
          case Unchanged =>
          case Changed(points) =>
            indexed := indexed + 1;
            chunksIndexed := chunksIndexed + points;
        }
        i := i + 1;
      }
      StoppedStaysStopped(started, run, request, docs, setup, plan.faults, i, |docs|);
      status := if ok && !plan.finishFails then Completed else Aborted;
      repository.FinishIngestionRun(run, status, |docs|, indexed, chunksIndexed);
    }
  }

  /** What is written with a new chunk, field by field. */
  lemma RoutedPayload(run: Id, d: Id, workspaceId: Option<Id>, doc: ParsedDocument, c: Id, cand: ChunkCandidate)
    ensures var p := Payload(d, c, doc.labels.sourceType, doc.labels.tags, cand.chunkIndex, workspaceId, false);
            && NewPoint(d, workspaceId, doc, c, cand) == p
            && NewReview(run, cand, p) == ReviewItem(run, cand.content, cand.confidence, Pending, p, None)
  {
  }

  lemma PointsForNone(d: Id, workspaceId: Option<Id>, doc: ParsedDocument, first: Id, cands: seq<ChunkCandidate>,
                      threshold: real)
    ensures PointsFor(d, workspaceId, doc, first, cands, 0, threshold) == map[]
    ensures AsMap([]) == map[]
  {
  }

  lemma PointsForOneMore(d: Id, workspaceId: Option<Id>, doc: ParsedDocument, first: Id, cands: seq<ChunkCandidate>,
                         n: nat, threshold: real)
    requires n < |cands|
    ensures var before := PointsFor(d, workspaceId, doc, first, cands, n, threshold);
            var after := PointsFor(d, workspaceId, doc, first, cands, n + 1, threshold);
            if cands[n].confidence < threshold then after == before
            else
              && first + n !in before
              && after == before[first + n := NewPoint(d, workspaceId, doc, first + n, cands[n])]
  {
  }

  lemma RouteStep(db: Db, run: Id, d: Id, workspaceId: Option<Id>, doc: ParsedDocument, first: Id,
                  cands: seq<ChunkCandidate>, n: nat, threshold: real)
    requires n <= |cands|
    ensures n == 0 ==> RouteReviews(db, run, d, workspaceId, doc, first, cands, n, threshold) == db
    ensures n < |cands| ==>
              RouteReviews(db, run, d, workspaceId, doc, first, cands, n + 1, threshold)
              == var r := RouteReviews(db, run, d, workspaceId, doc, first, cands, n, threshold);
                 if cands[n].confidence < threshold
                 then CreateReview(r, NewReview(run, cands[n], NewPoint(d, workspaceId, doc, first + n, cands[n])))
                 else r
  {
  }

  lemma AsMapGrows(points: seq<(Id, Payload)>, c: Id, p: Payload)
    ensures AsMap(points + [(c, p)]) == AsMap(points)[c := p]
  {
    assert (points + [(c, p)])[..|points|] == points;
  }

  lemma {:induction false} StoppedStaysStopped(w: World, run: Id, request: Request, docs: seq<ParsedDocument>,
                                               setup: Setup, faults: seq<Fault>, i: nat, n: nat)
    requires i <= n <= |docs|
    requires i == n || !IngestUpTo(w, run, request, docs, setup, faults, i).ok
    ensures IngestUpTo(w, run, request, docs, setup, faults, n) == IngestUpTo(w, run, request, docs, setup, faults, i)
  {
    hide IngestDocument;
    if i < n { StoppedStaysStopped(w, run, request, docs, setup, faults, i, n - 1); }
  }

  class JobWorker {
    const repository: MetadataRepository
    const pipeline: IngestionPipeline

    constructor (pipeline: IngestionPipeline)
      ensures this.pipeline == pipeline && repository == pipeline.repository
    {
      this.pipeline := pipeline;
      repository := pipeline.repository;
    }

    /** `run_once`: `None` when nothing is queued. An exception while a version is rolled back
        escapes and leaves the job stuck. */
    method RunOnce(plan: Plan) returns (claimed: Option<Id>, stuck: bool)
      requires Integrity(repository.State()) && repository == pipeline.repository
      modifies repository, pipeline.index
      ensures claimed == None ==> pipeline.World() == old(pipeline.World())
                                  && forall j | j in repository.jobs :: repository.jobs[j].status != Queued
      ensures claimed.Some? ==>
                && IsNext(old(repository.jobs), claimed.value)
                && (if stuck then Stuck(pipeline.World()) else Done(pipeline.World()))
                   == Ingestion.RunOnce(old(pipeline.World()), claimed.value, pipeline.setup, plan)
    {
      hide Ingestion.Ingest, FreshIds, UniquePaths, References, VersionsOf;
      ghost var w := pipeline.World();
      claimed := repository.ClaimNextJob();
      if claimed == None {
        return None, false;
      }
      var j := claimed.value;
      var job := repository.jobs[j];
      ClaimKeeps(w.db, j);
      JobRunKeeps(w, j, pipeline.setup, plan);
      var request := Request(job.sourcePath, job.targetDocumentId, job.workspaceId, Some(job.uploadedBy));
      var run, status := pipeline.Ingest(request, plan);
      if status == Completed {
        var found := repository.FindByPath(job.sourcePath);
        if found.Some? {
          repository.FinishJob(j, found.value, run);
          return claimed, false;
        }
      }
      stuck := Compensate(j, job);
    }

    /** What `run_once` does for a job that did not produce its document. */
    method Compensate(j: Id, job: Job) returns (stuck: bool)
      requires Integrity(repository.State()) && repository == pipeline.repository && j in repository.jobs
      modifies repository
      ensures (if stuck then Stuck(pipeline.World()) else Done(pipeline.World()))
              == Ingestion.Compensate(old(pipeline.World()), j, job)
    {
      hide Integrity, RollbackVersion, DeleteDocuments;
      ghost var db := repository.State();
      if job.targetDocumentId.Some? {
        var ok := repository.RollbackFailedVersion(job.targetDocumentId.value);
        if !ok {
          return true;
        }
        RollbackKeepsJobs(db, job.targetDocumentId.value);
      } else {
        DeleteKeepsJobs(db, set d | d in db.documents && db.documents[d].fields.sourcePath == job.sourcePath);
        repository.DeleteDocumentBySourcePath(job.sourcePath);
      }
      repository.FailAttempt(j, "ingestion failed");
      stuck := false;
    }
  }

  lemma ClaimKeeps(db: Db, j: Id)
    requires Integrity(db) && j in db.jobs
    ensures Integrity(ClaimJob(db, j))
  {
    JobRefs(db, j);
    hide Integrity;
    JobRowKeeps(db, j, ClaimJob(db, j).jobs[j]);
  }
}
