/** What one ingestion run and one pass of the job worker do to both stores. Everything the
    code does not decide itself (what the loader finds, where a foreign call raises) is part
    of a plan. */
module Ingestion {
  import opened Options
  import opened Records
  import opened Store

  /** The pluggable parts of the pipeline. */
  datatype Setup = Setup(threshold: real, chunker: ParsedDocument -> seq<ChunkCandidate>)

  /** Where an exception is raised while one document is ingested: before its chunks are
      replaced, or after `routed` of its new chunks were routed (the embedding call, a review
      insert or the write to the vector index). */
  datatype Fault = NoFault | ReplaceFails | StopsAfter(routed: nat)

  /** What the loader returns (`None` when it raises), the faults of the documents in order,
      and whether closing the run as completed raises. */
  datatype Plan = Plan(load: Option<seq<ParsedDocument>>, faults: seq<Fault>, finishFails: bool)

  ghost function FaultOf(faults: seq<Fault>, i: nat): Fault {
    if i < |faults| then faults[i] else NoFault
  }

  /** On whose behalf a run ingests. */
  datatype Request = Request(
    sourcePath: string, target: Option<Id>, workspaceId: Option<Id>, uploadedBy: Option<string>)

  // ---------------------------------------------------------------- one document

  ghost function NewPoint(d: Id, workspaceId: Option<Id>, doc: ParsedDocument, c: Id, cand: ChunkCandidate): Payload {
    Payload(d, c, doc.labels.sourceType, doc.labels.tags, cand.chunkIndex, workspaceId, false)
  }

  ghost function NewReview(run: Id, cand: ChunkCandidate, point: Payload): ReviewItem {
    ReviewItem(run, cand.content, cand.confidence, Pending, point, None)
  }

  /** Review items for those of the first `n` chunks that fall below the threshold. */
  ghost function RouteReviews(db: Db, run: Id, d: Id, workspaceId: Option<Id>, doc: ParsedDocument, first: Id,
                              cands: seq<ChunkCandidate>, n: nat, threshold: real): (r: Db)
    requires n <= |cands|
    ensures r == db.(reviews := r.reviews, nextId := r.nextId)
  {
    if n == 0 then db
    else
      var r := RouteReviews(db, run, d, workspaceId, doc, first, cands, n - 1, threshold);
      var cand := cands[n - 1];
      if cand.confidence < threshold
      then CreateReview(r, NewReview(run, cand, NewPoint(d, workspaceId, doc, first + n - 1, cand)))
      else r
  }

  /** Points for those of the first `n` chunks that reach the threshold. */
  ghost function PointsFor(d: Id, workspaceId: Option<Id>, doc: ParsedDocument, first: Id,
                           cands: seq<ChunkCandidate>, n: nat, threshold: real): map<Id, Payload>
    requires n <= |cands|
  {
    map c | c in IdRange(first, n) && cands[c - first].confidence >= threshold ::
      NewPoint(d, workspaceId, doc, c, cands[c - first])
  }

  datatype Outcome = Raised | Unchanged | Changed(points: nat)
  datatype DocResult = DocResult(world: World, outcome: Outcome)

  ghost function UpsertFor(db: Db, request: Request, doc: ParsedDocument): Option<Upserted> {
    if request.target.Some? then
      var after := UpsertVersion(db, request.target.value, doc, request.uploadedBy);
      if after == None then None else Some(Upserted(after.value, request.target.value, true))
    else Some(UpsertDocument(db, doc, request.workspaceId, request.uploadedBy))
  }

  /** The chunks of document `d` are replaced and each new one is routed. */
  ghost function IndexDocument(w: World, run: Id, d: Id, doc: ParsedDocument, setup: Setup, fault: Fault): DocResult
    requires d in w.db.documents
  {
    if fault == ReplaceFails then DocResult(w, Raised)
    else
      var cands := setup.chunker(doc);
      var first, workspaceId := w.db.nextId, w.db.documents[d].workspaceId;
      var replaced := ReplaceChunks(w.db, d, cands);
      if fault == NoFault then
        var points := PointsFor(d, workspaceId, doc, first, cands, |cands|, setup.threshold);
        DocResult(World(RouteReviews(replaced, run, d, workspaceId, doc, first, cands, |cands|, setup.threshold),
                        w.points + points),
                  Changed(|points|))
      else
        var n := if fault.routed <= |cands| then fault.routed else |cands|;
        DocResult(World(RouteReviews(replaced, run, d, workspaceId, doc, first, cands, n, setup.threshold), w.points),
                  Raised)
  }

  ghost function IngestDocument(w: World, run: Id, request: Request, doc: ParsedDocument, setup: Setup, fault: Fault)
    : (r: DocResult)
    ensures r.world.db.runs == w.db.runs && r.world.db.jobs == w.db.jobs && r.world.db.syncRuns == w.db.syncRuns
  {
    var u := UpsertFor(w.db, request, doc);
    if u == None then DocResult(w, Raised)
    else if !u.value.changed then DocResult(w, Unchanged)
    else IndexDocument(World(u.value.db, w.points), run, u.value.id, doc, setup, fault)
  }

  // ---------------------------------------------------------------- one run

  datatype Progress = Progress(world: World, indexed: nat, chunks: nat, ok: bool)

  /** The run after its first `n` documents; the first exception ends it. */
  ghost function IngestUpTo(w: World, run: Id, request: Request, docs: seq<ParsedDocument>, setup: Setup,
                            faults: seq<Fault>, n: nat): (p: Progress)
    requires n <= |docs|
    ensures p.world.db.runs == w.db.runs && p.world.db.jobs == w.db.jobs && p.world.db.syncRuns == w.db.syncRuns
  {
    if n == 0 then Progress(w, 0, 0, true)
    else
      var p := IngestUpTo(w, run, request, docs, setup, faults, n - 1);
      if !p.ok then p
      else
        var r := IngestDocument(p.world, run, request, docs[n - 1], setup, FaultOf(faults, n - 1));
        match r.outcome
        case Raised => Progress(r.world, p.indexed, p.chunks, false)
        case Unchanged => Progress(r.world, p.indexed, p.chunks, true)
        case Changed(points) => Progress(r.world, p.indexed + 1, p.chunks + points, true)
  }

  datatype IngestResult = IngestResult(world: World, run: Id, status: RunStatus)

  ghost function Ingest(w: World, request: Request, setup: Setup, plan: Plan): (r: IngestResult)
    ensures r.world.db.jobs == w.db.jobs && r.world.db.syncRuns == w.db.syncRuns
    ensures r.run == w.db.nextId && r.run in r.world.db.runs && r.world.db.runs[r.run].status == r.status
  {
    var run := w.db.nextId;
    var started := World(CreateRun(w.db, request.sourcePath), w.points);
    if plan.load == None then
      IngestResult(World(FinishRun(started.db, run, Aborted, 0, 0, 0), started.points), run, Aborted)
    else
      var docs := plan.load.value;
      var p := IngestUpTo(started, run, request, docs, setup, plan.faults, |docs|);
      var status := if p.ok && !plan.finishFails then Completed else Aborted;
      IngestResult(World(FinishRun(p.world.db, run, status, |docs|, p.indexed, p.chunks), p.world.points), run, status)
  }

  // ---------------------------------------------------------------- one job

  ghost function JobRequest(job: Job): Request {
    Request(job.sourcePath, job.targetDocumentId, job.workspaceId, Some(job.uploadedBy))
  }

  /** `Stuck` is a repository exception during compensation, which nothing catches. */
  datatype Worked = Done(world: World) | Stuck(world: World)

  ghost const FAILURE := "ingestion failed"

  /** A job that did not produce its document: a version job takes the target back one
      version, any other job deletes what lies at its path; then the attempt has failed. */
  ghost function Compensate(w: World, j: Id, job: Job): Worked
    requires j in w.db.jobs
  {
    if job.targetDocumentId.Some? then
      var rolled := RollbackVersion(w.db, job.targetDocumentId.value);
      if rolled == None then Stuck(w) else Done(World(FailJob(rolled.value, j, FAILURE), w.points))
    else Done(World(FailJob(DeleteByPath(w.db, job.sourcePath), j, FAILURE), w.points))
  }

  /** The run of the claimed job `j`. */
  ghost function JobRun(w: World, j: Id, setup: Setup, plan: Plan): (r: IngestResult)
    requires j in w.db.jobs
    ensures r.world.db.jobs == ClaimJob(w.db, j).jobs
  {
    Ingest(World(ClaimJob(w.db, j), w.points), JobRequest(w.db.jobs[j]), setup, plan)
  }

  /** `run_once` on job `j`, which is next in the queue. */
  ghost function RunOnce(w: World, j: Id, setup: Setup, plan: Plan): Worked
    requires IsNext(w.db.jobs, j)
  {
    var job := w.db.jobs[j];
    var r := JobRun(w, j, setup, plan);
    var owner := Owner(r.world.db.documents, job.sourcePath);
    if r.status == Completed && owner.Some? then
      Done(World(CompleteJob(r.world.db, j, owner.value, r.run), r.world.points))
    else Compensate(r.world, j, job)
  }

  /** A staged upload is one file, so the loader finds at most one document, at its path. */
  ghost predicate StagedFile(plan: Plan, path: string) {
    plan.load.Some? ==>
      && |plan.load.value| <= 1
      && forall i | 0 <= i < |plan.load.value| :: plan.load.value[i].sourcePath == path
  }
}
