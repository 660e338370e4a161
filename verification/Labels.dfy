/** What every call of the pipeline and the queue adds to the stores: new ids, and points and
    review items that are unpublished and bear the workspace of their document. Nothing that
    was there before is moved or brought to life again. */
module Labels {
  import opened Options
  import opened Records
  import opened Store
  import opened StoreIntegrity
  import opened Ingestion
  import opened IngestionIntegrity
  import opened Visibility
  import opened IngestVisibility

  /** If the payload names a workspace, it is that of the document of its live chunk. */
  ghost predicate Labelled(db: Db, p: Payload) {
    p.chunkId in db.chunks && db.chunks[p.chunkId].documentId in db.documents && p.workspaceId.Some? ==>
      p.workspaceId == db.documents[db.chunks[p.chunkId].documentId].workspaceId
  }

  /** An unpublished point of the chunk `c`, in its own workspace. */
  ghost predicate Own(db: Db, c: Id, p: Payload) {
    p.chunkId == c && c < db.nextId && !p.published && Labelled(db, p)
  }

  ghost predicate OwnItem(db: Db, item: ReviewItem) {
    item.status == Pending ==> Own(db, item.point.chunkId, item.point)
  }

  /** Rows with old ids are old rows, in the same document and workspace. */
  ghost predicate Continues(db: Db, after: Db) {
    && db.nextId <= after.nextId
    && (forall c | c in after.chunks && c < db.nextId ::
          c in db.chunks && after.chunks[c].documentId == db.chunks[c].documentId)
    && (forall d | d in after.documents && d < db.nextId ::
          d in db.documents && after.documents[d].workspaceId == db.documents[d].workspaceId)
  }

  ghost predicate PointsExtend(w: World, after: World) {
    forall c | c in after.points ::
      (c in w.points && after.points[c] == w.points[c]) || Own(after.db, c, after.points[c])
  }

  ghost predicate ReviewsExtend(db: Db, after: Db) {
    forall r | r in after.reviews ::
      (r in db.reviews && after.reviews[r] == db.reviews[r]) || OwnItem(after, after.reviews[r])
  }

  ghost predicate Extends(w: World, after: World) {
    Continues(w.db, after.db) && PointsExtend(w, after) && ReviewsExtend(w.db, after.db)
  }

  // ---------------------------------------------------------------- steps in a row

  lemma LabelledLater(db: Db, after: Db, p: Payload)
    requires FreshIds(db) && References(db) && Continues(db, after) && p.chunkId < db.nextId && Labelled(db, p)
    ensures Labelled(after, p)
  {
  }

  lemma OwnLater(db: Db, after: Db, c: Id, p: Payload)
    requires FreshIds(db) && References(db) && Continues(db, after) && Own(db, c, p)
    ensures Own(after, c, p)
  {
    LabelledLater(db, after, p);
    hide Labelled, References, FreshIds;
  }

  lemma ContinuesFurther(a: Db, b: Db, c: Db)
    requires Continues(a, b) && Continues(b, c)
    ensures Continues(a, c)
  {
  }

  lemma ExtendsFurther(u: World, v: World, w: World)
    requires Integrity(v.db) && Extends(u, v) && Extends(v, w)
    ensures Extends(u, w)
  {
    hide FreshIds, References, UniquePaths, VersionsOf, Continues, Own;
    ContinuesFurther(u.db, v.db, w.db);
    forall c | c in w.points
      ensures (c in u.points && w.points[c] == u.points[c]) || Own(w.db, c, w.points[c])
    {
      if c in v.points && w.points[c] == v.points[c] && Own(v.db, c, v.points[c]) {
        OwnLater(v.db, w.db, c, v.points[c]);
      }
    }
    forall r | r in w.db.reviews
      ensures (r in u.db.reviews && w.db.reviews[r] == u.db.reviews[r]) || OwnItem(w.db, w.db.reviews[r])
    {
      if r in v.db.reviews && w.db.reviews[r] == v.db.reviews[r] && OwnItem(v.db, v.db.reviews[r]) {
        OwnItemLater(v.db, w.db, v.db.reviews[r]);
      }
    }
  }

  lemma OwnItemLater(db: Db, after: Db, item: ReviewItem)
    requires FreshIds(db) && References(db) && Continues(db, after) && OwnItem(db, item)
    ensures OwnItem(after, item)
  {
    hide FreshIds, References, Continues, Own;
    if item.status == Pending { OwnLater(db, after, item.point.chunkId, item.point); }
  }

  /** Rows other than documents, chunks, points and review items do not matter. */
  lemma OtherRowsExtend(w: World, after: World)
    requires FreshIds(w.db) && after.points == w.points && after.db.chunks == w.db.chunks
    requires after.db.documents == w.db.documents && after.db.reviews == w.db.reviews && w.db.nextId <= after.db.nextId
    ensures Extends(w, after)
  {
  }

  /** One document row is written, in its old workspace if it is an old one. */
  lemma RowExtends(w: World, after: Db, d: Id)
    requires FreshIds(w.db) && w.db.nextId <= after.nextId && d in after.documents
    requires after.chunks == w.db.chunks && after.reviews == w.db.reviews
    requires after.documents == w.db.documents[d := after.documents[d]]
    requires d in w.db.documents || w.db.nextId <= d
    requires d in w.db.documents ==> after.documents[d].workspaceId == w.db.documents[d].workspaceId
    ensures Extends(w, World(after, w.points))
  {
  }

  lemma DeletionExtends(w: World, gone: set<Id>)
    requires FreshIds(w.db)
    ensures Extends(w, World(DeleteDocuments(w.db, gone), w.points))
  {
  }

  // ---------------------------------------------------------------- what this keeps

  /** Every point and every pending review item bears the workspace of its document. */
  ghost predicate LabelsSound(w: World) {
    && (forall c | c in w.points :: Labelled(w.db, w.points[c]))
    && (forall r | r in w.db.reviews && w.db.reviews[r].status == Pending :: Labelled(w.db, w.db.reviews[r].point))
  }

  lemma ExtendingKeepsKeys(w: World, after: World)
    requires Keyed(w) && Extends(w, after)
    ensures Keyed(after)
  {
    hide Labelled;
  }

  lemma ExtendingKeepsLabels(w: World, after: World)
    requires Integrity(w.db) && Keyed(w) && ReviewsSound(w.db) && LabelsSound(w) && Extends(w, after)
    ensures LabelsSound(after)
  {
    hide UniquePaths, VersionsOf, FreshIds, References, Continues, Labelled;
    forall c | c in after.points ensures Labelled(after.db, after.points[c]) {
      if c in w.points && after.points[c] == w.points[c] { LabelledLater(w.db, after.db, w.points[c]); }
    }
    forall r | r in after.db.reviews && after.db.reviews[r].status == Pending
      ensures Labelled(after.db, after.db.reviews[r].point)
    {
      if r in w.db.reviews && after.db.reviews[r] == w.db.reviews[r] {
        assert PendingSound(w.db, w.db.reviews[r]);
        LabelledLater(w.db, after.db, w.db.reviews[r].point);
      }
    }
  }

  // ---------------------------------------------------------------- ingestion

  lemma ReplacingExtends(w: World, d: Id, cands: seq<ChunkCandidate>)
    requires FreshIds(w.db)
    ensures Extends(w, World(ReplaceChunks(w.db, d, cands), w.points))
  {
  }

  lemma {:induction false} RoutingExtends(w: World, run: Id, d: Id, workspaceId: Option<Id>, doc: ParsedDocument,
                                          first: Id, cands: seq<ChunkCandidate>, n: nat, threshold: real)
    requires Integrity(w.db) && n <= |cands| && FreshPoint(w.db, d, workspaceId, first, |cands|)
    ensures var after := RouteReviews(w.db, run, d, workspaceId, doc, first, cands, n, threshold);
            Extends(w, World(after, w.points)) && w.db.nextId <= after.nextId
  {
    hide UniquePaths, VersionsOf, References;
    if n == 0 {
      OtherRowsExtend(w, w);
    } else {
      RoutingExtends(w, run, d, workspaceId, doc, first, cands, n - 1, threshold);
      RouteReviewsKeeps(w.db, run, d, workspaceId, doc, first, cands, n - 1, threshold);
      var r := RouteReviews(w.db, run, d, workspaceId, doc, first, cands, n - 1, threshold);
      var cand := cands[n - 1];
      if cand.confidence < threshold {
        var item := NewReview(run, cand, NewPoint(d, workspaceId, doc, first + n - 1, cand));
        assert Own(r, first + n - 1, item.point);
        hide Integrity, FreshPoint;
        ItemExtends(World(r, w.points), item);
        ExtendsFurther(w, World(r, w.points), World(CreateReview(r, item), w.points));
      }
    }
  }

  lemma ItemExtends(w: World, item: ReviewItem)
    requires Integrity(w.db) && OwnItem(w.db, item)
    ensures Extends(w, World(CreateReview(w.db, item), w.points))
  {
    hide UniquePaths, VersionsOf, Own;
    var after := CreateReview(w.db, item);
    assert Continues(w.db, after);
    OwnItemLater(w.db, after, item);
    hide OwnItem;
  }

  lemma PointsForExtend(w: World, d: Id, workspaceId: Option<Id>, doc: ParsedDocument, first: Id,
                        cands: seq<ChunkCandidate>, threshold: real)
    requires FreshIds(w.db) && FreshPoint(w.db, d, workspaceId, first, |cands|)
    ensures Extends(w, World(w.db, w.points + PointsFor(d, workspaceId, doc, first, cands, |cands|, threshold)))
  {
    var added := PointsFor(d, workspaceId, doc, first, cands, |cands|, threshold);
    forall c | c in added ensures Own(w.db, c, added[c]) {
      assert first <= c < first + |cands|;
    }
    hide Own, PointsFor;
    OtherRowsExtend(w, w);
  }

  lemma IndexingExtends(w: World, run: Id, d: Id, doc: ParsedDocument, setup: Setup, fault: Fault)
    requires Integrity(w.db) && d in w.db.documents
    ensures Extends(w, IndexDocument(w, run, d, doc, setup, fault).world)
  {
    hide FreshIds, UniquePaths, VersionsOf, References, Extends, RouteReviews, PointsFor, ReplaceChunks, FreshPoint;
    OtherRowsExtend(w, w);
    if fault != ReplaceFails {
      var cands := setup.chunker(doc);
      var first, workspaceId := w.db.nextId, w.db.documents[d].workspaceId;
      var replaced := World(ReplaceChunks(w.db, d, cands), w.points);
      var n := if fault.StopsAfter? && fault.routed <= |cands| then fault.routed else |cands|;
      ReplacingExtends(w, d, cands);
      ReplaceChunksKeeps(w.db, d, cands);
      NewChunksAreFresh(w.db, d, cands);
      RoutingExtends(replaced, run, d, workspaceId, doc, first, cands, n, setup.threshold);
      RouteReviewsKeeps(replaced.db, run, d, workspaceId, doc, first, cands, n, setup.threshold);
      var routed := World(RouteReviews(replaced.db, run, d, workspaceId, doc, first, cands, n, setup.threshold),
                          w.points);
      ExtendsFurther(w, replaced, routed);
      if fault == NoFault {
        FreshPointStays(replaced.db, routed.db, d, workspaceId, first, |cands|);
        PointsForExtend(routed, d, workspaceId, doc, first, cands, setup.threshold);
        ExtendsFurther(w, routed, IndexDocument(w, run, d, doc, setup, fault).world);
      }
    }
  }

  lemma FreshPointStays(db: Db, after: Db, d: Id, workspaceId: Option<Id>, first: Id, n: nat)
    requires FreshPoint(db, d, workspaceId, first, n) && db.nextId <= after.nextId
    requires after == db.(reviews := after.reviews, nextId := after.nextId)
    ensures FreshPoint(after, d, workspaceId, first, n)
  {
  }

  lemma IngestingExtends(w: World, run: Id, request: Request, doc: ParsedDocument, setup: Setup, fault: Fault)
    requires Integrity(w.db)
    ensures Extends(w, IngestDocument(w, run, request, doc, setup, fault).world)
  {
    hide UniquePaths, VersionsOf, References, FreshIds, Extends, UpsertFor, IndexDocument;
    OtherRowsExtend(w, w);
    var o := UpsertFor(w.db, request, doc);
    if o.Some? && o.value.changed {
      var u := o.value;
      UpsertForRows(w.db, request, doc);
      UpsertForKeeps(w.db, request, doc);
      RowExtends(w, u.db, u.id);
      IndexingExtends(World(u.db, w.points), run, u.id, doc, setup, fault);
      ExtendsFurther(w, World(u.db, w.points),
                     IndexDocument(World(u.db, w.points), run, u.id, doc, setup, fault).world);
    }
  }

  lemma {:induction false} RunningExtends(w: World, run: Id, request: Request, docs: seq<ParsedDocument>, setup: Setup,
                                          faults: seq<Fault>, n: nat)
    requires Integrity(w.db) && n <= |docs|
    ensures Extends(w, IngestUpTo(w, run, request, docs, setup, faults, n).world)
  {
    hide UniquePaths, VersionsOf, References, FreshIds, Extends, IngestDocument;
    if n == 0 {
      OtherRowsExtend(w, w);
    } else {
      RunningExtends(w, run, request, docs, setup, faults, n - 1);
      IngestUpToKeeps(w, run, request, docs, setup, faults, n - 1);
      var p := IngestUpTo(w, run, request, docs, setup, faults, n - 1);
      if p.ok {
        IngestingExtends(p.world, run, request, docs[n - 1], setup, FaultOf(faults, n - 1));
        ExtendsFurther(w, p.world,
                       IngestDocument(p.world, run, request, docs[n - 1], setup, FaultOf(faults, n - 1)).world);
      }
    }
  }

  /** A whole run only extends, wherever it fails. */
  lemma IngestExtends(w: World, request: Request, setup: Setup, plan: Plan)
    requires Integrity(w.db)
    ensures Extends(w, Ingest(w, request, setup, plan).world)
  {
    hide UniquePaths, VersionsOf, References, Extends, IngestUpTo;
    var run := w.db.nextId;
    var started := World(CreateRun(w.db, request.sourcePath), w.points);
    CreateRunKeeps(w.db, request.sourcePath);
    OtherRowsExtend(w, started);
    var after := Ingest(w, request, setup, plan).world;
    if plan.load == None {
      OtherRowsExtend(w, after);
    } else {
      var docs := plan.load.value;
      RunningExtends(started, run, request, docs, setup, plan.faults, |docs|);
      IngestUpToKeeps(started, run, request, docs, setup, plan.faults, |docs|);
      var p := IngestUpTo(started, run, request, docs, setup, plan.faults, |docs|);
      ExtendsFurther(w, started, p.world);
      OtherRowsExtend(p.world, after);
      ExtendsFurther(w, p.world, after);
    }
  }

  // ---------------------------------------------------------------- passes

  lemma RollingBackExtends(w: World, d: Id)
    requires Integrity(w.db) && RollbackVersion(w.db, d).Some?
    ensures Extends(w, World(RollbackVersion(w.db, d).value, w.points))
  {
    hide UniquePaths, VersionsOf, References;
    if d in w.db.documents && w.db.documents[d].currentVersion > 1 {
      var v := RollbackIs(w.db, d);
      hide RollbackVersion;
      RowExtends(w, RollbackVersion(w.db, d).value, d);
    } else {
      OtherRowsExtend(w, w);
    }
  }

  lemma CompensatingExtends(w: World, j: Id, job: Job)
    requires Integrity(w.db) && j in w.db.jobs
    ensures Extends(w, Compensate(w, j, job).world)
  {
    hide UniquePaths, VersionsOf, References, Extends, RollbackVersion, DeleteDocuments;
    OtherRowsExtend(w, w);
    if job.targetDocumentId.Some? {
      var rolled := RollbackVersion(w.db, job.targetDocumentId.value);
      if rolled.Some? {
        RollingBackExtends(w, job.targetDocumentId.value);
        RollbackKeeps(w.db, job.targetDocumentId.value);
        RollbackKeepsJobs(w.db, job.targetDocumentId.value);
        FailingExtends(w, rolled.value, j);
      }
    } else {
      var gone := set d | d in w.db.documents && w.db.documents[d].fields.sourcePath == job.sourcePath;
      DeletionExtends(w, gone);
      DeleteKeeps(w.db, gone);
      DeleteKeepsJobs(w.db, gone);
      FailingExtends(w, DeleteDocuments(w.db, gone), j);
    }
  }

  lemma FailingExtends(w: World, middle: Db, j: Id)
    requires Integrity(middle) && Extends(w, World(middle, w.points)) && j in middle.jobs
    ensures Extends(w, World(FailJob(middle, j, FAILURE), w.points))
  {
    hide UniquePaths, VersionsOf, References, Extends;
    var v := World(middle, w.points);
    OtherRowsExtend(v, World(FailJob(middle, j, FAILURE), w.points));
    ExtendsFurther(w, v, World(FailJob(middle, j, FAILURE), w.points));
  }

  /** A pass of the worker only extends, wherever it fails. */
  lemma PassExtends(w: World, j: Id, setup: Setup, plan: Plan)
    requires Integrity(w.db) && IsNext(w.db.jobs, j)
    ensures Extends(w, RunOnce(w, j, setup, plan).world)
  {
    hide UniquePaths, VersionsOf, References, Extends, Ingest, Owner, Compensate;
    var job := w.db.jobs[j];
    var claimed := World(ClaimJob(w.db, j), w.points);
    JobRefs(w.db, j);
    JobRowKeeps(w.db, j, claimed.db.jobs[j]);
    OtherRowsExtend(w, claimed);
    IngestExtends(claimed, JobRequest(job), setup, plan);
    IngestKeeps(claimed, JobRequest(job), setup, plan);
    var r := JobRun(w, j, setup, plan);
    ExtendsFurther(w, claimed, r.world);
    var after := RunOnce(w, j, setup, plan).world;
    if r.status == Completed && Owner(r.world.db.documents, job.sourcePath).Some? {
      OtherRowsExtend(r.world, after);
    } else {
      CompensatingExtends(r.world, j, job);
    }
    ExtendsFurther(w, r.world, after);
  }
}
