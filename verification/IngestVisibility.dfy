/** Which ingestion runs and job passes keep the world safe. */
module IngestVisibility {
  import opened Options
  import opened Records
  import opened Store
  import opened StoreIntegrity
  import opened Ingestion
  import opened IngestionIntegrity
  import opened Visibility

  // ---------------------------------------------------------------- upserts

  /** Some live chunk of document `d` has a published point. */
  ghost predicate Exposed(w: World, d: Id) {
    exists c :: c in w.points && w.points[c].published && c in w.db.chunks && w.db.chunks[c].documentId == d
  }

  /** An upsert writes one document row, which then needs a fresh acknowledgement. */
  lemma UpsertForRows(db: Db, request: Request, doc: ParsedDocument)
    requires UpsertFor(db, request, doc).Some? && FreshIds(db)
    ensures var u := UpsertFor(db, request, doc).value;
            && u.db.chunks == db.chunks && u.db.reviews == db.reviews && db.nextId <= u.db.nextId
            && u.id in u.db.documents && u.db.documents == db.documents[u.id := u.db.documents[u.id]]
            && (u.id in db.documents || u.id == db.nextId)
            && (u.id in db.documents ==> u.db.documents[u.id].workspaceId == db.documents[u.id].workspaceId)
            && (u.changed ==> u.db.documents[u.id].fields.ackedAt == None)
            && (!u.changed ==> u.db == db)
  {
    hide FreshIds, Owner, PathFree;
    if request.target.Some? {
      hide UpsertDocument;
    } else {
      hide UpsertVersion;
      UpsertDocumentRows(db, doc, request.workspaceId, request.uploadedBy);
      hide UpsertDocument;
    }
  }

  lemma UpsertDocumentRows(db: Db, doc: ParsedDocument, workspaceId: Option<Id>, uploadedBy: Option<string>)
    requires FreshIds(db)
    ensures var u := UpsertDocument(db, doc, workspaceId, uploadedBy);
            && u.db == db.(documents := u.db.documents, nextId := u.db.nextId) && db.nextId <= u.db.nextId
            && u.id in u.db.documents && u.db.documents == db.documents[u.id := u.db.documents[u.id]]
            && (u.id in db.documents || u.id == db.nextId)
            && (u.id in db.documents ==> u.db.documents[u.id].workspaceId == db.documents[u.id].workspaceId)
            && (u.changed ==> u.db.documents[u.id].fields.ackedAt == None)
            && (!u.changed ==> u.db == db)
  {
    hide Owner;
    var owner := Owner(db.documents, doc.sourcePath);
    OwnerHasPath(db.documents, doc.sourcePath);
    if owner.Some? {
      assert db.documents == db.documents[owner.value := db.documents[owner.value]];
    }
  }

  lemma SteadyRow(db: Db, after: Db, d: Id)
    requires FreshIds(db) && db.nextId <= after.nextId && after.chunks == db.chunks && d in after.documents
    requires after.documents == db.documents[d := after.documents[d]]
    requires d in db.documents ==> after.documents[d].workspaceId == db.documents[d].workspaceId
    ensures Steady(db, after)
  {
  }

  /** After an upsert only the points of that document may be unsound. */
  lemma UpsertLeavesOthersSound(w: World, after: Db, d: Id)
    requires Integrity(w.db) && PointsSound(w) && w.db.nextId <= after.nextId && after.chunks == w.db.chunks
    requires d in after.documents && after.documents == w.db.documents[d := after.documents[d]]
    ensures PointsSoundBut(World(after, w.points), {d})
  {
    assert References(w.db);
    hide Integrity;
  }

  // ---------------------------------------------------------------- chunks, reviews and points

  lemma ReplacedIsSound(w: World, d: Id, cands: seq<ChunkCandidate>)
    requires PointsSoundBut(w, {d})
    ensures PointsSound(World(ReplaceChunks(w.db, d, cands), w.points))
  {
    hide Sound;
    var after := ReplaceChunks(w.db, d, cands);
    forall c | c in w.points
      ensures w.points[c].chunkId == c && c < after.nextId
      ensures c in after.chunks ==> Sound(after.documents, w.points[c], after.chunks[c].documentId)
    {
      assert c < w.db.nextId;
    }
  }

  lemma ReplacedIsSteady(db: Db, d: Id, cands: seq<ChunkCandidate>)
    ensures Steady(db, ReplaceChunks(db, d, cands))
  {
  }

  lemma NewReviewIsSound(db: Db, item: ReviewItem)
    requires Integrity(db) && ReviewsSound(db) && PendingSound(db, item)
    ensures ReviewsSound(CreateReview(db, item))
  {
    CreateReviewKeeps(db, item);
    var after := CreateReview(db, item);
    assert References(after) && Steady(db, after);
    hide Integrity, PendingSound, References, Steady;
    forall r | r in after.reviews ensures PendingSound(after, after.reviews[r]) {
      PendingAfterSteady(db, after, after.reviews[r]);
    }
  }

  /** A point for a new chunk of `d` in the document's own workspace. */
  ghost predicate FreshPoint(db: Db, d: Id, workspaceId: Option<Id>, first: Id, n: nat) {
    && d in db.documents && db.documents[d].workspaceId == workspaceId && first + n <= db.nextId
    && forall c: Id | first <= c < first + n :: c in db.chunks && db.chunks[c].documentId == d
  }

  lemma {:induction false} RoutedIsSound(db: Db, run: Id, d: Id, workspaceId: Option<Id>, doc: ParsedDocument,
                                         first: Id, cands: seq<ChunkCandidate>, n: nat, threshold: real)
    requires Integrity(db) && ReviewsSound(db) && n <= |cands|
    requires FreshPoint(db, d, workspaceId, first, |cands|)
    ensures ReviewsSound(RouteReviews(db, run, d, workspaceId, doc, first, cands, n, threshold))
  {
    hide Integrity, ReviewsSound;
    if n > 0 {
      RoutedIsSound(db, run, d, workspaceId, doc, first, cands, n - 1, threshold);
      RouteReviewsKeeps(db, run, d, workspaceId, doc, first, cands, n - 1, threshold);
      var r := RouteReviews(db, run, d, workspaceId, doc, first, cands, n - 1, threshold);
      var cand := cands[n - 1];
      var item := NewReview(run, cand, NewPoint(d, workspaceId, doc, first + n - 1, cand));
      assert PendingSound(r, item);
      if cand.confidence < threshold { NewReviewIsSound(r, item); }
    }
  }

  lemma ReplacedIsReady(w: World, d: Id, cands: seq<ChunkCandidate>)
    requires Integrity(w.db) && PointsSoundBut(w, {d}) && ReviewsSound(w.db) && d in w.db.documents
    ensures var after := ReplaceChunks(w.db, d, cands);
            && Safe(World(after, w.points))
            && FreshPoint(after, d, w.db.documents[d].workspaceId, w.db.nextId, |cands|)
  {
    hide FreshIds, UniquePaths, References, VersionsOf, PointsSoundBut, ReviewsSound, Steady, ReplaceChunks, FreshPoint;
    var after := ReplaceChunks(w.db, d, cands);
    ReplaceChunksKeeps(w.db, d, cands);
    ReplacedIsSound(w, d, cands);
    ReplacedIsSteady(w.db, d, cands);
    ReplacedReviews(w.db, d, cands);
    SteadyKeepsReviews(w.db, after);
    NewChunksAreFresh(w.db, d, cands);
  }

  lemma ReplacedReviews(db: Db, d: Id, cands: seq<ChunkCandidate>)
    ensures ReplaceChunks(db, d, cands).reviews == db.reviews
  {
  }

  lemma NewChunksAreFresh(db: Db, d: Id, cands: seq<ChunkCandidate>)
    requires d in db.documents
    ensures FreshPoint(ReplaceChunks(db, d, cands), d, db.documents[d].workspaceId, db.nextId, |cands|)
  {
  }

  lemma RoutedIsSafe(w: World, run: Id, d: Id, workspaceId: Option<Id>, doc: ParsedDocument, first: Id,
                     cands: seq<ChunkCandidate>, n: nat, threshold: real)
    requires Safe(w) && n <= |cands| && FreshPoint(w.db, d, workspaceId, first, |cands|)
    ensures var after := RouteReviews(w.db, run, d, workspaceId, doc, first, cands, n, threshold);
            Safe(World(after, w.points)) && FreshPoint(after, d, workspaceId, first, |cands|)
  {
    hide Integrity, PointsSound, ReviewsSound, RouteReviews;
    var after := RouteReviews(w.db, run, d, workspaceId, doc, first, cands, n, threshold);
    RoutedIsSound(w.db, run, d, workspaceId, doc, first, cands, n, threshold);
    RouteReviewsKeeps(w.db, run, d, workspaceId, doc, first, cands, n, threshold);
    RoutingKeepsPoints(w.db, after, w.points);
  }

  lemma IndexedIsSafe(w: World, run: Id, d: Id, doc: ParsedDocument, setup: Setup, fault: Fault)
    requires Integrity(w.db) && PointsSoundBut(w, {d}) && ReviewsSound(w.db)
    requires d in w.db.documents && fault != ReplaceFails
    ensures Safe(IndexDocument(w, run, d, doc, setup, fault).world)
  {
    hide Integrity, PointsSoundBut, ReviewsSound, ReplaceChunks, FreshPoint, RouteReviews, PointsFor;
    var cands := setup.chunker(doc);
    var first, workspaceId := w.db.nextId, w.db.documents[d].workspaceId;
    var replaced := World(ReplaceChunks(w.db, d, cands), w.points);
    ReplacedIsReady(w, d, cands);
    var n := if fault.StopsAfter? && fault.routed <= |cands| then fault.routed else |cands|;
    RoutedIsSafe(replaced, run, d, workspaceId, doc, first, cands, n, setup.threshold);
    if fault == NoFault {
      var routed := RouteReviews(replaced.db, run, d, workspaceId, doc, first, cands, n, setup.threshold);
      AddedPointsAreSound(World(routed, w.points), d, workspaceId, doc, first, cands, setup.threshold);
    }
  }

  lemma RoutingKeepsPoints(db: Db, after: Db, points: map<Id, Payload>)
    requires PointsSound(World(db, points)) && after == db.(reviews := after.reviews, nextId := after.nextId)
    requires db.nextId <= after.nextId
    ensures PointsSound(World(after, points))
  {
    hide Sound;
  }

  lemma AddedPointsAreSound(w: World, d: Id, workspaceId: Option<Id>, doc: ParsedDocument, first: Id,
                            cands: seq<ChunkCandidate>, threshold: real)
    requires PointsSound(w) && FreshPoint(w.db, d, workspaceId, first, |cands|)
    ensures PointsSound(World(w.db, w.points + PointsFor(d, workspaceId, doc, first, cands, |cands|, threshold)))
  {
    var added := PointsFor(d, workspaceId, doc, first, cands, |cands|, threshold);
    forall c | c in added ensures added[c].chunkId == c && c < w.db.nextId && c in w.db.chunks
      ensures Sound(w.db.documents, added[c], w.db.chunks[c].documentId)
    {
      assert first <= c < first + |cands|;
    }
    hide Sound, FreshPoint, PointsFor;
  }

  // ---------------------------------------------------------------- one document

  /** Ingesting one document keeps the world safe wherever it fails later than the replacement
      of the chunks; failing before that exposes it exactly when the document changed and one
      of its live chunks was published. */
  lemma IngestDocumentIsSafe(w: World, run: Id, request: Request, doc: ParsedDocument, setup: Setup, fault: Fault)
    requires Safe(w)
    ensures var after := IngestDocument(w, run, request, doc, setup, fault).world;
            var u := UpsertFor(w.db, request, doc);
            && Integrity(after.db) && ReviewsSound(after.db)
            && (PointsSound(after) <==>
                  !(fault == ReplaceFails && u.Some? && u.value.changed && Exposed(w, u.value.id)))
  {
    IngestDocumentKeeps(w, run, request, doc, setup, fault);
    var o := UpsertFor(w.db, request, doc);
    if o.Some? {
      var u := o.value;
      UpsertForRows(w.db, request, doc);
      UpsertForKeeps(w.db, request, doc);
      assert References(u.db) && FreshIds(w.db);
      if u.changed {
        UpsertLeavesOthersSound(w, u.db, u.id);
        SteadyRow(w.db, u.db, u.id);
        SteadyKeepsReviews(w.db, u.db);
        if fault != ReplaceFails {
          IndexedIsSafe(World(u.db, w.points), run, u.id, doc, setup, fault);
        } else {
          assert IngestDocument(w, run, request, doc, setup, fault).world == World(u.db, w.points);
          UnackedExposure(w, u.db, u.id);
        }
      }
    }
  }

  /** Once a document is no longer acknowledged, the points are sound exactly when none of its
      live chunks is published. */
  lemma UnackedExposure(w: World, after: Db, d: Id)
    requires Integrity(w.db) && PointsSound(w) && w.db.nextId <= after.nextId && after.chunks == w.db.chunks
    requires d in after.documents && after.documents == w.db.documents[d := after.documents[d]]
    requires d in w.db.documents ==> after.documents[d].workspaceId == w.db.documents[d].workspaceId
    requires after.documents[d].fields.ackedAt == None
    ensures PointsSound(World(after, w.points)) <==> !Exposed(w, d)
  {
    hide FreshIds, UniquePaths, VersionsOf;
    assert References(w.db);
    hide Integrity;
    if Exposed(w, d) {
      var c :| c in w.points && w.points[c].published && c in w.db.chunks && w.db.chunks[c].documentId == d;
      assert !Sound(after.documents, w.points[c], d);
    }
  }
}
