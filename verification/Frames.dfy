/** What ingesting one document leaves alone: every other document with its chunks, points and
    review items. */
module Frames {
  import opened Options
  import opened Records
  import opened Store
  import opened StoreIntegrity
  import opened Ingestion
  import opened IngestionIntegrity
  import opened JobOutcome
  import opened IngestVisibility
  import opened Conservation

  /** Chunk `c` is live in a document other than `d`. */
  ghost predicate ElsewhereLive(chunks: map<Id, Chunk>, c: Id, d: Id) {
    c in chunks && chunks[c].documentId != d
  }

  ghost predicate RowsStay(db: Db, after: Db, d: Id) {
    && db.nextId <= after.nextId
    && (forall e | e in db.documents && e != d :: e in after.documents && after.documents[e] == db.documents[e])
    && (forall e | e in after.documents && e != d :: e in db.documents)
    && (forall c :: ElsewhereLive(after.chunks, c, d) <==> ElsewhereLive(db.chunks, c, d))
    && (forall c | ElsewhereLive(db.chunks, c, d) :: after.chunks[c] == db.chunks[c])
  }

  ghost predicate PointsStay(w: World, after: World) {
    && (forall c | c in w.points :: c in after.points && after.points[c] == w.points[c])
    && (forall c | c in after.points && c !in w.points ::
          w.db.nextId <= c < after.db.nextId && !after.points[c].published)
  }

  /** Old review items stay, and a new one is about a new chunk. */
  ghost predicate ItemsStay(db: Db, after: Db) {
    && (forall r | r in db.reviews :: r in after.reviews && after.reviews[r] == db.reviews[r])
    && (forall r | r in after.reviews && r !in db.reviews ::
          db.nextId <= r && db.nextId <= after.reviews[r].point.chunkId < after.nextId)
  }

  ghost predicate LeavesOthers(w: World, after: World, d: Id) {
    RowsStay(w.db, after.db, d) && PointsStay(w, after) && ItemsStay(w.db, after.db)
  }

  // ---------------------------------------------------------------- one document

  lemma {:induction false} RoutingLeavesItems(db: Db, run: Id, d: Id, workspaceId: Option<Id>, doc: ParsedDocument,
                                              first: Id, cands: seq<ChunkCandidate>, n: nat, threshold: real)
    requires n <= |cands| && first + |cands| <= db.nextId && forall r | r in db.reviews :: r < db.nextId
    ensures var after := RouteReviews(db, run, d, workspaceId, doc, first, cands, n, threshold);
            && db.nextId <= after.nextId && (forall r | r in after.reviews :: r < after.nextId)
            && (forall r | r in db.reviews :: r in after.reviews && after.reviews[r] == db.reviews[r])
            && (forall r | r in after.reviews && r !in db.reviews ::
                  db.nextId <= r && first <= after.reviews[r].point.chunkId < first + n)
  {
    if n > 0 { RoutingLeavesItems(db, run, d, workspaceId, doc, first, cands, n - 1, threshold); }
  }

  lemma ReplacingLeavesRows(db: Db, d: Id, cands: seq<ChunkCandidate>)
    requires FreshIds(db)
    ensures RowsStay(db, ReplaceChunks(db, d, cands), d)
    ensures ReplaceChunks(db, d, cands).reviews == db.reviews
    ensures ReplaceChunks(db, d, cands).nextId == db.nextId + |cands|
  {
  }

  lemma RowsStayFurther(a: Db, b: Db, c: Db, d: Id)
    requires RowsStay(a, b, d) && RowsStay(b, c, d)
    ensures RowsStay(a, c, d)
  {
  }

  lemma SameRowsStay(a: Db, b: Db, c: Db, d: Id)
    requires RowsStay(a, b, d) && c.documents == b.documents && c.chunks == b.chunks && b.nextId <= c.nextId
    ensures RowsStay(a, c, d)
  {
  }

  lemma UpsertLeavesRows(db: Db, after: Db, d: Id)
    requires db.nextId <= after.nextId && d in after.documents && after.chunks == db.chunks
    requires after.documents == db.documents[d := after.documents[d]]
    ensures RowsStay(db, after, d)
  {
  }

  lemma AddedPointsStay(w: World, d: Id, workspaceId: Option<Id>, doc: ParsedDocument, first: Id,
                        cands: seq<ChunkCandidate>, threshold: real, after: Db)
    requires PointsFresh(w) && w.db.nextId <= first && first + |cands| <= after.nextId
    ensures PointsStay(w, World(after, w.points + PointsFor(d, workspaceId, doc, first, cands, |cands|, threshold)))
  {
    PointsAre(d, workspaceId, doc, first, cands, threshold);
    NewPointsAreUnpublished(d, workspaceId, doc, first, cands, threshold);
    hide PointsFor;
  }

  lemma NewPointsAreUnpublished(d: Id, workspaceId: Option<Id>, doc: ParsedDocument, first: Id,
                                cands: seq<ChunkCandidate>, threshold: real)
    ensures var points := PointsFor(d, workspaceId, doc, first, cands, |cands|, threshold);
            forall c | c in points :: !points[c].published
  {
    hide IdRange;
  }

  lemma IndexingLeavesOthers(w: World, run: Id, d: Id, doc: ParsedDocument, setup: Setup)
    requires Integrity(w.db) && PointsFresh(w) && d in w.db.documents
    ensures LeavesOthers(w, IndexDocument(w, run, d, doc, setup, NoFault).world, d)
  {
    hide UniquePaths, References, VersionsOf, RouteReviews, PointsFor, ReplaceChunks, RowsStay;
    var cands, first, workspaceId := setup.chunker(doc), w.db.nextId, w.db.documents[d].workspaceId;
    var replaced := ReplaceChunks(w.db, d, cands);
    ReplacingLeavesRows(w.db, d, cands);
    OldItems(w.db);
    hide Integrity, FreshIds;
    RoutingLeavesItems(replaced, run, d, workspaceId, doc, first, cands, |cands|, setup.threshold);
    var after := RouteReviews(replaced, run, d, workspaceId, doc, first, cands, |cands|, setup.threshold);
    SameRowsStay(w.db, replaced, after, d);
    AddedPointsStay(w, d, workspaceId, doc, first, cands, setup.threshold, after);
  }

  lemma OldItems(db: Db)
    requires FreshIds(db)
    ensures forall r | r in db.reviews :: r < db.nextId
  {
  }

  /** The content hash held at a path. */
  ghost function HashHeld(documents: map<Id, Document>, path: string): Option<string> {
    var owner := Owner(documents, path);
    if owner.Some? then Some(documents[owner.value].fields.contentHash) else None
  }

  /** What the ingestion of one document of a scan does, by the hash held at its path. */
  ghost predicate Ingested(w: World, after: DocResult, doc: ParsedDocument, fault: Fault) {
    if HashHeld(w.db.documents, doc.sourcePath) == Some(doc.contentHash) then after == DocResult(w, Unchanged)
    else if fault != NoFault then after.outcome == Raised
    else
      var owner := Owner(after.world.db.documents, doc.sourcePath);
      && after.outcome.Changed? && owner.Some?
      && after.world.db.documents[owner.value].fields.contentHash == doc.contentHash
      && LeavesOthers(w, after.world, owner.value)
      && (forall c | c in after.world.db.chunks && after.world.db.chunks[c].documentId == owner.value ::
            w.db.nextId <= c)
      && (var before := Owner(w.db.documents, doc.sourcePath);
          if before.Some? then before == owner else owner.value !in w.db.documents)
  }

  lemma IngestedAs(w: World, run: Id, request: Request, doc: ParsedDocument, setup: Setup, fault: Fault)
    requires Integrity(w.db) && PointsFresh(w) && request.target == None
    ensures Ingested(w, IngestDocument(w, run, request, doc, setup, fault), doc, fault)
  {
    hide References, VersionsOf, IndexDocument, LeavesOthers, Owner;
    OwnerHasPath(w.db.documents, doc.sourcePath);
    var u := UpsertDocument(w.db, doc, request.workspaceId, request.uploadedBy);
    UpsertForKeeps(w.db, request, doc);
    UpsertDocumentRows(w.db, doc, request.workspaceId, request.uploadedBy);
    if u.changed && fault == NoFault {
      IndexedAs(w, run, u, doc, setup);
      UpsertedIsOwner(w.db, request, doc);
      assert FreshIds(w.db);
      IndexingKeepsDocuments(World(u.db, w.points), run, u.id, doc, setup, NoFault);
    } else if u.changed {
      FaultRaises(World(u.db, w.points), run, u.id, doc, setup, fault);
    }
  }

  lemma FaultRaises(w: World, run: Id, d: Id, doc: ParsedDocument, setup: Setup, fault: Fault)
    requires d in w.db.documents && fault != NoFault
    ensures IndexDocument(w, run, d, doc, setup, fault).outcome == Raised
  {
  }

  lemma UpsertedIsOwner(db: Db, request: Request, doc: ParsedDocument)
    requires Integrity(db)
    ensures var u := UpsertDocument(db, doc, request.workspaceId, request.uploadedBy);
            && Owner(u.db.documents, doc.sourcePath) == Some(u.id)
            && u.db.documents[u.id].fields.contentHash == doc.contentHash
  {
    var u := UpsertDocument(db, doc, request.workspaceId, request.uploadedBy);
    UpsertedRow(db, request, doc);
    UpsertDocumentKeeps(db, doc, request.workspaceId, request.uploadedBy);
    hide FreshIds, References, VersionsOf, UpsertDocument;
    OwnerIsUnique(u.db.documents, doc.sourcePath, u.id);
  }

  lemma IndexedAs(w: World, run: Id, u: Upserted, doc: ParsedDocument, setup: Setup)
    requires Integrity(u.db) && PointsFresh(w) && w.db.nextId <= u.db.nextId && u.id in u.db.documents
    requires u.db.chunks == w.db.chunks && u.db.reviews == w.db.reviews
    requires u.db.documents == w.db.documents[u.id := u.db.documents[u.id]]
    ensures var after := IndexDocument(World(u.db, w.points), run, u.id, doc, setup, NoFault);
            && after.outcome.Changed? && LeavesOthers(w, after.world, u.id)
            && forall c | c in after.world.db.chunks && after.world.db.chunks[c].documentId == u.id :: w.db.nextId <= c
  {
    hide UniquePaths, References, VersionsOf, RowsStay, LeavesOthers, RoutedOnce;
    var v := World(u.db, w.points);
    var after := IndexDocument(v, run, u.id, doc, setup, NoFault).world;
    UpsertLeavesRows(w.db, u.db, u.id);
    assert PointsFresh(v);
    IndexingLeavesOthers(v, run, u.id, doc, setup);
    ChangedDocumentConserves(v, run, u.id, doc, setup);
    hide Integrity, FreshIds, IndexDocument, IdRange, PointsFresh;
    LeavesOthersBefore(w, v, after, u.id);
    ChunksFrom(after.db, u.id, v.db.nextId, |setup.chunker(doc)|);
  }

  lemma ChunksFrom(db: Db, d: Id, first: Id, n: nat)
    requires ChunksOf(db, d) == IdRange(first, n)
    ensures forall c | c in db.chunks && db.chunks[c].documentId == d :: first <= c
  {
    hide IdRange;
    forall c | c in db.chunks && db.chunks[c].documentId == d ensures first <= c { assert c in ChunksOf(db, d); }
  }

  lemma LeavesOthersBefore(w: World, v: World, after: World, d: Id)
    requires RowsStay(w.db, v.db, d) && v.points == w.points && v.db.reviews == w.db.reviews
    requires LeavesOthers(v, after, d)
    ensures LeavesOthers(w, after, d)
  {
    RowsStayFurther(w.db, v.db, after.db, d);
    assert w.db.nextId <= v.db.nextId;
    hide RowsStay;
  }

  // ---------------------------------------------------------------- other paths

  /** The owner of another path, and all that belongs to it, stays. */
  lemma OtherOwnerStays(w: World, after: World, d: Id, path: string)
    requires LeavesOthers(w, after, d) && UniquePaths(w.db.documents) && UniquePaths(after.db.documents)
    requires d in w.db.documents ==> w.db.documents[d].fields.sourcePath != path
    requires d in after.db.documents ==> after.db.documents[d].fields.sourcePath != path
    ensures Owner(after.db.documents, path) == Owner(w.db.documents, path)
    ensures HashHeld(after.db.documents, path) == HashHeld(w.db.documents, path)
  {
    hide Owner, UniquePaths;
    OwnerHasPath(w.db.documents, path);
    OwnerHasPath(after.db.documents, path);
    var owner := Owner(w.db.documents, path);
    if owner.Some? { OwnerIsUnique(after.db.documents, path, owner.value); }
  }

  lemma OtherExposureStays(w: World, after: World, d: Id, e: Id)
    requires LeavesOthers(w, after, d) && e != d && FreshIds(w.db)
    ensures Exposed(after, e) <==> Exposed(w, e)
  {
    hide FreshIds;
    if Exposed(w, e) {
      var c :| c in w.points && w.points[c].published && c in w.db.chunks && w.db.chunks[c].documentId == e;
      assert ElsewhereLive(w.db.chunks, c, d);
      assert c in after.points && after.db.chunks[c].documentId == e;
    }
    if Exposed(after, e) {
      var c :| c in after.points && after.points[c].published && c in after.db.chunks
               && after.db.chunks[c].documentId == e;
      assert ElsewhereLive(after.db.chunks, c, d);
      assert c in w.points && w.db.chunks[c].documentId == e;
    }
  }
}
