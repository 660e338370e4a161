/** What an ingestion run accounts for: every chunk is routed exactly once, the counters count,
    and unchanged documents cost nothing. Also what an aborted sync run discards. */
module Conservation {
  import opened Options
  import opened Records
  import opened Store
  import opened StoreIntegrity
  import opened Ingestion
  import opened IngestionIntegrity
  import opened JobOutcome

  // ---------------------------------------------------------------- routing

  /** Review item `r` is new and holds chunk `c` for review. */
  ghost predicate HeldFor(db: Db, after: Db, r: Id, c: Id) {
    r !in db.reviews && r in after.reviews && after.reviews[r].status == Pending && after.reviews[r].point.chunkId == c
  }

  ghost predicate Held(db: Db, after: Db, c: Id) {
    exists r :: HeldFor(db, after, r, c)
  }

  /** Of the first `n` chunks exactly those below the threshold are held, each by one item. */
  ghost predicate HeldExactly(db: Db, after: Db, first: Id, cands: seq<ChunkCandidate>, n: nat, threshold: real)
    requires n <= |cands|
  {
    && (forall c: Id | first <= c < first + n :: Held(db, after, c) <==> cands[c - first].confidence < threshold)
    && (forall r | r in after.reviews && r !in db.reviews :: first <= after.reviews[r].point.chunkId < first + n)
    && (forall r, s, c | HeldFor(db, after, r, c) && HeldFor(db, after, s, c) :: r == s)
    && (forall r | r in db.reviews :: r in after.reviews && after.reviews[r] == db.reviews[r])
  }

  lemma {:induction false} RoutedExactly(db: Db, run: Id, d: Id, workspaceId: Option<Id>, doc: ParsedDocument,
                                         first: Id, cands: seq<ChunkCandidate>, n: nat, threshold: real)
    requires n <= |cands| && forall r | r in db.reviews :: r < db.nextId
    ensures var after := RouteReviews(db, run, d, workspaceId, doc, first, cands, n, threshold);
            && HeldExactly(db, after, first, cands, n, threshold)
            && (forall r | r in after.reviews :: r < after.nextId) && db.nextId <= after.nextId
  {
    if n > 0 {
      RoutedExactly(db, run, d, workspaceId, doc, first, cands, n - 1, threshold);
      var r := RouteReviews(db, run, d, workspaceId, doc, first, cands, n - 1, threshold);
      var cand := cands[n - 1];
      var item := NewReview(run, cand, NewPoint(d, workspaceId, doc, first + n - 1, cand));
      hide RouteReviews;
      RouteOneMore(db, r, first, cands, n, threshold, item);
    }
  }

  lemma RouteOneMore(db: Db, r: Db, first: Id, cands: seq<ChunkCandidate>, n: nat, threshold: real, item: ReviewItem)
    requires 1 <= n <= |cands| && HeldExactly(db, r, first, cands, n - 1, threshold)
    requires db.nextId <= r.nextId && (forall i | i in r.reviews :: i < r.nextId)
    requires forall i | i in db.reviews :: i < db.nextId
    requires item.status == Pending && item.point.chunkId == first + n - 1
    ensures var after := if cands[n - 1].confidence < threshold then CreateReview(r, item) else r;
            HeldExactly(db, after, first, cands, n, threshold)
  {
    if cands[n - 1].confidence < threshold {
      HeldMore(db, r, first, cands, n, threshold, item);
    } else {
      HeldNoMore(db, r, first, cands, n, threshold);
    }
  }

  lemma HeldNoMore(db: Db, r: Db, first: Id, cands: seq<ChunkCandidate>, n: nat, threshold: real)
    requires 1 <= n <= |cands| && HeldExactly(db, r, first, cands, n - 1, threshold)
    requires cands[n - 1].confidence >= threshold
    ensures HeldExactly(db, r, first, cands, n, threshold)
  {
    var last := first + n - 1;
    assert forall s :: !HeldFor(db, r, s, last);
    assert !Held(db, r, last);
  }

  lemma HeldMore(db: Db, r: Db, first: Id, cands: seq<ChunkCandidate>, n: nat, threshold: real, item: ReviewItem)
    requires 1 <= n <= |cands| && HeldExactly(db, r, first, cands, n - 1, threshold)
    requires db.nextId <= r.nextId && (forall i | i in r.reviews :: i < r.nextId)
    requires forall i | i in db.reviews :: i < db.nextId
    requires item.status == Pending && item.point.chunkId == first + n - 1 && cands[n - 1].confidence < threshold
    ensures HeldExactly(db, CreateReview(r, item), first, cands, n, threshold)
  {
    var after := CreateReview(r, item);
    assert HeldFor(db, after, r.nextId, first + n - 1);
    assert forall s, c :: HeldFor(db, after, s, c) <==> HeldFor(db, r, s, c) || (s == r.nextId && c == first + n - 1);
    forall c: Id | first <= c < first + n - 1 ensures Held(db, after, c) <==> Held(db, r, c) {
      if Held(db, r, c) {
        var s :| HeldFor(db, r, s, c);
        assert HeldFor(db, after, s, c);
      }
    }
  }

  ghost predicate PointsFresh(w: World) {
    forall c | c in w.points :: c < w.db.nextId
  }

  /** Of the chunks `cands`, with ids from `first` on, those that reach the threshold have a new point and
      the others a new pending review item, and no earlier point changed. */
  ghost predicate RoutedOnce(w: World, after: World, first: Id, cands: seq<ChunkCandidate>, threshold: real) {
    && (forall c: Id | first <= c < first + |cands| ::
          && (c in after.points <==> cands[c - first].confidence >= threshold)
          && (Held(w.db, after.db, c) <==> cands[c - first].confidence < threshold))
    && (forall a, b, c | HeldFor(w.db, after.db, a, c) && HeldFor(w.db, after.db, b, c) :: a == b)
    && (forall c | c in w.points :: c in after.points && after.points[c] == w.points[c])
  }

  // ---------------------------------------------------------------- what is written of a chunk

  /** The point holds the document, the chunk and its index, the document's source type, tags and
      workspace, and waits for the acknowledgement. */
  ghost predicate IsPointOf(p: Payload, d: Id, workspaceId: Option<Id>, doc: ParsedDocument, c: Id,
                            cand: ChunkCandidate)
  {
    && p.documentId == d && p.chunkId == c && p.chunkIndex == cand.chunkIndex
    && p.sourceType == doc.labels.sourceType && p.tags == doc.labels.tags
    && p.workspaceId == workspaceId && !p.published
  }

  /** The review item holds the chunk's text and confidence and the point it stands for, and
      nobody has reviewed it. */
  ghost predicate IsItemFor(item: ReviewItem, run: Id, d: Id, workspaceId: Option<Id>, doc: ParsedDocument, c: Id,
                            cand: ChunkCandidate)
  {
    && item.runId == run && item.content == cand.content && item.confidence == cand.confidence
    && item.status == Pending && item.reviewerId == None && IsPointOf(item.point, d, workspaceId, doc, c, cand)
  }

  ghost predicate IsItemAt(item: ReviewItem, run: Id, d: Id, workspaceId: Option<Id>, doc: ParsedDocument, first: Id,
                           cands: seq<ChunkCandidate>)
  {
    var c := item.point.chunkId;
    first <= c < first + |cands| && IsItemFor(item, run, d, workspaceId, doc, c, cands[c - first])
  }

  lemma {:induction false} RoutedItems(db: Db, run: Id, d: Id, workspaceId: Option<Id>, doc: ParsedDocument, first: Id,
                                       cands: seq<ChunkCandidate>, n: nat, threshold: real)
    requires n <= |cands|
    ensures var after := RouteReviews(db, run, d, workspaceId, doc, first, cands, n, threshold);
            forall r | r in after.reviews && r !in db.reviews ::
              IsItemAt(after.reviews[r], run, d, workspaceId, doc, first, cands)
  {
    hide IsItemFor, NewReview, NewPoint;
    if n > 0 {
      RoutedItems(db, run, d, workspaceId, doc, first, cands, n - 1, threshold);
      NewItemIs(run, d, workspaceId, doc, first + n - 1, cands[n - 1]);
    }
  }

  lemma NewItemIs(run: Id, d: Id, workspaceId: Option<Id>, doc: ParsedDocument, c: Id, cand: ChunkCandidate)
    ensures var item := NewReview(run, cand, NewPoint(d, workspaceId, doc, c, cand));
            IsItemFor(item, run, d, workspaceId, doc, c, cand) && item.point.chunkId == c
  {
  }

  /** What both stores hold of the chunks `cands` of document `d`, with ids from `first` on, field
      by field: the rows, the points of those in the index, and the items new since `w` of those
      held for review. */
  ghost predicate Recorded(w: World, after: World, run: Id, d: Id, doc: ParsedDocument, first: Id,
                           cands: seq<ChunkCandidate>)
  {
    && d in after.db.documents && AreStored(after.db.chunks, d, first, cands)
    && var workspaceId := after.db.documents[d].workspaceId;
    && PointsRecorded(after.points, d, workspaceId, doc, first, cands)
    && ItemsRecorded(w.db, after.db, run, d, workspaceId, doc, first, cands)
  }

  ghost predicate PointsRecorded(points: map<Id, Payload>, d: Id, workspaceId: Option<Id>, doc: ParsedDocument,
                                 first: Id, cands: seq<ChunkCandidate>)
  {
    forall c | c in points && first <= c < first + |cands| ::
      IsPointOf(points[c], d, workspaceId, doc, c, cands[c - first])
  }

  lemma PointsAreRecorded(before: map<Id, Payload>, d: Id, workspaceId: Option<Id>, doc: ParsedDocument, first: Id,
                          cands: seq<ChunkCandidate>, threshold: real)
    requires forall c | c in before :: c < first
    ensures PointsRecorded(before + PointsFor(d, workspaceId, doc, first, cands, |cands|, threshold), d, workspaceId,
                           doc, first, cands)
  {
    hide PointsFor, IsPointOf;
    PointsHold(d, workspaceId, doc, first, cands, threshold);
  }

  ghost predicate ItemsRecorded(db: Db, after: Db, run: Id, d: Id, workspaceId: Option<Id>, doc: ParsedDocument,
                                first: Id, cands: seq<ChunkCandidate>)
  {
    forall r: Id, c: Id | HeldFor(db, after, r, c) && first <= c < first + |cands| ::
      IsItemFor(after.reviews[r], run, d, workspaceId, doc, c, cands[c - first])
  }

  lemma ItemsAreRecorded(db: Db, replaced: Db, run: Id, d: Id, workspaceId: Option<Id>, doc: ParsedDocument, first: Id,
                         cands: seq<ChunkCandidate>, threshold: real)
    requires replaced.reviews == db.reviews
    ensures ItemsRecorded(db, RouteReviews(replaced, run, d, workspaceId, doc, first, cands, |cands|, threshold), run,
                          d, workspaceId, doc, first, cands)
  {
    hide RouteReviews, IsItemFor;
    RoutedItems(replaced, run, d, workspaceId, doc, first, cands, |cands|, threshold);
  }

  lemma IndexedIsRecorded(w: World, run: Id, d: Id, doc: ParsedDocument, setup: Setup)
    requires PointsFresh(w) && d in w.db.documents
    ensures Recorded(w, IndexDocument(w, run, d, doc, setup, NoFault).world, run, d, doc, w.db.nextId,
                     setup.chunker(doc))
  {
    hide IdRange, RouteReviews, PointsFor, AreStored, ItemsRecorded, PointsRecorded, ReplaceChunks;
    var cands, first, workspaceId := setup.chunker(doc), w.db.nextId, w.db.documents[d].workspaceId;
    var replaced := ReplaceChunks(w.db, d, cands);
    StoredChunks(w.db, d, cands);
    ReplacedTables(w.db, d, cands);
    ItemsAreRecorded(w.db, replaced, run, d, workspaceId, doc, first, cands, setup.threshold);
    PointsAreRecorded(w.points, d, workspaceId, doc, first, cands, setup.threshold);
  }

  lemma ReplacedTables(db: Db, d: Id, cands: seq<ChunkCandidate>)
    ensures var after := ReplaceChunks(db, d, cands);
            after.reviews == db.reviews && after.documents == db.documents
  {
  }

  /** A document that changed has exactly its new chunks, and each of them went to exactly one
      place: the index, if its confidence reaches the threshold, or one pending review item.
      Row, point and item hold what the chunker and the document say. The outcome counts the
      points. */
  lemma ChangedDocumentConserves(w: World, run: Id, d: Id, doc: ParsedDocument, setup: Setup)
    requires FreshIds(w.db) && d in w.db.documents && PointsFresh(w)
    ensures var r := IndexDocument(w, run, d, doc, setup, NoFault);
            var cands := setup.chunker(doc);
            && ChunksOf(r.world.db, d) == IdRange(w.db.nextId, |cands|)
            && RoutedOnce(w, r.world, w.db.nextId, cands, setup.threshold)
            && Recorded(w, r.world, run, d, doc, w.db.nextId, cands)
            && r.outcome == Changed(|r.world.points| - |w.points|)
  {
    hide IdRange, RouteReviews, PointsFor, ReplaceChunks, ChunksOf, HeldExactly, Held, Recorded, RoutedOnce;
    hide PointsAdded, PointsReach;
    IndexedIsRecorded(w, run, d, doc, setup);
    var cands, first, workspaceId := setup.chunker(doc), w.db.nextId, w.db.documents[d].workspaceId;
    var replaced := ReplaceChunks(w.db, d, cands);
    var r := IndexDocument(w, run, d, doc, setup, NoFault);
    ReplacedChunks(w.db, d, cands);
    RoutedExactly(replaced, run, d, workspaceId, doc, first, cands, |cands|, setup.threshold);
    var points := PointsFor(d, workspaceId, doc, first, cands, |cands|, setup.threshold);
    PointsAre(d, workspaceId, doc, first, cands, setup.threshold);
    AddedPoints(w.points, points, first, cands, setup.threshold);
    hide FreshIds, HeldFor;
    RoutedTogether(w, replaced, r.world, first, cands, setup.threshold);
    SameChunksOf(replaced, r.world.db, d);
  }

  lemma RoutedTogether(w: World, replaced: Db, after: World, first: Id, cands: seq<ChunkCandidate>, threshold: real)
    requires replaced.reviews == w.db.reviews && HeldExactly(replaced, after.db, first, cands, |cands|, threshold)
    requires PointsAdded(w.points, after.points, first, cands, threshold)
    ensures RoutedOnce(w, after, first, cands, threshold)
  {
    HeldAfter(w.db, replaced, after.db, first, cands, threshold);
    hide HeldExactly, Held, HeldFor;
  }

  lemma SameChunksOf(db: Db, after: Db, d: Id)
    requires after.chunks == db.chunks
    ensures ChunksOf(after, d) == ChunksOf(db, d)
  {
  }

  lemma ReplacedChunks(db: Db, d: Id, cands: seq<ChunkCandidate>)
    requires FreshIds(db)
    ensures ChunksOf(ReplaceChunks(db, d, cands), d) == IdRange(db.nextId, |cands|)
    ensures forall r | r in ReplaceChunks(db, d, cands).reviews :: r < ReplaceChunks(db, d, cands).nextId
    ensures ReplaceChunks(db, d, cands).reviews == db.reviews
  {
    var after := ReplaceChunks(db, d, cands);
    assert after.chunks.Keys == (set c | c in db.chunks && db.chunks[c].documentId != d) + IdRange(db.nextId, |cands|);
    forall c | c in after.chunks ensures after.chunks[c].documentId == d <==> c in IdRange(db.nextId, |cands|) {
    }
  }

  /** Old points stay, and of the new chunks those that reach the threshold have one. */
  ghost predicate PointsAdded(before: map<Id, Payload>, after: map<Id, Payload>, first: Id,
                              cands: seq<ChunkCandidate>, threshold: real)
  {
    && (forall c | c in before :: c in after && after[c] == before[c])
    && (forall c: Id | first <= c < first + |cands| :: c in after <==> cands[c - first].confidence >= threshold)
  }

  /** The points are those of the chunks that reach the threshold. */
  ghost predicate PointsReach(points: map<Id, Payload>, first: Id, cands: seq<ChunkCandidate>, threshold: real) {
    && (forall c | c in points :: first <= c < first + |cands|)
    && (forall c: Id | first <= c < first + |cands| :: c in points <==> cands[c - first].confidence >= threshold)
  }

  lemma AddedPoints(before: map<Id, Payload>, points: map<Id, Payload>, first: Id, cands: seq<ChunkCandidate>,
                    threshold: real)
    requires (forall c | c in before :: c < first) && PointsReach(points, first, cands, threshold)
    ensures |before + points| == |before| + |points|
    ensures PointsAdded(before, before + points, first, cands, threshold)
  {
    DisjointAdd(before, points, first, cands, threshold);
    DisjointSize(before, points, first);
    hide PointsAdded;
  }

  lemma DisjointAdd(before: map<Id, Payload>, points: map<Id, Payload>, first: Id, cands: seq<ChunkCandidate>,
                    threshold: real)
    requires (forall c | c in before :: c < first) && forall c | c in points :: first <= c
    requires forall c: Id | first <= c < first + |cands| :: c in points <==> cands[c - first].confidence >= threshold
    ensures PointsAdded(before, before + points, first, cands, threshold)
  {
    forall c: Id | first <= c < first + |cands|
      ensures c in before + points <==> cands[c - first].confidence >= threshold
    {
      assert c in before + points <==> c in points;
    }
  }

  lemma PointsAre(d: Id, workspaceId: Option<Id>, doc: ParsedDocument, first: Id, cands: seq<ChunkCandidate>,
                  threshold: real)
    ensures PointsReach(PointsFor(d, workspaceId, doc, first, cands, |cands|, threshold), first, cands, threshold)
  {
    hide IdRange, NewPoint;
  }

  lemma PointsHold(d: Id, workspaceId: Option<Id>, doc: ParsedDocument, first: Id, cands: seq<ChunkCandidate>,
                   threshold: real)
    ensures var points := PointsFor(d, workspaceId, doc, first, cands, |cands|, threshold);
            forall c | c in points ::
              first <= c < first + |cands| && IsPointOf(points[c], d, workspaceId, doc, c, cands[c - first])
  {
    hide IdRange;
  }

  lemma HeldAfter(db: Db, replaced: Db, after: Db, first: Id, cands: seq<ChunkCandidate>, threshold: real)
    requires replaced.reviews == db.reviews && HeldExactly(replaced, after, first, cands, |cands|, threshold)
    ensures forall c: Id | first <= c < first + |cands| ::
              Held(db, after, c) <==> cands[c - first].confidence < threshold
    ensures forall a, b, c | HeldFor(db, after, a, c) && HeldFor(db, after, b, c) :: a == b
  {
    forall c: Id | first <= c < first + |cands|
      ensures Held(db, after, c) <==> cands[c - first].confidence < threshold
    {
      SameHeld(db, replaced, after, c);
    }
    forall a, b, c | HeldFor(db, after, a, c) && HeldFor(db, after, b, c) ensures a == b {
      assert HeldFor(replaced, after, a, c) && HeldFor(replaced, after, b, c);
    }
  }

  lemma SameHeld(db: Db, other: Db, after: Db, c: Id)
    requires db.reviews == other.reviews
    ensures Held(db, after, c) <==> Held(other, after, c)
  {
    if Held(db, after, c) {
      var r :| HeldFor(db, after, r, c);
      assert HeldFor(other, after, r, c);
    }
    if Held(other, after, c) {
      var r :| HeldFor(other, after, r, c);
      assert HeldFor(db, after, r, c);
    }
  }

  lemma DisjointSize(a: map<Id, Payload>, b: map<Id, Payload>, first: Id)
    requires (forall c | c in a :: c < first) && forall c | c in b :: first <= c
    ensures |a + b| == |a| + |b|
  {
    assert (a + b).Keys == a.Keys + b.Keys;
    assert a.Keys !! b.Keys;
    assert |(a + b).Keys| == |a.Keys| + |b.Keys|;
  }

  // ---------------------------------------------------------------- counters

  lemma DocumentCounts(w: World, run: Id, request: Request, doc: ParsedDocument, setup: Setup, fault: Fault)
    requires Integrity(w.db) && PointsFresh(w)
    ensures var r := IngestDocument(w, run, request, doc, setup, fault);
            && Integrity(r.world.db) && PointsFresh(r.world)
            && |r.world.points| == |w.points| + (if r.outcome.Changed? then r.outcome.points else 0)
  {
    IngestDocumentKeeps(w, run, request, doc, setup, fault);
    if UpsertFor(w.db, request, doc).Some? {
      UpsertForKeeps(w.db, request, doc);
      var u := UpsertFor(w.db, request, doc).value;
      assert FreshIds(u.db);
      hide Integrity, UpsertFor, FreshIds;
      if u.changed { IndexCounts(World(u.db, w.points), run, u.id, doc, setup, fault); }
    }
  }

  lemma IndexCounts(w: World, run: Id, d: Id, doc: ParsedDocument, setup: Setup, fault: Fault)
    requires Integrity(w.db) && PointsFresh(w) && d in w.db.documents
    ensures var r := IndexDocument(w, run, d, doc, setup, fault);
            && PointsFresh(r.world)
            && |r.world.points| == |w.points| + (if r.outcome.Changed? then r.outcome.points else 0)
  {
    IndexDocumentKeeps(w, run, d, doc, setup, fault);
    if fault == NoFault {
      assert FreshIds(w.db);
      ChangedDocumentConserves(w, run, d, doc, setup);
      NewPointsAreFresh(w, run, d, doc, setup);
    } else {
      hide RouteReviews, PointsFor;
    }
  }

  lemma NewPointsAreFresh(w: World, run: Id, d: Id, doc: ParsedDocument, setup: Setup)
    requires Integrity(w.db) && PointsFresh(w) && d in w.db.documents
    ensures PointsFresh(IndexDocument(w, run, d, doc, setup, NoFault).world)
  {
    hide IdRange, Integrity, RouteReviews;
    var cands := setup.chunker(doc);
    var first, workspaceId := w.db.nextId, w.db.documents[d].workspaceId;
    var replaced := ReplaceChunks(w.db, d, cands);
    ReplaceChunksKeeps(w.db, d, cands);
    RouteReviewsKeeps(replaced, run, d, workspaceId, doc, first, cands, |cands|, setup.threshold);
    assert first + |cands| == replaced.nextId;
    hide ReplaceChunks;
    forall c | c in PointsFor(d, workspaceId, doc, first, cands, |cands|, setup.threshold) ensures c < first + |cands| {
    }
    hide PointsFor;
  }

  lemma {:induction false} RunCounts(w: World, run: Id, request: Request, docs: seq<ParsedDocument>, setup: Setup,
                                     faults: seq<Fault>, n: nat)
    requires Integrity(w.db) && PointsFresh(w) && n <= |docs|
    ensures var p := IngestUpTo(w, run, request, docs, setup, faults, n);
            && Integrity(p.world.db) && PointsFresh(p.world)
            && |p.world.points| == |w.points| + p.chunks && p.indexed <= n
  {
    hide Integrity, PointsFresh, IngestDocument;
    if n > 0 {
      RunCounts(w, run, request, docs, setup, faults, n - 1);
      var p := IngestUpTo(w, run, request, docs, setup, faults, n - 1);
      DocumentCounts(p.world, run, request, docs[n - 1], setup, FaultOf(faults, n - 1));
    }
  }

  /** The counters of a finished run: `chunks_indexed` is the number of points it added, even
      when it failed half way, and a completed run has seen what the loader returned. */
  lemma CountersCount(w: World, request: Request, setup: Setup, plan: Plan)
    requires Integrity(w.db) && PointsFresh(w)
    ensures var r := Ingest(w, request, setup, plan); var run := r.world.db.runs[r.run];
            && run.chunksIndexed == |r.world.points| - |w.points|
            && run.documentsIndexed <= run.documentsSeen
            && (run.status == Completed ==> plan.load.Some? && run.documentsSeen == |plan.load.value|)
  {
    CreateRunKeeps(w.db, request.sourcePath);
    hide Integrity, IngestUpTo;
    if plan.load.Some? {
      RunCounts(World(CreateRun(w.db, request.sourcePath), w.points), w.db.nextId, request, plan.load.value, setup,
                plan.faults, |plan.load.value|);
    }
  }

  // ---------------------------------------------------------------- unchanged documents

  /** The document at this path already has this content. */
  ghost predicate UpToDate(documents: map<Id, Document>, doc: ParsedDocument) {
    exists d :: d in documents && documents[d].fields.sourcePath == doc.sourcePath
                && documents[d].fields.contentHash == doc.contentHash
  }

  lemma UpToDateIsUnchanged(w: World, run: Id, request: Request, doc: ParsedDocument, setup: Setup, fault: Fault)
    requires UniquePaths(w.db.documents) && UpToDate(w.db.documents, doc) && request.target == None
    ensures IngestDocument(w, run, request, doc, setup, fault) == DocResult(w, Unchanged)
  {
    var d :| d in w.db.documents && w.db.documents[d].fields.sourcePath == doc.sourcePath
             && w.db.documents[d].fields.contentHash == doc.contentHash;
    OwnerIsUnique(w.db.documents, doc.sourcePath, d);
  }

  lemma {:induction false} NothingToDo(w: World, run: Id, request: Request, docs: seq<ParsedDocument>, setup: Setup,
                                       faults: seq<Fault>, n: nat)
    requires UniquePaths(w.db.documents) && request.target == None && n <= |docs|
    requires forall i | 0 <= i < |docs| :: UpToDate(w.db.documents, docs[i])
    ensures IngestUpTo(w, run, request, docs, setup, faults, n) == Progress(w, 0, 0, true)
  {
    hide UpToDate, UniquePaths, IngestDocument;
    if n > 0 {
      NothingToDo(w, run, request, docs, setup, faults, n - 1);
      UpToDateIsUnchanged(w, run, request, docs[n - 1], setup, FaultOf(faults, n - 1));
    }
  }

  ghost predicate DistinctPaths(docs: seq<ParsedDocument>) {
    forall i, j | 0 <= i < j < |docs| :: docs[i].sourcePath != docs[j].sourcePath
  }

  /** A row with new content holds that content. */
  lemma UpsertedHolds(db: Db, doc: ParsedDocument, workspaceId: Option<Id>, uploadedBy: Option<string>)
    ensures var u := UpsertDocument(db, doc, workspaceId, uploadedBy);
            u.changed ==> u.id in u.db.documents && HoldsContent(u.db.documents[u.id], doc, uploadedBy)
  {
    hide Owner, HoldsContent;
    NewFieldsHold(doc, uploadedBy);
  }

  lemma NewFieldsHold(doc: ParsedDocument, uploadedBy: Option<string>)
    ensures forall row: Document ::
              HoldsContent(row.(fields := NewFields(doc, uploadedBy), labels := doc.labels), doc, uploadedBy)
  {
  }

  lemma UpsertedRow(db: Db, request: Request, doc: ParsedDocument)
    requires Integrity(db)
    ensures var u := UpsertDocument(db, doc, request.workspaceId, request.uploadedBy);
            && u.id in u.db.documents && u.db.documents[u.id].fields.sourcePath == doc.sourcePath
            && u.db.documents[u.id].fields.contentHash == doc.contentHash
            && (forall d | d in db.documents && db.documents[d].fields.sourcePath != doc.sourcePath ::
                  d in u.db.documents && u.db.documents[d] == db.documents[d])
  {
    hide References, UniquePaths, VersionsOf, Owner;
    assert db.nextId !in db.documents;
    OwnerHasPath(db.documents, doc.sourcePath);
    hide Integrity, FreshIds;
  }

  lemma UpsertedIsUpToDate(w: World, run: Id, request: Request, doc: ParsedDocument, setup: Setup,
                           other: ParsedDocument)
    requires Integrity(w.db) && request.target == None && other.sourcePath != doc.sourcePath
    ensures var after := IngestDocument(w, run, request, doc, setup, NoFault).world.db.documents;
            && UpToDate(after, doc)
            && (UpToDate(w.db.documents, other) ==> UpToDate(after, other))
  {
    var u := UpsertDocument(w.db, doc, request.workspaceId, request.uploadedBy);
    UpsertedRow(w.db, request, doc);
    hide Integrity, IndexDocument, UpsertDocument;
    if u.changed {
      IndexingKeepsDocuments(World(u.db, w.points), run, u.id, doc, setup, NoFault);
    } else {
      UnchangedUpsert(w.db, request, doc);
    }
    if UpToDate(w.db.documents, other) {
      var d :| d in w.db.documents && w.db.documents[d].fields.sourcePath == other.sourcePath
               && w.db.documents[d].fields.contentHash == other.contentHash;
      assert u.db.documents[d] == w.db.documents[d];
    }
  }

  lemma {:induction false} IngestedIsUpToDate(w: World, run: Id, request: Request, docs: seq<ParsedDocument>,
                                              setup: Setup, n: nat, i: nat)
    requires Integrity(w.db) && request.target == None && DistinctPaths(docs) && i < n <= |docs|
    requires IngestUpTo(w, run, request, docs, setup, [], n).ok
    ensures UpToDate(IngestUpTo(w, run, request, docs, setup, [], n).world.db.documents, docs[i])
  {
    hide Integrity, UpToDate, IngestDocument;
    var p := IngestUpTo(w, run, request, docs, setup, [], n - 1);
    IngestUpToKeeps(w, run, request, docs, setup, [], n - 1);
    if i < n - 1 {
      IngestedIsUpToDate(w, run, request, docs, setup, n - 1, i);
      UpsertedIsUpToDate(p.world, run, request, docs[n - 1], setup, docs[i]);
    } else {
      UpsertedIsUpToDate(p.world, run, request, docs[n - 1], setup, Elsewhere(docs[i]));
    }
  }

  ghost function Elsewhere(doc: ParsedDocument): (other: ParsedDocument)
    ensures other.sourcePath != doc.sourcePath
  {
    doc.(sourcePath := doc.sourcePath + "/")
  }

  /** Scanning the same files again, with distinct paths, touches no document, version, chunk,
      review item or point. */
  lemma RescanTouchesNothing(w: World, request: Request, setup: Setup, docs: seq<ParsedDocument>, faults: seq<Fault>,
                             finishFails: bool)
    requires Integrity(w.db) && request.target == None && DistinctPaths(docs)
    requires Ingest(w, request, setup, Plan(Some(docs), [], false)).status == Completed
    ensures var once := Ingest(w, request, setup, Plan(Some(docs), [], false)).world;
            var twice := Ingest(once, request, setup, Plan(Some(docs), faults, finishFails)).world;
            SameContent(once.db, twice.db) && twice.points == once.points
  {
    var run := w.db.nextId;
    var started := World(CreateRun(w.db, request.sourcePath), w.points);
    CreateRunKeeps(w.db, request.sourcePath);
    var once := Ingest(w, request, setup, Plan(Some(docs), [], false)).world;
    IngestKeeps(w, request, setup, Plan(Some(docs), [], false));
    assert UniquePaths(once.db.documents);
    hide Integrity, UniquePaths, UpToDate, IngestUpTo, DistinctPaths;
    forall i | 0 <= i < |docs| ensures UpToDate(once.db.documents, docs[i]) {
      IngestedIsUpToDate(started, run, request, docs, setup, |docs|, i);
    }
    var again := World(CreateRun(once.db, request.sourcePath), once.points);
    NothingToDo(again, once.db.nextId, request, docs, setup, faults, |docs|);
  }

  // ---------------------------------------------------------------- aborted sync runs

  /** The job as before, but for references to documents that are gone. */
  ghost predicate ForgetsOnly(job: Job, after: Job, gone: set<Id>) {
    && after == job.(documentId := after.documentId, targetDocumentId := after.targetDocumentId)
    && (if job.documentId.Some? && job.documentId.value in gone then after.documentId == None
        else after.documentId == job.documentId)
    && (if job.targetDocumentId.Some? && job.targetDocumentId.value in gone then after.targetDocumentId == None
        else after.targetDocumentId == job.targetDocumentId)
  }

  /** Aborting a sync run leaves none of its jobs queued or extracting: those that were have failed
      with the abort as the reason. It leaves none of the documents its jobs had produced, and
      changes nothing else except references to those documents. */
  lemma AbortDiscards(db: Db, run: Id)
    ensures var after, gone := CleanupSyncRun(db, run), Produced(db, run);
            && after.jobs.Keys == db.jobs.Keys
            && (forall j | j in db.jobs && Tagged(db.jobs[j], run) ::
                  && (if db.jobs[j].status == Queued || db.jobs[j].status == Extracting
                      then after.jobs[j].status == Failed && after.jobs[j].errorMessage == Some(ABORTED)
                      else after.jobs[j].status == db.jobs[j].status)
                  && (db.jobs[j].documentId.Some? ==>
                        db.jobs[j].documentId.value !in after.documents && after.jobs[j].documentId == None))
            && (forall j | j in db.jobs && !Tagged(db.jobs[j], run) :: ForgetsOnly(db.jobs[j], after.jobs[j], gone))
            && (forall d | d in db.documents && d !in gone ::
                  d in after.documents && after.documents[d] == db.documents[d])
            && (forall d | d in after.documents :: d in db.documents)
            && (forall c | c in after.chunks :: c in db.chunks && after.chunks[c] == db.chunks[c])
            && (forall c | c in db.chunks && db.chunks[c].documentId !in gone :: c in after.chunks)
            && (forall v | v in db.versions :: v in after.versions <==> db.versions[v].documentId !in gone)
            && after.reviews == db.reviews && after.runs == db.runs && after.syncRuns == db.syncRuns
  {
    hide StopTagged, DeleteDocuments, Produced, Tagged;
    Stopped(db, run);
    Deleted(StopTagged(db, run), Produced(db, run));
    ProducedHas(db, run);
  }

  lemma ProducedHas(db: Db, run: Id)
    ensures forall j | j in db.jobs && Tagged(db.jobs[j], run) && db.jobs[j].documentId.Some? ::
              db.jobs[j].documentId.value in Produced(db, run)
  {
  }

  lemma Stopped(db: Db, run: Id)
    ensures var after := StopTagged(db, run);
            && after == db.(jobs := after.jobs) && after.jobs.Keys == db.jobs.Keys
            && (forall j | j in db.jobs && Tagged(db.jobs[j], run) ::
                  && (if db.jobs[j].status == Queued || db.jobs[j].status == Extracting
                      then after.jobs[j].status == Failed && after.jobs[j].errorMessage == Some(ABORTED)
                      else after.jobs[j].status == db.jobs[j].status)
                  && after.jobs[j].documentId == db.jobs[j].documentId)
            && (forall j | j in db.jobs && !Tagged(db.jobs[j], run) :: after.jobs[j] == db.jobs[j])
  {
  }

  lemma Deleted(db: Db, gone: set<Id>)
    ensures var after := DeleteDocuments(db, gone);
            && after.jobs.Keys == db.jobs.Keys
            && (forall j | j in db.jobs ::
                  ForgetsOnly(db.jobs[j], after.jobs[j], gone))
            && after.documents == db.documents - gone
            && (forall c :: c in after.chunks <==> c in db.chunks && db.chunks[c].documentId !in gone)
            && (forall c | c in after.chunks :: after.chunks[c] == db.chunks[c])
            && (forall v :: v in after.versions <==> v in db.versions && db.versions[v].documentId !in gone)
            && after.reviews == db.reviews && after.runs == db.runs && after.syncRuns == db.syncRuns
  {
  }
}
