/** Where the chunks of a whole run are in the end: each in the index or with one review item. */
module RunConservation {
  import opened Options
  import opened Records
  import opened Store
  import opened StoreIntegrity
  import opened VersionHistory
  import opened Ingestion
  import opened IngestionIntegrity
  import opened JobOutcome
  import opened IngestVisibility
  import opened Conservation
  import opened Frames
  import opened ScanVisibility
  import opened Placement

  /** The new content of a document: who uploaded it, in which run, and its chunks. */
  datatype Content = Content(run: Id, uploadedBy: Option<string>, doc: ParsedDocument, cands: seq<ChunkCandidate>)

  /** Document `d` holds the content. It has exactly its chunks, with ids from `first` on, all new
      since `w`. Each of them is in exactly one place: in the index, if it reaches the threshold,
      or with exactly one review item that is new since `w` and pending. Its row, its point and its
      item hold what `Recorded` tells field by field. */
  ghost predicate Accounted(w: World, after: World, d: Id, first: Id, content: Content, threshold: real) {
    var cands := content.cands;
    && w.db.nextId <= first && first + |cands| <= after.db.nextId
    && ChunksOf(after.db, d) == IdRange(first, |cands|)
    && Recorded(w, after, content.run, d, content.doc, first, cands)
    && HoldsContent(after.db.documents[d], content.doc, content.uploadedBy)
    && (forall c: Id | first <= c < first + |cands| ::
          && (c in after.points <==> cands[c - first].confidence >= threshold)
          && (Held(w.db, after.db, c) <==> cands[c - first].confidence < threshold))
    && (forall r, s, c: Id | first <= c < first + |cands| && HeldFor(w.db, after.db, r, c)
        && HeldFor(w.db, after.db, s, c) ::
          r == s)
  }

  /** Points and review items are only added, about chunks that are new. */
  ghost predicate Grows(w: World, after: World) {
    w.db.nextId <= after.db.nextId && PointsStay(w, after) && ItemsStay(w.db, after.db)
  }

  lemma GrowsFurther(a: World, b: World, c: World)
    requires Grows(a, b) && Grows(b, c)
    ensures Grows(a, c)
  {
  }

  lemma NothingGrows(w: World)
    ensures Grows(w, w)
  {
  }

  lemma OthersGrow(w: World, after: World, d: Id)
    requires LeavesOthers(w, after, d)
    ensures Grows(w, after)
  {
    hide PointsStay, ItemsStay;
  }

  // ---------------------------------------------------------------- the turn of the document

  /** A review item for a chunk that is new since `p` is itself new since `p`. */
  lemma SameItems(w: World, p: World, after: World, c: Id)
    requires Grows(w, p) && Grows(p, after) && p.db.nextId <= c
    ensures forall r :: HeldFor(w.db, after.db, r, c) <==> HeldFor(p.db, after.db, r, c)
    ensures Held(w.db, after.db, c) <==> Held(p.db, after.db, c)
  {
    hide PointsStay;
    forall r ensures HeldFor(w.db, after.db, r, c) <==> HeldFor(p.db, after.db, r, c) {
    }
    hide Grows, HeldFor;
  }

  /** So what is recorded since `p` is recorded since `w`. */
  lemma RecordedSince(w: World, p: World, after: World, run: Id, d: Id, doc: ParsedDocument, first: Id,
                      cands: seq<ChunkCandidate>)
    requires Grows(w, p) && Grows(p, after) && p.db.nextId <= first && Recorded(p, after, run, d, doc, first, cands)
    ensures Recorded(w, after, run, d, doc, first, cands)
  {
    hide Grows, HeldFor, IsItemFor, PointsRecorded, AreStored;
    forall r: Id, c: Id | first <= c ensures HeldFor(w.db, after.db, r, c) <==> HeldFor(p.db, after.db, r, c) {
      SameItems(w, p, after, c);
    }
  }

  lemma RoutedIsAccounted(w: World, p: World, after: World, d: Id, first: Id, content: Content, threshold: real)
    requires Grows(w, p) && Grows(p, after) && p.db.nextId <= first
    requires RoutedOnce(p, after, first, content.cands, threshold)
    requires FreshIds(after.db) && first <= after.db.nextId && ChunksOf(after.db, d) == IdRange(first, |content.cands|)
    requires Recorded(p, after, content.run, d, content.doc, first, content.cands)
    requires HoldsContent(after.db.documents[d], content.doc, content.uploadedBy)
    ensures Accounted(w, after, d, first, content, threshold)
  {
    hide Grows, HeldFor, Held, Recorded, HoldsContent;
    var cands := content.cands;
    RecordedSince(w, p, after, content.run, d, content.doc, first, cands);
    assert w.db.nextId <= p.db.nextId by { GrowsIds(w, p); }
    forall c: Id | first <= c < first + |cands|
      ensures c in after.db.chunks && c < after.db.nextId
      ensures Held(w.db, after.db, c) <==> cands[c - first].confidence < threshold
    {
      assert c in ChunksOf(after.db, d);
      SameItems(w, p, after, c);
    }
    forall r, c: Id | first <= c < first + |cands|
      ensures HeldFor(w.db, after.db, r, c) <==> HeldFor(p.db, after.db, r, c)
    {
      SameItems(w, p, after, c);
    }
    hide IdRange, ChunksOf;
    if cands != [] { assert first + |cands| - 1 < after.db.nextId; }
  }

  lemma GrowsIds(w: World, p: World)
    requires Grows(w, p)
    ensures w.db.nextId <= p.db.nextId
  {
  }

  lemma IndexedIsAccounted(w: World, p: World, run: Id, u: Upserted, doc: ParsedDocument, setup: Setup,
                           uploadedBy: Option<string>)
    requires Integrity(u.db) && PointsFresh(p) && Grows(w, p) && p.db.nextId <= u.db.nextId && u.id in u.db.documents
    requires u.db.chunks == p.db.chunks && u.db.reviews == p.db.reviews
    requires u.db.documents == p.db.documents[u.id := u.db.documents[u.id]]
    requires HoldsContent(u.db.documents[u.id], doc, uploadedBy)
    ensures var after := IndexDocument(World(u.db, p.points), run, u.id, doc, setup, NoFault).world;
            Accounted(w, after, u.id, u.db.nextId, Content(run, uploadedBy, doc, setup.chunker(doc)), setup.threshold)
  {
    hide UniquePaths, References, VersionsOf, RoutedOnce, IndexDocument, ChunksOf, LeavesOthers, Grows, IdRange,
      HoldsContent, Recorded;
    var v := World(u.db, p.points);
    var after := IndexDocument(v, run, u.id, doc, setup, NoFault).world;
    assert PointsFresh(v);
    ChangedDocumentConserves(v, run, u.id, doc, setup);
    IndexingKeepsDocuments(v, run, u.id, doc, setup, NoFault);
    SameRecord(v, p, after, run, u.id, doc, u.db.nextId, setup.chunker(doc));
    IndexedAs(p, run, u, doc, setup);
    OthersGrow(p, after, u.id);
    IndexDocumentKeeps(v, run, u.id, doc, setup, NoFault);
    assert FreshIds(after.db);
    hide Integrity, FreshIds, PointsFresh;
    SameRouting(v, p, after, u.db.nextId, setup.chunker(doc), setup.threshold);
    RoutedIsAccounted(w, p, after, u.id, u.db.nextId, Content(run, uploadedBy, doc, setup.chunker(doc)),
                      setup.threshold);
  }

  lemma SameRecord(v: World, p: World, after: World, run: Id, d: Id, doc: ParsedDocument, first: Id,
                   cands: seq<ChunkCandidate>)
    requires Recorded(v, after, run, d, doc, first, cands) && v.db.reviews == p.db.reviews
    ensures Recorded(p, after, run, d, doc, first, cands)
  {
    forall r, c ensures HeldFor(p.db, after.db, r, c) <==> HeldFor(v.db, after.db, r, c) {
    }
    hide HeldFor, IsItemFor, PointsRecorded, AreStored;
  }

  lemma SameRouting(v: World, p: World, after: World, first: Id, cands: seq<ChunkCandidate>, threshold: real)
    requires RoutedOnce(v, after, first, cands, threshold) && v.points == p.points && v.db.reviews == p.db.reviews
    ensures RoutedOnce(p, after, first, cands, threshold)
  {
    forall c: Id | first <= c < first + |cands| ensures Held(p.db, after.db, c) <==> Held(v.db, after.db, c) {
      SameHeld(p.db, v.db, after.db, c);
    }
    forall r, c ensures HeldFor(p.db, after.db, r, c) <==> HeldFor(v.db, after.db, r, c) {
    }
    hide Held, HeldFor;
  }

  /** The turn of a document with new content. */
  lemma IngestedIsAccounted(w: World, p: World, run: Id, request: Request, doc: ParsedDocument, setup: Setup)
    returns (d: Id, first: Id)
    requires Integrity(p.db) && PointsFresh(p) && Grows(w, p) && request.target == None
    requires HashHeld(p.db.documents, doc.sourcePath) != Some(doc.contentHash)
    ensures var after := IngestDocument(p, run, request, doc, setup, NoFault).world;
            && Owner(after.db.documents, doc.sourcePath) == Some(d)
            && Accounted(w, after, d, first, Content(run, request.uploadedBy, doc, setup.chunker(doc)),
                         setup.threshold)
  {
    hide References, VersionsOf, UniquePaths, IndexDocument, Accounted, Owner, Grows, HoldsContent;
    OwnerHasPath(p.db.documents, doc.sourcePath);
    var u := UpsertDocument(p.db, doc, request.workspaceId, request.uploadedBy);
    UpsertForKeeps(p.db, request, doc);
    UpsertDocumentRows(p.db, doc, request.workspaceId, request.uploadedBy);
    UpsertedIsOwner(p.db, request, doc);
    assert u.changed;
    d, first := u.id, u.db.nextId;
    UpsertedHolds(p.db, doc, request.workspaceId, request.uploadedBy);
    hide UpsertDocument;
    IndexedIsAccounted(w, p, run, u, doc, setup, request.uploadedBy);
    IndexingKeepsDocuments(World(u.db, p.points), run, u.id, doc, setup, NoFault);
  }

  // ---------------------------------------------------------------- the turns after it

  lemma ItemsAbout(w: World, p: World, after: World, c: Id)
    requires Grows(w, p) && Grows(p, after) && c < p.db.nextId
    ensures forall r :: HeldFor(w.db, after.db, r, c) <==> HeldFor(w.db, p.db, r, c)
    ensures Held(w.db, after.db, c) <==> Held(w.db, p.db, c)
    ensures c in after.points <==> c in p.points
  {
    forall r ensures HeldFor(w.db, after.db, r, c) <==> HeldFor(w.db, p.db, r, c) {
    }
    hide HeldFor;
  }

  lemma SameChunksElsewhere(p: World, after: World, d: Id, e: Id)
    requires LeavesOthers(p, after, e) && e != d
    ensures ChunksOf(after.db, d) == ChunksOf(p.db, d)
    ensures forall c | c in ChunksOf(p.db, d) :: after.db.chunks[c] == p.db.chunks[c]
  {
    hide PointsStay, ItemsStay;
    forall c ensures c in ChunksOf(after.db, d) <==> c in ChunksOf(p.db, d) {
      assert ElsewhereLive(after.db.chunks, c, e) <==> ElsewhereLive(p.db.chunks, c, e);
    }
    forall c | c in ChunksOf(p.db, d) ensures after.db.chunks[c] == p.db.chunks[c] {
      assert ElsewhereLive(p.db.chunks, c, e);
    }
  }

  /** The record of a document stays, because the document, its chunks, their points and their
      items do. */
  lemma RecordStays(w: World, p: World, after: World, e: Id, run: Id, d: Id, doc: ParsedDocument, first: Id,
                    cands: seq<ChunkCandidate>)
    requires Grows(w, p) && Grows(p, after) && Recorded(w, p, run, d, doc, first, cands)
    requires LeavesOthers(p, after, e) && e != d && first + |cands| <= p.db.nextId
    ensures Recorded(w, after, run, d, doc, first, cands) && after.db.documents[d] == p.db.documents[d]
  {
    hide HeldFor, IsItemFor, IsPointOf, PointsStay, ItemsStay, RowsStay, AreStored, Grows;
    RecordedRowsStay(p.db, after.db, e, d, first, cands);
    RecordedPointsStay(p, after, d, p.db.documents[d].workspaceId, doc, first, cands);
    forall r: Id, c: Id | first <= c < first + |cands|
      ensures HeldFor(w.db, after.db, r, c) <==> HeldFor(w.db, p.db, r, c)
    {
      ItemsAbout(w, p, after, c);
    }
    RecordedItemsStay(w.db, p.db, after.db, run, d, p.db.documents[d].workspaceId, doc, first, cands);
  }

  lemma RecordedItemsStay(db: Db, p: Db, after: Db, run: Id, d: Id, workspaceId: Option<Id>, doc: ParsedDocument,
                          first: Id, cands: seq<ChunkCandidate>)
    requires ItemsStay(p, after) && ItemsRecorded(db, p, run, d, workspaceId, doc, first, cands)
    requires forall r: Id, c: Id | first <= c < first + |cands| :: HeldFor(db, after, r, c) <==> HeldFor(db, p, r, c)
    ensures ItemsRecorded(db, after, run, d, workspaceId, doc, first, cands)
  {
    hide IsItemFor;
  }

  lemma RecordedRowsStay(p: Db, after: Db, e: Id, d: Id, first: Id, cands: seq<ChunkCandidate>)
    requires RowsStay(p, after, e) && e != d && d in p.documents && AreStored(p.chunks, d, first, cands)
    ensures d in after.documents && after.documents[d] == p.documents[d] && AreStored(after.chunks, d, first, cands)
  {
    forall c: Id | first <= c < first + |cands| ensures IsStored(after.chunks, d, first, cands, c) {
      assert IsStored(p.chunks, d, first, cands, c);
      assert ElsewhereLive(p.chunks, c, e);
    }
  }

  lemma RecordedPointsStay(p: World, after: World, d: Id, workspaceId: Option<Id>, doc: ParsedDocument, first: Id,
                           cands: seq<ChunkCandidate>)
    requires PointsStay(p, after) && PointsRecorded(p.points, d, workspaceId, doc, first, cands)
    requires first + |cands| <= p.db.nextId
    ensures PointsRecorded(after.points, d, workspaceId, doc, first, cands)
  {
    hide IsPointOf;
  }

  lemma AccountedStays(w: World, p: World, after: World, d: Id, e: Id, first: Id, content: Content, threshold: real)
    requires Grows(w, p) && Accounted(w, p, d, first, content, threshold) && LeavesOthers(p, after, e) && e != d
    ensures Accounted(w, after, d, first, content, threshold)
  {
    hide Grows, HeldFor, Held, LeavesOthers, Recorded, HoldsContent;
    var cands := content.cands;
    OthersGrow(p, after, e);
    GrowsIds(p, after);
    SameChunksElsewhere(p, after, d, e);
    RecordStays(w, p, after, e, content.run, d, content.doc, first, cands);
    forall c: Id | first <= c < first + |cands|
      ensures Held(w.db, after.db, c) <==> Held(w.db, p.db, c)
      ensures c in after.points <==> c in p.points
    {
      ItemsAbout(w, p, after, c);
    }
    forall r, c: Id | first <= c < first + |cands|
      ensures HeldFor(w.db, after.db, r, c) <==> HeldFor(w.db, p.db, r, c)
    {
      ItemsAbout(w, p, after, c);
    }
    hide IdRange, ChunksOf;
  }

  // ---------------------------------------------------------------- the whole run

  /** Document `i` brings new content to its path, and none of the first `n` does so after it. */
  ghost predicate LastToChange(documents: map<Id, Document>, docs: seq<ParsedDocument>, i: nat, n: nat)
    requires i < n <= |docs|
  {
    && Changes(documents, docs, i)
    && forall j | i < j < n && docs[j].sourcePath == docs[i].sourcePath :: !Changes(documents, docs, j)
  }

  /** For files with distinct paths, those are the documents with another hash than the one held
      at the path before the scan. */
  lemma DistinctPathsChangeOnce(documents: map<Id, Document>, docs: seq<ParsedDocument>, i: nat)
    requires DistinctPaths(docs) && i < |docs|
    ensures LastToChange(documents, docs, i, |docs|)
            <==> HashHeld(documents, docs[i].sourcePath) != Some(docs[i].contentHash)
  {
    DistinctPathsAreUntouched(documents, docs, i, i);
  }

  lemma TurnGrows(p: World, o: DocResult, doc: ParsedDocument, fault: Fault)
    requires Ingested(p, o, doc, fault) && o.outcome != Raised
    ensures Grows(p, o.world)
  {
    hide LeavesOthers, Owner, Grows, HashHeld;
    NothingGrows(p);
    if o.world != p { OthersGrow(p, o.world, Owner(o.world.db.documents, doc.sourcePath).value); }
  }

  lemma {:induction false} RunGrows(w: World, run: Id, request: Request, docs: seq<ParsedDocument>, setup: Setup,
                                    faults: seq<Fault>, n: nat)
    requires Integrity(w.db) && PointsFresh(w) && request.target == None && n <= |docs|
    requires IngestUpTo(w, run, request, docs, setup, faults, n).ok
    ensures Grows(w, IngestUpTo(w, run, request, docs, setup, faults, n).world)
  {
    hide Integrity, PointsFresh, IngestDocument, Ingested, Grows;
    if n == 0 {
      NothingGrows(w);
    } else {
      RunGrows(w, run, request, docs, setup, faults, n - 1);
      var p := IngestUpTo(w, run, request, docs, setup, faults, n - 1).world;
      RunCounts(w, run, request, docs, setup, faults, n - 1);
      var doc, fault := docs[n - 1], FaultOf(faults, n - 1);
      IngestedAs(p, run, request, doc, setup, fault);
      var o := IngestDocument(p, run, request, doc, setup, fault);
      TurnGrows(p, o, doc, fault);
      GrowsFurther(w, p, o.world);
    }
  }

  /** A later turn, for another path or without a change, leaves the account alone. */
  lemma LaterTurn(w: World, p: World, o: DocResult, doc: ParsedDocument, fault: Fault, path: string, d: Id, first: Id,
                  content: Content, threshold: real)
    requires Integrity(p.db) && Integrity(o.world.db) && Grows(w, p)
    requires Ingested(p, o, doc, fault) && o.outcome != Raised
    requires path != doc.sourcePath || HashHeld(p.db.documents, doc.sourcePath) == Some(doc.contentHash)
    requires Owner(p.db.documents, path) == Some(d) && Accounted(w, p, d, first, content, threshold)
    ensures Owner(o.world.db.documents, path) == Some(d) && Accounted(w, o.world, d, first, content, threshold)
  {
    hide References, VersionsOf, FreshIds, LeavesOthers, Accounted, Owner, UniquePaths, Grows, HashHeld;
    if o.world != p {
      var e := Owner(o.world.db.documents, doc.sourcePath).value;
      OwnerHasPath(o.world.db.documents, doc.sourcePath);
      OwnerHasPath(p.db.documents, doc.sourcePath);
      OwnerHasPath(p.db.documents, path);
      OtherOwnerStays(p, o.world, e, path);
      AccountedStays(w, p, o.world, d, e, first, content, threshold);
    }
  }

  lemma {:induction false} RunAccounts(w: World, run: Id, request: Request, docs: seq<ParsedDocument>, setup: Setup,
                                       faults: seq<Fault>, n: nat, i: nat) returns (d: Id, first: Id)
    requires Integrity(w.db) && PointsFresh(w) && request.target == None && i < n <= |docs|
    requires IngestUpTo(w, run, request, docs, setup, faults, n).ok && LastToChange(w.db.documents, docs, i, n)
    ensures var after := IngestUpTo(w, run, request, docs, setup, faults, n).world;
            && Owner(after.db.documents, docs[i].sourcePath) == Some(d)
            && Accounted(w, after, d, first, Content(run, request.uploadedBy, docs[i], setup.chunker(docs[i])),
                         setup.threshold)
  {
    hide Integrity, PointsFresh, IngestDocument, Ingested, Grows, Accounted, Owner, HashHeld, LeavesOthers;
    var p := IngestUpTo(w, run, request, docs, setup, faults, n - 1).world;
    var doc, fault := docs[n - 1], FaultOf(faults, n - 1);
    var o := IngestDocument(p, run, request, doc, setup, fault);
    RunGrows(w, run, request, docs, setup, faults, n - 1);
    TurnOf(w, run, request, docs, setup, faults, n);
    if i == n - 1 {
      assert fault == NoFault by { ChangedWithoutFault(p, o, doc, fault); }
      d, first := IngestedIsAccounted(w, p, run, request, doc, setup);
    } else {
      d, first := RunAccounts(w, run, request, docs, setup, faults, n - 1, i);
      LaterTurn(w, p, o, doc, fault, docs[i].sourcePath, d, first,
                Content(run, request.uploadedBy, docs[i], setup.chunker(docs[i])), setup.threshold);
    }
  }

  lemma ChangedWithoutFault(p: World, o: DocResult, doc: ParsedDocument, fault: Fault)
    requires Ingested(p, o, doc, fault) && o.outcome != Raised
    requires HashHeld(p.db.documents, doc.sourcePath) != Some(doc.contentHash)
    ensures fault == NoFault
  {
    hide HashHeld, LeavesOthers, Owner;
  }

  /** The state of a run at the turn of document `n - 1`. */
  lemma TurnOf(w: World, run: Id, request: Request, docs: seq<ParsedDocument>, setup: Setup, faults: seq<Fault>, n: nat)
    requires Integrity(w.db) && PointsFresh(w) && request.target == None && 1 <= n <= |docs|
    requires IngestUpTo(w, run, request, docs, setup, faults, n).ok
    ensures var p := IngestUpTo(w, run, request, docs, setup, faults, n - 1);
            var o := IngestDocument(p.world, run, request, docs[n - 1], setup, FaultOf(faults, n - 1));
            && p.ok && Integrity(p.world.db) && PointsFresh(p.world) && Integrity(o.world.db)
            && o.outcome != Raised && o.world == IngestUpTo(w, run, request, docs, setup, faults, n).world
            && Ingested(p.world, o, docs[n - 1], FaultOf(faults, n - 1))
            && (Changes(w.db.documents, docs, n - 1)
                <==> HashHeld(p.world.db.documents, docs[n - 1].sourcePath) != Some(docs[n - 1].contentHash))
  {
    hide Integrity, PointsFresh, IngestDocument, Ingested, HashHeld, Exposed, Owner, Untouched;
    ScanFollows(w, run, request, docs, setup, faults, n - 1);
    var p := IngestUpTo(w, run, request, docs, setup, faults, n - 1);
    var doc, fault := docs[n - 1], FaultOf(faults, n - 1);
    DocumentCounts(p.world, run, request, doc, setup, fault);
    IngestedAs(p.world, run, request, doc, setup, fault);
    assert PathAfter(w, p.world, docs, n - 1, doc.sourcePath);
  }

  /** After a completed run, every chunk of every document that it changed is in exactly one
      place, the index or one new pending review item, and nothing else is left of the document:
      whatever was ingested later disturbs neither. The document is the one that lay at its path
      before, in the same workspace and version, or a first version in the workspace of the run. */
  lemma CompletedRunConserves(w: World, request: Request, setup: Setup, plan: Plan, i: nat) returns (d: Id, first: Id)
    requires Integrity(w.db) && PointsFresh(w) && request.target == None && plan.load.Some? && i < |plan.load.value|
    requires Ingest(w, request, setup, plan).status == Completed
    requires LastToChange(w.db.documents, plan.load.value, i, |plan.load.value|)
    ensures var after, doc := Ingest(w, request, setup, plan).world, plan.load.value[i];
            && Owner(after.db.documents, doc.sourcePath) == Some(d)
            && Accounted(w, after, d, first, Content(w.db.nextId, request.uploadedBy, doc, setup.chunker(doc)),
                         setup.threshold)
            && PlacedAs(w.db.documents, after.db.documents, doc.sourcePath, request.workspaceId)
  {
    hide UniquePaths, References, VersionsOf, IngestUpTo, Owner, Accounted, PlacedAs;
    var docs := plan.load.value;
    var started := World(CreateRun(w.db, request.sourcePath), w.points);
    CreateRunKeeps(w.db, request.sourcePath);
    assert PointsFresh(started);
    hide Integrity, PointsFresh, FreshIds;
    RunPlaces(started, w.db.nextId, request, docs, setup, plan.faults, |docs|, docs[i].sourcePath);
    d, first := RunAccounts(started, w.db.nextId, request, docs, setup, plan.faults, |docs|, i);
    var before := IngestUpTo(started, w.db.nextId, request, docs, setup, plan.faults, |docs|).world;
    AccountedAround(w, started, before, Ingest(w, request, setup, plan).world, d, first,
                    Content(w.db.nextId, request.uploadedBy, docs[i], setup.chunker(docs[i])), setup.threshold);
  }

  /** Opening and closing the run changes nothing of this. */
  lemma AccountedAround(w: World, started: World, before: World, after: World, d: Id, first: Id, content: Content,
                        threshold: real)
    requires Accounted(started, before, d, first, content, threshold) && w.db.nextId <= started.db.nextId
    requires w.db.reviews == started.db.reviews && after.points == before.points
    requires after.db == before.db.(runs := after.db.runs, jobs := after.db.jobs)
    ensures Accounted(w, after, d, first, content, threshold)
  {
    hide IdRange, Recorded, HoldsContent, ChunksOf;
    RecordedAround(w, started, before, after, d, first, content);
    SameChunksOf(before.db, after.db, d);
    forall c: Id, r ensures HeldFor(w.db, after.db, r, c) <==> HeldFor(started.db, before.db, r, c) {
    }
    hide HeldFor;
    forall c: Id ensures Held(w.db, after.db, c) <==> Held(started.db, before.db, c) {
    }
    hide Held;
    forall c: Id | first <= c < first + |content.cands|
      ensures c in after.points <==> content.cands[c - first].confidence >= threshold
      ensures Held(w.db, after.db, c) <==> content.cands[c - first].confidence < threshold
    {
      assert c in before.points <==> content.cands[c - first].confidence >= threshold;
    }
  }

  lemma RecordedAround(w: World, started: World, before: World, after: World, d: Id, first: Id, content: Content)
    requires Recorded(started, before, content.run, d, content.doc, first, content.cands)
    requires w.db.reviews == started.db.reviews && after.points == before.points
    requires after.db == before.db.(runs := after.db.runs, jobs := after.db.jobs)
    ensures Recorded(w, after, content.run, d, content.doc, first, content.cands)
  {
    forall r, c ensures HeldFor(w.db, after.db, r, c) <==> HeldFor(started.db, before.db, r, c) {
    }
    hide HeldFor, IsItemFor, PointsRecorded, AreStored;
  }

  // ---------------------------------------------------------------- one pass of the worker

  /** The pass of a new upload with new content that meets no exception: the job is indexed with
      its document and run, the document holds the content on behalf of the job, and every chunk of
      it is accounted for. A document new at its path is a first version in the workspace of the
      job. */
  lemma UploadIsStored(w: World, j: Id, setup: Setup, plan: Plan, doc: ParsedDocument) returns (d: Id, first: Id)
    requires Integrity(w.db) && PointsFresh(w) && IsNext(w.db.jobs, j) && w.db.jobs[j].targetDocumentId == None
    requires plan.load == Some([doc]) && StagedFile(plan, w.db.jobs[j].sourcePath)
    requires HashHeld(w.db.documents, doc.sourcePath) != Some(doc.contentHash)
    requires FaultOf(plan.faults, 0) == NoFault && !plan.finishFails
    ensures var o, before := RunOnce(w, j, setup, plan), w.db.jobs[j];
            && o.Done? && j in o.world.db.jobs
            && o.world.db.jobs[j] == before.(status := Indexed, attempt := before.attempt + 1, documentId := Some(d),
                                             runId := Some(w.db.nextId), errorMessage := None)
            && Owner(o.world.db.documents, before.sourcePath) == Some(d)
            && Accounted(w, o.world, d, first,
                         Content(w.db.nextId, Some(before.uploadedBy), doc, setup.chunker(doc)), setup.threshold)
            && PlacedAs(w.db.documents, o.world.db.documents, before.sourcePath, before.workspaceId)
  {
    hide Ingest, HashHeld, Owner, Accounted, PlacedAs, FreshIds, References, UniquePaths, VersionsOf;
    var claimed, request := World(ClaimJob(w.db, j), w.points), JobRequest(w.db.jobs[j]);
    ClaimedKeeps(w, j);
    UploadCompletes(w, j, setup, plan, doc);
    assert plan.load.value[0] == doc;
    assert LastToChange(claimed.db.documents, plan.load.value, 0, 1);
    d, first := CompletedRunConserves(claimed, request, setup, plan, 0);
    var r, o := JobRun(w, j, setup, plan), RunOnce(w, j, setup, plan);
    assert o == Done(World(CompleteJob(r.world.db, j, d, r.run), r.world.points));
    AccountedAround(w, claimed, r.world, o.world, d, first,
                    Content(w.db.nextId, Some(w.db.jobs[j].uploadedBy), doc, setup.chunker(doc)), setup.threshold);
  }

  lemma ClaimedKeeps(w: World, j: Id)
    requires Integrity(w.db) && PointsFresh(w) && j in w.db.jobs
    ensures Integrity(ClaimJob(w.db, j)) && PointsFresh(World(ClaimJob(w.db, j), w.points))
  {
    JobRefs(w.db, j);
    hide Integrity;
    JobRowKeeps(w.db, j, ClaimJob(w.db, j).jobs[j]);
  }

  lemma UploadCompletes(w: World, j: Id, setup: Setup, plan: Plan, doc: ParsedDocument)
    requires Integrity(w.db) && IsNext(w.db.jobs, j) && w.db.jobs[j].targetDocumentId == None
    requires plan.load == Some([doc]) && FaultOf(plan.faults, 0) == NoFault && !plan.finishFails
    ensures JobRun(w, j, setup, plan).status == Completed
  {
    hide JobRun, IngestDocument, FreshIds, References, UniquePaths, VersionsOf;
    OneLoaded(w, j, setup, plan, doc);
    StartedKeeps(w, j);
    FaultlessTurn(Started(w, j), w.db.nextId, JobRequest(w.db.jobs[j]), doc, setup);
  }

  lemma FaultlessTurn(w: World, run: Id, request: Request, doc: ParsedDocument, setup: Setup)
    requires Integrity(w.db) && request.target == None
    ensures IngestDocument(w, run, request, doc, setup, NoFault).outcome != Raised
  {
    UpsertForKeeps(w.db, request, doc);
    UnchangedUpsert(w.db, request, doc);
    var u := UpsertDocument(w.db, doc, request.workspaceId, request.uploadedBy);
    hide Integrity, UpsertDocument, IndexDocument;
    if u.changed { IndexingKeepsDocuments(World(u.db, w.points), run, u.id, doc, setup, NoFault); }
  }

  /** The pass of a version job that meets no exception: the target holds the content on behalf of
      the job, stays in its workspace, and every chunk of the content is accounted for. */
  lemma VersionIsStored(w: World, j: Id, setup: Setup, plan: Plan) returns (first: Id)
    requires Integrity(w.db) && PointsFresh(w) && IsNext(w.db.jobs, j) && StagedFile(plan, w.db.jobs[j].sourcePath)
    requires Upserts(w, j, plan) && FaultOf(plan.faults, 0) == NoFault && !plan.finishFails
    ensures var o, job, doc := RunOnce(w, j, setup, plan), w.db.jobs[j], plan.load.value[0];
            var t := job.targetDocumentId.value;
            && o.Done? && j in o.world.db.jobs
            && o.world.db.jobs[j] == job.(status := Indexed, attempt := job.attempt + 1, documentId := Some(t),
                                          runId := Some(w.db.nextId), errorMessage := None)
            && Accounted(w, o.world, t, first, Content(w.db.nextId, Some(job.uploadedBy), doc, setup.chunker(doc)),
                         setup.threshold)
            && o.world.db.documents[t].workspaceId == w.db.documents[t].workspaceId
            && o.world.db.documents[t].currentVersion == w.db.documents[t].currentVersion + 1
  {
    hide Ingest, Accounted, FreshIds, References, UniquePaths, VersionsOf, IndexDocument, UpsertVersion,
      StagedFile, HoldsContent, Grows, FaultOf, PathFree;
    var job, doc := w.db.jobs[j], plan.load.value[0];
    var t, p, uploader := job.targetDocumentId.value, Started(w, j), Some(job.uploadedBy);
    UpsertsIs(w, j, plan);
    StartedKeeps(w, j);
    StartedGrows(w, j);
    UpsertedVersionIs(w, j, doc);
    var u := Upserted(AfterUpsert(w, j, doc).value, t, true);
    first := u.db.nextId;
    IndexedIsAccounted(w, p, w.db.nextId, u, doc, setup, uploader);
    assert plan.load.value == [doc];
    OneLoaded(w, j, setup, plan, doc);
    VersionRunContent(w, j, setup, plan);
    VersionAllOrNothing(w, j, setup, plan);
    var r, o := JobRun(w, j, setup, plan), RunOnce(w, j, setup, plan);
    var d := IndexDocument(World(u.db, p.points), w.db.nextId, t, doc, setup, NoFault);
    assert d == IngestDocument(p, w.db.nextId, JobRequest(job), doc, setup, NoFault);
    AccountedAround(w, w, d.world, o.world, t, first, Content(w.db.nextId, uploader, doc, setup.chunker(doc)),
                    setup.threshold);
  }

  lemma StartedGrows(w: World, j: Id)
    requires j in w.db.jobs && PointsFresh(w)
    ensures Grows(w, Started(w, j)) && PointsFresh(Started(w, j))
  {
  }

  /** The database after the upsert of a version job. */
  lemma UpsertedVersionIs(w: World, j: Id, doc: ParsedDocument)
    requires Integrity(w.db) && j in w.db.jobs && w.db.jobs[j].targetDocumentId.Some? && AfterUpsert(w, j, doc).Some?
    ensures var p, u, t := Started(w, j).db, AfterUpsert(w, j, doc).value, w.db.jobs[j].targetDocumentId.value;
            && t in w.db.documents && Integrity(u) && p.nextId <= u.nextId && t in u.documents
            && u.chunks == p.chunks && u.reviews == p.reviews && u.documents == p.documents[t := u.documents[t]]
            && HoldsContent(u.documents[t], doc, Some(w.db.jobs[j].uploadedBy))
            && u.documents[t].workspaceId == w.db.documents[t].workspaceId
            && u.documents[t].currentVersion == w.db.documents[t].currentVersion + 1
  {
    hide Integrity, UpsertVersion, HoldsContent;
    StartedKeeps(w, j);
    VersionRowIs(Started(w, j).db, w.db.jobs[j].targetDocumentId.value, doc, Some(w.db.jobs[j].uploadedBy));
  }

  lemma VersionRowIs(db: Db, t: Id, doc: ParsedDocument, uploadedBy: Option<string>)
    requires Integrity(db) && UpsertVersion(db, t, doc, uploadedBy).Some?
    ensures var u := UpsertVersion(db, t, doc, uploadedBy).value;
            && t in db.documents && t in u.documents && Integrity(u) && db.nextId <= u.nextId
            && u.chunks == db.chunks && u.reviews == db.reviews && u.documents == db.documents[t := u.documents[t]]
            && HoldsContent(u.documents[t], doc, uploadedBy)
            && u.documents[t].workspaceId == db.documents[t].workspaceId
            && u.documents[t].currentVersion == db.documents[t].currentVersion + 1
  {
    UpsertVersionKeeps(db, t, doc, uploadedBy);
    UpsertIs(db, t, doc, uploadedBy);
    hide Integrity, UpsertVersion, HoldsContent, NewFields;
    NewFieldsHold(doc, uploadedBy);
    var content := db.documents[t].(fields := NewFields(doc, uploadedBy), labels := doc.labels);
    SameContentHeld(content, content.currentVersion + 1, doc, uploadedBy);
  }

  lemma SameContentHeld(row: Document, version: int, doc: ParsedDocument, uploadedBy: Option<string>)
    requires HoldsContent(row, doc, uploadedBy)
    ensures HoldsContent(row.(currentVersion := version), doc, uploadedBy)
  {
  }
}
