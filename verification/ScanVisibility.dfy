/** Exactly which directory scans keep the world safe, told by the world before the scan. */
module ScanVisibility {
  import opened Options
  import opened Records
  import opened Store
  import opened StoreIntegrity
  import opened Ingestion
  import opened IngestionIntegrity
  import opened Visibility
  import opened IngestVisibility
  import opened JobVisibility
  import opened Conservation
  import opened Frames

  // ---------------------------------------------------------------- turn by turn

  /** Ingesting this document fails between its upsert and the replacement of its chunks, and
      one of its live chunks is published. */
  ghost predicate Exposes(w: World, request: Request, doc: ParsedDocument, fault: Fault) {
    var u := UpsertFor(w.db, request, doc);
    fault == ReplaceFails && u.Some? && u.value.changed && Exposed(w, u.value.id)
  }

  /** One of the first `n` documents of a run does, when its turn comes. */
  ghost predicate RunExposes(w: World, run: Id, request: Request, docs: seq<ParsedDocument>, setup: Setup,
                             faults: seq<Fault>, n: nat)
    requires n <= |docs|
  {
    exists i :: 0 <= i < n && ExposesAt(w, run, request, docs, setup, faults, i)
  }

  ghost predicate ExposesAt(w: World, run: Id, request: Request, docs: seq<ParsedDocument>, setup: Setup,
                            faults: seq<Fault>, i: nat)
    requires i < |docs|
  {
    var p := IngestUpTo(w, run, request, docs, setup, faults, i);
    p.ok && Exposes(p.world, request, docs[i], FaultOf(faults, i))
  }

  lemma ExposingRaises(w: World, run: Id, request: Request, doc: ParsedDocument, setup: Setup, fault: Fault)
    requires Exposes(w, request, doc, fault)
    ensures IngestDocument(w, run, request, doc, setup, fault).outcome == Raised
  {
    hide UpsertFor, Exposed;
  }

  /** A run that goes on has exposed nothing. */
  lemma {:induction false} GoingOnExposesNothing(w: World, run: Id, request: Request, docs: seq<ParsedDocument>,
                                                 setup: Setup, faults: seq<Fault>, n: nat)
    requires n <= |docs| && IngestUpTo(w, run, request, docs, setup, faults, n).ok
    ensures !RunExposes(w, run, request, docs, setup, faults, n)
  {
    hide IngestDocument, Exposes;
    if n > 0 {
      GoingOnExposesNothing(w, run, request, docs, setup, faults, n - 1);
      if ExposesAt(w, run, request, docs, setup, faults, n - 1) {
        var p := IngestUpTo(w, run, request, docs, setup, faults, n - 1);
        ExposingRaises(p.world, run, request, docs[n - 1], setup, FaultOf(faults, n - 1));
      }
    }
  }

  lemma OneDocumentMore(w: World, run: Id, request: Request, docs: seq<ParsedDocument>, setup: Setup,
                        faults: seq<Fault>, n: nat)
    requires 1 <= n <= |docs|
    ensures RunExposes(w, run, request, docs, setup, faults, n) <==>
              RunExposes(w, run, request, docs, setup, faults, n - 1)
              || ExposesAt(w, run, request, docs, setup, faults, n - 1)
  {
    hide ExposesAt;
  }

  /** The points are sound after a run exactly if no document was exposed on the way. */
  lemma {:induction false} RunIsSafeUnless(w: World, run: Id, request: Request, docs: seq<ParsedDocument>, setup: Setup,
                                           faults: seq<Fault>, n: nat)
    requires Safe(w) && n <= |docs|
    ensures var after := IngestUpTo(w, run, request, docs, setup, faults, n).world;
            && Integrity(after.db) && ReviewsSound(after.db)
            && (PointsSound(after) <==> !RunExposes(w, run, request, docs, setup, faults, n))
  {
    hide Integrity, PointsSound, ReviewsSound, IngestDocument;
    if n > 0 {
      RunIsSafeUnless(w, run, request, docs, setup, faults, n - 1);
      var p := IngestUpTo(w, run, request, docs, setup, faults, n - 1);
      OneDocumentMore(w, run, request, docs, setup, faults, n);
      hide RunExposes;
      if p.ok {
        GoingOnExposesNothing(w, run, request, docs, setup, faults, n - 1);
        IngestDocumentIsSafe(p.world, run, request, docs[n - 1], setup, FaultOf(faults, n - 1));
      }
    }
  }

  lemma SameContentSameSafety(w: World, after: World)
    requires ReviewsSound(w.db) && Integrity(after.db) && after.points == w.points && w.db.nextId <= after.db.nextId
    requires after.db == w.db.(runs := after.db.runs, nextId := after.db.nextId)
    requires References(w.db)
    ensures ReviewsSound(after.db)
    ensures PointsSound(w) ==> PointsSound(after)
    ensures PointsSound(after) && after.db.nextId == w.db.nextId ==> PointsSound(w)
  {
    hide UniquePaths, VersionsOf, FreshIds, References, Sound;
    if PointsSound(w) {
      forall c | c in w.points
        ensures w.points[c].chunkId == c && c < after.db.nextId
        ensures c in after.db.chunks ==> Sound(after.db.documents, w.points[c], after.db.chunks[c].documentId)
      {
        SameDocumentsSound(w.db.documents, after.db.documents, w, c);
      }
    }
    forall r | r in after.db.reviews ensures PendingSound(after.db, after.db.reviews[r]) {
      assert PendingSound(w.db, w.db.reviews[r]);
    }
  }

  lemma SameDocumentsSound(a: map<Id, Document>, b: map<Id, Document>, w: World, c: Id)
    requires a == b && c in w.points
    ensures c in w.db.chunks ==> (Sound(a, w.points[c], w.db.chunks[c].documentId)
                                  <==> Sound(b, w.points[c], w.db.chunks[c].documentId))
  {
  }

  // ---------------------------------------------------------------- by the world before the scan

  /** The content hash at a path once the first `n` documents went through. */
  ghost function HashBefore(documents: map<Id, Document>, docs: seq<ParsedDocument>, n: nat, path: string)
    : Option<string>
    requires n <= |docs|
  {
    if n == 0 then HashHeld(documents, path)
    else if docs[n - 1].sourcePath == path then Some(docs[n - 1].contentHash)
    else HashBefore(documents, docs, n - 1, path)
  }

  /** Document `i` brings new content to its path. */
  ghost predicate Changes(documents: map<Id, Document>, docs: seq<ParsedDocument>, i: nat)
    requires i < |docs|
  {
    HashBefore(documents, docs, i, docs[i].sourcePath) != Some(docs[i].contentHash)
  }

  /** No document before `n` both changes its path and meets an exception. */
  ghost predicate Reaches(documents: map<Id, Document>, docs: seq<ParsedDocument>, faults: seq<Fault>, n: nat)
    requires n <= |docs|
  {
    forall j: nat | j < n :: Changes(documents, docs, j) ==> FaultOf(faults, j) == NoFault
  }

  /** No document before `n` changes this path. */
  ghost predicate Untouched(documents: map<Id, Document>, docs: seq<ParsedDocument>, n: nat, path: string)
    requires n <= |docs|
  {
    forall j: nat | j < n && docs[j].sourcePath == path :: !Changes(documents, docs, j)
  }

  /** The first exception of the scan hits document `i` between its upsert and the replacement
      of its chunks; the path belongs to a document with other content and a published live
      chunk, and nothing before `i` changed it. */
  ghost predicate FailsExposed(w: World, docs: seq<ParsedDocument>, faults: seq<Fault>, i: nat)
    requires i < |docs|
  {
    && Reaches(w.db.documents, docs, faults, i) && Changes(w.db.documents, docs, i)
    && FaultOf(faults, i) == ReplaceFails
    && var owner := Owner(w.db.documents, docs[i].sourcePath);
       owner.Some? && Exposed(w, owner.value) && Untouched(w.db.documents, docs, i, docs[i].sourcePath)
  }

  ghost predicate ScanExposes(w: World, plan: Plan) {
    plan.load.Some? && exists i: nat :: i < |plan.load.value| && FailsExposed(w, plan.load.value, plan.faults, i)
  }

  /** For files with distinct paths the hash and the owner are those before the scan. */
  lemma {:induction false} DistinctPathsAreUntouched(documents: map<Id, Document>, docs: seq<ParsedDocument>, i: nat,
                                                     n: nat)
    requires DistinctPaths(docs) && n <= i < |docs|
    ensures HashBefore(documents, docs, n, docs[i].sourcePath) == HashHeld(documents, docs[i].sourcePath)
    ensures Untouched(documents, docs, n, docs[i].sourcePath)
  {
    if n > 0 {
      DistinctPathsAreUntouched(documents, docs, i, n - 1);
      assert docs[n - 1].sourcePath != docs[i].sourcePath;
    }
  }

  /** What the scan has made of a path after `n` documents. */
  ghost predicate PathAfter(w: World, p: World, docs: seq<ParsedDocument>, n: nat, path: string)
    requires n <= |docs|
  {
    var before, owner := Owner(w.db.documents, path), Owner(p.db.documents, path);
    && HashHeld(p.db.documents, path) == HashBefore(w.db.documents, docs, n, path)
    && if Untouched(w.db.documents, docs, n, path) then
         owner == before && (owner.Some? ==> (Exposed(p, owner.value) <==> Exposed(w, owner.value)))
       else owner.Some? && !Exposed(p, owner.value)
  }

  ghost predicate PathsAfter(w: World, p: World, docs: seq<ParsedDocument>, n: nat)
    requires n <= |docs|
  {
    forall path :: PathAfter(w, p, docs, n, path)
  }

  lemma ChangedPathAfter(w: World, p: World, after: World, docs: seq<ParsedDocument>, n: nat, path: string)
    requires n < |docs| && PathAfter(w, p, docs, n, path) && Integrity(p.db) && PointsFresh(p) && Integrity(after.db)
    requires PathAfter(w, p, docs, n, docs[n].sourcePath)
    requires Changes(w.db.documents, docs, n)
    requires exists o: DocResult :: o.world == after && Ingested(p, o, docs[n], NoFault)
    ensures PathAfter(w, after, docs, n + 1, path)
  {
    hide References, VersionsOf, FreshIds, LeavesOthers, Exposed, Owner, UniquePaths;
    var o: DocResult :| o.world == after && Ingested(p, o, docs[n], NoFault);
    var d := Owner(after.db.documents, docs[n].sourcePath).value;
    OwnerHasPath(after.db.documents, docs[n].sourcePath);
    OwnerHasPath(p.db.documents, docs[n].sourcePath);
    OwnerHasPath(after.db.documents, path);
    if path == docs[n].sourcePath {
      NewChunksAreUnexposed(p, after, d);
      assert !Untouched(w.db.documents, docs, n + 1, path);
    } else {
      OtherOwnerStays(p, after, d, path);
      var owner := Owner(p.db.documents, path);
      if owner.Some? { OtherExposureStays(p, after, d, owner.value); }
      assert Untouched(w.db.documents, docs, n + 1, path) <==> Untouched(w.db.documents, docs, n, path);
    }
  }

  lemma NewChunksAreUnexposed(p: World, after: World, d: Id)
    requires LeavesOthers(p, after, d) && PointsFresh(p)
    requires forall c | c in after.db.chunks && after.db.chunks[c].documentId == d :: p.db.nextId <= c
    ensures !Exposed(after, d)
  {
  }

  lemma SamePathAfter(w: World, p: World, docs: seq<ParsedDocument>, n: nat, path: string)
    requires n < |docs| && PathAfter(w, p, docs, n, path) && !Changes(w.db.documents, docs, n)
    ensures PathAfter(w, p, docs, n + 1, path)
  {
    hide Exposed, Owner;
    assert Untouched(w.db.documents, docs, n + 1, path) <==> Untouched(w.db.documents, docs, n, path);
  }

  /** The scan goes on exactly as long as the world before it says, and makes of every path what
      it says. */
  lemma {:induction false} ScanFollows(w: World, run: Id, request: Request, docs: seq<ParsedDocument>, setup: Setup,
                                       faults: seq<Fault>, n: nat)
    requires Integrity(w.db) && PointsFresh(w) && request.target == None && n <= |docs|
    ensures var p := IngestUpTo(w, run, request, docs, setup, faults, n);
            && Integrity(p.world.db) && PointsFresh(p.world)
            && (p.ok <==> Reaches(w.db.documents, docs, faults, n))
            && (p.ok ==> PathsAfter(w, p.world, docs, n))
  {
    hide Integrity, PointsFresh, IngestDocument, Changes, Ingested;
    if n == 0 {
      NothingScanned(w, docs);
    } else {
      ScanFollows(w, run, request, docs, setup, faults, n - 1);
      var p := IngestUpTo(w, run, request, docs, setup, faults, n - 1);
      if p.ok {
        var doc, fault := docs[n - 1], FaultOf(faults, n - 1);
        DocumentCounts(p.world, run, request, doc, setup, fault);
        IngestedAs(p.world, run, request, doc, setup, fault);
        var o := IngestDocument(p.world, run, request, doc, setup, fault);
        OneTurn(w, p.world, o, docs, faults, n - 1);
      }
    }
  }

  lemma NothingScanned(w: World, docs: seq<ParsedDocument>)
    ensures PathsAfter(w, w, docs, 0)
  {
    hide Exposed, Owner;
  }

  lemma OneTurn(w: World, p: World, o: DocResult, docs: seq<ParsedDocument>, faults: seq<Fault>, n: nat)
    requires n < |docs| && Integrity(p.db) && PointsFresh(p) && Integrity(o.world.db)
    requires Ingested(p, o, docs[n], FaultOf(faults, n)) && PathsAfter(w, p, docs, n)
    requires Reaches(w.db.documents, docs, faults, n)
    ensures o.outcome != Raised <==> Reaches(w.db.documents, docs, faults, n + 1)
    ensures o.outcome != Raised ==> PathsAfter(w, o.world, docs, n + 1)
  {
    hide Integrity, PointsFresh, LeavesOthers;
    assert PathAfter(w, p, docs, n, docs[n].sourcePath);
    assert Changes(w.db.documents, docs, n)
           <==> HashHeld(p.db.documents, docs[n].sourcePath) != Some(docs[n].contentHash);
    if o.outcome != Raised {
      var m := n + 1;
      forall path ensures PathAfter(w, o.world, docs, m, path) {
        if Changes(w.db.documents, docs, n) {
          ChangedPathAfter(w, p, o.world, docs, n, path);
        } else {
          SamePathAfter(w, p, docs, n, path);
        }
      }
    }
  }

  /** Seen from before the scan or at the turn of the document: it is the same exposure. */
  lemma ExposureForetold(w: World, run: Id, request: Request, docs: seq<ParsedDocument>, setup: Setup,
                         faults: seq<Fault>, i: nat)
    requires Integrity(w.db) && PointsFresh(w) && request.target == None && i < |docs|
    ensures ExposesAt(w, run, request, docs, setup, faults, i) <==> FailsExposed(w, docs, faults, i)
  {
    ScanFollows(w, run, request, docs, setup, faults, i);
    var p := IngestUpTo(w, run, request, docs, setup, faults, i);
    if p.ok {
      assert PathAfter(w, p.world, docs, i, docs[i].sourcePath);
      ExposedOwner(p.world, request, docs[i]);
    }
    hide IngestUpTo, UpsertFor, Exposed, Owner, Integrity, PointsFresh;
  }

  lemma ExposedOwner(p: World, request: Request, doc: ParsedDocument)
    requires Integrity(p.db) && request.target == None
    ensures var u, owner := UpsertFor(p.db, request, doc), Owner(p.db.documents, doc.sourcePath);
            && u.Some? && (u.value.changed <==> HashHeld(p.db.documents, doc.sourcePath) != Some(doc.contentHash))
            && (Exposed(p, u.value.id) <==> owner.Some? && Exposed(p, owner.value))
  {
    hide UniquePaths, VersionsOf, Owner;
    OwnerHasPath(p.db.documents, doc.sourcePath);
  }

  /** Opening the run changes nothing that the exposure depends on. */
  lemma ExposureOfStarted(w: World, started: World, docs: seq<ParsedDocument>, faults: seq<Fault>, i: nat)
    requires i < |docs| && started.points == w.points && started.db.chunks == w.db.chunks
    requires started.db.documents == w.db.documents
    ensures FailsExposed(started, docs, faults, i) <==> FailsExposed(w, docs, faults, i)
  {
    hide Owner, Reaches, Changes, Untouched;
    forall d ensures Exposed(started, d) <==> Exposed(w, d) {
    }
  }

  lemma RunExposureForetold(w: World, request: Request, setup: Setup, plan: Plan)
    requires Safe(w) && request.target == None && plan.load.Some?
    ensures var started := World(CreateRun(w.db, request.sourcePath), w.points);
            RunExposes(started, w.db.nextId, request, plan.load.value, setup, plan.faults, |plan.load.value|)
            <==> ScanExposes(w, plan)
  {
    hide FreshIds, UniquePaths, References, VersionsOf, ReviewsSound, ExposesAt, FailsExposed, Sound;
    var run, docs := w.db.nextId, plan.load.value;
    var started := World(CreateRun(w.db, request.sourcePath), w.points);
    CreateRunKeeps(w.db, request.sourcePath);
    assert PointsFresh(started);
    forall i: nat | i < |docs|
      ensures ExposesAt(started, run, request, docs, setup, plan.faults, i) <==> FailsExposed(w, docs, plan.faults, i)
    {
      ExposureForetold(started, run, request, docs, setup, plan.faults, i);
      ExposureOfStarted(w, started, docs, plan.faults, i);
    }
  }

  /** A scan keeps the world safe, wherever it fails, except exactly if the world before it says
      that a document fails exposed. */
  lemma ScanIsSafeUnless(w: World, request: Request, setup: Setup, plan: Plan)
    requires Safe(w) && request.target == None
    ensures var after := Ingest(w, request, setup, plan).world;
            && Integrity(after.db) && ReviewsSound(after.db)
            && (PointsSound(after) <==> !ScanExposes(w, plan))
  {
    hide FreshIds, UniquePaths, References, VersionsOf, PointsSound, ReviewsSound, IngestUpTo, RunExposes, ScanExposes;
    var run := w.db.nextId;
    var started := World(CreateRun(w.db, request.sourcePath), w.points);
    IngestKeeps(w, request, setup, plan);
    CreateRunKeeps(w.db, request.sourcePath);
    SameContentIsSafe(w, started);
    var after := Ingest(w, request, setup, plan).world;
    if plan.load == None {
      SameContentSameSafety(started, after);
      assert !ScanExposes(w, plan) by { NothingToExpose(w, plan); }
    } else {
      var docs := plan.load.value;
      RunIsSafeUnless(started, run, request, docs, setup, plan.faults, |docs|);
      SameContentSameSafety(IngestUpTo(started, run, request, docs, setup, plan.faults, |docs|).world, after);
      RunExposureForetold(w, request, setup, plan);
    }
  }

  lemma NothingToExpose(w: World, plan: Plan)
    requires plan.load == None
    ensures !ScanExposes(w, plan)
  {
  }
}
