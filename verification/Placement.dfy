/** Which row a path belongs to: ingesting keeps its id, workspace and version, and a new row lies
    in the workspace of the request. */
module Placement {
  import opened Options
  import opened Records
  import opened Store
  import opened StoreIntegrity
  import opened Ingestion
  import opened IngestionIntegrity
  import opened JobOutcome
  import opened Conservation
  import opened Frames

  /** What lies at the path afterwards: the document that lay there before, in the same workspace
      and version, or else a first version in this workspace. */
  ghost predicate PlacedAs(before: map<Id, Document>, after: map<Id, Document>, path: string, workspaceId: Option<Id>)
  {
    var was, now := Owner(before, path), Owner(after, path);
    if was.Some? then
      && now == was && was.value in before && was.value in after
      && after[was.value].workspaceId == before[was.value].workspaceId
      && after[was.value].currentVersion == before[was.value].currentVersion
    else
      now.Some? ==>
        now.value in after && after[now.value].workspaceId == workspaceId && after[now.value].currentVersion == 1
  }

  lemma PlacedFurther(a: map<Id, Document>, b: map<Id, Document>, c: map<Id, Document>, path: string,
                      workspaceId: Option<Id>)
    requires PlacedAs(a, b, path, workspaceId) && PlacedAs(b, c, path, workspaceId)
    ensures PlacedAs(a, c, path, workspaceId)
  {
    hide Owner;
  }

  lemma NothingPlaced(documents: map<Id, Document>, path: string, workspaceId: Option<Id>)
    ensures PlacedAs(documents, documents, path, workspaceId)
  {
    OwnerHasPath(documents, path);
    hide Owner;
  }

  /** The row that an upsert writes: the one at the path, or a new one. */
  lemma UpsertedPlace(db: Db, doc: ParsedDocument, workspaceId: Option<Id>, uploadedBy: Option<string>)
    ensures var u, was := UpsertDocument(db, doc, workspaceId, uploadedBy), Owner(db.documents, doc.sourcePath);
            && u.id in u.db.documents
            && if was.Some? then
                 && u.id == was.value && u.id in db.documents
                 && u.db.documents[u.id].workspaceId == db.documents[u.id].workspaceId
                 && u.db.documents[u.id].currentVersion == db.documents[u.id].currentVersion
               else u.db.documents[u.id].workspaceId == workspaceId && u.db.documents[u.id].currentVersion == 1
  {
    OwnerHasPath(db.documents, doc.sourcePath);
    hide Owner, NewFields;
  }

  /** The documents that an upsert leaves alone. */
  lemma UpsertedKeys(db: Db, request: Request, doc: ParsedDocument, path: string)
    requires path != doc.sourcePath
    ensures var u := UpsertDocument(db, doc, request.workspaceId, request.uploadedBy);
            forall d | d in u.db.documents && u.db.documents[d].fields.sourcePath == path ::
              d in db.documents && u.db.documents[d] == db.documents[d]
  {
    hide Owner;
  }

  lemma UpsertPlaces(db: Db, request: Request, doc: ParsedDocument, path: string)
    requires Integrity(db)
    ensures var u := UpsertDocument(db, doc, request.workspaceId, request.uploadedBy);
            PlacedAs(db.documents, u.db.documents, path, request.workspaceId)
  {
    var u := UpsertDocument(db, doc, request.workspaceId, request.uploadedBy);
    UpsertedRow(db, request, doc);
    UpsertDocumentKeeps(db, doc, request.workspaceId, request.uploadedBy);
    OwnerHasPath(db.documents, path);
    OwnerHasPath(u.db.documents, path);
    if path == doc.sourcePath {
      UpsertedIsOwner(db, request, doc);
      UpsertedPlace(db, doc, request.workspaceId, request.uploadedBy);
      hide UpsertDocument, Integrity, Owner;
    } else {
      UpsertedKeys(db, request, doc, path);
      hide UpsertDocument, FreshIds, References, VersionsOf, Owner;
      var was := Owner(db.documents, path);
      if was.Some? { OwnerIsUnique(u.db.documents, path, was.value); }
    }
  }

  /** The documents after a turn are those after its upsert, wherever it fails. */
  lemma TurnDocuments(w: World, run: Id, request: Request, doc: ParsedDocument, setup: Setup, fault: Fault)
    requires Integrity(w.db) && request.target == None
    ensures IngestDocument(w, run, request, doc, setup, fault).world.db.documents
            == UpsertDocument(w.db, doc, request.workspaceId, request.uploadedBy).db.documents
  {
    var u := UpsertDocument(w.db, doc, request.workspaceId, request.uploadedBy);
    UpsertForKeeps(w.db, request, doc);
    UnchangedUpsert(w.db, request, doc);
    hide Integrity, UpsertDocument, IndexDocument;
    if u.changed { IndexingKeepsDocuments(World(u.db, w.points), run, u.id, doc, setup, fault); }
  }

  /** All through a run, wherever it fails, every path keeps its document with workspace and
      version, and a document new at its path is a first version in the workspace of the run. */
  lemma {:induction false} RunPlaces(w: World, run: Id, request: Request, docs: seq<ParsedDocument>, setup: Setup,
                                     faults: seq<Fault>, n: nat, path: string)
    requires Integrity(w.db) && request.target == None && n <= |docs|
    ensures PlacedAs(w.db.documents, IngestUpTo(w, run, request, docs, setup, faults, n).world.db.documents, path,
                     request.workspaceId)
  {
    hide Integrity, PlacedAs, IngestDocument, UpsertDocument;
    if n == 0 {
      NothingPlaced(w.db.documents, path, request.workspaceId);
    } else {
      RunPlaces(w, run, request, docs, setup, faults, n - 1, path);
      IngestUpToKeeps(w, run, request, docs, setup, faults, n - 1);
      var p := IngestUpTo(w, run, request, docs, setup, faults, n - 1);
      if p.ok {
        TurnDocuments(p.world, run, request, docs[n - 1], setup, FaultOf(faults, n - 1));
        UpsertPlaces(p.world.db, request, docs[n - 1], path);
        PlacedFurther(w.db.documents, p.world.db.documents,
                      IngestUpTo(w, run, request, docs, setup, faults, n).world.db.documents, path,
                      request.workspaceId);
      }
    }
  }
}
