/** Every repository transaction keeps the integrity of the database. */
module StoreIntegrity {
  import opened Options
  import opened Records
  import opened Store

  // ---------------------------------------------------------------- documents and versions

  lemma VersionsUntouched(db: Db, after: Db, d: Id)
    requires d in db.documents && VersionsOf(db, d)
    requires d in after.documents && after.documents[d].currentVersion == db.documents[d].currentVersion
    requires forall v :: (v in db.versions && db.versions[v].documentId == d)
                         <==> (v in after.versions && after.versions[v].documentId == d)
    requires forall v | v in db.versions && db.versions[v].documentId == d :: after.versions[v] == db.versions[v]
    ensures VersionsOf(after, d)
  {
    forall k | 1 <= k < db.documents[d].currentVersion ensures HasSnapshot(after.versions, d, k) {
      assert HasSnapshot(db.versions, d, k);
      var v :| IsSnapshot(db.versions, v, d, k);
      assert IsSnapshot(after.versions, v, d, k);
    }
  }

  /** A change to document `d` and its snapshots leaves the other documents' versions alone. */
  lemma OthersUntouched(db: Db, after: Db, d: Id)
    requires forall e | e in db.documents :: VersionsOf(db, e)
    requires forall e | e in after.documents && e != d :: e in db.documents && after.documents[e] == db.documents[e]
    requires forall v | v in db.versions && db.versions[v].documentId != d ::
               v in after.versions && after.versions[v] == db.versions[v]
    requires forall v | v in after.versions && after.versions[v].documentId != d :: v in db.versions
    requires forall v | v in after.versions && v in db.versions :: after.versions[v] == db.versions[v]
    ensures forall e | e in after.documents && e != d :: VersionsOf(after, e)
  {
    hide VersionsOf;
    forall e | e in after.documents && e != d ensures VersionsOf(after, e) {
      VersionsUntouched(db, after, e);
    }
  }

  lemma OwnerHasPath(documents: map<Id, Document>, path: string)
    ensures var owner := Owner(documents, path);
            if owner.Some? then owner.value in documents && documents[owner.value].fields.sourcePath == path
            else forall d | d in documents :: documents[d].fields.sourcePath != path
  {
  }

  lemma OwnerIsUnique(documents: map<Id, Document>, path: string, d: Id)
    requires UniquePaths(documents) && d in documents && documents[d].fields.sourcePath == path
    ensures Owner(documents, path) == Some(d)
  {
  }

  lemma PathsAfter(documents: map<Id, Document>, d: Id, row: Document)
    requires UniquePaths(documents) && PathFree(documents, d, row.fields.sourcePath)
    ensures UniquePaths(documents[d := row])
  {
  }

  /** Writing a document row and, perhaps, a version row of that document. */
  lemma TablesAfter(db: Db, after: Db, d: Id)
    requires FreshIds(db) && References(db) && db.nextId <= after.nextId && d < after.nextId
    requires after.chunks == db.chunks && after.jobs == db.jobs && after.reviews == db.reviews && after.runs == db.runs
    requires after.documents.Keys == db.documents.Keys + {d}
    requires forall v | v in after.versions :: (v in db.versions && after.versions[v] == db.versions[v])
                                               || (v < after.nextId && after.versions[v].documentId == d)
    ensures FreshIds(after) && References(after)
  {
  }

  /** An existing row is rewritten, keeping its version number. */
  lemma RewriteKeeps(db: Db, d: Id, row: Document)
    requires Integrity(db) && d in db.documents && row.currentVersion == db.documents[d].currentVersion
    requires PathFree(db.documents, d, row.fields.sourcePath)
    ensures Integrity(db.(documents := db.documents[d := row]))
  {
    var after := db.(documents := db.documents[d := row]);
    assert d < db.nextId;
    hide FreshIds, References, UniquePaths, PathFree;
    TablesAfter(db, after, d);
    PathsAfter(db.documents, d, row);
    forall e | e in after.documents ensures VersionsOf(after, e) {
      VersionsUntouched(db, after, e);
    }
  }

  lemma InsertKeeps(db: Db, row: Document)
    requires Integrity(db) && row.currentVersion == 1
    requires PathFree(db.documents, db.nextId, row.fields.sourcePath)
    ensures Integrity(db.(documents := db.documents[db.nextId := row], nextId := db.nextId + 1))
  {
    hide HasSnapshot;
    var after := db.(documents := db.documents[db.nextId := row], nextId := db.nextId + 1);
    assert db.nextId !in db.documents;
    assert VersionsOf(after, db.nextId);
    hide FreshIds, References, UniquePaths, PathFree;
    TablesAfter(db, after, db.nextId);
    PathsAfter(db.documents, db.nextId, row);
    forall e | e in after.documents ensures VersionsOf(after, e) {
      if e in db.documents { VersionsUntouched(db, after, e); }
    }
  }

  lemma UpsertDocumentKeeps(db: Db, doc: ParsedDocument, workspaceId: Option<Id>, uploadedBy: Option<string>)
    requires Integrity(db)
    ensures Integrity(UpsertDocument(db, doc, workspaceId, uploadedBy).db)
  {
    hide References, FreshIds, VersionsOf;
    var u := UpsertDocument(db, doc, workspaceId, uploadedBy);
    var owner := Owner(db.documents, doc.sourcePath);
    if owner == None {
      InsertKeeps(db, Document(NewFields(doc, uploadedBy), doc.labels, 1, workspaceId));
    } else if u.changed {
      RewriteKeeps(db, owner.value, u.db.documents[owner.value]);
    }
  }

  /** The row's state is kept as a snapshot and the row moves to the next version. */
  ghost function WithSnapshot(db: Db, d: Id, row: Document): Db
    requires d in db.documents
  {
    db.(versions := db.versions[db.nextId := VersionRow(d, db.documents[d].currentVersion, db.documents[d].fields)],
        documents := db.documents[d := row], nextId := db.nextId + 1)
  }

  lemma FreshIdIsNew(db: Db, d: Id)
    requires FreshIds(db) && d in db.documents
    ensures d < db.nextId && db.nextId !in db.versions
  {
  }

  lemma SnapshotVersions(db: Db, d: Id, row: Document)
    requires Integrity(db) && d in db.documents && row.currentVersion == db.documents[d].currentVersion + 1
    ensures var after := WithSnapshot(db, d, row); forall e | e in after.documents :: VersionsOf(after, e)
  {
    hide FreshIds, References, UniquePaths, HasSnapshot, VersionsOf;
    var after := WithSnapshot(db, d, row);
    FreshIdIsNew(db, d);
    OneMoreVersion(db, after, d);
    OthersUntouched(db, after, d);
  }

  lemma SnapshotTables(db: Db, d: Id, row: Document)
    requires Integrity(db) && d in db.documents && PathFree(db.documents, d, row.fields.sourcePath)
    ensures var after := WithSnapshot(db, d, row);
            FreshIds(after) && References(after) && UniquePaths(after.documents)
  {
    assert d < db.nextId;
    hide FreshIds, References, UniquePaths, PathFree, VersionsOf;
    TablesAfter(db, WithSnapshot(db, d, row), d);
    PathsAfter(db.documents, d, row);
  }

  lemma SnapshotKeeps(db: Db, d: Id, row: Document)
    requires Integrity(db) && d in db.documents && row.currentVersion == db.documents[d].currentVersion + 1
    requires PathFree(db.documents, d, row.fields.sourcePath)
    ensures Integrity(WithSnapshot(db, d, row))
  {
    SnapshotVersions(db, d, row);
    SnapshotTables(db, d, row);
    hide FreshIds, References, UniquePaths, PathFree, VersionsOf, WithSnapshot;
  }

  lemma UpsertVersionKeeps(db: Db, target: Id, doc: ParsedDocument, uploadedBy: Option<string>)
    requires Integrity(db) && UpsertVersion(db, target, doc, uploadedBy).Some?
    ensures Integrity(UpsertVersion(db, target, doc, uploadedBy).value)
  {
    hide Integrity, PathFree;
    SnapshotKeeps(db, target, UpsertVersion(db, target, doc, uploadedBy).value.documents[target]);
  }

  lemma OneMoreVersion(db: Db, after: Db, d: Id)
    requires d in db.documents && d in after.documents && VersionsOf(db, d) && db.nextId !in db.versions
    requires after.documents[d].currentVersion == db.documents[d].currentVersion + 1
    requires after.versions
             == db.versions[db.nextId := VersionRow(d, db.documents[d].currentVersion, db.documents[d].fields)]
    ensures VersionsOf(after, d)
  {
    var n := db.documents[d].currentVersion;
    forall k | 1 <= k < n + 1 ensures HasSnapshot(after.versions, d, k) {
      if k < n {
        assert HasSnapshot(db.versions, d, k);
        var v :| IsSnapshot(db.versions, v, d, k);
        assert IsSnapshot(after.versions, v, d, k);
      } else {
        assert IsSnapshot(after.versions, db.nextId, d, k);
      }
    }
  }

  lemma OneVersionLess(db: Db, after: Db, d: Id, v: Id)
    requires d in db.documents && d in after.documents && VersionsOf(db, d)
    requires db.documents[d].currentVersion > 1
    requires IsSnapshot(db.versions, v, d, db.documents[d].currentVersion - 1)
    requires after.documents[d].currentVersion == db.documents[d].currentVersion - 1
    requires after.versions == db.versions - {v}
    ensures VersionsOf(after, d)
  {
    var n := db.documents[d].currentVersion;
    forall k | 1 <= k < n - 1 ensures HasSnapshot(after.versions, d, k) {
      assert HasSnapshot(db.versions, d, k);
      var w :| IsSnapshot(db.versions, w, d, k);
      assert IsSnapshot(after.versions, w, d, k);
    }
  }

  /** A rollback that changes anything removes the newest snapshot and puts its fields back. */
  lemma RollbackIs(db: Db, d: Id) returns (v: Id)
    requires Integrity(db) && d in db.documents && db.documents[d].currentVersion > 1
    ensures IsSnapshot(db.versions, v, d, db.documents[d].currentVersion - 1)
    ensures RollbackVersion(db, d).Some? <==> PathFree(db.documents, d, db.versions[v].fields.sourcePath)
    ensures RollbackVersion(db, d).Some? ==>
              RollbackVersion(db, d).value
              == db.(documents := db.documents[d := db.documents[d].(fields := db.versions[v].fields,
                                                       currentVersion := db.documents[d].currentVersion - 1)],
                     versions := db.versions - {v})
  {
    hide UniquePaths, PathFree, FreshIds, References;
    assert VersionsOf(db, d);
    assert HasSnapshot(db.versions, d, db.documents[d].currentVersion - 1);
    v :| IsSnapshot(db.versions, v, d, db.documents[d].currentVersion - 1);
    forall w | w in db.versions && IsSnapshot(db.versions, w, d, db.documents[d].currentVersion - 1) ensures w == v {
    }
  }

  lemma RollbackVersions(db: Db, d: Id)
    requires Integrity(db) && d in db.documents && db.documents[d].currentVersion > 1
    requires RollbackVersion(db, d).Some?
    ensures var after := RollbackVersion(db, d).value; forall e | e in after.documents :: VersionsOf(after, e)
  {
    hide UniquePaths, PathFree, FreshIds, References, VersionsOf, HasSnapshot, RollbackVersion;
    var v := RollbackIs(db, d);
    var after := RollbackVersion(db, d).value;
    OneVersionLess(db, after, d, v);
    OthersUntouched(db, after, d);
  }

  lemma RollbackTables(db: Db, d: Id)
    requires Integrity(db) && d in db.documents && db.documents[d].currentVersion > 1
    requires RollbackVersion(db, d).Some?
    ensures var after := RollbackVersion(db, d).value;
            FreshIds(after) && References(after) && UniquePaths(after.documents)
  {
    hide UniquePaths, PathFree, FreshIds, References, VersionsOf, HasSnapshot, RollbackVersion;
    var v := RollbackIs(db, d);
    var after := RollbackVersion(db, d).value;
    FreshIdIsNew(db, d);
    TablesAfter(db, after, d);
    PathsAfter(db.documents, d, after.documents[d]);
  }

  lemma RollbackKeeps(db: Db, d: Id)
    requires Integrity(db) && RollbackVersion(db, d).Some?
    ensures Integrity(RollbackVersion(db, d).value)
  {
    if d in db.documents && db.documents[d].currentVersion > 1 {
      RollbackVersions(db, d);
      RollbackTables(db, d);
    }
  }

  lemma DeleteKeepsTables(db: Db, gone: set<Id>)
    requires FreshIds(db) && References(db) && UniquePaths(db.documents)
    ensures FreshIds(DeleteDocuments(db, gone)) && UniquePaths(DeleteDocuments(db, gone).documents)
    ensures References(DeleteDocuments(db, gone))
  {
  }

  lemma DeleteKeeps(db: Db, gone: set<Id>)
    requires Integrity(db)
    ensures Integrity(DeleteDocuments(db, gone))
  {
    var after := DeleteDocuments(db, gone);
    DeleteKeepsTables(db, gone);
    hide FreshIds, References, UniquePaths, HasSnapshot;
    forall d | d in after.documents ensures VersionsOf(after, d) {
      VersionsUntouched(db, after, d);
    }
  }

  /** Changes that leave documents and versions alone keep integrity if ids stay fresh and
      references stay valid. */
  lemma OtherTablesKeep(db: Db, after: Db)
    requires Integrity(db) && FreshIds(after) && References(after)
    requires after.versions == db.versions && after.documents.Keys == db.documents.Keys
    requires forall d | d in db.documents ::
               && after.documents[d].fields.sourcePath == db.documents[d].fields.sourcePath
               && after.documents[d].currentVersion == db.documents[d].currentVersion
    ensures Integrity(after)
  {
    forall d | d in after.documents ensures VersionsOf(after, d) {
      VersionsUntouched(db, after, d);
    }
  }

  lemma AckKeeps(db: Db, d: Id, actor: string, now: int)
    requires Integrity(db) && AckDocument(db, d, actor, now).Some?
    ensures Integrity(AckDocument(db, d, actor, now).value)
  {
    hide VersionsOf, UniquePaths;
    OtherTablesKeep(db, AckDocument(db, d, actor, now).value);
  }

  /** What is stored of new chunks, field by field. */
  lemma StoredChunks(db: Db, d: Id, cands: seq<ChunkCandidate>)
    ensures AreStored(ReplaceChunks(db, d, cands).chunks, d, db.nextId, cands)
  {
    forall c: Id | db.nextId <= c < db.nextId + |cands|
      ensures IsStored(ReplaceChunks(db, d, cands).chunks, d, db.nextId, cands, c)
    {
      assert c in IdRange(db.nextId, |cands|);
    }
  }

  lemma ReplaceChunksKeeps(db: Db, d: Id, cands: seq<ChunkCandidate>)
    requires Integrity(db) && d in db.documents
    ensures Integrity(ReplaceChunks(db, d, cands))
  {
    hide VersionsOf, UniquePaths;
    OtherTablesKeep(db, ReplaceChunks(db, d, cands));
  }

  lemma CreateReviewKeeps(db: Db, item: ReviewItem)
    requires Integrity(db)
    ensures Integrity(CreateReview(db, item))
  {
    OtherTablesKeep(db, CreateReview(db, item));
  }

  // ---------------------------------------------------------------- jobs and runs

  /** A new job may name only live documents. */
  ghost predicate JobRefersTo(documents: map<Id, Document>, job: Job) {
    && (job.documentId.Some? ==> job.documentId.value in documents)
    && (job.targetDocumentId.Some? ==> job.targetDocumentId.value in documents)
  }

  lemma CreateJobKeeps(db: Db, job: Job)
    requires Integrity(db) && JobRefersTo(db.documents, job)
    ensures Integrity(CreateJob(db, job))
  {
    OtherTablesKeep(db, CreateJob(db, job));
  }

  /** Claiming, completing, failing and retrying change one row of the job table. */
  lemma JobRowKeeps(db: Db, j: Id, job: Job)
    requires Integrity(db) && j in db.jobs && JobRefersTo(db.documents, job)
    ensures Integrity(db.(jobs := db.jobs[j := job]))
  {
    OtherTablesKeep(db, db.(jobs := db.jobs[j := job]));
  }

  lemma StopTaggedKeeps(db: Db, run: Id)
    requires Integrity(db)
    ensures Integrity(StopTagged(db, run))
  {
    OtherTablesKeep(db, StopTagged(db, run));
  }

  lemma CleanupKeeps(db: Db, run: Id)
    requires Integrity(db)
    ensures Integrity(CleanupSyncRun(db, run))
  {
    StopTaggedKeeps(db, run);
    DeleteKeeps(StopTagged(db, run), Produced(db, run));
  }

  lemma CreateRunKeeps(db: Db, path: string)
    requires Integrity(db)
    ensures Integrity(CreateRun(db, path))
  {
    OtherTablesKeep(db, CreateRun(db, path));
  }

  lemma FinishRunKeeps(db: Db, run: Id, status: RunStatus, seen: nat, indexed: nat, chunks: nat)
    requires Integrity(db) && run in db.runs
    ensures Integrity(FinishRun(db, run, status, seen, indexed, chunks))
  {
    OtherTablesKeep(db, FinishRun(db, run, status, seen, indexed, chunks));
  }
}
