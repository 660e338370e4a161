/** The metadata repository: tables that its methods update, one transaction at a time, held
    against the functions of `Store`. */
module Repository {
  import opened Options
  import opened Records
  import opened Store
  import opened StoreIntegrity
  import opened VersionHistory

  class MetadataRepository {
    var documents: map<Id, Document>
    var versions: map<Id, VersionRow>
    var chunks: map<Id, Chunk>
    var jobs: map<Id, Job>
    var reviews: map<Id, ReviewItem>
    var runs: map<Id, IngestionRun>
    var syncRuns: map<Id, SyncRun>
    var nextId: Id

    ghost function State(): Db
      reads this
    {
      Db(documents, versions, chunks, jobs, reviews, runs, syncRuns, nextId)
    }

    constructor ()
      ensures State() == EMPTY.db
    {
      documents, versions, chunks, jobs := map[], map[], map[], map[];
      reviews, runs, syncRuns, nextId := map[], map[], map[], 0;
    }

    method NewId() returns (id: Id)
      modifies this`nextId
      ensures id == old(nextId) && nextId == id + 1
    {
      id := nextId;
      nextId := nextId + 1;
    }

    // -------------------------------------------------------------- documents

    method FindByPath(path: string) returns (found: Option<Id>)
      requires UniquePaths(documents)
      ensures found == Owner(documents, path)
    {
      var left := documents.Keys;
      while left != {}
        invariant left <= documents.Keys
        invariant forall d | d in documents && d !in left :: documents[d].fields.sourcePath != path
        decreases |left|
      {
        var d :| d in left;
        if documents[d].fields.sourcePath == path {
          OwnerIsUnique(documents, path, d);
          return Some(d);
        }
        left := left - {d};
      }
      return None;
    }

    /** The unique constraint on paths, for the row `d` that is about to change. */
    method CheckPath(d: Id, path: string) returns (free: bool)
      requires UniquePaths(documents)
      ensures free <==> PathFree(documents, d, path)
    {
      var found := FindByPath(path);
      free := found == None || found.value == d;
    }

    method UpsertDocument(doc: ParsedDocument, workspaceId: Option<Id>, uploadedBy: Option<string>)
      returns (id: Id, changed: bool)
      requires Integrity(State())
      modifies this
      ensures Upserted(State(), id, changed) == Store.UpsertDocument(old(State()), doc, workspaceId, uploadedBy)
    {
      var found := FindByPath(doc.sourcePath);
      if found.Some? && documents[found.value].fields.contentHash == doc.contentHash {
        return found.value, false;
      }
      var row: Document;
      var fields := Fields(doc.title, doc.contentHash, doc.fileExtension, doc.mimeType, doc.sourcePath, uploadedBy,
                           None, None);
      if found == None {
        id := NewId();
        row := Document(fields, doc.labels, 1, workspaceId);
      } else {
        id := found.value;
        row := documents[id].(fields := fields, labels := doc.labels);
      }
      documents := documents[id := row];
      changed := true;
    }

    method UpsertDocumentVersion(target: Id, doc: ParsedDocument, uploadedBy: Option<string>) returns (ok: bool)
      requires Integrity(State())
      modifies this
      ensures ok <==> UpsertVersion(old(State()), target, doc, uploadedBy).Some?
      ensures State() == if ok then UpsertVersion(old(State()), target, doc, uploadedBy).value else old(State())
    {
      hide VersionsOf, References, FreshIds;
      if target !in documents {
        return false;
      }
      ok := CheckPath(target, doc.sourcePath);
      if ok {
        var row := documents[target];
        var v := NewId();
        versions := versions[v := VersionRow(target, row.currentVersion, row.fields)];
        row := row.(fields := Fields(doc.title, doc.contentHash, doc.fileExtension, doc.mimeType, doc.sourcePath,
                                     uploadedBy, None, None),
                    labels := doc.labels);
        row := row.(currentVersion := row.currentVersion + 1);
        documents := documents[target := row];
      }
    }

    method FindSnapshot(d: Id, number: int) returns (found: Option<Id>)
      ensures found.Some? ==> IsSnapshot(versions, found.value, d, number)
      ensures found == None ==> !HasSnapshot(versions, d, number)
    {
      var left := versions.Keys;
      while left != {}
        invariant left <= versions.Keys
        invariant forall v | IsSnapshot(versions, v, d, number) :: v in left
        decreases |left|
      {
        var v :| v in left;
        if versions[v].documentId == d && versions[v].versionNumber == number {
          return Some(v);
        }
        left := left - {v};
      }
      return None;
    }

    method RollbackFailedVersion(d: Id) returns (ok: bool)
      requires Integrity(State())
      modifies this
      ensures ok <==> RollbackVersion(old(State()), d).Some?
      ensures State() == if ok then RollbackVersion(old(State()), d).value else old(State())
    {
      if d !in documents || documents[d].currentVersion <= 1 {
        return true;
      }
      ghost var u := RollbackIs(State(), d);
      var found := FindSnapshot(d, documents[d].currentVersion - 1);
      assert HasSnapshot(versions, d, documents[d].currentVersion - 1);
      if found == None {
        return true;
      }
      var v := found.value;
      assert VersionsOf(State(), d);
      NewestSnapshot(State(), d, u, v);
      var snapshot := versions[v];
      ok := CheckPath(d, snapshot.fields.sourcePath);
      if ok {
        documents := documents[d := documents[d].(fields := snapshot.fields,
                                                  currentVersion := snapshot.versionNumber)];
        versions := versions - {v};
      }
    }

    /** `DELETE FROM documents` with the foreign keys' actions. */
    method DeleteRows(gone: set<Id>)
      modifies this
      ensures State() == DeleteDocuments(old(State()), gone)
    {
      documents := documents - gone;
      versions := map v | v in versions && versions[v].documentId !in gone :: versions[v];
      chunks := map c | c in chunks && chunks[c].documentId !in gone :: chunks[c];
      jobs := map j | j in jobs ::
        var made, target := jobs[j].documentId, jobs[j].targetDocumentId;
        jobs[j].(documentId := if made.Some? && made.value in gone then None else made,
                 targetDocumentId := if target.Some? && target.value in gone then None else target);
    }

    method DeleteDocumentBySourcePath(path: string)
      modifies this
      ensures State() == DeleteByPath(old(State()), path)
    {
      var gone := set d | d in documents && documents[d].fields.sourcePath == path;
      DeleteRows(gone);
    }

    method AcknowledgeDocument(d: Id, actor: string, now: int) returns (ok: bool, chunkIds: set<Id>)
      modifies this
      ensures ok <==> AckDocument(old(State()), d, actor, now).Some?
      ensures State() == if ok then AckDocument(old(State()), d, actor, now).value else old(State())
      ensures chunkIds == if ok then ChunksOf(State(), d) else {}
      ensures ok ==> d in documents && documents[d].fields.ackedBy == Some(actor)
                     && documents[d].fields.ackedAt == Some(now)
    {
      if d !in documents || documents[d].fields.ackedAt.Some? {
        return false, {};
      }
      documents := documents[d := documents[d].(fields := documents[d].fields.(ackedBy := Some(actor),
                                                                              ackedAt := Some(now)))];
      ok := true;
      chunkIds := set c | c in chunks && chunks[c].documentId == d;
    }

    // -------------------------------------------------------------- versions

    /** The snapshots of a document, newest first. */
    method SelectSnapshots(d: Id) returns (rows: seq<Id>)
      ensures forall i | 0 <= i < |rows| :: rows[i] in versions && versions[rows[i]].documentId == d
      ensures forall v | v in versions && versions[v].documentId == d :: v in rows
      ensures forall i, j | 0 <= i < j < |rows| ::
                rows[i] != rows[j] && versions[rows[i]].versionNumber >= versions[rows[j]].versionNumber
    {
      rows := [];
      var left := set v | v in versions && versions[v].documentId == d;
      ghost var all := left;
      while left != {}
        invariant left <= all && forall v :: v in all <==> v in left || v in rows
        invariant forall i | 0 <= i < |rows| :: rows[i] in all && rows[i] !in left
        invariant forall i, v | 0 <= i < |rows| && v in left ::
                    versions[rows[i]].versionNumber >= versions[v].versionNumber
        invariant forall i, j | 0 <= i < j < |rows| ::
                    rows[i] != rows[j] && versions[rows[i]].versionNumber >= versions[rows[j]].versionNumber
        decreases |left|
      {
        var best :| best in left;
        var rest := left - {best};
        while rest != {}
          invariant best in left && rest <= left
          invariant forall v | v in left && v !in rest :: versions[best].versionNumber >= versions[v].versionNumber
          decreases |rest|
        {
          var v :| v in rest;
          if versions[v].versionNumber > versions[best].versionNumber {
            best := v;
          }
          rest := rest - {v};
        }
        rows := rows + [best];
        left := left - {best};
      }
    }

    /** `list_document_versions`. */
    method ListDocumentVersions(d: Id) returns (records: seq<VersionRecord>)
      requires Integrity(State())
      ensures d !in documents ==> records == []
      ensures d in documents ==> VersionsOf(State(), d) && records == VersionList(State(), d)
    {
      hide VersionList, FreshIds, References, UniquePaths, VersionsOf;
      if d !in documents {
        return [];
      }
      var document := documents[d];
      records := [VersionRecord(document.currentVersion, document.fields, document.workspaceId, true)];
      var rows := SelectSnapshots(d);
      assert VersionsOf(State(), d);
      SnapshotsInOrder(State(), d, rows);
      ghost var db := State();
      VersionListShape(db, d);
      ListEntries(db, d);
      hide Integrity, FieldsAt;
      for i := 0 to |rows|
        invariant |records| == i + 1 <= document.currentVersion
        invariant forall k | 0 <= k <= i :: records[k] == VersionList(db, d)[k]
      {
        SnapshotFields(db, d, rows[i]);
        records := records + [VersionRecord(versions[rows[i]].versionNumber, versions[rows[i]].fields,
                                            document.workspaceId, false)];
      }
    }

    // -------------------------------------------------------------- chunks and reviews

    method InsertChunks(d: Id, cands: seq<ChunkCandidate>) returns (persisted: seq<(Id, ChunkCandidate)>)
      modifies this`chunks, this`nextId
      ensures chunks == old(chunks) + NewChunks(d, old(nextId), cands) && nextId == old(nextId) + |cands|
      ensures |persisted| == |cands|
      ensures forall i | 0 <= i < |cands| :: persisted[i] == (old(nextId) + i, cands[i])
    {
      hide NewChunks;
      ghost var first: Id := nextId;
      ghost var added: map<Id, Chunk> := map[];
      persisted := [];
      ChunkAdded(d, first, cands, 0);
      for i := 0 to |cands|
        invariant nextId == first + i && |persisted| == i
        invariant forall k | 0 <= k < i :: persisted[k] == (first + k, cands[k])
        invariant chunks == old(chunks) + added
        invariant added == NewChunks(d, first, cands[..i])
      {
        var c := NewId();
        ChunkAdded(d, first, cands, i);
        UnionExtends(old(chunks), added, c, NewChunk(d, cands[i]));
        added := added[c := NewChunk(d, cands[i])];
        chunks := chunks[c := Chunk(d, cands[i].chunkIndex, cands[i].content, None)];
        persisted := persisted + [(c, cands[i])];
      }
      assert cands[..|cands|] == cands;
    }

    method ReplaceChunks(d: Id, cands: seq<ChunkCandidate>) returns (persisted: seq<(Id, ChunkCandidate)>)
      modifies this
      ensures State() == Store.ReplaceChunks(old(State()), d, cands)
      ensures AreStored(chunks, d, old(nextId), cands)
      ensures |persisted| == |cands|
      ensures forall i | 0 <= i < |cands| :: persisted[i] == (old(nextId) + i, cands[i])
    {
      chunks := map c | c in chunks && chunks[c].documentId != d :: chunks[c];
      hide NewChunks, AreStored;
      persisted := InsertChunks(d, cands);
      StoredChunks(old(State()), d, cands);
    }

    method CreateReviewItem(item: ReviewItem)
      modifies this
      ensures State() == CreateReview(old(State()), item)
    {
      var r := NewId();
      reviews := reviews[r := item];
    }

    method MarkReviewItem(r: Id, status: ReviewStatus, reviewer: string, content: Option<string>, point: Payload)
      returns (ok: bool)
      modifies this
      ensures ok <==> MarkReview(old(State()), r, status, reviewer, content, point).Some?
      ensures State() == if ok then MarkReview(old(State()), r, status, reviewer, content, point).value
                         else old(State())
    {
      if r !in reviews || reviews[r].status != Pending {
        return false;
      }
      var item := reviews[r].(status := status, reviewerId := Some(reviewer));
      if content.Some? {
        item := item.(content := content.value);
      }
      reviews := reviews[r := item.(point := point)];
      ok := true;
    }

    method UpdateChunkContent(c: Id, content: string, status: ReviewStatus) returns (ok: bool)
      modifies this
      ensures ok <==> UpdateChunk(old(State()), c, content, status).Some?
      ensures State() == if ok then UpdateChunk(old(State()), c, content, status).value else old(State())
    {
      if c !in chunks {
        return false;
      }
      chunks := chunks[c := chunks[c].(content := content, reviewStatus := Some(status))];
      ok := true;
    }

    // -------------------------------------------------------------- jobs and runs

    method CreateIngestionJob(job: Job) returns (j: Id)
      modifies this
      ensures j == old(nextId) && State() == CreateJob(old(State()), job)
    {
      j := NewId();
      jobs := jobs[j := job];
    }

    method ClaimNextJob() returns (claimed: Option<Id>)
      modifies this
      ensures claimed == None ==> State() == old(State()) && forall j | j in jobs :: jobs[j].status != Queued
      ensures claimed.Some? ==> IsNext(old(jobs), claimed.value) && State() == ClaimJob(old(State()), claimed.value)
    {
      claimed := None;
      var left := jobs.Keys;
      while left != {}
        invariant left <= jobs.Keys
        invariant claimed == None ==> forall j | j in jobs && j !in left :: jobs[j].status != Queued
        invariant claimed.Some? ==> claimed.value in jobs && jobs[claimed.value].status == Queued
        invariant claimed.Some? ==> forall j | j in jobs && j !in left && jobs[j].status == Queued ::
                                      jobs[claimed.value].queuedAt <= jobs[j].queuedAt
        decreases |left|
      {
        var j :| j in left;
        if jobs[j].status == Queued && (claimed == None || jobs[j].queuedAt < jobs[claimed.value].queuedAt) {
          claimed := Some(j);
        }
        left := left - {j};
      }
      if claimed.Some? {
        var job := jobs[claimed.value].(status := Extracting);
        jobs := jobs[claimed.value := job.(attempt := job.attempt + 1)];
      }
    }

    method FinishJob(j: Id, d: Id, run: Id)
      requires j in jobs
      modifies this
      ensures State() == CompleteJob(old(State()), j, d, run)
    {
      jobs := jobs[j := jobs[j].(status := Indexed, documentId := Some(d), runId := Some(run), errorMessage := None)];
    }

    method FailAttempt(j: Id, error: string)
      requires j in jobs
      modifies this
      ensures State() == FailJob(old(State()), j, error)
    {
      var job := jobs[j].(errorMessage := Some(error));
      if job.attempt < job.maxAttempts {
        job := job.(status := Queued);
      } else {
        job := job.(status := Failed);
      }
      jobs := jobs[j := job];
    }

    method RestartJob(j: Id, now: int) returns (ok: bool)
      modifies this
      ensures ok <==> RetryJob(old(State()), j, now).Some?
      ensures State() == if ok then RetryJob(old(State()), j, now).value else old(State())
    {
      if j !in jobs || jobs[j].status != Failed {
        return false;
      }
      jobs := jobs[j := jobs[j].(status := Queued, attempt := 0, errorMessage := None, queuedAt := now)];
      ok := true;
    }

    method CreateIngestionRun(path: string) returns (run: Id)
      modifies this
      ensures run == old(nextId) && run in runs && State() == CreateRun(old(State()), path)
    {
      run := NewId();
      runs := runs[run := IngestionRun(path, Running, 0, 0, 0)];
    }

    method FinishIngestionRun(run: Id, status: RunStatus, seen: nat, indexed: nat, chunksIndexed: nat)
      requires run in runs
      modifies this
      ensures State() == FinishRun(old(State()), run, status, seen, indexed, chunksIndexed)
    {
      runs := runs[run := IngestionRun(runs[run].sourcePath, status, seen, indexed, chunksIndexed)];
    }

    /** The tagged jobs that still wait or run become failed. */
    method StopJobs(run: Id)
      modifies this`jobs
      ensures State() == StopTagged(old(State()), run)
    {
      ghost var stopped := StopTagged(State(), run).jobs;
      ghost var before := jobs;
      StoppedRows(State(), run);
      assert State().(jobs := stopped) == StopTagged(State(), run);
      var message := "sync run aborted: all pages from this run are being discarded";
      var left := set j | j in jobs && jobs[j].syncRunId == Some(run);
      assert PartlyStopped(before, stopped, jobs, left);
      hide StopTagged, PartlyStopped;
      while left != {}
        invariant PartlyStopped(before, stopped, jobs, left)
        decreases |left|
      {
        var j :| j in left;
        OneStopped(before, stopped, jobs, left, j);
        if jobs[j].status == Queued || jobs[j].status == Extracting {
          jobs := jobs[j := jobs[j].(status := Failed, errorMessage := Some(message))];
        }
        left := left - {j};
      }
      AllStopped(before, stopped, jobs);
    }

    /** `cleanup_sync_run`: returns how many tagged jobs had produced a document. */
    method CleanupRun(run: Id) returns (removed: nat)
      modifies this
      ensures State() == CleanupSyncRun(old(State()), run)
      ensures removed == |set j | j in old(jobs) && old(jobs)[j].syncRunId == Some(run)
                                  && old(jobs)[j].documentId.Some?|
    {
      var producers := set j | j in jobs && jobs[j].syncRunId == Some(run) && jobs[j].documentId.Some?;
      var gone := set j | j in producers :: jobs[j].documentId.value;
      assert gone == Produced(State(), run);
      removed := |producers|;
      hide Produced;
      StopJobs(run);
      hide StopTagged;
      if gone != {} {
        DeleteRows(gone);
      } else {
        NothingGone(State());
      }
    }
  }

  ghost function StoppedJob(job: Job): Job {
    if job.status == Queued || job.status == Extracting then job.(status := Failed, errorMessage := Some(ABORTED))
    else job
  }

  lemma StoppedRows(db: Db, run: Id)
    ensures StopTagged(db, run).jobs.Keys == db.jobs.Keys
    ensures forall j | j in db.jobs ::
              StopTagged(db, run).jobs[j] == if Tagged(db.jobs[j], run) then StoppedJob(db.jobs[j]) else db.jobs[j]
  {
  }

  /** The rows still to do are as before and due to be stopped, the others are done. */
  ghost predicate PartlyStopped(before: map<Id, Job>, stopped: map<Id, Job>, jobs: map<Id, Job>, left: set<Id>) {
    && jobs.Keys == before.Keys == stopped.Keys && left <= jobs.Keys
    && (forall j | j in left :: jobs[j] == before[j] && stopped[j] == StoppedJob(before[j]))
    && (forall j | j in jobs && j !in left :: jobs[j] == stopped[j])
  }

  lemma OneStopped(before: map<Id, Job>, stopped: map<Id, Job>, jobs: map<Id, Job>, left: set<Id>, j: Id)
    requires PartlyStopped(before, stopped, jobs, left) && j in left
    ensures j in jobs
    ensures if jobs[j].status == Queued || jobs[j].status == Extracting
            then PartlyStopped(before, stopped, jobs[j := jobs[j].(status := Failed, errorMessage := Some(ABORTED))],
                               left - {j})
            else PartlyStopped(before, stopped, jobs, left - {j})
  {
  }

  lemma AllStopped(before: map<Id, Job>, stopped: map<Id, Job>, jobs: map<Id, Job>)
    requires PartlyStopped(before, stopped, jobs, {})
    ensures jobs == stopped
  {
  }

  lemma ListEntries(db: Db, d: Id)
    requires d in db.documents && VersionsOf(db, d)
    ensures var n, row := db.documents[d].currentVersion, db.documents[d];
            && |VersionList(db, d)| == n >= 1
            && VersionList(db, d)[0] == VersionRecord(n, row.fields, row.workspaceId, true)
            && forall i | 0 < i < n ::
                 VersionList(db, d)[i] == VersionRecord(n - i, FieldsAt(db, d, n - i), row.workspaceId, false)
  {
    CurrentAtLeastOne(db, d);
    var n, row := db.documents[d].currentVersion, db.documents[d];
    assert VersionList(db, d)[0] == VersionRecord(n - 0, FieldsAt(db, d, n - 0), row.workspaceId, true);
    hide FieldsAt, VersionsOf;
    forall i | 0 < i < n
      ensures VersionList(db, d)[i] == VersionRecord(n - i, FieldsAt(db, d, n - i), row.workspaceId, false)
    {
    }
  }

  lemma UnionExtends(m: map<Id, Chunk>, a: map<Id, Chunk>, c: Id, row: Chunk)
    ensures (m + a)[c := row] == m + a[c := row]
  {
  }

  lemma ChunkAdded(d: Id, first: Id, cands: seq<ChunkCandidate>, i: nat)
    requires i <= |cands|
    ensures i == 0 ==> NewChunks(d, first, cands[..i]) == map[]
    ensures i < |cands| ==>
              NewChunks(d, first, cands[..i + 1]) == NewChunks(d, first, cands[..i])[first + i := NewChunk(d, cands[i])]
  {
  }

  lemma NothingGone(db: Db)
    ensures DeleteDocuments(db, {}) == db
  {
    var after := DeleteDocuments(db, {});
    assert after.versions == db.versions && after.chunks == db.chunks && after.jobs == db.jobs;
  }
}
