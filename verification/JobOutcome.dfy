/** What one pass of the job worker leaves behind: a job either produced its document or left
    nothing. */
module JobOutcome {
  import opened Options
  import opened Records
  import opened Store
  import opened StoreIntegrity
  import opened VersionHistory
  import opened Ingestion
  import opened IngestionIntegrity

  /** The world in which the loader of job `j` runs: the job is claimed, its run is open. */
  ghost function Started(w: World, j: Id): World
    requires j in w.db.jobs
  {
    World(CreateRun(ClaimJob(w.db, j), w.db.jobs[j].sourcePath), w.points)
  }

  lemma StartedKeeps(w: World, j: Id)
    requires Integrity(w.db) && j in w.db.jobs
    ensures Integrity(Started(w, j).db)
    ensures Started(w, j).db.(jobs := w.db.jobs, runs := w.db.runs, nextId := w.db.nextId) == w.db
    ensures Started(w, j).db.nextId == w.db.nextId + 1
  {
    JobRefs(w.db, j);
    hide Integrity;
    JobRowKeeps(w.db, j, ClaimJob(w.db, j).jobs[j]);
    CreateRunKeeps(ClaimJob(w.db, j), w.db.jobs[j].sourcePath);
  }

  /** Rows that runs and jobs do not own. */
  ghost predicate SameContent(db: Db, after: Db) {
    && after.documents == db.documents && after.versions == db.versions && after.chunks == db.chunks
    && after.reviews == db.reviews
  }

  /** With nothing loaded, the run changes no content. */
  lemma NothingLoaded(w: World, j: Id, setup: Setup, plan: Plan)
    requires j in w.db.jobs && (plan.load == None || plan.load == Some([]))
    ensures var r := JobRun(w, j, setup, plan);
            && SameContent(w.db, r.world.db) && r.world.points == w.points && w.db.nextId <= r.world.db.nextId
            && (r.status == Completed <==> plan.load.Some? && !plan.finishFails)
            && r.world.db.jobs.Keys == w.db.jobs.Keys
  {
  }

  /** With one document loaded, the run is that document's ingestion. */
  lemma OneLoaded(w: World, j: Id, setup: Setup, plan: Plan, doc: ParsedDocument)
    requires j in w.db.jobs && plan.load == Some([doc])
    ensures var job := w.db.jobs[j];
            var d := IngestDocument(Started(w, j), w.db.nextId, JobRequest(job), doc, setup, FaultOf(plan.faults, 0));
            var r := JobRun(w, j, setup, plan);
            && SameContent(d.world.db, r.world.db) && r.world.points == d.world.points
            && r.world.db.nextId == d.world.db.nextId && r.world.db.jobs == d.world.db.jobs
            && (r.status == Completed <==> d.outcome != Raised && !plan.finishFails)
            && r.world.db.jobs.Keys == w.db.jobs.Keys
  {
    hide IngestDocument;
    var s := Started(w, j);
    var request := JobRequest(w.db.jobs[j]);
    assert IngestUpTo(s, w.db.nextId, request, [doc], setup, plan.faults, 0) == Progress(s, 0, 0, true);
    var p := IngestUpTo(s, w.db.nextId, request, [doc], setup, plan.faults, 1);
    assert [doc][0] == doc;
  }

  lemma IndexingKeepsDocuments(w: World, run: Id, d: Id, doc: ParsedDocument, setup: Setup, fault: Fault)
    requires d in w.db.documents
    ensures var after := IndexDocument(w, run, d, doc, setup, fault).world.db;
            && after.documents == w.db.documents && after.versions == w.db.versions && after.jobs == w.db.jobs
            && (IndexDocument(w, run, d, doc, setup, fault).outcome == Raised <==> fault != NoFault)
  {
    hide RouteReviews, PointsFor, IdRange;
  }

  // ---------------------------------------------------------------- new uploads

  lemma NoOwner(documents: map<Id, Document>, path: string)
    requires forall d | d in documents :: documents[d].fields.sourcePath != path
    ensures Owner(documents, path) == None
  {
  }

  /** A new upload ends indexed, naming the live document at its path, or back in the queue or
      failed with no document at that path. */
  lemma NewUploadAllOrNothing(w: World, j: Id, setup: Setup, plan: Plan)
    requires IsNext(w.db.jobs, j) && w.db.jobs[j].targetDocumentId == None
    ensures var path, o := w.db.jobs[j].sourcePath, RunOnce(w, j, setup, plan);
            && o.Done? && j in o.world.db.jobs
            && var job := o.world.db.jobs[j];
               || (job.status == Indexed && job.documentId.Some? && job.documentId.value in o.world.db.documents
                   && job.documentId == Owner(o.world.db.documents, path))
               || ((job.status == Queued || job.status == Failed) && Owner(o.world.db.documents, path) == None)
  {
    var path := w.db.jobs[j].sourcePath;
    var r := JobRun(w, j, setup, plan);
    hide JobRun;
    var owner := Owner(r.world.db.documents, path);
    if !(r.status == Completed && owner.Some?) {
      NoOwner(DeleteByPath(r.world.db, path).documents, path);
    }
  }

  // ---------------------------------------------------------------- version uploads

  /** How a pass of a version job ends, in terms of its run. */
  lemma VersionPassIs(w: World, j: Id, setup: Setup, plan: Plan)
    requires IsNext(w.db.jobs, j) && w.db.jobs[j].targetDocumentId.Some?
    ensures var r, o := JobRun(w, j, setup, plan), RunOnce(w, j, setup, plan);
            var rolled := RollbackVersion(r.world.db, w.db.jobs[j].targetDocumentId.value);
            && o.world.points == r.world.points
            && if r.status == Completed && Owner(r.world.db.documents, w.db.jobs[j].sourcePath).Some? then
                 o.Done? && o.world.db == r.world.db.(jobs := o.world.db.jobs)
               else if rolled == None then o == Stuck(r.world)
               else o.Done? && o.world.db == rolled.value.(jobs := o.world.db.jobs)
  {
    hide JobRun, RollbackVersion, Owner;
  }

  /** The version upsert of job `j` goes through. */
  ghost predicate Upserts(w: World, j: Id, plan: Plan)
    requires j in w.db.jobs
  {
    && plan.load.Some? && |plan.load.value| == 1 && w.db.jobs[j].targetDocumentId.Some?
    && w.db.jobs[j].targetDocumentId.value in w.db.documents
    && PathFree(w.db.documents, w.db.jobs[j].targetDocumentId.value, w.db.jobs[j].sourcePath)
  }

  /** The database right after that upsert. */
  ghost function AfterUpsert(w: World, j: Id, doc: ParsedDocument): Option<Db>
    requires j in w.db.jobs && w.db.jobs[j].targetDocumentId.Some?
  {
    UpsertVersion(Started(w, j).db, w.db.jobs[j].targetDocumentId.value, doc, Some(w.db.jobs[j].uploadedBy))
  }

  lemma UpsertsIs(w: World, j: Id, plan: Plan)
    requires j in w.db.jobs && plan.load.Some? && |plan.load.value| == 1 && StagedFile(plan, w.db.jobs[j].sourcePath)
    requires w.db.jobs[j].targetDocumentId.Some?
    ensures Upserts(w, j, plan) <==> AfterUpsert(w, j, plan.load.value[0]).Some?
  {
  }

  lemma VersionIngest(w: World, run: Id, request: Request, doc: ParsedDocument, setup: Setup, fault: Fault, u: Db)
    requires Integrity(w.db) && request.target.Some?
    requires UpsertVersion(w.db, request.target.value, doc, request.uploadedBy) == Some(u)
    ensures var d := IngestDocument(w, run, request, doc, setup, fault);
            && d.world.db.documents == u.documents && d.world.db.versions == u.versions && d.world.db.jobs == u.jobs
            && u.nextId <= d.world.db.nextId && (d.outcome == Raised <==> fault != NoFault)
  {
    var t := request.target.value;
    UpsertVersionKeeps(w.db, t, doc, request.uploadedBy);
    UpsertIs(w.db, t, doc, request.uploadedBy);
    assert t in u.documents;
    hide Integrity, IndexDocument, UpsertVersion, WithSnapshot;
    IndexDocumentKeeps(World(u, w.points), run, t, doc, setup, fault);
    IndexingKeepsDocuments(World(u, w.points), run, t, doc, setup, fault);
  }

  /** After the upsert, the run keeps the target's row and its snapshots as the upsert left
      them. */
  lemma VersionRunContent(w: World, j: Id, setup: Setup, plan: Plan)
    requires Integrity(w.db) && j in w.db.jobs && StagedFile(plan, w.db.jobs[j].sourcePath) && Upserts(w, j, plan)
    ensures AfterUpsert(w, j, plan.load.value[0]).Some?
    ensures var u := AfterUpsert(w, j, plan.load.value[0]).value;
            var r := JobRun(w, j, setup, plan);
            && r.world.db.documents == u.documents && r.world.db.versions == u.versions
            && u.nextId <= r.world.db.nextId && r.world.db.jobs == u.jobs
            && (r.status == Completed <==> FaultOf(plan.faults, 0) == NoFault && !plan.finishFails)
  {
    hide IngestDocument, JobRun, FreshIds, References, UniquePaths, VersionsOf, PathFree;
    var doc := plan.load.value[0];
    UpsertsIs(w, j, plan);
    StartedKeeps(w, j);
    hide Integrity;
    assert plan.load.value == [doc];
    OneLoaded(w, j, setup, plan, doc);
    var request, fault := JobRequest(w.db.jobs[j]), FaultOf(plan.faults, 0);
    hide Started, UpsertVersion, Upserts;
    VersionIngest(Started(w, j), w.db.nextId, request, doc, setup, fault, AfterUpsert(w, j, doc).value);
  }

  /** A rollback looks at documents and versions only. */
  lemma RollbackIsLocal(db: Db, other: Db, d: Id)
    requires Integrity(db) && Integrity(other) && other.documents == db.documents && other.versions == db.versions
    ensures RollbackVersion(db, d).Some? <==> RollbackVersion(other, d).Some?
    ensures RollbackVersion(db, d).Some? ==>
              var a, b := RollbackVersion(db, d).value, RollbackVersion(other, d).value;
              a.documents == b.documents && a.versions == b.versions
              && a == db.(documents := a.documents, versions := a.versions)
  {
    if d in db.documents && db.documents[d].currentVersion > 1 {
      var v := RollbackIs(db, d);
      var v' := RollbackIs(other, d);
      assert VersionsOf(db, d);
      hide RollbackVersion, Integrity, VersionsOf;
      NewestSnapshot(db, d, v, v');
    }
  }

  /** What the rollback of a failed version attempt leaves: the documents and versions from
      before, but for the labels of the upload. */
  lemma VersionRolledBack(w: World, j: Id, setup: Setup, plan: Plan)
    requires Integrity(w.db) && j in w.db.jobs && StagedFile(plan, w.db.jobs[j].sourcePath) && Upserts(w, j, plan)
    ensures var t := w.db.jobs[j].targetDocumentId.value;
            var rolled := RollbackVersion(JobRun(w, j, setup, plan).world.db, t);
            && rolled.Some? && rolled.value.versions == w.db.versions
            && rolled.value.documents == w.db.documents[t := w.db.documents[t].(labels := plan.load.value[0].labels)]
            && rolled.value.jobs == JobRun(w, j, setup, plan).world.db.jobs
  {
    var doc, t := plan.load.value[0], w.db.jobs[j].targetDocumentId.value;
    var uploader := Some(w.db.jobs[j].uploadedBy);
    StartedKeeps(w, j);
    VersionRunContent(w, j, setup, plan);
    JobRunKeeps(w, j, setup, plan);
    var s := Started(w, j).db;
    var u := AfterUpsert(w, j, doc).value;
    UpsertVersionKeeps(s, t, doc, uploader);
    hide Integrity, JobRun, Started, UpsertVersion, Upserts, RollbackVersion;
    UndoAtOnce(s, u, t, doc, uploader);
    RollbackIsLocal(JobRun(w, j, setup, plan).world.db, u, t);
  }

  lemma UndoAtOnce(s: Db, u: Db, t: Id, doc: ParsedDocument, uploader: Option<string>)
    requires Integrity(s) && UpsertVersion(s, t, doc, uploader) == Some(u)
    ensures t in s.documents && RollbackVersion(u, t).Some?
    ensures var rolled := RollbackVersion(u, t).value;
            && rolled.versions == s.versions
            && rolled.documents == s.documents[t := s.documents[t].(labels := doc.labels)]
  {
    UpsertIs(s, t, doc, uploader);
    RollbackUndoesUpsert(s, u, t, doc, uploader, doc.labels, u.nextId);
    hide Integrity, UpsertVersion, RollbackVersion, PathFree;
    RelabelToItself(u, t);
  }

  lemma RelabelToItself(db: Db, d: Id)
    requires d in db.documents
    ensures Relabelled(db, d, db.documents[d].labels, db.nextId) == db
  {
    assert db.documents[d := db.documents[d].(labels := db.documents[d].labels)] == db.documents;
  }

  /** A version upload whose upsert went through ends indexed, naming its target, with one
      more entry in the target's history; or back in the queue or failed, with every version
      and every snapshotted field as before. */
  lemma VersionAllOrNothing(w: World, j: Id, setup: Setup, plan: Plan)
    requires Integrity(w.db) && IsNext(w.db.jobs, j) && StagedFile(plan, w.db.jobs[j].sourcePath) && Upserts(w, j, plan)
    ensures var t, doc, o := w.db.jobs[j].targetDocumentId.value, plan.load.value[0], RunOnce(w, j, setup, plan);
            && o.Done? && j in o.world.db.jobs && t in o.world.db.documents
            && VersionsOf(w.db, t) && VersionsOf(o.world.db, t)
            && var job := o.world.db.jobs[j];
               if FaultOf(plan.faults, 0) == NoFault && !plan.finishFails then
                 && job.status == Indexed && job.documentId == Some(t)
                 && History(o.world.db, t)
                    == History(w.db, t) + [Fields(doc.title, doc.contentHash, doc.fileExtension, doc.mimeType,
                                                  doc.sourcePath, Some(w.db.jobs[j].uploadedBy), None, None)]
               else
                 && (job.status == Queued || job.status == Failed)
                 && o.world.db.versions == w.db.versions
                 && o.world.db.documents == w.db.documents[t := w.db.documents[t].(labels := doc.labels)]
                 && History(o.world.db, t) == History(w.db, t)
  {
    hide FreshIds, References, UniquePaths, VersionsOf, HasSnapshot, History, JobRun, RollbackVersion;
    var t, doc := w.db.jobs[j].targetDocumentId.value, plan.load.value[0];
    var r := JobRun(w, j, setup, plan);
    var path := w.db.jobs[j].sourcePath;
    VersionRunContent(w, j, setup, plan);
    RunOnceKeeps(w, j, setup, plan);
    var after := RunOnce(w, j, setup, plan).world.db;
    if FaultOf(plan.faults, 0) == NoFault && !plan.finishFails {
      IndexedVersion(w, j, setup, plan);
    } else {
      VersionRolledBack(w, j, setup, plan);
      assert VersionsOf(w.db, t) && VersionsOf(after, t);
      SameVersionsSameHistory(w.db, after, t);
    }
  }

  lemma SameVersionsSameHistory(db: Db, after: Db, d: Id)
    requires d in db.documents && VersionsOf(db, d) && d in after.documents && VersionsOf(after, d)
    requires after.versions == db.versions && after.documents[d].fields == db.documents[d].fields
    requires after.documents[d].currentVersion == db.documents[d].currentVersion
    ensures History(after, d) == History(db, d)
  {
    forall i | 0 <= i < db.documents[d].currentVersion ensures History(after, d)[i] == History(db, d)[i] {
      if i + 1 < db.documents[d].currentVersion { OldFieldsStay(db, after, d, i + 1); }
    }
  }

  lemma IndexedVersion(w: World, j: Id, setup: Setup, plan: Plan)
    requires Integrity(w.db) && IsNext(w.db.jobs, j) && StagedFile(plan, w.db.jobs[j].sourcePath) && Upserts(w, j, plan)
    requires FaultOf(plan.faults, 0) == NoFault && !plan.finishFails
    ensures var t, doc, o := w.db.jobs[j].targetDocumentId.value, plan.load.value[0], RunOnce(w, j, setup, plan);
            && o.Done? && j in o.world.db.jobs && t in o.world.db.documents
            && VersionsOf(w.db, t) && VersionsOf(o.world.db, t)
            && o.world.db.jobs[j].status == Indexed && o.world.db.jobs[j].documentId == Some(t)
            && History(o.world.db, t)
               == History(w.db, t) + [Fields(doc.title, doc.contentHash, doc.fileExtension, doc.mimeType,
                                             doc.sourcePath, Some(w.db.jobs[j].uploadedBy), None, None)]
  {
    var t, doc := w.db.jobs[j].targetDocumentId.value, plan.load.value[0];
    var uploader := Some(w.db.jobs[j].uploadedBy);
    var s, r := Started(w, j).db, JobRun(w, j, setup, plan);
    StartedKeeps(w, j);
    VersionRunContent(w, j, setup, plan);
    JobRunKeeps(w, j, setup, plan);
    RunOnceKeeps(w, j, setup, plan);
    UpsertIs(s, t, doc, uploader);
    UpsertAppends(s, t, doc, uploader);
    assert r.world.db.documents[t].fields.sourcePath == w.db.jobs[j].sourcePath;
    assert UniquePaths(r.world.db.documents);
    OwnerIsUnique(r.world.db.documents, w.db.jobs[j].sourcePath, t);
    var after := RunOnce(w, j, setup, plan).world.db;
    assert VersionsOf(w.db, t) && VersionsOf(after, t) && VersionsOf(s, t);
    hide Integrity, JobRun, Started, UpsertVersion, Upserts, VersionsOf, UniquePaths;
    SameVersionsSameHistory(w.db, s, t);
    SameVersionsSameHistory(AfterUpsert(w, j, doc).value, after, t);
  }

  // ---------------------------------------------------------------- failing before the upsert

  /** A version job whose upsert does not go through: nothing was loaded, or the upsert raised
      because another document holds the path. The run then changes no content. */
  lemma EarlyRunContent(w: World, j: Id, setup: Setup, plan: Plan)
    requires Integrity(w.db) && j in w.db.jobs && w.db.jobs[j].targetDocumentId.Some?
    requires StagedFile(plan, w.db.jobs[j].sourcePath) && !Upserts(w, j, plan)
    ensures var r := JobRun(w, j, setup, plan);
            && SameContent(w.db, r.world.db) && r.world.points == w.points && w.db.nextId <= r.world.db.nextId
            && (r.status == Completed <==> plan.load == Some([]) && !plan.finishFails)
            && r.world.db.jobs.Keys == w.db.jobs.Keys
  {
    hide JobRun, IngestDocument;
    if plan.load == None || plan.load.value == [] {
      NothingLoaded(w, j, setup, plan);
    } else {
      var doc := plan.load.value[0];
      assert plan.load.value == [doc];
      UpsertsIs(w, j, plan);
      StartedKeeps(w, j);
      OneLoaded(w, j, setup, plan, doc);
      RaisedUpsert(Started(w, j), w.db.nextId, JobRequest(w.db.jobs[j]), doc, setup, FaultOf(plan.faults, 0));
    }
  }

  lemma RaisedUpsert(w: World, run: Id, request: Request, doc: ParsedDocument, setup: Setup, fault: Fault)
    requires UpsertFor(w.db, request, doc) == None
    ensures IngestDocument(w, run, request, doc, setup, fault) == DocResult(w, Raised)
  {
  }

  /** The pass completes with nothing loaded, and something lies at the job's path. */
  ghost predicate EndsEmpty(w: World, j: Id, plan: Plan)
    requires j in w.db.jobs
  {
    plan.load == Some([]) && !plan.finishFails && Owner(w.db.documents, w.db.jobs[j].sourcePath).Some?
  }

  /** The pass is a failure before the upsert: the worker will compensate for an upsert that
      never happened. */
  ghost predicate FailsEarly(w: World, j: Id, plan: Plan)
    requires j in w.db.jobs
  {
    && w.db.jobs[j].targetDocumentId.Some? && !Upserts(w, j, plan)
    && !EndsEmpty(w, j, plan)
  }

  /** Failing early, the worker rolls the target back. */
  lemma EarlyFailureRollsBack(w: World, j: Id, setup: Setup, plan: Plan)
    requires Integrity(w.db) && IsNext(w.db.jobs, j) && StagedFile(plan, w.db.jobs[j].sourcePath)
    requires FailsEarly(w, j, plan)
    ensures var t, r, o := w.db.jobs[j].targetDocumentId.value, JobRun(w, j, setup, plan), RunOnce(w, j, setup, plan);
            && Integrity(r.world.db) && SameContent(w.db, r.world.db) && r.world.points == w.points
            && w.db.nextId <= r.world.db.nextId && o.world.points == w.points
            && var rolled := RollbackVersion(r.world.db, t);
               && (o.Done? <==> rolled.Some?)
               && o.world.db.(jobs := w.db.jobs)
                  == (if o.Done? then rolled.value.(jobs := w.db.jobs) else r.world.db.(jobs := w.db.jobs))
  {
    hide Integrity, JobRun, RollbackVersion;
    EarlyRunContent(w, j, setup, plan);
    JobRunKeeps(w, j, setup, plan);
    hide Upserts, StagedFile;
  }

  /** Failing early, a job goes back to the queue or has failed, unless the pass gets stuck. */
  lemma EarlyFailureIsNoted(w: World, j: Id, setup: Setup, plan: Plan)
    requires Integrity(w.db) && IsNext(w.db.jobs, j) && StagedFile(plan, w.db.jobs[j].sourcePath)
    requires FailsEarly(w, j, plan)
    ensures var o := RunOnce(w, j, setup, plan);
            && j in o.world.db.jobs
            && o.world.db.jobs[j].status
               == (if o.Stuck? then Extracting
                   else if w.db.jobs[j].attempt + 1 < w.db.jobs[j].maxAttempts then Queued else Failed)
  {
    hide Integrity, JobRun, RollbackVersion, Upserts;
    EarlyRunContent(w, j, setup, plan);
    var t := w.db.jobs[j].targetDocumentId.value;
    RollbackKeepsJobs(JobRun(w, j, setup, plan).world.db, t);
  }

  lemma EmptyPassIsIndexed(w: World, j: Id, setup: Setup, plan: Plan)
    requires IsNext(w.db.jobs, j) && EndsEmpty(w, j, plan)
    ensures var o := RunOnce(w, j, setup, plan);
            && o.Done? && j in o.world.db.jobs && o.world.db.jobs[j].status == Indexed
            && o.world.db.jobs[j].documentId == Owner(w.db.documents, w.db.jobs[j].sourcePath)
  {
    hide JobRun, Owner;
    NothingLoaded(w, j, setup, plan);
  }

  /** How every pass of a version job ends. It is indexed exactly if its upsert and all that
      followed went through, or if it completed with nothing loaded and something at its path;
      and exactly when that something is another document, an indexed job does not name its
      target. Otherwise, unless the pass gets stuck, the job is queued again or has failed. */
  lemma VersionPassEnds(w: World, j: Id, setup: Setup, plan: Plan)
    requires Integrity(w.db) && IsNext(w.db.jobs, j) && StagedFile(plan, w.db.jobs[j].sourcePath)
    requires w.db.jobs[j].targetDocumentId.Some?
    ensures var o := RunOnce(w, j, setup, plan);
            && j in o.world.db.jobs
            && var target, owner := w.db.jobs[j].targetDocumentId, Owner(w.db.documents, w.db.jobs[j].sourcePath);
               var job := o.world.db.jobs[j];
               && (job.status == Indexed <==>
                     || (Upserts(w, j, plan) && FaultOf(plan.faults, 0) == NoFault && !plan.finishFails)
                     || EndsEmpty(w, j, plan))
               && (job.status == Indexed && job.documentId != target <==>
                     plan.load == Some([]) && !plan.finishFails && owner.Some? && owner != target)
               && (job.status == Extracting <==> o.Stuck?)
  {
    hide Integrity, Owner, RunOnce, StagedFile, History, VersionsOf;
    if Upserts(w, j, plan) {
      VersionAllOrNothing(w, j, setup, plan);
    } else if EndsEmpty(w, j, plan) {
      EmptyPassIsIndexed(w, j, setup, plan);
    } else {
      hide Upserts;
      EarlyFailureIsNoted(w, j, setup, plan);
    }
  }

  /** A failure before the upsert takes an older, good version off the target's history: the
      history is as before exactly when the target has no older version. If the older path is
      taken meanwhile the pass gets stuck instead. */
  lemma EarlyFailurePopsAVersion(w: World, j: Id, setup: Setup, plan: Plan)
    requires Integrity(w.db) && IsNext(w.db.jobs, j) && StagedFile(plan, w.db.jobs[j].sourcePath)
    requires FailsEarly(w, j, plan)
    ensures var t, o := w.db.jobs[j].targetDocumentId.value, RunOnce(w, j, setup, plan);
            && t in w.db.documents && t in o.world.db.documents
            && VersionsOf(w.db, t) && VersionsOf(o.world.db, t)
            && (o.Stuck? ==> o.world.db.documents == w.db.documents && o.world.db.versions == w.db.versions)
            && (o.Done? ==> (History(o.world.db, t) == History(w.db, t) <==> w.db.documents[t].currentVersion == 1))
            && (o.Done? && w.db.documents[t].currentVersion > 1 ==>
                  History(o.world.db, t) == History(w.db, t)[..w.db.documents[t].currentVersion - 1])
            && j in o.world.db.jobs
            && o.world.db.jobs[j].status
               == (if o.Stuck? then Extracting
                   else if w.db.jobs[j].attempt + 1 < w.db.jobs[j].maxAttempts then Queued else Failed)
  {
    hide JobRun, Upserts, RunOnce, RollbackVersion, StagedFile;
    var t := w.db.jobs[j].targetDocumentId.value;
    var r, o := JobRun(w, j, setup, plan).world.db, RunOnce(w, j, setup, plan);
    JobRefs(w.db, j);
    EarlyFailureIsNoted(w, j, setup, plan);
    EarlyFailureRollsBack(w, j, setup, plan);
    RunOnceKeeps(w, j, setup, plan);
    assert VersionsOf(w.db, t);
    if o.Done? {
      hide Integrity, VersionsOf;
      PopsOne(w.db, r, o.world.db, t);
    } else {
      assert VersionsOf(o.world.db, t);
    }
  }

  lemma PopsOne(db: Db, r: Db, after: Db, t: Id)
    requires Integrity(db) && Integrity(r) && Integrity(after) && t in db.documents
    requires r.documents == db.documents && r.versions == db.versions && RollbackVersion(r, t).Some?
    requires after.documents == RollbackVersion(r, t).value.documents
    requires after.versions == RollbackVersion(r, t).value.versions
    ensures t in after.documents && VersionsOf(db, t) && VersionsOf(after, t)
    ensures var n := db.documents[t].currentVersion;
            if n == 1 then History(after, t) == History(db, t)
            else n > 1 && History(after, t) == History(db, t)[..n - 1] && History(after, t) != History(db, t)
  {
    hide History, RollbackVersion, VersionsOf, FreshIds, UniquePaths, References;
    RollbackRows(r, t);
    assert VersionsOf(db, t) && VersionsOf(r, t) && VersionsOf(after, t);
    CurrentAtLeastOne(db, t);
    var rolled := RollbackVersion(r, t).value;
    if db.documents[t].currentVersion > 1 {
      RollbackDropsLast(r, t);
      HistoryLength(db, t);
    }
    hide Integrity;
    SameVersionsSameHistory(db, r, t);
    SameVersionsSameHistory(rolled, after, t);
  }

  lemma HistoryLength(db: Db, d: Id)
    requires d in db.documents && VersionsOf(db, d)
    ensures |History(db, d)| == db.documents[d].currentVersion
  {
  }

  lemma RollbackRows(db: Db, d: Id)
    requires Integrity(db) && d in db.documents
    ensures RollbackVersion(db, d).Some? ==>
              && d in RollbackVersion(db, d).value.documents
              && VersionsOf(RollbackVersion(db, d).value, d)
              && (db.documents[d].currentVersion <= 1 ==> RollbackVersion(db, d).value == db)
  {
    if RollbackVersion(db, d).Some? {
      RollbackKeeps(db, d);
      assert d in RollbackVersion(db, d).value.documents;
      hide VersionsOf;
    }
  }

  // ---------------------------------------------------------------- repeated attempts

  /** A pass of a version job that fails after its upsert. */
  ghost predicate FailsLate(w: World, j: Id, plan: Plan) {
    && IsNext(w.db.jobs, j) && StagedFile(plan, w.db.jobs[j].sourcePath) && Upserts(w, j, plan)
    && !(FaultOf(plan.faults, 0) == NoFault && !plan.finishFails)
  }

  ghost function Passes(w: World, jobs: seq<Id>, setup: Setup, plans: seq<Plan>): Option<World>
    requires |jobs| == |plans|
  {
    if jobs == [] then Some(w)
    else
      var before := Passes(w, jobs[..|jobs| - 1], setup, plans[..|jobs| - 1]);
      var j, plan := jobs[|jobs| - 1], plans[|jobs| - 1];
      if before == None || !FailsLate(before.value, j, plan) then None
      else Some(RunOnce(before.value, j, setup, plan).world)
  }

  /** The same documents and versions, but for labels. */
  ghost predicate SameButLabels(db: Db, after: Db) {
    && after.versions == db.versions && after.documents.Keys == db.documents.Keys
    && forall d | d in db.documents :: after.documents[d] == db.documents[d].(labels := after.documents[d].labels)
  }

  lemma FailedPass(w: World, j: Id, setup: Setup, plan: Plan)
    requires Integrity(w.db) && FailsLate(w, j, plan)
    ensures var after := RunOnce(w, j, setup, plan).world.db; Integrity(after) && SameButLabels(w.db, after)
  {
    hide Integrity, RunOnce, VersionsOf, History;
    RunOnceKeeps(w, j, setup, plan);
    VersionAllOrNothing(w, j, setup, plan);
    var t := w.db.jobs[j].targetDocumentId.value;
    LabelsOnly(w.db, RunOnce(w, j, setup, plan).world.db, t, plan.load.value[0].labels);
  }

  lemma LabelsOnly(db: Db, after: Db, t: Id, labels: Labels)
    requires t in db.documents && after.versions == db.versions
    requires after.documents == db.documents[t := db.documents[t].(labels := labels)]
    ensures SameButLabels(db, after)
  {
  }

  lemma SameButLabelsTransitive(a: Db, b: Db, c: Db)
    requires SameButLabels(a, b) && SameButLabels(b, c)
    ensures SameButLabels(a, c)
  {
  }

  /** However many attempts fail after the upsert, versions never pile up: the version rows and
      every document's snapshotted fields and version number stay as they were. */
  lemma {:induction false} FailedAttemptsNeverPileUp(w: World, jobs: seq<Id>, setup: Setup, plans: seq<Plan>)
    requires Integrity(w.db) && |jobs| == |plans| && Passes(w, jobs, setup, plans).Some?
    ensures var after := Passes(w, jobs, setup, plans).value.db; Integrity(after) && SameButLabels(w.db, after)
  {
    hide Integrity, RunOnce, SameButLabels, FailsLate;
    if jobs == [] {
      SameDb(w.db);
    } else {
      var init, last := jobs[..|jobs| - 1], jobs[|jobs| - 1];
      FailedAttemptsNeverPileUp(w, init, setup, plans[..|jobs| - 1]);
      var before := Passes(w, init, setup, plans[..|jobs| - 1]).value;
      FailedPass(before, last, setup, plans[|jobs| - 1]);
      SameButLabelsTransitive(w.db, before.db, Passes(w, jobs, setup, plans).value.db);
    }
  }

  lemma SameDb(db: Db)
    ensures SameButLabels(db, db)
  {
  }
}
