/** The effect of one transaction of the metadata repository, as a function on the database,
    and the integrity that every transaction keeps. `None` is a raised exception, after which
    the session is rolled back. */
module Store {
  import opened Options
  import opened Records

  // ---------------------------------------------------------------- documents

  /** The document at a source path; the path column is unique. */
  ghost function Owner(documents: map<Id, Document>, path: string): Option<Id> {
    if exists d :: d in documents && documents[d].fields.sourcePath == path
    then Some(var d :| d in documents && documents[d].fields.sourcePath == path; d)
    else None
  }

  /** No other document may hold the path that document `d` is about to take. */
  ghost predicate PathFree(documents: map<Id, Document>, d: Id, path: string) {
    forall e | e in documents && e != d :: documents[e].fields.sourcePath != path
  }

  /** The fields new content brings: it always needs a fresh acknowledgement. */
  ghost function NewFields(doc: ParsedDocument, uploadedBy: Option<string>): Fields {
    Fields(doc.title, doc.contentHash, doc.fileExtension, doc.mimeType, doc.sourcePath, uploadedBy, None, None)
  }

  /** The row holds the new content and its labels and is not acknowledged. */
  ghost predicate HoldsContent(row: Document, doc: ParsedDocument, uploadedBy: Option<string>) {
    && row.fields.title == doc.title && row.fields.contentHash == doc.contentHash
    && row.fields.fileExtension == doc.fileExtension && row.fields.mimeType == doc.mimeType
    && row.fields.sourcePath == doc.sourcePath && row.fields.uploadedBy == uploadedBy
    && row.fields.ackedBy == None && row.fields.ackedAt == None && row.labels == doc.labels
  }

  datatype Upserted = Upserted(db: Db, id: Id, changed: bool)

  ghost function UpsertDocument(db: Db, doc: ParsedDocument, workspaceId: Option<Id>, uploadedBy: Option<string>)
    : Upserted
  {
    var owner := Owner(db.documents, doc.sourcePath);
    if owner.Some? then
      var row := db.documents[owner.value];
      if row.fields.contentHash == doc.contentHash then Upserted(db, owner.value, false)
      else
        Upserted(db.(documents := db.documents[owner.value :=
                                                 row.(fields := NewFields(doc, uploadedBy), labels := doc.labels)]),
                 owner.value, true)
    else
      Upserted(db.(documents := db.documents[db.nextId :=
                                               Document(NewFields(doc, uploadedBy), doc.labels, 1, workspaceId)],
                   nextId := db.nextId + 1),
               db.nextId, true)
  }

  ghost function UpsertVersion(db: Db, target: Id, doc: ParsedDocument, uploadedBy: Option<string>): Option<Db> {
    if target !in db.documents || !PathFree(db.documents, target, doc.sourcePath) then None
    else
      var row := db.documents[target];
      Some(db.(versions := db.versions[db.nextId := VersionRow(target, row.currentVersion, row.fields)],
               documents := db.documents[target := row.(fields := NewFields(doc, uploadedBy), labels := doc.labels,
                                                        currentVersion := row.currentVersion + 1)],
               nextId := db.nextId + 1))
  }

  ghost predicate IsSnapshot(versions: map<Id, VersionRow>, v: Id, d: Id, number: int) {
    v in versions && versions[v].documentId == d && versions[v].versionNumber == number
  }

  ghost predicate HasSnapshot(versions: map<Id, VersionRow>, d: Id, number: int) {
    exists v :: IsSnapshot(versions, v, d, number)
  }

  ghost function RollbackVersion(db: Db, d: Id): Option<Db> {
    if d !in db.documents || db.documents[d].currentVersion <= 1 then Some(db)
    else
      var row := db.documents[d];
      if !HasSnapshot(db.versions, d, row.currentVersion - 1) then Some(db)
      else
        var v :| IsSnapshot(db.versions, v, d, row.currentVersion - 1);
        var snapshot := db.versions[v];
        if !PathFree(db.documents, d, snapshot.fields.sourcePath) then None
        else
          Some(db.(documents := db.documents[d := row.(fields := snapshot.fields,
                                                       currentVersion := snapshot.versionNumber)],
                   versions := db.versions - {v}))
  }

  ghost function Unlink(ref: Option<Id>, gone: set<Id>): Option<Id> {
    if ref.Some? && ref.value in gone then None else ref
  }

  /** Deleting documents cascades to their versions and chunks and clears the references that
      jobs hold. The vector index is not told. */
  ghost function DeleteDocuments(db: Db, gone: set<Id>): Db {
    db.(documents := db.documents - gone,
        versions := map v | v in db.versions && db.versions[v].documentId !in gone :: db.versions[v],
        chunks := map c | c in db.chunks && db.chunks[c].documentId !in gone :: db.chunks[c],
        jobs := map j | j in db.jobs ::
                  db.jobs[j].(documentId := Unlink(db.jobs[j].documentId, gone),
                              targetDocumentId := Unlink(db.jobs[j].targetDocumentId, gone)))
  }

  ghost function DeleteByPath(db: Db, path: string): Db {
    DeleteDocuments(db, set d | d in db.documents && db.documents[d].fields.sourcePath == path)
  }

  ghost function AckDocument(db: Db, d: Id, actor: string, now: int): Option<Db> {
    if d !in db.documents || db.documents[d].fields.ackedAt.Some? then None
    else
      var row := db.documents[d];
      Some(db.(documents := db.documents[d := row.(fields := row.fields.(ackedBy := Some(actor),
                                                                         ackedAt := Some(now)))]))
  }

  // ---------------------------------------------------------------- chunks and reviews

  ghost function ChunksOf(db: Db, d: Id): set<Id> {
    set c | c in db.chunks && db.chunks[c].documentId == d
  }

  /** The `n` ids from `first` on. */
  ghost function IdRange(first: Id, n: nat): (s: set<Id>)
    ensures forall c: Id :: c in s <==> first <= c < first + n
  {
    if n == 0 then {} else IdRange(first, n - 1) + {first + n - 1}
  }

  ghost function NewChunk(d: Id, cand: ChunkCandidate): Chunk {
    Chunk(d, cand.chunkIndex, cand.content, None)
  }

  ghost function NewChunks(d: Id, first: Id, cands: seq<ChunkCandidate>): map<Id, Chunk> {
    map c | c in IdRange(first, |cands|) :: NewChunk(d, cands[c - first])
  }

  /** The chunks of a document are replaced by new rows with consecutive new ids. */
  ghost function ReplaceChunks(db: Db, d: Id, cands: seq<ChunkCandidate>): Db {
    db.(chunks := (map c | c in db.chunks && db.chunks[c].documentId != d :: db.chunks[c])
                  + NewChunks(d, db.nextId, cands),
        nextId := db.nextId + |cands|)
  }

  /** Chunk `c` is a row of document `d` with its candidate's index and text, not reviewed yet. */
  ghost predicate IsStored(chunks: map<Id, Chunk>, d: Id, first: Id, cands: seq<ChunkCandidate>, c: Id)
    requires first <= c < first + |cands|
  {
    var cand := cands[c - first];
    && c in chunks && chunks[c].documentId == d && chunks[c].chunkIndex == cand.chunkIndex
    && chunks[c].content == cand.content && chunks[c].reviewStatus == None
  }

  /** The candidates are rows of the document with ids from `first` on. */
  ghost predicate AreStored(chunks: map<Id, Chunk>, d: Id, first: Id, cands: seq<ChunkCandidate>) {
    forall c: Id | first <= c < first + |cands| :: IsStored(chunks, d, first, cands, c)
  }

  ghost function CreateReview(db: Db, item: ReviewItem): Db {
    db.(reviews := db.reviews[db.nextId := item], nextId := db.nextId + 1)
  }

  ghost function MarkReview(db: Db, r: Id, status: ReviewStatus, reviewer: string, content: Option<string>,
                            point: Payload): Option<Db>
  {
    if r !in db.reviews || db.reviews[r].status != Pending then None
    else
      var item := db.reviews[r];
      Some(db.(reviews := db.reviews[r := item.(status := status, reviewerId := Some(reviewer), point := point,
                                                content := if content.Some? then content.value else item.content)]))
  }

  ghost function UpdateChunk(db: Db, c: Id, content: string, status: ReviewStatus): Option<Db> {
    if c !in db.chunks then None
    else Some(db.(chunks := db.chunks[c := db.chunks[c].(content := content, reviewStatus := Some(status))]))
  }

  // ---------------------------------------------------------------- jobs

  ghost function CreateJob(db: Db, job: Job): Db {
    db.(jobs := db.jobs[db.nextId := job], nextId := db.nextId + 1)
  }

  /** Job `j` is first in line: queued, and none queued before it. */
  ghost predicate IsNext(jobs: map<Id, Job>, j: Id) {
    && j in jobs && jobs[j].status == Queued
    && forall k | k in jobs && jobs[k].status == Queued :: jobs[j].queuedAt <= jobs[k].queuedAt
  }

  ghost function ClaimJob(db: Db, j: Id): Db
    requires j in db.jobs
  {
    db.(jobs := db.jobs[j := db.jobs[j].(status := Extracting, attempt := db.jobs[j].attempt + 1)])
  }

  ghost function CompleteJob(db: Db, j: Id, d: Id, run: Id): Db
    requires j in db.jobs
  {
    db.(jobs := db.jobs[j := db.jobs[j].(status := Indexed, documentId := Some(d), runId := Some(run),
                                         errorMessage := None)])
  }

  /** A failed attempt goes back to the queue while attempts are left. */
  ghost function FailJob(db: Db, j: Id, error: string): Db
    requires j in db.jobs
  {
    var job := db.jobs[j];
    db.(jobs := db.jobs[j := job.(errorMessage := Some(error),
                                  status := if job.attempt < job.maxAttempts then Queued else Failed)])
  }

  ghost function RetryJob(db: Db, j: Id, now: int): Option<Db> {
    if j !in db.jobs || db.jobs[j].status != Failed then None
    else
      Some(db.(jobs := db.jobs[j := db.jobs[j].(status := Queued, attempt := 0, errorMessage := None,
                                                queuedAt := now)]))
  }

  ghost predicate Tagged(job: Job, run: Id) {
    job.syncRunId == Some(run)
  }

  ghost const ABORTED := "sync run aborted: all pages from this run are being discarded"

  /** The documents that jobs of a sync run have produced. */
  ghost function Produced(db: Db, run: Id): set<Id> {
    set j | j in db.jobs && Tagged(db.jobs[j], run) && db.jobs[j].documentId.Some? :: db.jobs[j].documentId.value
  }

  ghost function StopTagged(db: Db, run: Id): Db {
    db.(jobs := map j | j in db.jobs ::
                  if Tagged(db.jobs[j], run) && (db.jobs[j].status == Queued || db.jobs[j].status == Extracting)
                  then db.jobs[j].(status := Failed, errorMessage := Some(ABORTED))
                  else db.jobs[j])
  }

  ghost function CleanupSyncRun(db: Db, run: Id): Db {
    DeleteDocuments(StopTagged(db, run), Produced(db, run))
  }

  // ---------------------------------------------------------------- runs

  ghost function CreateRun(db: Db, path: string): Db {
    db.(runs := db.runs[db.nextId := IngestionRun(path, Running, 0, 0, 0)], nextId := db.nextId + 1)
  }

  ghost function FinishRun(db: Db, run: Id, status: RunStatus, seen: nat, indexed: nat, chunks: nat): Db
    requires run in db.runs
  {
    db.(runs := db.runs[run := IngestionRun(db.runs[run].sourcePath, status, seen, indexed, chunks)])
  }

  // ---------------------------------------------------------------- integrity

  ghost predicate FreshIds(db: Db) {
    && (forall d | d in db.documents :: d < db.nextId)
    && (forall v | v in db.versions :: v < db.nextId)
    && (forall c | c in db.chunks :: c < db.nextId)
    && (forall j | j in db.jobs :: j < db.nextId)
    && (forall r | r in db.reviews :: r < db.nextId)
    && (forall r | r in db.runs :: r < db.nextId)
  }

  ghost predicate UniquePaths(documents: map<Id, Document>) {
    forall d, e | d in documents && e in documents
                  && documents[d].fields.sourcePath == documents[e].fields.sourcePath ::
      d == e
  }

  ghost predicate References(db: Db) {
    && (forall v | v in db.versions :: db.versions[v].documentId in db.documents)
    && (forall c | c in db.chunks :: db.chunks[c].documentId in db.documents)
    && (forall j | j in db.jobs && db.jobs[j].documentId.Some? :: db.jobs[j].documentId.value in db.documents)
    && (forall j | j in db.jobs && db.jobs[j].targetDocumentId.Some? ::
          db.jobs[j].targetDocumentId.value in db.documents)
  }

  /** A document's snapshots are exactly versions 1 to `currentVersion - 1`, one row each. */
  ghost predicate VersionsOf(db: Db, d: Id)
    requires d in db.documents
  {
    && db.documents[d].currentVersion >= 1
    && (forall v | v in db.versions && db.versions[v].documentId == d ::
          1 <= db.versions[v].versionNumber < db.documents[d].currentVersion)
    && (forall v, w | v in db.versions && w in db.versions && db.versions[v].documentId == d
                      && db.versions[w].documentId == d
                      && db.versions[v].versionNumber == db.versions[w].versionNumber :: v == w)
    && (forall k | 1 <= k < db.documents[d].currentVersion :: HasSnapshot(db.versions, d, k))
  }

  ghost predicate Integrity(db: Db) {
    && FreshIds(db) && UniquePaths(db.documents) && References(db)
    && forall d | d in db.documents :: VersionsOf(db, d)
  }
}
