/** The rows of the metadata database, the points of the vector index, and the values that
    pass between the services. Ids stand for the UUIDs of the program. */
module Records {
  import opened Options

  type Id = nat

  datatype JobStatus = Queued | Extracting | Indexed | Failed
  datatype ReviewStatus = Pending | Approved | Rejected | Modified
  datatype RunStatus = Running | Completed | Aborted

  /** The document fields that a version snapshot copies. */
  datatype Fields = Fields(
    title: string, contentHash: string, fileExtension: string, mimeType: string, sourcePath: string,
    uploadedBy: Option<string>, ackedBy: Option<string>, ackedAt: Option<int>)

  /** The document fields that a snapshot does not copy but a new content overwrites. */
  datatype Labels = Labels(
    sourceType: string, frontmatter: map<string, string>, tags: seq<string>, wikilinks: seq<string>)

  datatype Document = Document(fields: Fields, labels: Labels, currentVersion: int, workspaceId: Option<Id>)

  datatype VersionRow = VersionRow(documentId: Id, versionNumber: int, fields: Fields)

  datatype Chunk = Chunk(documentId: Id, chunkIndex: nat, content: string, reviewStatus: Option<ReviewStatus>)

  datatype Job = Job(
    sourcePath: string, uploadedBy: string, workspaceId: Option<Id>, status: JobStatus,
    attempt: int, maxAttempts: int, errorMessage: Option<string>, documentId: Option<Id>, runId: Option<Id>,
    rawContentHash: Option<string>, targetDocumentId: Option<Id>, syncRunId: Option<Id>, queuedAt: int)

  /** What the vector index stores with a chunk. */
  datatype Payload = Payload(
    documentId: Id, chunkId: Id, sourceType: string, tags: seq<string>, chunkIndex: nat,
    workspaceId: Option<Id>, published: bool)

  datatype ReviewItem = ReviewItem(
    runId: Id, content: string, confidence: real, status: ReviewStatus, point: Payload, reviewerId: Option<string>)

  datatype IngestionRun = IngestionRun(
    sourcePath: string, status: RunStatus, documentsSeen: nat, documentsIndexed: nat, chunksIndexed: nat)

  datatype SyncRun = SyncRun(workspaceId: Id, status: RunStatus, pagesSeen: nat, pagesIndexed: nat)

  /** The database. Every row gets its id from `nextId`, so ids are never used twice. */
  datatype Db = Db(
    documents: map<Id, Document>, versions: map<Id, VersionRow>, chunks: map<Id, Chunk>, jobs: map<Id, Job>,
    reviews: map<Id, ReviewItem>, runs: map<Id, IngestionRun>, syncRuns: map<Id, SyncRun>, nextId: Id)

  /** Both stores: the database and the points of the vector index. */
  datatype World = World(db: Db, points: map<Id, Payload>)

  const EMPTY := World(Db(map[], map[], map[], map[], map[], map[], map[], 0), map[])

  // ---------------------------------------------------------------- values

  datatype ParsedDocument = ParsedDocument(
    sourcePath: string, fileExtension: string, mimeType: string, title: string, content: string,
    contentHash: string, labels: Labels)

  datatype ChunkCandidate = ChunkCandidate(chunkIndex: nat, content: string, confidence: real)
}
