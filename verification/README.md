# Verified model of the document hub

A Dafny model of the services that turn documents into searchable knowledge, with proofs of
what they promise. It models five parts.

* **The two stores and everything that writes to them.** The metadata database (documents,
  versions, chunks, jobs, review items, runs) and the vector index, which lies outside every
  transaction and never loses a point. Each transaction is a function on the database
  (`Store.dfy`) and a method of a class with the tables as fields (`Repository.dfy`) that is
  proved to do the same. On top of them: the ingestion pipeline and the job worker
  (`Ingestion.dfy`, `Pipeline.dfy`) with what a run accounts for (`Conservation.dfy`,
  `RunConservation.dfy`, `Placement.dfy`), review and acknowledgement (`Services.dfy`,
  `ApiServices.dfy`), search (`Search.dfy`), the Confluence sync (`Sync.dfy`) and uploads
  (`Uploads.dfy`). Exceptions are part of the model: a plan says where each foreign call raises.
* **The Markdown chunker** (`Text.dfy`, `Headings.dfy`, `MarkdownBlocks.dfy`, `TextChunker.dfy`).
* **The knowledge-graph builder** (`Provenance.dfy` and the files named `Graph...` and
  `EntityMerging.dfy`).
* **The rate limiter** (`RateLimiter.dfy`).
* **Caches and span selection** (`Gateway.dfy`, `GraphCache.dfy`, `SpanExtraction.dfy`).

Code that changes objects is modelled by classes and methods; each method is tied to a function
of the old state, and the properties are proved about that function. `dafny verify
dfyconfig.toml` checks everything.

## What does not hold

Some promises fail in the code. The model keeps the code as it is; each failure has its exact
condition.

* A version job that fails *before* its upsert is rolled back all the same, which takes the
  newest good version away (`JobOutcome.EarlyFailurePopsAVersion`, `Examples.LostVersion`). If
  the version below was never acknowledged and chunks of the document are published, search goes
  on showing them. A pass is unsafe in this case and no other
  (`JobVisibility.RunOnceIsSafeUnless`, `Examples.HarmfulPass`). If the older version's path is
  taken by now, the rollback raises inside the worker and the job stays extracting.
* A version job that completes with nothing loaded is indexed if any document lies at its path,
  and then names that document instead of its target (`JobOutcome.VersionPassEnds`).
* A rollback does not bring back source type, frontmatter, tags and wikilinks
  (`VersionHistory.RollbackUndoesUpsert`).
* A scan or a run that fails between the upsert and the replacement of the chunks leaves
  published chunks of a document that needs a new acknowledgement, exactly if it had any
  (`IngestVisibility.IngestDocumentIsSafe`, `ScanVisibility.ScanIsSafeUnless`,
  `Examples.ExposingScan`).
* A reviewer may edit the payload of a point, its `published` flag, workspace and chunk id
  included. The review shows a chunk at once exactly if the point it writes is published and the
  chunk's document is not acknowledged or lies in another workspace
  (`Services.ReviewIsSafeUnless`, `Examples.ExposingReview`). An unpublished point under a foreign
  workspace waits for the acknowledgement of its document, which is harmful exactly then
  (`Services.AckIsSafeUnless`, `Services.MisplacedPointWaits`, `Examples.MisplacingReview`).
  These four kinds of steps are the harmful ones: all along a run every search shows only what it
  may, exactly if the run has none of them (`Runs.DiscreetExactlyIfHarmless`).
* Approving an item after its document was acknowledged writes an unpublished point, so an
  acknowledged chunk need not be found (`Services.ReviewHides`). Only the converse is proved.
* With fewer than one attempt allowed, a job exceeds its maximum at the first claim
  (`JobQueue.ZeroAttemptsBreaksTheBound`); with a limit below one request per minute the limiter
  raises; with a negative retry limit the gateway's records do not add up to the calls
  (`Gateway.TelemetryAddsUp`, `Gateway.NegativeLimitExample`); with a negative batch size a lookup
  loses its misses (`GraphCache.CachedGraphLookup`, `GraphCache.NegativeBatchExample`).
* A worker that completes or fails a job which an aborted sync run has failed meanwhile brings it
  to life again (`Sync.RevivedExactlyIfRunning`).
* The heading test of the chunker lets whitespace cross a line break, so a block of `#` and one
  line of text below it counts as heading-only and is dropped
  (`MarkdownBlocks.OnlyHeadingsAreDropped`, `MarkdownBlocks.LostTextExample`).
* The in-memory graph repository appends a list value as one entry of a list, so its merged
  provenance is not the union then (`Provenance.MergeIsUnionUnlessNested`,
  `Provenance.NestedExample`); the extractors only make scalar values, for which it is.

## Model

| member | source | states |
|---|---|---|
| `Runs.SearchShowsOnlyAcknowledged` | services/nexus-api/nexus_api/search.py:39-53 | After any run of service calls (enqueue, worker pass, scan, review, ack, retry, sync abort, delete), each harmless when its turn comes, whatever a search can find is a live chunk of a document that is acknowledged now and, for a caller with a workspace list, lies in one of those workspaces |
| `Runs.DiscreetExactlyIfHarmless` | services/nexus-api/nexus_api/search.py:39-53 | All along a run every search, by anyone, shows only live chunks of documents that are acknowledged then and lie in the caller's workspaces, if and only if every step of the run is harmless when its turn comes |
| `Runs.StepIsDiscreetUnless` | services/nexus-api/nexus_api/search.py:39-53 | From a safe world, after a step some search shows a chunk it may not show if and only if the step is harmful, which the world before the step tells |
| `Runs.PlainRunIsHarmless` | services/nexus-api/nexus_api/review.py:84-91 | When reviews leave the flag, the chunk and the workspace of their points alone, only a worker pass or a scan can be harmful; every label of a point or pending item then stays right |
| `Visibility.SoundExactlyIfDiscreet` | services/nexus-api/nexus_api/search.py:39-53 | Where points bear the ids of their chunks, they agree with the rows if and only if every search shows only what it may: a disagreement is always found by somebody |
| `Runs.StepIsSafe` | workers/document-parser/nexus_document_parser/job_worker.py:31-85 | From a safe world every step keeps the integrity of the database and the review items, and leaves the published points in agreement with the rows if and only if it is harmless |
| `ScanVisibility.ScanIsSafeUnless` | workers/document-parser/nexus_document_parser/pipeline.py:42-180 | A scan, wherever it fails, leaves the points sound if and only if its first exception does not hit a changed document between upsert and chunk replacement whose path, before the scan, belongs to a document with a published live chunk; told by the world before the scan |
| `Runs.ReachableHasIntegrity` | workers/document-parser/nexus_document_parser/sqlalchemy_repository.py:422-494 | In every reachable state, harmful steps included, paths are unique, references resolve, and every document's snapshots are exactly versions 1 to current - 1, one each |
| `Examples.HarmfulPass` | workers/document-parser/nexus_document_parser/job_worker.py:68-72 | A run of six steps from the empty stores: discreet until the last, a worker pass whose file cannot be loaded, after which the search for everything shows a chunk of a document that is no longer acknowledged |
| `Examples.LostVersion` | workers/document-parser/nexus_document_parser/job_worker.py:68-72 | In that pass the good second version of the document is lost: it is back at version 1 and there is no other |
| `Examples.ExposingScan` | workers/document-parser/nexus_document_parser/pipeline.py:70-86 | A run of three steps from the empty stores that a failing scan ends by showing a chunk of a document that lost its acknowledgement |
| `Examples.ExposingReview` | services/nexus-api/nexus_api/review.py:84-91 | A run of two steps from the empty stores that a review with an edited flag ends by showing a chunk of a document never acknowledged |
| `Examples.MisplacingReview` | services/nexus-api/nexus_api/review.py:84-91 | A run of three steps from the empty stores: a review under a foreign workspace shows nothing, and the acknowledgement after it shows the chunk to members of that workspace |
| `Visibility.FoundMayBeShown` | services/nexus-api/nexus_api/search.py:39-53 | While the points agree with the rows, whatever a search finds may be shown to the caller |
| `Visibility.NobodyFindsNothing` | packages/vector-client/nexus_vector/client.py:124-126 | An empty workspace list finds nothing, not everything |
| `Visibility.CalmIsSafe` | workers/document-parser/nexus_document_parser/sqlalchemy_repository.py:32-48 | A change of the database alone that moves and revives nothing and takes back no acknowledgement keeps the world safe |
| `JobVisibility.RunOnceIsSafeUnless` | workers/document-parser/nexus_document_parser/job_worker.py:31-85 | A pass, wherever it fails, leaves the points sound if and only if it does not take back the acknowledgement of a document with published chunks; integrity and review items survive in any case |
| `JobVisibility.NewUploadIsSafe` | workers/document-parser/nexus_document_parser/job_worker.py:73-76 | A pass of a new upload keeps the world safe wherever it fails |
| `JobVisibility.UpsertedVersionIsSafe` | workers/document-parser/nexus_document_parser/pipeline.py:70-86 | A pass of a version job whose upsert went through keeps the world safe wherever it fails afterwards |
| `JobVisibility.RollbackIsSafeUnless` | workers/document-parser/nexus_document_parser/sqlalchemy_repository.py:467-494 | A rollback leaves the points sound unless the version below was never acknowledged, its path can be taken, and a live chunk of the document has a published point: in exactly that case it does not |
| `IngestVisibility.IngestDocumentIsSafe` | workers/document-parser/nexus_document_parser/pipeline.py:70-136 | Ingesting one document is safe wherever it fails at or after the replacement of its chunks; a failure between the upsert and the replacement leaves the points sound exactly if no live chunk of that document has a published point |
| `Services.ReviewIsSafeUnless` | services/nexus-api/nexus_api/review.py:44-91 | A review leaves the points sound if and only if it does not write a published point for a chunk whose document is not acknowledged or lies in another workspace than the point names |
| `Services.ReviewHides` | services/nexus-api/nexus_api/review.py:84-91 | An approved or modified chunk, whose point is written as it was held, cannot be found by any search afterwards, even when its document is acknowledged already |
| `Services.ReviewOutcome` | services/nexus-api/nexus_api/review.py:44-91 | What a review leaves, field by field: status by action, reviewer, the seven payload fields edited or kept, another text only for a modification that brings one; the chunk gets text and status of the item, the point is written under its chunk id, and everything else stays |
| `Services.AckIsSafeUnless` | services/nexus-api/nexus_api/ack.py:21-23 | An acknowledgement keeps the world safe, whether or not the call to the index fails, if and only if it does not publish a point that names another workspace than the document's |
| `Services.MisplacedPointWaits` | services/nexus-api/nexus_api/review.py:84-91 | A review that writes an unpublished point under a foreign workspace shows nothing yet; the acknowledgement of the document then makes a search show what it may not |
| `Services.AckPublishes` | services/nexus-api/nexus_api/ack.py:21-23 | After an acknowledgement every chunk of the document that has a point is found by an unrestricted search |
| `JobOutcome.NewUploadAllOrNothing` | workers/document-parser/nexus_document_parser/job_worker.py:55-85 | A new-upload pass ends indexed, naming the live document at its path, or queued or failed with no document at that path |
| `JobOutcome.VersionAllOrNothing` | workers/document-parser/nexus_document_parser/job_worker.py:55-85 | A version pass whose upsert went through ends indexed with one version more on its target's history, or queued or failed with version rows, version list and every snapshotted field as before, only the labels being those of the upload |
| `JobOutcome.VersionPassEnds` | workers/document-parser/nexus_document_parser/job_worker.py:55-85 | Every version pass: the job ends indexed exactly if its upsert and all that followed went through, or if it completed with nothing loaded and some document at its path; it names another document than its target exactly if that document is not the target; otherwise it is queued or failed, or the pass got stuck |
| `JobOutcome.EarlyFailurePopsAVersion` | workers/document-parser/nexus_document_parser/job_worker.py:68-72 | A version pass that fails before its upsert ends queued while attempts are left and failed otherwise, and drops the newest version of the target's history if there is more than one; if the older path is taken the pass gets stuck and nothing is dropped |
| `JobOutcome.FailedAttemptsNeverPileUp` | workers/document-parser/nexus_document_parser/job_worker.py:68-77 | Any number of passes that fail after the upsert leaves the version rows and all documents as they were, but for labels |
| `JobOutcome.RollbackIsLocal` | workers/document-parser/nexus_document_parser/sqlalchemy_repository.py:467-494 | A rollback depends on documents and versions only and changes nothing else |
| `VersionHistory.UpsertAppends` | workers/document-parser/nexus_document_parser/sqlalchemy_repository.py:422-465 | A version upload appends exactly one entry to the document's history: title, hash, extension, type, path and uploader of the upload, not acknowledged; the labels are the upload's and the workspace stays |
| `VersionHistory.RollbackDropsLast` | workers/document-parser/nexus_document_parser/sqlalchemy_repository.py:467-494 | A rollback drops exactly the last entry of the document's history |
| `VersionHistory.RollbackUndoesUpsert` | workers/document-parser/nexus_document_parser/sqlalchemy_repository.py:467-494 | A rollback right after an upload restores the whole database but for the labels of the upload and the ids used up |
| `VersionHistory.RollbacksUndoUpserts` | workers/document-parser/nexus_document_parser/sqlalchemy_repository.py:422-494 | Any sequence of version uploads, by whatever uploaders, followed by as many rollbacks restores every snapshotted field and the version rows; only the labels of the last upload stay |
| `VersionHistory.VersionListShape` | workers/document-parser/nexus_document_parser/sqlalchemy_repository.py:496-546 | The version list runs strictly down from the current version to 1 with exactly one current entry, and read backwards it is the history |
| `VersionHistory.SnapshotsInOrder` | workers/document-parser/nexus_document_parser/sqlalchemy_repository.py:522-526 | The snapshots selected newest first are versions n - 1, n - 2, ... 1, none missing |
| `StoreIntegrity.UpsertDocumentKeeps` | workers/document-parser/nexus_document_parser/sqlalchemy_repository.py:85-120 | An upsert keeps unique paths, references, fresh ids and the snapshot numbering |
| `StoreIntegrity.UpsertVersionKeeps` | workers/document-parser/nexus_document_parser/sqlalchemy_repository.py:422-465 | A version upsert keeps them: snapshots are exactly versions 1 to current - 1, one each |
| `StoreIntegrity.RollbackKeeps` | workers/document-parser/nexus_document_parser/sqlalchemy_repository.py:467-494 | A rollback keeps them |
| `StoreIntegrity.DeleteKeeps` | workers/document-parser/nexus_document_parser/db_models.py:64-81 | Deleting documents with cascades and cleared references keeps them |
| `StoreIntegrity.ReplaceChunksKeeps` | workers/document-parser/nexus_document_parser/sqlalchemy_repository.py:122-151 | Replacing chunks keeps them |
| `StoreIntegrity.CleanupKeeps` | workers/document-parser/nexus_document_parser/sqlalchemy_repository.py:726-743 | Aborting a sync run keeps them |
| `IngestionIntegrity.RunOnceKeeps` | workers/document-parser/nexus_document_parser/job_worker.py:31-85 | A worker pass keeps the integrity of the database wherever it fails |
| `IngestionIntegrity.IngestKeeps` | workers/document-parser/nexus_document_parser/pipeline.py:42-180 | An ingestion run keeps it wherever it fails |
| `Repository.MetadataRepository.UpsertDocument` | workers/document-parser/nexus_document_parser/sqlalchemy_repository.py:85-120 | The method updates the tables exactly as the transaction function says and returns its id and change flag |
| `Repository.MetadataRepository.UpsertDocumentVersion` | workers/document-parser/nexus_document_parser/sqlalchemy_repository.py:422-465 | It succeeds exactly if the target exists and no other document has the path; then the snapshot row and the new row are written, otherwise nothing |
| `Repository.MetadataRepository.RollbackFailedVersion` | workers/document-parser/nexus_document_parser/sqlalchemy_repository.py:467-494 | It restores the newest snapshot and deletes its row, raises exactly on a taken path, and otherwise changes nothing |
| `Repository.MetadataRepository.ListDocumentVersions` | workers/document-parser/nexus_document_parser/sqlalchemy_repository.py:496-546 | The list built by the loop over the snapshots is the version list of the document; an unknown document gives the empty list |
| `Repository.MetadataRepository.ReplaceChunks` | workers/document-parser/nexus_document_parser/sqlalchemy_repository.py:122-151 | The old chunks are gone, the new ones have consecutive new ids with the index and text of their candidates and no review, and the pairs returned follow the order of the candidates |
| `Repository.MetadataRepository.AcknowledgeDocument` | workers/document-parser/nexus_document_parser/sqlalchemy_repository.py:548-569 | It succeeds exactly for a known document that is not acknowledged and returns the ids of exactly its chunks |
| `Repository.MetadataRepository.ClaimNextJob` | workers/document-parser/nexus_document_parser/sqlalchemy_repository.py:317-338 | It claims a queued job with no job queued before it, and none exactly if none is queued |
| `Repository.MetadataRepository.CleanupRun` | workers/document-parser/nexus_document_parser/sqlalchemy_repository.py:726-743 | Waiting and running jobs of the run fail, the documents they produced are deleted, and the count returned is the number of jobs that had produced one |
| `VectorStore.VectorIndex.UpsertChunks` | packages/vector-client/nexus_vector/client.py:50-65 | The points afterwards are the old ones overwritten by the batch, later entries winning |
| `VectorStore.VectorIndex.SetPublished` | packages/vector-client/nexus_vector/client.py:67-80 | Exactly the named points that exist become published; no point appears or goes |
| `Pipeline.IngestionPipeline.Ingest` | workers/document-parser/nexus_document_parser/pipeline.py:42-180 | The loop over documents leaves both stores, the run row and its counters exactly as the run function says, wherever an exception is raised |
| `Pipeline.IngestionPipeline.IngestOne` | workers/document-parser/nexus_document_parser/pipeline.py:70-138 | One turn of that loop, with its early exits, is the ingestion of one document |
| `Pipeline.IngestionPipeline.RouteChunks` | workers/document-parser/nexus_document_parser/pipeline.py:88-135 | Each chunk below the threshold becomes a pending review item in order, the others wait as points, as many as are written |
| `Pipeline.JobWorker.RunOnce` | workers/document-parser/nexus_document_parser/job_worker.py:31-85 | The pass as it runs is the pass the results are about: claim, ingest, then complete or compensate |
| `Conservation.ChangedDocumentConserves` | workers/document-parser/nexus_document_parser/pipeline.py:81-138 | A changed document has exactly its new chunks, and each went to exactly one of a new unpublished point and one new pending review item, by the threshold; row, point and item hold, field by field, the candidate's index, text and confidence and the document's source type, tags and workspace; the count returned is the number of points added |
| `RunConservation.CompletedRunConserves` | workers/document-parser/nexus_document_parser/pipeline.py:69-146 | After a completed run every document that brought the last new content to its path holds that content, in the workspace and version held before or as a first version in the run's workspace, and has exactly its new chunks, each in exactly one place, the index or one new pending review item, by the threshold, with index, text, confidence, source type and tags recorded field by field; documents ingested later in the run disturb none of it |
| `RunConservation.DistinctPathsChangeOnce` | workers/document-parser/nexus_document_parser/pipeline.py:78-79 | With distinct paths those are exactly the documents whose hash differs from the one held at their path before the run |
| `RunConservation.UploadIsStored` | workers/document-parser/nexus_document_parser/job_worker.py:31-66 | The pass of a new upload with new content and no exception indexes the job with its document and run; the document holds the content on behalf of the job, a new one as a first version in the workspace of the job, and every chunk of it is accounted for |
| `RunConservation.VersionIsStored` | workers/document-parser/nexus_document_parser/job_worker.py:31-66 | The pass of a version job without an exception leaves the target with the content, uploader and chunks of the upload, each chunk accounted for, one version up and in its workspace |
| `Placement.RunPlaces` | workers/document-parser/nexus_document_parser/sqlalchemy_repository.py:85-120 | All through a run, wherever it fails, every path keeps its document with workspace and version, and a document new at its path is a first version in the workspace of the run |
| `Conservation.CountersCount` | workers/document-parser/nexus_document_parser/pipeline.py:52-146 | The chunks counter of a finished run is the number of points it added, also when it failed, and the documents counter never exceeds the documents seen |
| `Conservation.RescanTouchesNothing` | workers/document-parser/nexus_document_parser/pipeline.py:78-79 | Scanning the same documents again, with distinct paths, touches no document, version, chunk, review item or point |
| `Conservation.AbortDiscards` | workers/document-parser/nexus_document_parser/sqlalchemy_repository.py:726-743 | Aborting a sync run leaves none of its jobs waiting or running, those that were have failed with the abort as reason, and none of the documents they produced; other jobs lose only references to those, other documents, chunks and versions nothing |
| `JobQueue.FirstIsNext` | workers/document-parser/nexus_document_parser/sqlalchemy_repository.py:297-338 | Position 1 is the next claim and no other |
| `JobQueue.PositionsFollowTimes` | workers/document-parser/nexus_document_parser/sqlalchemy_repository.py:297-315 | Positions lie between 1 and the number of queued jobs and are ordered as the queueing times, so they are distinct |
| `JobQueue.EveryPositionIsTaken` | workers/document-parser/nexus_document_parser/sqlalchemy_repository.py:297-315 | Every position from 1 to the number of queued jobs is some job's |
| `JobQueue.ClaimLowersPositions` | workers/document-parser/nexus_document_parser/sqlalchemy_repository.py:317-338 | A claim removes position 1 and lowers every other position by one |
| `JobQueue.PassTouchesOneJob` | workers/document-parser/nexus_document_parser/job_worker.py:31-85 | A pass changes the status of the job it claimed only and leaves it extracting only when it gets stuck |
| `RunOrder.FirstComeFirstServed` | workers/document-parser/nexus_document_parser/sqlalchemy_repository.py:317-374 | In every run, with every kind of call in between, a job is claimed only when each job queued before it is indexed, has failed, or is one whose pass got stuck |
| `JobQueue.FailuresUseUpTheAttempts` | workers/document-parser/nexus_document_parser/sqlalchemy_repository.py:317-374 | A fresh job can be claimed and failed as often as its maximum allows and no more; every failure but the last puts it back into the queue, the last leaves it failed, and no other row changes |
| `JobQueue.RestartStartsOver` | workers/document-parser/nexus_document_parser/sqlalchemy_repository.py:376-394 | A job can be restarted exactly when its attempts are used up, and its row is then as it was before the first one but for its place in the queue |
| `JobQueue.AttemptsAreBounded` | workers/document-parser/nexus_document_parser/sqlalchemy_repository.py:317-394 | Under any interleaving of create, claim, complete, fail, retry, cleanup and delete, attempts stay within the maximum and a queued job has one left |
| `JobQueue.ZeroAttemptsBreaksTheBound` | workers/document-parser/nexus_document_parser/sqlalchemy_repository.py:357-374 | With a maximum below one the bound is lost at the first claim |
| `JobQueue.PassUsesAnAttempt` | workers/document-parser/nexus_document_parser/sqlalchemy_repository.py:317-374 | Every pass lowers the attempts left in the queue |
| `JobQueue.QueueDrains` | workers/document-parser/nexus_document_parser/sqlalchemy_repository.py:317-374 | However the passes end, there are no more of them than attempts left at the start |
| `ApiServices.ReviewService.ApplyAction` | services/nexus-api/nexus_api/review.py:44-91 | Both stores end as the review function says, which is what the outcome row tells; unknown and finalized items are refused with nothing changed, and the call raises exactly if it is no rejection and the chunk named by the edited point is missing or the index fails |
| `ApiServices.AckService.Ack` | services/nexus-api/nexus_api/ack.py:21-31 | Both stores end as the acknowledgement function says, and the call is accepted exactly if the document could be acknowledged and the index did not fail |
| `Search.BuildSearchFilter` | packages/vector-client/nexus_vector/client.py:113-134 | The conditions collected hold of a payload exactly if it matches the search; they are never empty, and an empty workspace list matches nothing |
| `Search.SearchService.Search` | services/nexus-api/nexus_api/search.py:28-86 | The index is asked for three times the limit, at most 50, and the answer is the join of its hits with the live rows, stably ranked and cut at the limit |
| `Search.SortByRank` | services/nexus-api/nexus_api/search.py:85 | The sort is a ranked permutation that keeps the order of equal ranks |
| `Search.JoinedAre` | services/nexus-api/nexus_api/search.py:47-84 | A result is joined exactly when it comes from a hit whose chunk and document are live, with their rows, the hit's score and the rank they give |
| `Search.ResultsMayBeShown` | services/nexus-api/nexus_api/search.py:46-86 | While the points are sound, every result is a live chunk of an acknowledged document the caller may see, with the row's own content and rank |
| `Search.ResultsAreTheBest` | services/nexus-api/nexus_api/search.py:85-86 | The results are ranked, as many as asked for if so many are live, and no live hit left out ranks above one returned |
| `Search.NothingFindableIsMissed` | services/nexus-api/nexus_api/search.py:38-86 | When fewer points match than the index is asked for and fewer than the limit are live, every chunk that can be found is found |
| `Sync.ConfluenceSyncService.Sync` | services/nexus-api/nexus_api/confluence_sync.py:35-92 | The call, stopped by an exception at any page or run to the end, leaves the repository as the sync function says; the jobs tagged with its run are one for each page it reached, in order, waiting after a completed call and failed after any other |
| `Sync.CompletedCallAccounts` | services/nexus-api/nexus_api/confluence_sync.py:45-77 | A completed run has seen and indexed exactly as many pages as jobs are tagged with it, all new and queued; the jobs in order of id stage the first, the second and so on page of the listing for the call's workspace, uploader and maximum, with no attempt made and no target; nothing else is different |
| `Sync.FailedCallLeavesNothing` | services/nexus-api/nexus_api/confluence_sync.py:78-92 | A failed run is recorded as failed; the jobs it enqueued, one for each page up to the exception in order with that page's fields, have failed with the abort as their error, and nothing else is different |
| `Sync.TaggedJobsAreThePages` | services/nexus-api/nexus_api/confluence_sync.py:55-66 | With any other queue traffic in between, the jobs tagged with a run are as many as the pages it has enqueued |
| `Sync.AbortAfterTraffic` | workers/document-parser/nexus_document_parser/sqlalchemy_repository.py:726-743 | A failure after any such traffic leaves none of the run's jobs waiting or running, none of their documents, and every other document and job status as it was |
| `Sync.RevivedExactlyIfRunning` | workers/document-parser/nexus_document_parser/sqlalchemy_repository.py:340-374 | A job that an abort has failed leaves its failure again, short of a restart by hand, exactly if it was extracting at the abort and its worker completes it later, or fails it with attempts left |
| `Uploads.UploadService.Accept` | services/nexus-api/nexus_api/uploads.py:35-129 | The batch is refused exactly under the listed conditions and then nothing changes; otherwise every file is in exactly one of jobs, rejected and duplicates, in order and for its reason, and the repository has gained exactly one job for each accepted file, with that file's staged path and digest, the caller, workspace and target of the batch |
| `Uploads.JudgedBefore` | services/nexus-api/nexus_api/uploads.py:94-110 | The jobs a batch has added so far decide nothing: files of one batch are never duplicates of each other |
| `Headings.HeadingDecides` | workers/document-parser/nexus_document_parser/chunker.py:9 | The heading test accepts exactly the lines the pattern matches and yields the level and title of the match |
| `Headings.MarkDecides` | workers/document-parser/nexus_document_parser/chunker.py:157-168 | A line is marked as a heading of this level and title exactly if, trimmed, it matches the pattern so, and as blank exactly if it is whitespace |
| `Headings.PathStandsUnder` | workers/document-parser/nexus_document_parser/chunker.py:160-164 | The path at a line consists of the titles of exactly those earlier lines that match the pattern and that no later match of the same or a smaller level follows, in order |
| `Headings.StackStep` | workers/document-parser/nexus_document_parser/chunker.py:160-164 | The heading stack after a line is the stack before it without the entries a new heading closes |
| `Headings.StackIncreases` | workers/document-parser/nexus_document_parser/chunker.py:162-163 | Levels in the stack strictly increase, so at most six headings are open |
| `Headings.PathIsOpenChain` | workers/document-parser/nexus_document_parser/chunker.py:162-170 | The path at a line is the chain of earlier headings that no later heading of the same or a smaller level has closed, in order |
| `MarkdownBlocks.ScanBlocks` | workers/document-parser/nexus_document_parser/chunker.py:132-179 | One pass over the lines with its nested flush yields the specified blocks |
| `Text.SplitLinesAre` | workers/document-parser/nexus_document_parser/chunker.py:154 | The lines and their breaks make up the text; no line has a break inside, a carriage return is never parted from its line feed, and no other division does this |
| `MarkdownBlocks.GroupsPartition` | workers/document-parser/nexus_document_parser/chunker.py:154-176 | The groups of lines are disjoint maximal runs and hold every line that is not blank |
| `MarkdownBlocks.BlockOfGroup` | workers/document-parser/nexus_document_parser/chunker.py:140-152 | A block is its group's text without outer whitespace, not empty and not heading-only |
| `MarkdownBlocks.BlockOffsets` | workers/document-parser/nexus_document_parser/chunker.py:154-178 | A block's text fits between its offsets, blocks follow one another, and the last ends within the document, whatever its line breaks |
| `MarkdownBlocks.BlockIsSlice` | workers/document-parser/nexus_document_parser/chunker.py:140-178 | With line feeds as the only breaks, a block's text is its slice of the document without outer whitespace |
| `MarkdownBlocks.BlockPath` | workers/document-parser/nexus_document_parser/chunker.py:164-174 | A block's heading path is, at every one of its lines, the chain of open headings, told by the lines of the document that match the pattern, with the levels and titles of the matches |
| `MarkdownBlocks.OnlyHeadingsAreDropped` | workers/document-parser/nexus_document_parser/chunker.py:143-152 | Every line that is not blank is in the group of some block or in a maximal group whose text matches the heading pattern, which may cross a line break |
| `MarkdownBlocks.LostTextExample` | workers/document-parser/nexus_document_parser/chunker.py:140-152 | Of the two lines # and text, the second of which is plain, no block is left |
| `MarkdownBlocks.NestedHeadingsExample` | workers/document-parser/nexus_document_parser/chunker.py:154-179 | The text under # A and ## B is one block from character 4 to 13 with the path A, B |
| `TextChunker.ChunkDocument` | workers/document-parser/nexus_document_parser/chunker.py:21-109 | The chunks of a document are a complete packing of its blocks, numbered from 0, and the section title is the last heading of the path |
| `TextChunker.Pack` | workers/document-parser/nexus_document_parser/chunker.py:26-89 | The packing loop leaves a complete packing: each chunk carries contiguous pieces of blocks and starts where the one before it stopped |
| `TextChunker.Split` | workers/document-parser/nexus_document_parser/chunker.py:63-79 | The splitting loop ends with at most the maximum left, each pass removing at least the stride |
| `TextChunker.NoTextLost` | workers/document-parser/nexus_document_parser/chunker.py:26-91 | Every character of every block that is not whitespace lies in a piece carried by some chunk |
| `TextChunker.PiecesInOrder` | workers/document-parser/nexus_document_parser/chunker.py:68-79 | Consecutive pieces stay in order, share at most the overlap, and between them is only whitespace |
| `TextChunker.ChunkOffsets` | workers/document-parser/nexus_document_parser/chunker.py:45-89 | Chunk starts strictly increase and every chunk lies within the document |
| `TextChunker.ChunkShape` | workers/document-parser/nexus_document_parser/chunker.py:31-89 | Every chunk is non-empty, trimmed and within the maximum, and its heading path is, for every line of every block it carries, the chain of open headings told by the lines that match the pattern |
| `RateLimiter.RateLimiterMiddleware.Dispatch` | services/nexus-api/nexus_api/middleware/rate_limiter.py:18-39 | A limited request is admitted exactly if fewer than rpm earlier admissions lie in the last sixty seconds; a rejection carries the least number of whole seconds after which a lone retry is admitted; a limit below one raises |
| `RateLimiter.AnyWindowHoldsAtMostRpm` | services/nexus-api/nexus_api/middleware/rate_limiter.py:22-37 | No closed interval of sixty seconds, wherever it lies, holds more than rpm admissions |
| `RateLimiter.Prune` | services/nexus-api/nexus_api/middleware/rate_limiter.py:28-29 | The pruning loop drops exactly the leading times that have left the window |
| `RateLimiter.InTheWindow` | services/nexus-api/nexus_api/middleware/rate_limiter.py:26-30 | The pruned queue holds exactly the admissions of the full history in the window |
| `RateLimiter.LoneRetry` | services/nexus-api/nexus_api/middleware/rate_limiter.py:30-31 | With a full queue a retry after r seconds is admitted exactly if the oldest entry has left the window by then |
| `RateLimiter.LeastRetry` | services/nexus-api/nexus_api/middleware/rate_limiter.py:31 | The seconds announced are the least after which a lone retry is admitted |
| `GraphBuild.GraphBuilder.BuildFromChunks` | workers/graph-builder/nexus_graph_builder/builder.py:33-168 | The build returns a closed graph: both ends of every relationship and all members of every hyperedge are returned, hyperedges have two distinct members; and a complete one: every entry that the answer about a newly asked chunk gives for two entities it names is there, from its trimmed source to its trimmed target, with its type and no less than its confidence; so are the names of its entities, cached relationships, those of fallbacks between named entities, and every LINKS_TO between the DOCUMENT entities of titles and wikilinks. What is stored comes from the upserts that the chunks tell, and the call can be made again |
| `GraphBuild.GraphBuilder.BuildTwice` | workers/graph-builder/nexus_graph_builder/builder.py:33-168 | Two builds of the same chunks in a row store what one build stores |
| `GraphRebuild.AnswerIsStored` | workers/graph-builder/nexus_graph_builder/builder.py:41-48 | Each entity that the answer about a newly asked chunk names is stored after the build under its normalized name, with at least its confidence, and is recorded for its chunk and document |
| `GraphBuild.GraphBuilder.FirstPass` | workers/graph-builder/nexus_graph_builder/builder.py:41-65 | The first pass leaves an entity table that describes the merged candidates of exactly what the extractor says about each chunk, and every relationship whose ends were named |
| `GraphBuild.GraphBuilder.SecondPass` | workers/graph-builder/nexus_graph_builder/builder.py:67-100 | Every wikilink of every chunk that is not blank is linked, from the DOCUMENT of the chunk's title, or of the document's id without one, to the DOCUMENT of the link, with the chunk's confidence, and nothing of the first pass is lost |
| `GraphBuild.GraphBuilder.ThirdPass` | workers/graph-builder/nexus_graph_builder/builder.py:102-146 | Every non-empty wikilink of a document, collected over its chunks, is linked with confidence 1 from the DOCUMENT of its first chunk's title, even an empty one |
| `GraphBuild.GraphBuilder.HyperedgePass` | workers/graph-builder/nexus_graph_builder/builder.py:148-162 | Every candidate with two distinct known members has its hyperedge, and every hyperedge has at least two |
| `GraphPasses.ParsedIsLinked` | workers/graph-builder/nexus_graph_builder/extractor.py:217-238 | A relationship kept from a parsed answer is resolved and upserted in spite of merging and changes of type |
| `GraphPasses.FirstAskedAnswers` | workers/graph-builder/nexus_graph_builder/extractor.py:129-135 | A chunk that is asked about for the first time is extracted from its own answer |
| `GraphRebuild.ChunkOrderDoesNotMatter` | workers/graph-builder/nexus_graph_builder/builder.py:41-48 | For any permutation of the chunks the first pass gives the same keys, confidences and recorded provenance |
| `GraphRebuild.OrderMattersToDocumentsOnly` | workers/graph-builder/nexus_graph_builder/builder.py:33-146 | After the whole build the order of the chunks matters to no record of another type than DOCUMENT |
| `GraphRebuild.RebuildChangesNothing` | workers/graph-builder/nexus_graph_builder/builder.py:33-168 | Building the same chunks again changes nothing that is stored, no entity, link, hyperedge or id, whether the extractor remembers its answers or gives the same ones again, and in whatever order sets of wikilinks are gone through |
| `GraphOps.RepeatingChangesNothing` | workers/graph-builder/nexus_graph_builder/memory_repository.py:23-98 | Upserts of entities, links and hyperedges that repeat those that made a graph leave it as it is |
| `GraphTable.TableIs` | workers/graph-builder/nexus_graph_builder/memory_repository.py:23-46 | After any upserts there is one record for each normalized name and type, with the greatest confidence and the union of the provenance |
| `GraphTable.OrderDoesNotMatter` | workers/graph-builder/nexus_graph_builder/memory_repository.py:23-46 | The table depends on the multiset of candidates only, not on their order |
| `GraphTable.RepeatedUpsertsChangeNothing` | workers/graph-builder/nexus_graph_builder/memory_repository.py:23-46 | Upserting the same candidates again, into whatever graph, changes nothing at all |
| `GraphTable.EntitiesOfChunkAreItsOwn` | workers/graph-builder/nexus_graph_builder/memory_repository.py:107-119 | An entity is recorded for a chunk exactly if a candidate of that chunk named it |
| `GraphStore.UpsertEntityKeeps` | workers/graph-builder/nexus_graph_builder/memory_repository.py:23-46 | Every record carries the key it is stored under, and no two records share an id |
| `GraphStore.NormalizeIs` | workers/graph-builder/nexus_graph_builder/extractor.py:80-81 | Outer whitespace of a name does not count; a trimmed name becomes its lower case with single spaces only |
| `GraphStore.RunBecomesSpace` | workers/graph-builder/nexus_graph_builder/extractor.py:80-81 | A run of whitespace anywhere in a name becomes one space |
| `GraphStore.SingleSpacedStays` | workers/graph-builder/nexus_graph_builder/extractor.py:80-81 | A text with single spaces only stays as it is |
| `GraphStore.InMemoryGraphRepository.AddEntity` | workers/graph-builder/nexus_graph_builder/memory_repository.py:23-46 | The record returned has the normalized name and type of the candidate and no less confidence, and the table has it under that key |
| `GraphStore.InMemoryGraphRepository.AddHyperedge` | workers/graph-builder/nexus_graph_builder/memory_repository.py:77-98 | A hyperedge with the same members and type is returned unchanged, otherwise a new one is appended; no two are the same |
| `EntityMerging.EntityMerger.Merge` | workers/graph-builder/nexus_graph_builder/merger.py:47-84 | Grouping and merging yield one candidate for each normalized name, in order of first occurrence |
| `EntityMerging.MergedStandFor` | workers/graph-builder/nexus_graph_builder/merger.py:52-84 | Each merged candidate has the name and type of the first of its group with the highest confidence, that confidence and all the provenance; names are distinct and none is missing |
| `Provenance.MergeProvenance` | workers/graph-builder/nexus_graph_builder/memory_repository.py:122-135 | The loop of the repository merges key by key |
| `Provenance.MergeIsUnionUnlessNested` | workers/graph-builder/nexus_graph_builder/memory_repository.py:122-135 | The repository's merge records the union of the values exactly if it does not have to append a list to what is there |
| `Provenance.NestedExample` | workers/graph-builder/nexus_graph_builder/memory_repository.py:122-135 | Merging a list of two chunk ids into one chunk id does not record their union |
| `Provenance.UnionIsUnion` | workers/graph-builder/nexus_graph_builder/merger.py:87-105 | The merger's merge records the union of the values for every kind of value |
| `GraphExtraction.ParseResponse` | workers/graph-builder/nexus_graph_builder/extractor.py:189-238 | The two filtering loops keep, in order, the entities and relationships that parsing is said to keep |
| `GraphExtraction.KeptEntitiesAre` | workers/graph-builder/nexus_graph_builder/extractor.py:202-216 | Kept are exactly the entities that an entry gives, by its trimmed name, its type or TERM, and its confidence or the chunk's, if the name is not empty and the confidence suffices |
| `GraphExtraction.KeptLinksAre` | workers/graph-builder/nexus_graph_builder/extractor.py:217-238 | Kept are exactly the relationships that an entry gives, from its trimmed source to its trimmed target, by its type or RELATED_TO and its confidence or the chunk's, if both ends are names of kept entities and the confidence suffices |
| `GraphExtraction.KeptLinksAreKnown` | workers/graph-builder/nexus_graph_builder/extractor.py:217-227 | Names that agree in lower case agree when normalized, so every kept relationship is between kept entities |
| `GraphExtraction.LLMEntityExtractor.GetOrExtract` | workers/graph-builder/nexus_graph_builder/extractor.py:129-135 | A chunk that is not cached is answered with the extraction of its own answer or metadata, which is then cached; a cached one is answered as before |
| `Gateway.LLMGateway.TryComplete` | services/llm-gateway/nexus_llm_gateway/gateway.py:31-60 | The retry loop with its cache and telemetry ends as the call function says |
| `Gateway.CallsEnd` | services/llm-gateway/nexus_llm_gateway/gateway.py:31-60 | After any calls: no provider exactly if the route names none; answered from the cache exactly if an earlier answered call agreed in prompt, category, task type and parameters, and so in provider and model; answered by the provider exactly if not and some attempt within the limit does not fail; every answer is the text of its own request on the route of its task type |
| `Gateway.KeysAgree` | services/llm-gateway/nexus_llm_gateway/gateway.py:85-95 | Two cache keys are the same exactly if model, provider, prompt, category, task type and parameters are |
| `Gateway.TelemetryAddsUp` | services/llm-gateway/nexus_llm_gateway/gateway.py:31-82 | Over any calls and failures the recorded attempts add up to the provider calls exactly if the attempt limit is not negative or no call failed |
| `Gateway.NegativeLimitExample` | services/llm-gateway/nexus_llm_gateway/gateway.py:41-60 | With the limit -1 one call asks no provider and records -1 attempts |
| `Gateway.OneRecordEach` | services/llm-gateway/nexus_llm_gateway/gateway.py:35-60 | Every call past the provider lookup adds exactly one record, with the actor, category and task type of its request and the provider and model of its route; a cached answer is recorded with no attempts, another with the number of the first attempt that did not fail, a failed call with the limit |
| `Gateway.CachedLikeUncached` | services/llm-gateway/nexus_llm_gateway/gateway.py:31-60 | After any calls, a call ends as it would at a gateway without a cache, missing providers included, except exactly if the same question was answered before and every attempt would fail now, when it is answered again |
| `GraphCache.CachedGraphLookup` | services/nexus-api/nexus_api/query_optimizer.py:50-68 | For any mix of hits, misses, expired entries and repeated keys the answer is the direct lookup and exactly the looks that find no live entry are loaded; with a negative batch size the answer is the direct lookup exactly if every key was live at one of its looks |
| `GraphCache.NegativeBatchExample` | services/nexus-api/nexus_api/query_optimizer.py:16-22 | With the batch size -1 the answer to one key that is not cached is empty |
| `GraphCache.BatchLoader.LoadMany` | services/nexus-api/nexus_api/query_optimizer.py:16-22 | The batches concatenate to the keys, hold 1 to the maximum each and are as many as the quotient rounded up; a batch size of zero raises and a negative one loads nothing |
| `GraphCache.QueryCache.Get` | services/nexus-api/nexus_api/query_optimizer.py:32-38 | A live entry is returned, an expired one dropped |
| `SpanExtraction.Extract` | services/nexus-api/nexus_api/extraction.py:61-115 | A match is kept exactly if it overlaps none kept before it; relations are exactly one for each index pair that starts less than 100 apart, from the first text to the second, REFERENCES if and only if an end is an ENDPOINT, else CO_OCCURS |
| `SpanExtraction.EntitiesAreDisjoint` | services/nexus-api/nexus_api/extraction.py:68-95 | Selected spans are pairwise disjoint |
| `SpanExtraction.OverlapIsCommonPosition` | services/nexus-api/nexus_api/extraction.py:119-122 | Matches that are not empty overlap exactly if they have a position in common |
| `SpanExtraction.GreedyIsUnique` | services/nexus-api/nexus_api/extraction.py:68-95 | The greedy rule leaves nothing open: it determines the selection |

## Left out

- Sync.ConfluenceSyncService.Sync: one call is one step; traffic from other callers while it runs is covered by the event sequences of `Sync.TaggedJobsAreThePages` and `Sync.AbortAfterTraffic`.
- Uploads.UploadService.Accept: which of several indexed jobs with the same content decides (the one finished last) is left open, because finishing times are not modelled.
- JobVisibility.RunOnceIsSafeUnless: the loader of a job is taken to find at most the one staged file of the job.
- Search.ResultsMayBeShown: the similarity search itself is foreign; its answer is any list that meets `Search.Answers`.
- GraphRebuild.ChunkOrderDoesNotMatter: ids and the spelling of a name come from whichever candidate was first and are not part of the statement; chunks with one id are taken to be one chunk, as ids are keys of the chunk table.
- GraphRebuild.OrderMattersToDocumentsOnly: the record of a document entity bears the provenance and confidence of the chunk that came first, so nothing is said of it.
- GraphCache.CachedGraphLookup: looks at the clock are numbered by key, and the clock never runs backwards, as the monotonic clock of the program does not.
- GraphTable.TableIs: provenance lists are compared as sets of values; sharing of one list between record copies is not modelled.
- Gateway.CallsEnd: the digest of the cache key is taken to be injective, and a provider's answer to depend on the route and on prompt, category, task type and parameters, not on the actor.
- Interleaving inside one service call: each call on both stores is one step, except in the job queue, where single transactions interleave freely.
- Crashes of a worker in the middle of a pass and exceptions of repository calls other than the ones named.
- The audit log, error texts and their redaction, timestamps other than queueing and acknowledgement times, and the hash, token count and metadata copies of chunks.
- The fields of a payload that neither the filter nor the join of a search reads (title, path, heading path and the like).
- The unique path of jobs, workspaces and their members, and what deleting a workspace would do.
- Floating-point rounding: confidences, scores and times are reals.
- Embeddings, the rerank weights, snippets and the graph attached to a search result.
- Partial writes inside the vector index; a failing call is taken to write nothing.
- Roles, limit clamps, routers, token parsing, configuration and the web console.
- The SQLAlchemy graph repository and the persistence service of the graph; only the in-memory graph repository is modelled.
- The prompt texts, JSON decoding and domain templates of the language-model extractors; a decoding error is an answer that is missing.
- The regular expressions of span extraction; their matches are any lists of spans.
