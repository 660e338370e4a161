/** Pulling pages into the job queue: what a sync run accounts for, with any other queue
    traffic in between, and what it leaves behind when it fails. */
module Sync {
  import opened Options
  import opened Records
  import opened Store
  import opened JobQueue
  import opened Conservation
  import opened Repository

  ghost function TaggedIds(jobs: Jobs, run: Id): set<Id> {
    set j | j in jobs && Tagged(jobs[j], run)
  }

  ghost predicate FreshJobs(db: Db) {
    forall j | j in db.jobs :: j < db.nextId
  }

  // ---------------------------------------------------------------- one sync call

  /** What a sync brings: the staging paths of its pages in order, the queueing times, and on
      whose behalf. */
  datatype Batch = Batch(paths: seq<string>, times: nat -> int, workspaceId: Id, uploader: string, maxAttempts: int)

  ghost function PageJob(b: Batch, run: Id, i: nat): Job
    requires i < |b.paths|
  {
    Job(b.paths[i], b.uploader, Some(b.workspaceId), Queued, 0, b.maxAttempts, None, None, None, None, None, Some(run),
        b.times(i))
  }

  ghost function StartSync(db: Db, workspaceId: Id): Db {
    db.(syncRuns := db.syncRuns[db.nextId := SyncRun(workspaceId, Running, 0, 0)], nextId := db.nextId + 1)
  }

  ghost function EnqueuePages(db: Db, b: Batch, run: Id, n: nat): Db
    requires n <= |b.paths|
  {
    if n == 0 then db else CreateJob(EnqueuePages(db, b, run, n - 1), PageJob(b, run, n - 1))
  }

  ghost function FinishSync(db: Db, run: Id, status: RunStatus, seen: nat, indexed: nat): Db
    requires run in db.syncRuns
  {
    db.(syncRuns := db.syncRuns[run := SyncRun(db.syncRuns[run].workspaceId, status, seen, indexed)])
  }

  /** Nothing but jobs and sync runs is new, and no old job changed. */
  ghost predicate OnlyAddsJobs(db: Db, after: Db) {
    && after.documents == db.documents && after.versions == db.versions && after.chunks == db.chunks
    && after.reviews == db.reviews && after.runs == db.runs
    && forall j | j in db.jobs :: j in after.jobs && after.jobs[j] == db.jobs[j]
  }

  /** The job asks for page `i` of the batch: its staged file, on behalf of the batch, as a new
      upload of which nothing has been tried yet. */
  ghost predicate AsksForPage(job: Job, b: Batch, run: Id, i: nat) {
    && i < |b.paths| && job.sourcePath == b.paths[i] && job.queuedAt == b.times(i)
    && job.uploadedBy == b.uploader && job.workspaceId == Some(b.workspaceId) && job.syncRunId == Some(run)
    && job.attempt == 0 && job.maxAttempts == b.maxAttempts
    && job.targetDocumentId == None && job.documentId == None && job.runId == None && job.rawContentHash == None
  }

  /** Exactly `n` jobs are tagged with the run. They are new, their ids follow the run's, and
      they ask for the first `n` pages in order, all with this status and error message. */
  ghost predicate HasPages(db: Db, after: Db, b: Batch, run: Id, n: nat, status: JobStatus, error: Option<string>) {
    && |TaggedIds(after.jobs, run)| == n
    && (forall j | j in after.jobs :: after.jobs[j].syncRunId == Some(run) <==> run < j <= run + n)
    && forall i | 0 <= i < n :: HasPage(db, after, b, run, i, status, error)
  }

  ghost predicate HasPage(db: Db, after: Db, b: Batch, run: Id, i: nat, status: JobStatus, error: Option<string>) {
    var j := run + 1 + i;
    && j !in db.jobs && j in after.jobs && AsksForPage(after.jobs[j], b, run, i)
    && after.jobs[j].status == status && after.jobs[j].errorMessage == error
  }

  /** The jobs tagged with `run` are the `n` ids after it. */
  lemma TaggedAreCounted(jobs: Jobs, run: Id, n: nat)
    requires forall j | j in jobs :: jobs[j].syncRunId == Some(run) <==> run < j <= run + n
    requires forall j: Id | run < j <= run + n :: j in jobs
    ensures |TaggedIds(jobs, run)| == n
  {
    assert TaggedIds(jobs, run) == IdRange(run + 1, n);
    RangeSize(run + 1, n);
  }

  lemma {:induction false} RangeSize(first: Id, n: nat)
    ensures |IdRange(first, n)| == n
  {
    if n > 0 { RangeSize(first, n - 1); }
  }

  lemma {:induction false} PagesAreQueued(db: Db, b: Batch, run: Id, n: nat)
    requires n <= |b.paths| && FreshJobs(db) && TaggedIds(db.jobs, run) == {} && db.nextId == run + 1
    ensures var after := EnqueuePages(db, b, run, n);
            && OnlyAddsJobs(db, after) && FreshJobs(after) && after.nextId == run + 1 + n
            && HasPages(db, after, b, run, n, Queued, None)
  {
    hide HasPages;
    if n == 0 {
      NoPageYet(db, b, run);
    } else {
      PagesAreQueued(db, b, run, n - 1);
      var before := EnqueuePages(db, b, run, n - 1);
      OnePageMore(db, before, b, run, n - 1);
    }
  }

  lemma NoPageYet(db: Db, b: Batch, run: Id)
    requires TaggedIds(db.jobs, run) == {}
    ensures HasPages(db, db, b, run, 0, Queued, None)
  {
    forall j | j in db.jobs ensures db.jobs[j].syncRunId != Some(run) { assert j !in TaggedIds(db.jobs, run); }
  }

  lemma OnePageMore(db: Db, before: Db, b: Batch, run: Id, n: nat)
    requires n < |b.paths| && FreshJobs(db) && FreshJobs(before) && before.nextId == run + 1 + n
    requires OnlyAddsJobs(db, before) && HasPages(db, before, b, run, n, Queued, None) && db.nextId == run + 1
    ensures var after := CreateJob(before, PageJob(b, run, n));
            && OnlyAddsJobs(db, after) && FreshJobs(after) && after.nextId == run + 2 + n
            && HasPages(db, after, b, run, n + 1, Queued, None)
  {
    hide TaggedIds;
    var m, after := n + 1, CreateJob(before, PageJob(b, run, n));
    forall i | 0 <= i < m ensures HasPage(db, after, b, run, i, Queued, None) {
      if i < n { assert HasPage(db, before, b, run, i, Queued, None); }
    }
    forall j: Id | run < j <= run + m ensures j in after.jobs {
      assert HasPage(db, after, b, run, j - run - 1, Queued, None);
    }
    TaggedAreCounted(after.jobs, run, m);
  }

  /** What a whole call leaves behind: `stop` is the number of pages enqueued when an exception
      was raised, listing the pages included. */
  ghost function SyncCall(db: Db, b: Batch, listed: bool, stop: Option<nat>): Db
    requires stop.Some? ==> stop.value <= |b.paths|
  {
    var run, started := db.nextId, StartSync(db, b.workspaceId);
    if listed && stop == None then
      PagesKeepSyncRuns(started, b, run, |b.paths|);
      FinishSync(EnqueuePages(started, b, run, |b.paths|), run, Completed, |b.paths|, |b.paths|)
    else
      var n := if listed then stop.value else 0;
      PagesKeepSyncRuns(started, b, run, n);
      var seen := if listed then |b.paths| else 0;
      CleanupSyncRun(FinishSync(EnqueuePages(started, b, run, n), run, Aborted, seen, n), run)
  }

  lemma {:induction false} PagesKeepSyncRuns(db: Db, b: Batch, run: Id, n: nat)
    requires n <= |b.paths|
    ensures EnqueuePages(db, b, run, n).syncRuns == db.syncRuns
  {
    if n > 0 { PagesKeepSyncRuns(db, b, run, n - 1); }
  }

  lemma PageStep(db: Db, b: Batch, run: Id, n: nat)
    requires n <= |b.paths|
    ensures n == 0 ==> EnqueuePages(db, b, run, n) == db
    ensures n < |b.paths| ==>
              EnqueuePages(db, b, run, n + 1) == CreateJob(EnqueuePages(db, b, run, n), PageJob(b, run, n))
  {
  }

  /** A completed call: the run has seen and indexed exactly as many pages as jobs are tagged
      with it, one for each page in order, all of them queued, and nothing else is different. */
  lemma CompletedCallAccounts(db: Db, b: Batch)
    requires FreshJobs(db) && TaggedIds(db.jobs, db.nextId) == {}
    ensures var run, after := db.nextId, SyncCall(db, b, true, None);
            && run in after.syncRuns && after.syncRuns[run] == SyncRun(b.workspaceId, Completed, |b.paths|, |b.paths|)
            && HasPages(db, after, b, run, |b.paths|, Queued, None) && OnlyAddsJobs(db, after)
  {
    var run, started := db.nextId, StartSync(db, b.workspaceId);
    PagesAreQueued(started, b, run, |b.paths|);
    PagesKeepSyncRuns(started, b, run, |b.paths|);
    hide EnqueuePages, TaggedIds;
    var after, pages := SyncCall(db, b, true, None), EnqueuePages(started, b, run, |b.paths|);
    SamePages(started, pages, db, after, b, run, |b.paths|, Queued, None);
  }

  lemma SamePages(db: Db, after: Db, other: Db, otherAfter: Db, b: Batch, run: Id, n: nat, status: JobStatus,
                  error: Option<string>)
    requires db.jobs == other.jobs && after.jobs == otherAfter.jobs && HasPages(db, after, b, run, n, status, error)
    ensures HasPages(other, otherAfter, b, run, n, status, error)
  {
    forall i | 0 <= i < n ensures HasPage(other, otherAfter, b, run, i, status, error) {
      assert HasPage(db, after, b, run, i, status, error);
    }
  }

  /** What a failed run leaves in its jobs. */
  ghost const ABORT_MESSAGE := Some("sync run aborted: all pages from this run are being discarded")

  lemma StopPages(db: Db, full: Db, b: Batch, run: Id, n: nat)
    requires OnlyAddsJobs(db, full) && HasPages(db, full, b, run, n, Queued, None)
    ensures var after := StopTagged(full, run);
            && OnlyAddsJobs(db, after) && HasPages(db, after, b, run, n, Failed, ABORT_MESSAGE)
            && Produced(full, run) == {}
  {
    var after := StopTagged(full, run);
    assert TaggedIds(after.jobs, run) == TaggedIds(full.jobs, run);
    hide TaggedIds;
    forall j | j in full.jobs && Tagged(full.jobs[j], run) ensures j !in db.jobs && full.jobs[j].documentId == None {
      assert HasPage(db, full, b, run, j - run - 1, Queued, None);
    }
    forall i | 0 <= i < n ensures HasPage(db, after, b, run, i, Failed, ABORT_MESSAGE) {
      assert HasPage(db, full, b, run, i, Queued, None);
    }
  }

  /** A failed call: the run is recorded as failed, every job it enqueued, one for each page up to
      the exception in order, has failed, and nothing else is different. */
  lemma FailedCallLeavesNothing(db: Db, b: Batch, listed: bool, stop: Option<nat>)
    requires FreshJobs(db) && TaggedIds(db.jobs, db.nextId) == {}
    requires stop.Some? ==> stop.value <= |b.paths|
    requires !listed || stop.Some?
    ensures var run, after := db.nextId, SyncCall(db, b, listed, stop);
            var n := if listed then stop.value else 0;
            && run in after.syncRuns
            && after.syncRuns[run] == SyncRun(b.workspaceId, Aborted, if listed then |b.paths| else 0, n)
            && HasPages(db, after, b, run, n, Failed, ABORT_MESSAGE) && OnlyAddsJobs(db, after)
  {
    var run, started := db.nextId, StartSync(db, b.workspaceId);
    var n := if listed then stop.value else 0;
    PagesAreQueued(started, b, run, n);
    PagesKeepSyncRuns(started, b, run, n);
    var pages := EnqueuePages(started, b, run, n);
    var full := FinishSync(pages, run, Aborted, if listed then |b.paths| else 0, n);
    hide EnqueuePages, TaggedIds, StopTagged, Produced, DeleteDocuments, HasPages;
    SamePages(started, pages, db, full, b, run, n, Queued, None);
    StopPages(db, full, b, run, n);
    NothingGone(StopTagged(full, run));
    StopKeepsSyncRuns(full, run);
  }

  lemma StopKeepsSyncRuns(db: Db, run: Id)
    ensures StopTagged(db, run).syncRuns == db.syncRuns
  {
  }

  /** What a call leaves in the queue: one job tagged with its run for each page it reached, in
      order, waiting after a completed call and failed after any other. */
  ghost predicate LeavesPages(db: Db, after: Db, b: Batch, listed: bool, stop: Option<nat>) {
    FreshJobs(db) && TaggedIds(db.jobs, db.nextId) == {} ==>
      var n := if !listed then 0 else if stop.Some? then stop.value else |b.paths|;
      if listed && stop == None then HasPages(db, after, b, db.nextId, n, Queued, None)
      else HasPages(db, after, b, db.nextId, n, Failed, ABORT_MESSAGE)
  }

  lemma CallLeavesPages(db: Db, b: Batch, listed: bool, stop: Option<nat>)
    requires stop.Some? ==> stop.value <= |b.paths|
    ensures LeavesPages(db, SyncCall(db, b, listed, stop), b, listed, stop)
  {
    hide HasPages, SyncCall;
    if FreshJobs(db) && TaggedIds(db.jobs, db.nextId) == {} {
      if listed && stop == None { CompletedCallAccounts(db, b); } else { FailedCallLeavesNothing(db, b, listed, stop); }
    }
  }

  class ConfluenceSyncService {
    const repository: MetadataRepository
    const maxAttempts: int

    constructor (repository: MetadataRepository, maxAttempts: int)
      ensures this.repository == repository && this.maxAttempts == maxAttempts
    {
      this.repository, this.maxAttempts := repository, maxAttempts;
    }

    /** `sync`; `pages` is `None` when listing them raises. */
    method Sync(workspaceId: Id, actor: string, pages: Option<seq<string>>, times: nat -> int, stop: Option<nat>)
      returns (run: Id, status: RunStatus)
      requires pages.Some? && stop.Some? ==> stop.value <= |pages.value|
      modifies repository
      ensures run == old(repository.nextId)
      ensures status == if pages.Some? && stop == None then Completed else Aborted
      ensures var paths := if pages.Some? then pages.value else [];
              var batch := Batch(paths, times, workspaceId, "confluence-sync:" + actor, maxAttempts);
              var reached := if pages.Some? then stop else None;
              && repository.State() == SyncCall(old(repository.State()), batch, pages.Some?, reached)
              && LeavesPages(old(repository.State()), repository.State(), batch, pages.Some?, reached)
    {
      hide EnqueuePages, CleanupSyncRun, LeavesPages;
      var seen: nat, indexed: nat := 0, 0;
      run := repository.NewId();
      repository.syncRuns := repository.syncRuns[run := SyncRun(workspaceId, Running, 0, 0)];
      ghost var started := repository.State();
      ghost var batch := Batch(if pages.Some? then pages.value else [], times, workspaceId, "confluence-sync:" + actor,
                               maxAttempts);
      PageStep(started, batch, run, 0);
      if pages.Some? {
        seen := |pages.value|;
        var reach := if stop.Some? then stop.value else seen;
        while indexed < reach
          invariant indexed <= reach
          invariant repository.State() == EnqueuePages(started, batch, run, indexed)
        {
          PageStep(started, batch, run, indexed);
          var j := repository.CreateIngestionJob(
            Job(pages.value[indexed], "confluence-sync:" + actor, Some(workspaceId), Queued, 0, maxAttempts, None, None,
                None, None, None, Some(run), times(indexed)));
          indexed := indexed + 1;
        }
      }
      PagesKeepSyncRuns(started, batch, run, indexed);
      status := if pages.Some? && stop == None then Completed else Aborted;
      var row := repository.syncRuns[run];
      repository.syncRuns := repository.syncRuns[run := SyncRun(row.workspaceId, status, seen, indexed)];
      if status == Aborted {
        var removed := repository.CleanupRun(run);
      }
      CallLeavesPages(old(repository.State()), batch, pages.Some?, if pages.Some? then stop else None);
    }
  }

  // ---------------------------------------------------------------- with traffic in between

  /** While a sync call enqueues its pages, the worker and other callers go on using the queue. */
  datatype Event = Page(job: Job) | Other(step: QueueStep)

  ghost predicate Fits(event: Event, run: Id) {
    match event
    case Page(job) => Tagged(job, run)
    case Other(step) => step.Create? ==> !Tagged(step.job, run)
  }

  ghost function SyncAfter(db: Db, events: seq<Event>): Db {
    if events == [] then db
    else
      var before := SyncAfter(db, events[..|events| - 1]);
      match events[|events| - 1]
      case Page(job) => CreateJob(before, job)
      case Other(step) => QueueNext(before, step)
  }

  ghost function PagesIn(events: seq<Event>): nat {
    if events == [] then 0 else PagesIn(events[..|events| - 1]) + if events[|events| - 1].Page? then 1 else 0
  }

  ghost predicate SameTags(db: Db, after: Db) {
    && after.jobs.Keys == db.jobs.Keys && after.nextId == db.nextId
    && forall j | j in db.jobs :: after.jobs[j].syncRunId == db.jobs[j].syncRunId
  }

  lemma DeletingKeepsTags(db: Db, gone: set<Id>)
    ensures SameTags(db, DeleteDocuments(db, gone))
  {
  }

  lemma StoppingKeepsTags(db: Db, run: Id)
    ensures SameTags(db, StopTagged(db, run))
  {
  }

  lemma TagStays(db: Db, j: Id, job: Job)
    requires j in db.jobs && job.syncRunId == db.jobs[j].syncRunId
    ensures SameTags(db, db.(jobs := db.jobs[j := job]))
  {
  }

  lemma RowKeepsTags(db: Db, step: QueueStep)
    requires !step.Create? && !step.Cleanup? && !step.Delete?
    ensures SameTags(db, QueueNext(db, step))
  {
    assert SameTags(db, db);
    hide SameTags;
    if step.j in db.jobs { TagStays(db, step.j, QueueNext(db, step).jobs[step.j]); }
  }

  lemma QueueKeepsTags(db: Db, step: QueueStep)
    requires !step.Create?
    ensures SameTags(db, QueueNext(db, step))
  {
    hide DeleteDocuments, StopTagged, Produced, SameTags;
    match step {
      case Cleanup(r) =>
        StoppingKeepsTags(db, r);
        DeletingKeepsTags(StopTagged(db, r), Produced(db, r));
        SameTagsTwice(db, StopTagged(db, r), QueueNext(db, step));
      case Delete(documents) => DeletingKeepsTags(db, documents);
      case Create(job) =>
      case _ => RowKeepsTags(db, step);
    }
  }

  lemma SameTagsTwice(db: Db, middle: Db, after: Db)
    requires SameTags(db, middle) && SameTags(middle, after)
    ensures SameTags(db, after)
  {
  }

  lemma StepKeepsTags(db: Db, step: QueueStep, run: Id)
    requires FreshJobs(db) && (step.Create? ==> !Tagged(step.job, run))
    ensures TaggedIds(QueueNext(db, step).jobs, run) == TaggedIds(db.jobs, run) && FreshJobs(QueueNext(db, step))
  {
    if step.Create? {
      var after := QueueNext(db, step);
      assert after == db || after == CreateJob(db, step.job);
    } else {
      QueueKeepsTags(db, step);
      hide QueueNext;
      SameTagsAre(db, QueueNext(db, step), run);
    }
  }

  lemma SameTagsAre(db: Db, after: Db, run: Id)
    requires SameTags(db, after) && FreshJobs(db)
    ensures TaggedIds(after.jobs, run) == TaggedIds(db.jobs, run) && FreshJobs(after)
  {
  }

  /** Whatever else happens to the queue meanwhile, the jobs tagged with a run are as many as
      the pages it has enqueued. */
  lemma {:induction false} TaggedJobsAreThePages(db: Db, events: seq<Event>, run: Id)
    requires FreshJobs(db) && TaggedIds(db.jobs, run) == {}
    requires forall i | 0 <= i < |events| :: Fits(events[i], run)
    ensures FreshJobs(SyncAfter(db, events))
    ensures |TaggedIds(SyncAfter(db, events).jobs, run)| == PagesIn(events)
  {
    if events != [] {
      var before := SyncAfter(db, events[..|events| - 1]);
      var event := events[|events| - 1];
      assert Fits(event, run);
      TaggedJobsAreThePages(db, events[..|events| - 1], run);
      hide QueueNext;
      match event {
        case Page(job) =>
          var after := CreateJob(before, job);
          assert TaggedIds(after.jobs, run) == TaggedIds(before.jobs, run) + {before.nextId};
        case Other(step) =>
          StepKeepsTags(before, step, run);
      }
    }
  }

  /** When the run fails after any such history, none of its jobs is left waiting or running,
      none of the documents they had produced is left, no other job loses anything but a
      reference to one of those, and no other document is touched. */
  lemma AbortAfterTraffic(db: Db, events: seq<Event>, run: Id)
    requires FreshJobs(db) && TaggedIds(db.jobs, run) == {}
    requires forall i | 0 <= i < |events| :: Fits(events[i], run)
    ensures var before := SyncAfter(db, events); var after := CleanupSyncRun(before, run);
            && |TaggedIds(after.jobs, run)| == PagesIn(events)
            && (forall j | j in TaggedIds(before.jobs, run) ::
                  && j in after.jobs && after.jobs[j].status != Queued && after.jobs[j].status != Extracting
                  && (before.jobs[j].documentId.Some? ==> before.jobs[j].documentId.value !in after.documents))
            && (forall d | d in before.documents && d !in Produced(before, run) ::
                  d in after.documents && after.documents[d] == before.documents[d])
            && (forall j | j in before.jobs && j !in TaggedIds(before.jobs, run) ::
                  j in after.jobs && after.jobs[j].status == before.jobs[j].status)
  {
    var before := SyncAfter(db, events);
    var after := CleanupSyncRun(before, run);
    TaggedJobsAreThePages(db, events, run);
    hide SyncAfter, CleanupSyncRun, Produced, QueueNext, TaggedIds;
    CleanupKeepsTags(before, run);
    AbortedRows(before, run);
  }

  lemma CleanupKeepsTags(db: Db, run: Id)
    requires FreshJobs(db)
    ensures TaggedIds(CleanupSyncRun(db, run).jobs, run) == TaggedIds(db.jobs, run)
  {
    hide CleanupSyncRun, TaggedIds, FreshJobs;
    StepKeepsTags(db, Cleanup(run), run);
  }

  /** The jobs and documents of an aborted run, in terms of the tagged jobs. */
  lemma AbortedRows(db: Db, run: Id)
    ensures var after := CleanupSyncRun(db, run);
            && (forall j | j in TaggedIds(db.jobs, run) ::
                  && j in after.jobs && after.jobs[j].status != Queued && after.jobs[j].status != Extracting
                  && (db.jobs[j].documentId.Some? ==> db.jobs[j].documentId.value !in after.documents))
            && (forall d | d in db.documents && d !in Produced(db, run) ::
                  d in after.documents && after.documents[d] == db.documents[d])
            && (forall j | j in db.jobs && j !in TaggedIds(db.jobs, run) ::
                  j in after.jobs && after.jobs[j].status == db.jobs[j].status)
  {
    hide CleanupSyncRun, Produced, Tagged;
    AbortDiscards(db, run);
  }

  // ---------------------------------------------------------------- jobs that outlive the abort

  /** The jobs claimed and neither completed nor failed since, if `held` were at the start. */
  ghost function HeldAfter(db: Db, held: set<Id>, steps: seq<QueueStep>): set<Id> {
    if steps == [] then held
    else
      var before, now := HeldAfter(db, held, steps[..|steps| - 1]), QueueAfter(db, steps[..|steps| - 1]).jobs;
      match steps[|steps| - 1]
      case Claim(j) => if j in now && now[j].status == Queued then before + {j} else before
      case Complete(j, _, _) => before - {j}
      case Fail(j, _) => before - {j}
      case _ => before
  }

  /** Step `step` ends the attempt at job `j`. */
  ghost predicate Ends(step: QueueStep, j: Id) {
    (step.Complete? && step.j == j) || (step.Fail? && step.j == j)
  }

  /** A worker completes and fails only what it has claimed. */
  ghost predicate Obeyed(db: Db, held: set<Id>, steps: seq<QueueStep>) {
    steps != [] ==>
      && Obeyed(db, held, steps[..|steps| - 1])
      && var last := steps[|steps| - 1];
         (last.Complete? || last.Fail? ==> last.j in HeldAfter(db, held, steps[..|steps| - 1]))
  }

  /** The step takes the failed job `j` out of its failure: it is completed, or the attempt fails
      with more attempts left. */
  ghost predicate Revives(job: Job, step: QueueStep, j: Id) {
    Ends(step, j) && (step.Fail? ==> job.attempt < job.maxAttempts)
  }

  /** Job `j` is failed at the start and after each of the steps. */
  ghost predicate StaysFailed(db: Db, steps: seq<QueueStep>, j: Id) {
    && j in QueueAfter(db, steps).jobs && QueueAfter(db, steps).jobs[j].status == Failed
    && (steps != [] ==> StaysFailed(db, steps[..|steps| - 1], j))
  }

  /** Job `j` has failed, with the attempts of `job`. */
  ghost predicate FailedAs(db: Db, j: Id, job: Job) {
    && FreshJobs(db) && j in db.jobs && db.jobs[j].status == Failed
    && db.jobs[j].attempt == job.attempt && db.jobs[j].maxAttempts == job.maxAttempts
  }

  lemma FailedStep(db: Db, step: QueueStep, j: Id, job: Job)
    requires FailedAs(db, j, job) && !(step.Restart? && step.j == j)
    ensures var after := QueueNext(db, step);
            && (FailedAs(after, j, job) <==> !Revives(job, step, j))
            && (Revives(job, step, j) ==>
                  j in after.jobs && after.jobs[j].status == if step.Complete? then Indexed else Queued)
  {
    hide DeleteDocuments, StopTagged, Produced, FailedAs;
    match step {
      case Cleanup(run) =>
        StoppingKeepsFailures(db, run, j, job);
        DeletingKeepsFailures(StopTagged(db, run), Produced(db, run), j, job);
      case Delete(documents) => DeletingKeepsFailures(db, documents, j, job);
      case _ => FailedRow(db, step, j, job);
    }
  }

  lemma FailedRow(db: Db, step: QueueStep, j: Id, job: Job)
    requires FailedAs(db, j, job) && !(step.Restart? && step.j == j) && !step.Cleanup? && !step.Delete?
    ensures var after := QueueNext(db, step);
            && (FailedAs(after, j, job) <==> !Revives(job, step, j))
            && (Revives(job, step, j) ==>
                  j in after.jobs && after.jobs[j].status == if step.Complete? then Indexed else Queued)
  {
  }

  lemma DeletingKeepsFailures(db: Db, gone: set<Id>, j: Id, job: Job)
    requires FailedAs(db, j, job)
    ensures FailedAs(DeleteDocuments(db, gone), j, job)
  {
  }

  lemma StoppingKeepsFailures(db: Db, run: Id, j: Id, job: Job)
    requires FailedAs(db, j, job)
    ensures FailedAs(StopTagged(db, run), j, job)
  {
  }

  lemma {:induction false} FailedUntilRevived(db: Db, held: set<Id>, steps: seq<QueueStep>, j: Id)
    requires FreshJobs(db) && j in db.jobs && db.jobs[j].status == Failed
    requires forall i | 0 <= i < |steps| :: !(steps[i].Restart? && steps[i].j == j)
    ensures StaysFailed(db, steps, j) <==> forall i | 0 <= i < |steps| :: !Revives(db.jobs[j], steps[i], j)
    ensures StaysFailed(db, steps, j) ==>
              && FailedAs(QueueAfter(db, steps), j, db.jobs[j])
              && (j in HeldAfter(db, held, steps) ==> j in held)
  {
    hide QueueNext, FreshJobs, Revives;
    if steps != [] {
      var init, last := steps[..|steps| - 1], steps[|steps| - 1];
      FailedUntilRevived(db, held, init, j);
      assert !(last.Restart? && last.j == j);
      if StaysFailed(db, init, j) {
        FailedStep(QueueAfter(db, init), last, j, db.jobs[j]);
      }
    }
  }

  lemma SameRevivals(a: Job, b: Job, step: QueueStep, j: Id)
    requires a.attempt == b.attempt && a.maxAttempts == b.maxAttempts
    ensures Revives(a, step, j) <==> Revives(b, step, j)
  {
  }

  /** A job that nobody holds is not ended, so it stays failed. */
  lemma {:induction false} UnheldStaysFailed(db: Db, held: set<Id>, steps: seq<QueueStep>, j: Id)
    requires FreshJobs(db) && j in db.jobs && db.jobs[j].status == Failed && j !in held && Obeyed(db, held, steps)
    requires forall i | 0 <= i < |steps| :: !(steps[i].Restart? && steps[i].j == j)
    ensures StaysFailed(db, steps, j)
  {
    hide QueueNext, FreshJobs;
    if steps != [] {
      var init, last := steps[..|steps| - 1], steps[|steps| - 1];
      UnheldStaysFailed(db, held, init, j);
      FailedUntilRevived(db, held, init, j);
      assert !Ends(last, j);
      assert !(last.Restart? && last.j == j);
      FailedStep(QueueAfter(db, init), last, j, db.jobs[j]);
    }
  }

  /** Which jobs outlive the abort: a waiting or running job that the abort has failed leaves its
      failure again, short of a restart by hand, exactly if it was running at the abort and its
      worker completes it later, or fails it with attempts left. */
  lemma RevivedExactlyIfRunning(db: Db, run: Id, held: set<Id>, steps: seq<QueueStep>, j: Id)
    requires FreshJobs(db) && j in TaggedIds(db.jobs, run)
    requires db.jobs[j].status == Queued || db.jobs[j].status == Extracting
    requires forall h | h in held :: h in db.jobs && db.jobs[h].status == Extracting
    requires Obeyed(CleanupSyncRun(db, run), held, steps)
    requires forall i | 0 <= i < |steps| :: !(steps[i].Restart? && steps[i].j == j)
    ensures var aborted := CleanupSyncRun(db, run);
            && j in aborted.jobs && aborted.jobs[j].status == Failed
            && (!StaysFailed(aborted, steps, j) <==>
                  && db.jobs[j].status == Extracting
                  && exists i :: 0 <= i < |steps| && Revives(db.jobs[j], steps[i], j))
  {
    hide Produced, QueueNext;
    var aborted := CleanupSyncRun(db, run);
    assert FreshJobs(aborted) && j in aborted.jobs && aborted.jobs[j].status == Failed;
    forall i | 0 <= i < |steps| ensures Revives(aborted.jobs[j], steps[i], j) <==> Revives(db.jobs[j], steps[i], j) {
      SameRevivals(aborted.jobs[j], db.jobs[j], steps[i], j);
    }
    hide CleanupSyncRun, Revives, FreshJobs;
    FailedUntilRevived(aborted, held, steps, j);
    if db.jobs[j].status == Queued { UnheldStaysFailed(aborted, held, steps, j); }
  }
}
