/** Runs of the whole system: any sequence of service calls on the two stores, each one step. */
module Runs {
  import opened Options
  import opened Records
  import opened Store
  import opened StoreIntegrity
  import opened Ingestion
  import opened IngestionIntegrity
  import opened Visibility
  import opened JobVisibility
  import opened ScanVisibility
  import opened Labels
  import opened Services

  datatype Step =
    | Enqueue(job: Job)
    | Work(next: Id, plan: Plan)
    | Scan(path: string, plan: Plan)
    | Review(call: ReviewCall, indexFails: bool)
    | Ack(document: Id, actor: string, now: int, indexFails: bool)
    | Retry(failed: Id, now: int)
    | AbortSync(run: Id)
    | Delete(path: string)

  /** A fresh row of the job queue. */
  ghost predicate NewJob(db: Db, job: Job) {
    && job.status == Queued && job.attempt == 0 && job.documentId == None && JobRefersTo(db.documents, job)
  }

  /** What the services guarantee about the arguments of a step. */
  ghost predicate Enabled(w: World, step: Step) {
    match step
    case Enqueue(job) => NewJob(w.db, job)
    case Work(j, plan) => IsNext(w.db.jobs, j) && StagedFile(plan, w.db.jobs[j].sourcePath)
    case _ => true
  }

  ghost function Next(w: World, step: Step, setup: Setup): World
    requires Enabled(w, step)
  {
    match step
    case Enqueue(job) => World(CreateJob(w.db, job), w.points)
    case Work(j, plan) => RunOnce(w, j, setup, plan).world
    case Scan(path, plan) => Ingest(w, Request(path, None, None, None), setup, plan).world
    case Review(call, indexFails) => ApplyReview(w, call, indexFails)
    case Ack(d, actor, now, indexFails) => ApplyAck(w, d, actor, now, indexFails)
    case Retry(j, now) => World(OrElse(RetryJob(w.db, j, now), w.db), w.points)
    case AbortSync(run) => World(CleanupSyncRun(w.db, run), w.points)
    case Delete(path) => World(DeleteByPath(w.db, path), w.points)
  }

  /** The steps that expose no chunk, told by the world before the step. */
  ghost predicate Harmless(w: World, step: Step)
    requires Enabled(w, step)
  {
    match step
    case Work(j, plan) => !TakesBackAck(w, j, plan)
    case Scan(path, plan) => !ScanExposes(w, plan)
    case Review(call, indexFails) => !ReviewExposes(w, call, indexFails)
    case Ack(d, actor, now, indexFails) => !AckExposes(w, d, actor, now, indexFails)
    case _ => true
  }

  // ---------------------------------------------------------------- every step

  lemma AbortIsSafe(w: World, run: Id)
    requires Safe(w)
    ensures Safe(World(CleanupSyncRun(w.db, run), w.points))
  {
    StopTaggedKeeps(w.db, run);
    hide Integrity, ReviewsSound;
    SameContentIsSafe(w, World(StopTagged(w.db, run), w.points));
    DeletedIsSafe(World(StopTagged(w.db, run), w.points), {}, Produced(w.db, run));
  }

  lemma DeleteIsSafe(w: World, path: string)
    requires Safe(w)
    ensures Safe(World(DeleteByPath(w.db, path), w.points))
  {
    hide Integrity, ReviewsSound;
    DeletedIsSafe(w, {}, set d | d in w.db.documents && w.db.documents[d].fields.sourcePath == path);
  }

  lemma RetryIsSafe(w: World, j: Id, now: int)
    requires Safe(w)
    ensures Safe(World(OrElse(RetryJob(w.db, j, now), w.db), w.points))
  {
    var r := RetryJob(w.db, j, now);
    if r.Some? {
      JobRefs(w.db, j);
      hide Integrity, PointsSound, ReviewsSound;
      JobRowKeeps(w.db, j, r.value.jobs[j]);
      JobRowIsSafe(w, r.value);
    }
  }

  lemma EnqueueIsSafe(w: World, job: Job)
    requires Safe(w) && JobRefersTo(w.db.documents, job)
    ensures Safe(World(CreateJob(w.db, job), w.points))
  {
    hide Integrity, PointsSound, ReviewsSound;
    CreateJobKeeps(w.db, job);
    SameContentIsSafe(w, World(CreateJob(w.db, job), w.points));
  }

  /** Every step keeps the integrity of the database and of the pending reviews, and leaves the
      points sound exactly if it is harmless. */
  lemma StepIsSafe(w: World, step: Step, setup: Setup)
    requires Safe(w) && Enabled(w, step)
    ensures Integrity(Next(w, step, setup).db) && ReviewsSound(Next(w, step, setup).db)
    ensures PointsSound(Next(w, step, setup)) <==> Harmless(w, step)
  {
    hide Integrity, PointsSound, ReviewsSound, RunOnce, Ingest, ScanExposes, ApplyReview, ApplyAck, RetryJob;
    hide CleanupSyncRun, DeleteByPath, AckExposes, ReviewExposes;
    match step
    case Enqueue(job) => EnqueueIsSafe(w, job);
    case Work(j, plan) => RunOnceIsSafeUnless(w, j, setup, plan);
    case Scan(path, plan) => ScanIsSafeUnless(w, Request(path, None, None, None), setup, plan);
    case Review(call, indexFails) => ReviewIsSafeUnless(w, call, indexFails);
    case Ack(d, actor, now, indexFails) => AckIsSafeUnless(w, d, actor, now, indexFails);
    case Retry(j, now) => RetryIsSafe(w, j, now);
    case AbortSync(run) => AbortIsSafe(w, run);
    case Delete(path) => DeleteIsSafe(w, path);
  }

  lemma RetryExtends(w: World, j: Id, now: int)
    requires FreshIds(w.db)
    ensures Extends(w, World(OrElse(RetryJob(w.db, j, now), w.db), w.points))
  {
    hide Extends;
    OtherRowsExtend(w, World(OrElse(RetryJob(w.db, j, now), w.db), w.points));
  }

  lemma AbortExtends(w: World, run: Id)
    requires Integrity(w.db)
    ensures Extends(w, World(CleanupSyncRun(w.db, run), w.points))
  {
    hide UniquePaths, References, VersionsOf, Extends, DeleteDocuments;
    var stopped := World(StopTagged(w.db, run), w.points);
    StopTaggedKeeps(w.db, run);
    OtherRowsExtend(w, stopped);
    DeletionExtends(stopped, Produced(w.db, run));
    ExtendsFurther(w, stopped, World(CleanupSyncRun(w.db, run), w.points));
  }

  /** Apart from reviews and acknowledgements, a step only adds unpublished points and pending
      items of its own. */
  lemma StepExtends(w: World, step: Step, setup: Setup)
    requires Integrity(w.db) && Enabled(w, step) && !step.Review? && !step.Ack?
    ensures Extends(w, Next(w, step, setup))
  {
    hide UniquePaths, References, VersionsOf, Extends, RunOnce, Ingest, RetryJob, CleanupSyncRun, DeleteDocuments;
    match step
    case Enqueue(job) => OtherRowsExtend(w, Next(w, step, setup));
    case Work(j, plan) => PassExtends(w, j, setup, plan);
    case Scan(path, plan) => IngestExtends(w, Request(path, None, None, None), setup, plan);
    case Retry(j, now) => RetryExtends(w, j, now);
    case AbortSync(run) => AbortExtends(w, run);
    case Delete(path) =>
      DeletionExtends(w, set d | d in w.db.documents && w.db.documents[d].fields.sourcePath == path);
  }

  lemma ReviewKeepsKeys(w: World, call: ReviewCall, indexFails: bool)
    requires Integrity(w.db) && Keyed(w)
    ensures Keyed(ApplyReview(w, call, indexFails))
  {
    hide UniquePaths, References, VersionsOf, ApplyReview;
    ReviewRows(w, call, indexFails);
    ReviewWrites(w, call, indexFails);
    if Writes(w, call, indexFails) {
      FreshChunk(w.db, Edited(w.db.reviews[call.item].point, call.edit).chunkId);
    }
    hide Edited, Integrity;
  }

  lemma StepKeepsKeys(w: World, step: Step, setup: Setup)
    requires Integrity(w.db) && Keyed(w) && Enabled(w, step)
    ensures Keyed(Next(w, step, setup))
  {
    hide Integrity, Keyed, Extends, Next;
    match step {
      case Review(call, indexFails) =>
        ReviewKeepsKeys(w, call, indexFails);
        NextOfReview(w, call, indexFails, setup);
      case Ack(d, actor, now, indexFails) =>
        AckKeysPoints(w, d, actor, now, indexFails);
        NextOfAck(w, d, actor, now, indexFails, setup);
      case _ =>
        StepExtends(w, step, setup);
        ExtendingKeepsKeys(w, Next(w, step, setup));
    }
  }

  lemma NextOfReview(w: World, call: ReviewCall, indexFails: bool, setup: Setup)
    ensures Next(w, Review(call, indexFails), setup) == ApplyReview(w, call, indexFails)
  {
  }

  lemma NextOfAck(w: World, d: Id, actor: string, now: int, indexFails: bool, setup: Setup)
    ensures Next(w, Ack(d, actor, now, indexFails), setup) == ApplyAck(w, d, actor, now, indexFails)
  {
  }

  /** From a safe world, a step is followed by a search that shows what it may not exactly if the
      step is harmful. */
  lemma StepIsDiscreetUnless(w: World, step: Step, setup: Setup)
    requires Safe(w) && Enabled(w, step)
    ensures Discreet(Next(w, step, setup)) <==> Harmless(w, step)
  {
    SafeIsKeyed(w);
    hide Integrity, PointsSound, ReviewsSound, Discreet, Next, Harmless, Keyed;
    StepIsSafe(w, step, setup);
    StepKeepsKeys(w, step, setup);
    SoundIfDiscreet(Next(w, step, setup));
  }

  // ---------------------------------------------------------------- reviews as intended

  /** The review leaves the flag, the chunk and the workspace of the point alone. */
  ghost predicate Plain(step: Step) {
    step.Review? ==>
      step.call.edit.published == None && step.call.edit.chunkId == None && step.call.edit.workspaceId == None
  }

  lemma PlainReviewKeepsLabels(w: World, call: ReviewCall, indexFails: bool)
    requires Integrity(w.db) && LabelsSound(w) && Plain(Review(call, indexFails))
    ensures LabelsSound(ApplyReview(w, call, indexFails))
  {
    hide UniquePaths, FreshIds, VersionsOf, ApplyReview;
    ReviewRows(w, call, indexFails);
    ReviewWrites(w, call, indexFails);
    var after := ApplyReview(w, call, indexFails);
    forall p: Payload ensures Labelled(after.db, p) <==> Labelled(w.db, p) {
    }
    hide Labelled;
    if Writes(w, call, indexFails) { EditedLabel(w.db, w.db.reviews[call.item].point, call.edit); }
    hide Edited, Integrity;
  }

  lemma EditedLabel(db: Db, p: Payload, e: Edit)
    requires e.chunkId == None && e.workspaceId == None
    ensures Labelled(db, Edited(p, e)) <==> Labelled(db, p)
  {
  }

  lemma AckKeepsLabels(w: World, d: Id, actor: string, now: int, indexFails: bool)
    requires LabelsSound(w)
    ensures LabelsSound(ApplyAck(w, d, actor, now, indexFails))
  {
    if AckDocument(w.db, d, actor, now).Some? {
      AckRows(w.db, d, actor, now);
      var after := ApplyAck(w, d, actor, now, indexFails);
      forall c | c in after.points ensures Labelled(after.db, after.points[c]) {
        assert Labelled(w.db, w.points[c]);
      }
      forall r | r in after.db.reviews && after.db.reviews[r].status == Pending
        ensures Labelled(after.db, after.db.reviews[r].point)
      {
        assert Labelled(w.db, w.db.reviews[r].point);
      }
    }
  }

  lemma PlainStepKeepsLabels(w: World, step: Step, setup: Setup)
    requires Integrity(w.db) && Keyed(w) && ReviewsSound(w.db) && LabelsSound(w) && Enabled(w, step) && Plain(step)
    ensures LabelsSound(Next(w, step, setup))
  {
    hide Integrity, Keyed, ReviewsSound, LabelsSound, Extends, Next;
    match step {
      case Review(call, indexFails) =>
        PlainReviewKeepsLabels(w, call, indexFails);
        NextOfReview(w, call, indexFails, setup);
      case Ack(d, actor, now, indexFails) =>
        AckKeepsLabels(w, d, actor, now, indexFails);
        NextOfAck(w, d, actor, now, indexFails, setup);
      case _ =>
        StepExtends(w, step, setup);
        ExtendingKeepsLabels(w, Next(w, step, setup));
    }
  }

  /** Where every label is right, plain reviews and acknowledgements are harmless. */
  lemma PlainStepsAreHarmless(w: World, step: Step)
    requires Safe(w) && LabelsSound(w) && Enabled(w, step) && Plain(step) && (step.Review? || step.Ack?)
    ensures Harmless(w, step)
  {
    hide UniquePaths, FreshIds, VersionsOf, PointsSound;
    if step.Review? {
      if Writes(w, step.call, step.indexFails) { HeldIsUnpublished(w.db, step.call.item); }
    } else {
      forall c | c in w.points ensures !MisplacedAt(w, step.document, c) {
        assert Labelled(w.db, w.points[c]) && w.points[c].chunkId == c by { PointsBearTheirIds(w); }
      }
    }
  }

  // ---------------------------------------------------------------- every run

  /** The world after a run; `None` if some step is not enabled when its turn comes. */
  ghost function After(steps: seq<Step>, setup: Setup): Option<World> {
    if steps == [] then Some(EMPTY)
    else
      var w := After(steps[..|steps| - 1], setup);
      var step := steps[|steps| - 1];
      if w == None || !Enabled(w.value, step) then None else Some(Next(w.value, step, setup))
  }

  /** Every step is harmless when its turn comes. */
  ghost predicate HarmlessRun(steps: seq<Step>, setup: Setup)
    requires After(steps, setup).Some?
  {
    steps != [] ==>
      && HarmlessRun(steps[..|steps| - 1], setup)
      && Harmless(After(steps[..|steps| - 1], setup).value, steps[|steps| - 1])
  }

  /** All along the run, every search shows only what it may. */
  ghost predicate DiscreetRun(steps: seq<Step>, setup: Setup)
    requires After(steps, setup).Some?
  {
    Discreet(After(steps, setup).value) && (steps != [] ==> DiscreetRun(steps[..|steps| - 1], setup))
  }

  /** Every pass and every scan is harmless when its turn comes, and every review is plain. */
  ghost predicate PlainRun(steps: seq<Step>, setup: Setup)
    requires After(steps, setup).Some?
  {
    steps != [] ==>
      var step := steps[|steps| - 1];
      && PlainRun(steps[..|steps| - 1], setup) && Plain(step)
      && (step.Work? || step.Scan? ==> Harmless(After(steps[..|steps| - 1], setup).value, step))
  }

  lemma EmptyIsSafe()
    ensures Safe(EMPTY)
  {
  }

  lemma RetryKeeps(db: Db, j: Id, now: int)
    requires Integrity(db)
    ensures Integrity(OrElse(RetryJob(db, j, now), db))
  {
    var r := RetryJob(db, j, now);
    if r.Some? {
      JobRefs(db, j);
      hide Integrity;
      JobRowKeeps(db, j, r.value.jobs[j]);
    }
  }

  lemma StepKeepsIntegrity(w: World, step: Step, setup: Setup)
    requires Integrity(w.db) && Enabled(w, step)
    ensures Integrity(Next(w, step, setup).db)
  {
    hide Integrity, RunOnce, Ingest, ApplyReview, RetryJob, CleanupSyncRun, DeleteDocuments, CreateJob;
    match step
    case Enqueue(job) => CreateJobKeeps(w.db, job);
    case Work(j, plan) => RunOnceKeeps(w, j, setup, plan);
    case Scan(path, plan) => IngestKeeps(w, Request(path, None, None, None), setup, plan);
    case Review(call, indexFails) => ReviewKeeps(w, call, indexFails);
    case Ack(d, actor, now, indexFails) => if AckDocument(w.db, d, actor, now).Some? { AckKeeps(w.db, d, actor, now); }
    case Retry(j, now) => RetryKeeps(w.db, j, now);
    case AbortSync(run) => CleanupKeeps(w.db, run);
    case Delete(path) => DeleteKeeps(w.db, set d | d in w.db.documents && w.db.documents[d].fields.sourcePath == path);
  }

  /** In every reachable state, harmful steps included, references and paths are in order and
      every document's snapshots are exactly versions 1 to current - 1, one each. */
  lemma {:induction false} ReachableHasIntegrity(steps: seq<Step>, setup: Setup)
    requires After(steps, setup).Some?
    ensures Integrity(After(steps, setup).value.db)
    ensures forall d | d in After(steps, setup).value.db.documents :: VersionsOf(After(steps, setup).value.db, d)
  {
    hide FreshIds, UniquePaths, References, VersionsOf, Next;
    if steps == [] {
      EmptyIsSafe();
    } else {
      ReachableHasIntegrity(steps[..|steps| - 1], setup);
      StepKeepsIntegrity(After(steps[..|steps| - 1], setup).value, steps[|steps| - 1], setup);
    }
  }

  lemma {:induction false} HarmlessRunIsSafe(steps: seq<Step>, setup: Setup)
    requires After(steps, setup).Some? && HarmlessRun(steps, setup)
    ensures Safe(After(steps, setup).value)
  {
    hide Integrity, PointsSound, ReviewsSound, Next, Harmless;
    if steps == [] {
      EmptyIsSafe();
    } else {
      HarmlessRunIsSafe(steps[..|steps| - 1], setup);
      StepIsSafe(After(steps[..|steps| - 1], setup).value, steps[|steps| - 1], setup);
    }
  }

  /** All along a run every search shows only what it may, exactly if every step of the run is
      harmless when its turn comes. */
  lemma {:induction false} DiscreetExactlyIfHarmless(steps: seq<Step>, setup: Setup)
    requires After(steps, setup).Some?
    ensures DiscreetRun(steps, setup) <==> HarmlessRun(steps, setup)
  {
    hide Safe, Discreet, Next, Harmless;
    if steps == [] {
      NothingToFind();
    } else {
      var before := steps[..|steps| - 1];
      DiscreetExactlyIfHarmless(before, setup);
      if HarmlessRun(before, setup) {
        HarmlessRunIsSafe(before, setup);
        StepIsDiscreetUnless(After(before, setup).value, steps[|steps| - 1], setup);
      }
    }
  }

  lemma NothingToFind()
    ensures Discreet(EMPTY)
  {
  }

  /** When reviews leave the flag, the chunk and the workspace of their points alone, only a pass
      or a scan can be harmful. */
  lemma {:induction false} PlainRunIsHarmless(steps: seq<Step>, setup: Setup)
    requires After(steps, setup).Some? && PlainRun(steps, setup)
    ensures HarmlessRun(steps, setup) && LabelsSound(After(steps, setup).value)
  {
    hide Integrity, PointsSound, ReviewsSound, LabelsSound, Next, Keyed, Discreet;
    if steps == [] {
      NothingToLabel();
    } else {
      var before, step := steps[..|steps| - 1], steps[|steps| - 1];
      PlainRunIsHarmless(before, setup);
      HarmlessRunIsSafe(before, setup);
      var w := After(before, setup).value;
      SafeIsKeyed(w);
      if step.Review? || step.Ack? { PlainStepsAreHarmless(w, step); }
      PlainStepKeepsLabels(w, step, setup);
    }
  }

  lemma NothingToLabel()
    ensures LabelsSound(EMPTY)
  {
  }

  /** After any run of harmless steps, everything a search can find is a live chunk of a
      document that is acknowledged now and, for a caller with a workspace list, lies in one
      of those workspaces. */
  lemma SearchShowsOnlyAcknowledged(steps: seq<Step>, setup: Setup, f: Filter, c: Id)
    requires After(steps, setup).Some? && HarmlessRun(steps, setup) && Findable(After(steps, setup).value, f, c)
    ensures MayShow(After(steps, setup).value.db, f, c)
  {
    hide Findable, MayShow, After, PointsSound, Integrity, ReviewsSound, HarmlessRun;
    HarmlessRunIsSafe(steps, setup);
    FoundMayBeShown(After(steps, setup).value, f, c);
  }
}
