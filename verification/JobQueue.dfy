/** The job queue: first come, first served; positions; bounded attempts; draining. */
module JobQueue {
  import opened Options
  import opened Records
  import opened Store
  import opened Ingestion
  import opened IngestionIntegrity

  type Jobs = map<Id, Job>

  // ---------------------------------------------------------------- positions

  ghost function QueuedIds(jobs: Jobs): set<Id> {
    set j | j in jobs && jobs[j].status == Queued
  }

  /** The queued jobs counted by `queue_position` before job `j`. */
  ghost function Ahead(jobs: Jobs, j: Id): set<Id>
    requires j in jobs
  {
    set k | k in jobs && jobs[k].status == Queued && jobs[k].queuedAt <= jobs[j].queuedAt && k != j
  }

  ghost function QueuePosition(jobs: Jobs, j: Id): Option<nat> {
    if j !in jobs || jobs[j].status != Queued then None else Some(|Ahead(jobs, j)| + 1)
  }

  ghost predicate DistinctTimes(jobs: Jobs) {
    forall j, k | j in jobs && k in jobs && jobs[j].queuedAt == jobs[k].queuedAt :: j == k
  }

  lemma SmallerSet(a: set<Id>, b: set<Id>)
    requires a <= b
    ensures |a| <= |b|
    ensures a != b ==> |a| < |b|
  {
    assert b == a + (b - a);
    if a != b {
      var x :| x in b && x !in a;
      assert b - a != {};
    }
  }

  /** Position 1 is the next claim, and no other. */
  lemma FirstIsNext(jobs: Jobs, j: Id)
    requires DistinctTimes(jobs) && j in jobs && jobs[j].status == Queued
    ensures QueuePosition(jobs, j) == Some(1) <==> IsNext(jobs, j)
  {
    var ahead := Ahead(jobs, j);
    if ahead != {} {
      var k :| k in ahead;
      assert jobs[k].queuedAt < jobs[j].queuedAt;
      SmallerSet({k}, ahead);
    }
    if !IsNext(jobs, j) {
      var k :| k in jobs && jobs[k].status == Queued && jobs[k].queuedAt < jobs[j].queuedAt;
      assert k in ahead;
    }
  }

  /** Whoever queued earlier has the smaller position, so positions are distinct and at most
      the number of queued jobs. */
  lemma PositionsFollowTimes(jobs: Jobs, j: Id, k: Id)
    requires DistinctTimes(jobs) && j in QueuedIds(jobs) && k in QueuedIds(jobs)
    ensures 1 <= QueuePosition(jobs, j).value <= |QueuedIds(jobs)|
    ensures QueuePosition(jobs, j).value < QueuePosition(jobs, k).value <==> jobs[j].queuedAt < jobs[k].queuedAt
  {
    SmallerSet(Ahead(jobs, j), QueuedIds(jobs) - {j});
    if jobs[j].queuedAt < jobs[k].queuedAt {
      assert j in Ahead(jobs, k) && j !in Ahead(jobs, j);
      SmallerSet(Ahead(jobs, j), Ahead(jobs, k));
    } else if j != k {
      assert k in Ahead(jobs, j) && k !in Ahead(jobs, k);
      SmallerSet(Ahead(jobs, k), Ahead(jobs, j));
    }
  }

  /** Every position from 1 to the number of queued jobs is some job's. */
  lemma {:induction false} EveryPositionIsTaken(jobs: Jobs, p: nat) returns (j: Id)
    requires DistinctTimes(jobs) && 1 <= p <= |QueuedIds(jobs)|
    ensures j in QueuedIds(jobs) && QueuePosition(jobs, j) == Some(p)
    decreases |QueuedIds(jobs)|
  {
    var last := LastQueued(jobs);
    var rest := jobs - {last};
    assert QueuedIds(rest) == QueuedIds(jobs) - {last};
    assert Ahead(jobs, last) == QueuedIds(rest);
    if p == |QueuedIds(jobs)| {
      j := last;
    } else {
      j := EveryPositionIsTaken(rest, p);
      assert last !in Ahead(jobs, j);
      assert Ahead(jobs, j) == Ahead(rest, j);
    }
  }

  lemma {:induction false} LastQueued(jobs: Jobs) returns (last: Id)
    requires DistinctTimes(jobs) && QueuedIds(jobs) != {}
    ensures last in QueuedIds(jobs)
    ensures forall k | k in QueuedIds(jobs) && k != last :: jobs[k].queuedAt < jobs[last].queuedAt
    decreases |QueuedIds(jobs)|
  {
    var j :| j in QueuedIds(jobs);
    var rest := jobs - {j};
    assert QueuedIds(rest) == QueuedIds(jobs) - {j};
    last := j;
    if QueuedIds(rest) != {} {
      var l := LastQueued(rest);
      last := if jobs[l].queuedAt < jobs[j].queuedAt then j else l;
    }
    forall k | k in QueuedIds(jobs) && k != last ensures jobs[k].queuedAt < jobs[last].queuedAt {
      assert k == j || k in QueuedIds(rest);
    }
  }

  /** A claim takes position 1 away and lowers every other position by one. */
  lemma ClaimLowersPositions(db: Db, j: Id, k: Id)
    requires DistinctTimes(db.jobs) && IsNext(db.jobs, j) && k in QueuedIds(db.jobs) && k != j
    ensures QueuePosition(ClaimJob(db, j).jobs, j) == None
    ensures QueuePosition(ClaimJob(db, j).jobs, k).Some?
    ensures QueuePosition(ClaimJob(db, j).jobs, k).value == QueuePosition(db.jobs, k).value - 1
  {
    var after := ClaimJob(db, j).jobs;
    assert j in Ahead(db.jobs, k);
    assert Ahead(after, k) == Ahead(db.jobs, k) - {j};
  }

  // ---------------------------------------------------------------- passes

  /** A pass touches the status of the job it claimed only; unless it gets stuck, that job is
      indexed, queued again or failed afterwards. */
  lemma PassTouchesOneJob(w: World, j: Id, setup: Setup, plan: Plan)
    requires IsNext(w.db.jobs, j)
    ensures var o := RunOnce(w, j, setup, plan); var after := o.world.db.jobs;
            && after.Keys == w.db.jobs.Keys
            && (forall k | k in w.db.jobs && k != j ::
                  && after[k].status == w.db.jobs[k].status && after[k].attempt == w.db.jobs[k].attempt
                  && after[k].maxAttempts == w.db.jobs[k].maxAttempts && after[k].queuedAt == w.db.jobs[k].queuedAt)
            && after[j].attempt == w.db.jobs[j].attempt + 1 && after[j].maxAttempts == w.db.jobs[j].maxAttempts
            && after[j].queuedAt == w.db.jobs[j].queuedAt
            && (after[j].status == Extracting <==> o.Stuck?)
            && (after[j].status == Queued ==> after[j].attempt < after[j].maxAttempts)
  {
    hide JobRun, Owner, RollbackVersion;
    var r := JobRun(w, j, setup, plan);
    assert r.world.db.jobs == ClaimJob(w.db, j).jobs;
    var job := w.db.jobs[j];
    if job.targetDocumentId.Some? { RollbackKeepsJobs(r.world.db, job.targetDocumentId.value); }
  }

  // ---------------------------------------------------------------- bounded attempts

  /** The transactions on the job table. They may interleave in any way: completing or failing
      a job checks nothing, and may even revive one that an aborted sync run has failed. */
  datatype QueueStep =
    | Create(job: Job)
    | Claim(j: Id)
    | Complete(j: Id, document: Id, run: Id)
    | Fail(j: Id, error: string)
    | Restart(j: Id, now: int)
    | Cleanup(run: Id)
    | Delete(documents: set<Id>)

  ghost function QueueNext(db: Db, step: QueueStep): Db {
    match step
    case Create(job) =>
      if job.status == Queued && job.attempt == 0 && job.maxAttempts >= 1 then CreateJob(db, job) else db
    case Claim(j) => if j in db.jobs && db.jobs[j].status == Queued then ClaimJob(db, j) else db
    case Complete(j, d, run) => if j in db.jobs then CompleteJob(db, j, d, run) else db
    case Fail(j, error) => if j in db.jobs then FailJob(db, j, error) else db
    case Restart(j, now) => var r := RetryJob(db, j, now); if r.Some? then r.value else db
    case Cleanup(run) => CleanupSyncRun(db, run)
    case Delete(documents) => DeleteDocuments(db, documents)
  }

  ghost predicate Bounded(job: Job) {
    && job.maxAttempts >= 1 && 0 <= job.attempt <= job.maxAttempts
    && (job.status == Queued ==> job.attempt < job.maxAttempts)
  }

  ghost function QueueAfter(db: Db, steps: seq<QueueStep>): Db {
    if steps == [] then db else QueueNext(QueueAfter(db, steps[..|steps| - 1]), steps[|steps| - 1])
  }

  lemma StepIsBounded(db: Db, step: QueueStep)
    requires forall j | j in db.jobs :: Bounded(db.jobs[j])
    ensures forall j | j in QueueNext(db, step).jobs :: Bounded(QueueNext(db, step).jobs[j])
  {
    hide DeleteDocuments, StopTagged, Produced;
    match step {
      case Cleanup(run) =>
        StoppingKeepsBounds(db, run);
        DeletingKeepsBounds(StopTagged(db, run), Produced(db, run));
      case Delete(documents) => DeletingKeepsBounds(db, documents);
      case _ =>
    }
  }

  lemma DeletingKeepsBounds(db: Db, gone: set<Id>)
    requires forall j | j in db.jobs :: Bounded(db.jobs[j])
    ensures forall j | j in DeleteDocuments(db, gone).jobs :: Bounded(DeleteDocuments(db, gone).jobs[j])
  {
  }

  lemma StoppingKeepsBounds(db: Db, run: Id)
    requires forall j | j in db.jobs :: Bounded(db.jobs[j])
    ensures forall j | j in StopTagged(db, run).jobs :: Bounded(StopTagged(db, run).jobs[j])
  {
  }

  /** Under any interleaving, no job is attempted more than `maxAttempts` times between
      restarts, and a queued job always has an attempt left. */
  lemma {:induction false} AttemptsAreBounded(db: Db, steps: seq<QueueStep>)
    requires forall j | j in db.jobs :: Bounded(db.jobs[j])
    ensures forall j | j in QueueAfter(db, steps).jobs :: Bounded(QueueAfter(db, steps).jobs[j])
  {
    hide QueueNext;
    if steps != [] {
      AttemptsAreBounded(db, steps[..|steps| - 1]);
      StepIsBounded(QueueAfter(db, steps[..|steps| - 1]), steps[|steps| - 1]);
    }
  }

  /** With `max_attempts` below one the bound is lost at the first claim. */
  lemma ZeroAttemptsBreaksTheBound(db: Db, job: Job)
    requires job.status == Queued && job.attempt == 0 && job.maxAttempts < 1
    ensures var claimed := ClaimJob(CreateJob(db, job), db.nextId).jobs;
            db.nextId in claimed && claimed[db.nextId].attempt > claimed[db.nextId].maxAttempts
  {
  }

  // ---------------------------------------------------------------- failing and restarting

  /** Claiming job `j` and failing it, with these errors in turn; `None` if it is not queued when
      it is to be claimed. */
  ghost function Attempts(db: Db, j: Id, errors: seq<string>): Option<Db> {
    if errors == [] then Some(db)
    else
      var before := Attempts(db, j, errors[..|errors| - 1]);
      if before == None || j !in before.value.jobs || before.value.jobs[j].status != Queued then None
      else Some(FailJob(ClaimJob(before.value, j), j, errors[|errors| - 1]))
  }

  /** The attempts a fresh job gets. Even a maximum below one allows the first. */
  ghost function Granted(job: Job): nat {
    if job.maxAttempts < 1 then 1 else job.maxAttempts
  }

  /** A fresh job can be attempted as often as its maximum allows and no more. Until then every
      failure puts it back into the queue, the last one leaves it failed, with the last error,
      and nothing but its row changes. */
  lemma {:induction false} FailuresUseUpTheAttempts(db: Db, j: Id, errors: seq<string>)
    requires j in db.jobs && db.jobs[j].status == Queued && db.jobs[j].attempt == 0
    ensures Attempts(db, j, errors).Some? <==> |errors| <= Granted(db.jobs[j])
    ensures Attempts(db, j, errors).Some? ==>
              Attempts(db, j, errors).value
              == db.(jobs := db.jobs[j := db.jobs[j].(
                       attempt := |errors|,
                       status := if |errors| < Granted(db.jobs[j]) then Queued else Failed,
                       errorMessage := if errors == [] then db.jobs[j].errorMessage else Some(errors[|errors| - 1]))])
  {
    if errors == [] {
      assert db.jobs == db.jobs[j := db.jobs[j]];
    } else {
      FailuresUseUpTheAttempts(db, j, errors[..|errors| - 1]);
    }
  }

  /** A job can be restarted exactly when its attempts are used up, and is then as fresh as it
      was before the first one, but for its place in the queue. */
  lemma RestartStartsOver(db: Db, j: Id, errors: seq<string>, now: int)
    requires j in db.jobs && db.jobs[j].status == Queued && db.jobs[j].attempt == 0 && db.jobs[j].errorMessage == None
    requires Attempts(db, j, errors).Some?
    ensures var failed := Attempts(db, j, errors).value;
            && (RetryJob(failed, j, now).Some? <==> |errors| == Granted(db.jobs[j]))
            && (RetryJob(failed, j, now).Some? ==>
                  RetryJob(failed, j, now).value == db.(jobs := db.jobs[j := db.jobs[j].(queuedAt := now)]))
  {
    FailuresUseUpTheAttempts(db, j, errors);
  }

  // ---------------------------------------------------------------- draining

  /** The attempts a job has left while it is queued. */
  ghost function Left(job: Job): nat {
    if job.status == Queued && job.attempt < job.maxAttempts then job.maxAttempts - job.attempt else 0
  }

  ghost function Total(jobs: Jobs, ids: set<Id>): nat
    requires ids <= jobs.Keys
    decreases |ids|
  {
    if ids == {} then 0
    else
      var j :| j in ids;
      Left(jobs[j]) + Total(jobs, ids - {j})
  }

  ghost function Remaining(jobs: Jobs): nat {
    Total(jobs, jobs.Keys)
  }

  lemma {:induction false} TotalMinus(jobs: Jobs, ids: set<Id>, j: Id)
    requires ids <= jobs.Keys && j in ids
    ensures Total(jobs, ids) == Left(jobs[j]) + Total(jobs, ids - {j})
    decreases |ids|
  {
    hide Left;
    var k :| k in ids && Total(jobs, ids) == Left(jobs[k]) + Total(jobs, ids - {k});
    if k != j {
      TotalMinus(jobs, ids - {k}, j);
      TotalMinus(jobs, ids - {j}, k);
      assert ids - {k} - {j} == ids - {j} - {k};
    }
  }

  lemma {:induction false} TotalSame(jobs: Jobs, after: Jobs, ids: set<Id>)
    requires ids <= jobs.Keys && ids <= after.Keys
    requires forall k | k in ids :: Left(after[k]) == Left(jobs[k])
    ensures Total(after, ids) == Total(jobs, ids)
    decreases |ids|
  {
    hide Left;
    if ids != {} {
      var j :| j in ids;
      TotalMinus(jobs, ids, j);
      TotalMinus(after, ids, j);
      TotalSame(jobs, after, ids - {j});
    }
  }

  /** Every pass that claims a job uses up at least one of the attempts left in the queue. */
  lemma PassUsesAnAttempt(w: World, j: Id, setup: Setup, plan: Plan)
    requires IsNext(w.db.jobs, j) && Bounded(w.db.jobs[j])
    ensures Remaining(RunOnce(w, j, setup, plan).world.db.jobs) < Remaining(w.db.jobs)
  {
    var after := RunOnce(w, j, setup, plan).world.db.jobs;
    PassTouchesOneJob(w, j, setup, plan);
    hide RunOnce, IsNext;
    assert Left(after[j]) < Left(w.db.jobs[j]);
    TotalMinus(w.db.jobs, w.db.jobs.Keys, j);
    TotalMinus(after, after.Keys, j);
    TotalSame(w.db.jobs, after, w.db.jobs.Keys - {j});
  }

  /** A run of passes with nothing else in between. */
  ghost function Work(w: World, claims: seq<Id>, setup: Setup, plans: seq<Plan>): Option<World>
    requires |claims| == |plans|
  {
    if claims == [] then Some(w)
    else
      var before := Work(w, claims[..|claims| - 1], setup, plans[..|claims| - 1]);
      if before == None || !IsNext(before.value.db.jobs, claims[|claims| - 1]) then None
      else Some(RunOnce(before.value, claims[|claims| - 1], setup, plans[|claims| - 1]).world)
  }

  /** The queue drains: however the passes end, there are no more of them than attempts left
      at the start. */
  lemma {:induction false} QueueDrains(w: World, claims: seq<Id>, setup: Setup, plans: seq<Plan>)
    requires |claims| == |plans| && Work(w, claims, setup, plans).Some?
    requires forall j | j in w.db.jobs :: Bounded(w.db.jobs[j])
    ensures var after := Work(w, claims, setup, plans).value;
            && (forall j | j in after.db.jobs :: Bounded(after.db.jobs[j]))
            && |claims| + Remaining(after.db.jobs) <= Remaining(w.db.jobs)
  {
    hide RunOnce, Remaining, IsNext;
    if claims != [] {
      QueueDrains(w, claims[..|claims| - 1], setup, plans[..|claims| - 1]);
      var before := Work(w, claims[..|claims| - 1], setup, plans[..|claims| - 1]).value;
      var j, plan := claims[|claims| - 1], plans[|claims| - 1];
      NextIsQueued(before.db.jobs, j);
      PassUsesAnAttempt(before, j, setup, plan);
      PassTouchesOneJob(before, j, setup, plan);
    }
  }

  lemma NextIsQueued(jobs: Jobs, j: Id)
    requires IsNext(jobs, j)
    ensures j in jobs && jobs[j].status == Queued
  {
  }
}
