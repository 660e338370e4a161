/** First come, first served, over whole runs of the system. */
module RunOrder {
  import opened Records
  import opened Store
  import opened Ingestion
  import opened Services
  import opened JobQueue
  import opened Runs

  /** Some pass of the run claimed job `k` and got stuck. */
  ghost predicate GotStuck(steps: seq<Step>, setup: Setup, k: Id)
    requires After(steps, setup).Some?
  {
    && steps != []
    && var before, last := steps[..|steps| - 1], steps[|steps| - 1];
       || GotStuck(before, setup, k)
       || (last.Work? && last.next == k && RunOnce(After(before, setup).value, k, setup, last.plan).Stuck?)
  }

  ghost predicate IsExtracting(jobs: Jobs, k: Id) {
    k in jobs && jobs[k].status == Extracting
  }

  lemma AbortExtractsNothing(db: Db, run: Id, k: Id)
    requires IsExtracting(CleanupSyncRun(db, run).jobs, k)
    ensures IsExtracting(db.jobs, k)
  {
    hide Produced;
  }

  /** Only a pass that gets stuck leaves a job extracting. */
  lemma OnlyStuckPassesExtract(w: World, step: Step, setup: Setup, k: Id)
    requires Enabled(w, step) && IsExtracting(Next(w, step, setup).db.jobs, k)
    ensures IsExtracting(w.db.jobs, k)
            || (step.Work? && step.next == k && RunOnce(w, k, setup, step.plan).Stuck?)
  {
    hide RunOnce, Ingest, ApplyReview, CleanupSyncRun;
    match step
    case Enqueue(job) =>
    case Work(j, plan) => PassTouchesOneJob(w, j, setup, plan);
    case Scan(path, plan) =>
    case Review(call, indexFails) => ReviewRows(w, call, indexFails);
    case Ack(d, actor, now, indexFails) =>
    case Retry(j, now) =>
    case AbortSync(run) => AbortExtractsNothing(w.db, run, k);
    case Delete(path) =>
  }

  lemma {:induction false} ExtractingGotStuck(steps: seq<Step>, setup: Setup, k: Id)
    requires After(steps, setup).Some? && IsExtracting(After(steps, setup).value.db.jobs, k)
    ensures GotStuck(steps, setup, k)
  {
    hide Next, RunOnce, Enabled;
    if steps != [] {
      var before, last := steps[..|steps| - 1], steps[|steps| - 1];
      OnlyStuckPassesExtract(After(before, setup).value, last, setup, k);
      if IsExtracting(After(before, setup).value.db.jobs, k) { ExtractingGotStuck(before, setup, k); }
    }
  }

  lemma {:induction false} PrefixOfRun(steps: seq<Step>, setup: Setup, n: nat)
    requires After(steps, setup).Some? && n <= |steps|
    ensures After(steps[..n], setup).Some?
    ensures n < |steps| ==> Enabled(After(steps[..n], setup).value, steps[n])
  {
    hide Next, Enabled;
    if n == |steps| {
      assert steps[..n] == steps;
    } else {
      var before := steps[..|steps| - 1];
      assert before[..n] == steps[..n];
      PrefixOfRun(before, setup, n);
    }
  }

  /** In every run, with every kind of call in between, a job is claimed only when each job that
      was queued before it is indexed, has failed, or is one whose pass got stuck. */
  lemma FirstComeFirstServed(steps: seq<Step>, setup: Setup, i: nat, k: Id)
    requires After(steps, setup).Some? && i < |steps| && steps[i].Work?
    ensures After(steps[..i], setup).Some?
    ensures var jobs := After(steps[..i], setup).value.db.jobs;
            && steps[i].next in jobs
            && (k in jobs && jobs[k].queuedAt < jobs[steps[i].next].queuedAt ==>
                  jobs[k].status == Indexed || jobs[k].status == Failed || GotStuck(steps[..i], setup, k))
  {
    hide Next, RunOnce, GotStuck, After;
    PrefixOfRun(steps, setup, i);
    var jobs := After(steps[..i], setup).value.db.jobs;
    if k in jobs && jobs[k].status == Extracting { ExtractingGotStuck(steps[..i], setup, k); }
  }
}
