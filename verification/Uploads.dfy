/** Accepting a batch of uploaded files: every file ends up in exactly one of jobs, rejected
    and duplicates. */
module Uploads {
  import opened Options
  import opened Records
  import opened Store
  import opened Repository

  datatype UploadedFile = UploadedFile(extension: string, content: string)

  datatype Settings = Settings(maxFiles: nat, maxBytes: nat, maxAttempts: int, supported: set<string>)

  /** The caller and the document whose next version the upload is, if any. */
  datatype Caller = Caller(name: string, isAdmin: bool, workspaces: seq<Id>, workspaceId: Id, confirm: Option<Id>)

  /** Files by their position in the batch. A duplicate names the document that has the same
      content already. */
  datatype Response =
    | Refused
    | Sorted(jobs: seq<(nat, Id)>, rejected: seq<nat>, duplicates: seq<(nat, Id)>)

  /** What decides a file: the digest of its content and where it is staged. */
  datatype Staging = Staging(digest: string -> string, path: nat -> string, time: nat -> int)

  // ---------------------------------------------------------------- the decisions

  ghost predicate Acceptable(s: Settings, f: UploadedFile) {
    f.extension in s.supported && 0 < |f.content| <= s.maxBytes
  }

  ghost predicate IndexedWith(jobs: map<Id, Job>, j: Id, hash: string) {
    j in jobs && jobs[j].status == Indexed && jobs[j].rawContentHash == Some(hash)
  }

  /** An indexed job has the same content and its document is still there. */
  ghost predicate DuplicateOf(db: Db, hash: string, d: Id) {
    d in db.documents && exists j :: IndexedWith(db.jobs, j, hash) && db.jobs[j].documentId == Some(d)
  }

  /** No indexed job has the same content, or one whose document has gone does. */
  ghost predicate IsNew(db: Db, hash: string) {
    || (forall j :: !IndexedWith(db.jobs, j, hash))
    || (exists j :: IndexedWith(db.jobs, j, hash)
                    && (db.jobs[j].documentId == None || db.jobs[j].documentId.value !in db.documents))
  }

  ghost predicate Refusable(db: Db, s: Settings, files: seq<UploadedFile>, c: Caller) {
    || |files| == 0 || |files| > s.maxFiles
    || (c.confirm.Some? &&
        (|files| != 1 || c.confirm.value !in db.documents
         || (!c.isAdmin && (db.documents[c.confirm.value].workspaceId == None
                            || db.documents[c.confirm.value].workspaceId.value !in c.workspaces))))
  }

  /** The job asks for file `i` of the batch, staged at its own path: a new upload, or the next
      version of the confirmed document, of which nothing has been tried yet. */
  ghost predicate AsksForFile(job: Job, s: Settings, c: Caller, st: Staging, i: nat, f: UploadedFile) {
    && job.sourcePath == st.path(i) && job.queuedAt == st.time(i) && job.rawContentHash == Some(st.digest(f.content))
    && job.uploadedBy == c.name && job.workspaceId == Some(c.workspaceId) && job.targetDocumentId == c.confirm
    && job.status == Queued && job.attempt == 0 && job.maxAttempts == s.maxAttempts && job.errorMessage == None
    && job.documentId == None && job.runId == None && job.syncRunId == None
  }

  // ---------------------------------------------------------------- the promise

  /** Each of the first `n` files is in exactly one list, once, and the lists are in the order
      of the batch. */
  ghost predicate Partitions(r: Response, n: nat)
    requires r.Sorted?
  {
    && (forall i: nat | i < n ::
          || (InJobs(r, i) && i !in r.rejected && !InDuplicates(r, i))
          || (!InJobs(r, i) && i in r.rejected && !InDuplicates(r, i))
          || (!InJobs(r, i) && i !in r.rejected && InDuplicates(r, i)))
    && (forall a, b | 0 <= a < b < |r.jobs| :: r.jobs[a].0 < r.jobs[b].0)
    && (forall a, b | 0 <= a < b < |r.rejected| :: r.rejected[a] < r.rejected[b])
    && (forall a, b | 0 <= a < b < |r.duplicates| :: r.duplicates[a].0 < r.duplicates[b].0)
    && (forall a | 0 <= a < |r.jobs| :: r.jobs[a].0 < n)
    && (forall a | 0 <= a < |r.rejected| :: r.rejected[a] < n)
    && (forall a | 0 <= a < |r.duplicates| :: r.duplicates[a].0 < n)
  }

  ghost predicate InJobs(r: Response, i: nat)
    requires r.Sorted?
  {
    exists a :: 0 <= a < |r.jobs| && r.jobs[a].0 == i
  }

  ghost predicate InDuplicates(r: Response, i: nat)
    requires r.Sorted?
  {
    exists a :: 0 <= a < |r.duplicates| && r.duplicates[a].0 == i
  }

  /** Why a file is where it is, judged by the database before the upload: files of one batch
      are never duplicates of each other. */
  ghost predicate Justified(db: Db, s: Settings, files: seq<UploadedFile>, c: Caller, st: Staging, r: Response)
    requires r.Sorted?
  {
    && (forall x | x in r.jobs :: x.0 < |files| && Acceptable(s, files[x.0])
                                  && (c.confirm == None ==> IsNew(db, st.digest(files[x.0].content))))
    && (forall i | i in r.rejected :: i < |files| && !Acceptable(s, files[i]))
    && (forall x | x in r.duplicates :: x.0 < |files| && Acceptable(s, files[x.0]) && c.confirm == None
                                        && DuplicateOf(db, st.digest(files[x.0].content), x.1))
  }

  /** The database afterwards: one new job for each accepted file and nothing else. */
  ghost predicate OneJobEach(db: Db, after: Db, s: Settings, files: seq<UploadedFile>, c: Caller, st: Staging,
                             r: Response)
    requires r.Sorted? && forall a | 0 <= a < |r.jobs| :: r.jobs[a].0 < |files|
  {
    && after == db.(jobs := after.jobs, nextId := db.nextId + |r.jobs|)
    && (forall j | j in after.jobs :: j in db.jobs || db.nextId <= j < after.nextId)
    && (forall j | j in db.jobs :: j in after.jobs && after.jobs[j] == db.jobs[j])
    && (forall a | 0 <= a < |r.jobs| ::
          && r.jobs[a].1 == db.nextId + a && r.jobs[a].1 in after.jobs
          && AsksForFile(after.jobs[r.jobs[a].1], s, c, st, r.jobs[a].0, files[r.jobs[a].0]))
  }

  // ---------------------------------------------------------------- the service

  class UploadService {
    const repository: MetadataRepository
    const settings: Settings

    constructor (repository: MetadataRepository, settings: Settings)
      ensures this.repository == repository && this.settings == settings
    {
      this.repository, this.settings := repository, settings;
    }

    /** `find_indexed_job_by_raw_hash`, whichever of several it picks. */
    method FindIndexed(hash: string) returns (found: Option<Id>)
      ensures found.Some? ==> IndexedWith(repository.jobs, found.value, hash)
      ensures found == None ==> forall j :: !IndexedWith(repository.jobs, j, hash)
    {
      var left := repository.jobs.Keys;
      while left != {}
        invariant left <= repository.jobs.Keys
        invariant forall j | IndexedWith(repository.jobs, j, hash) :: j in left
        decreases |left|
      {
        var j :| j in left;
        if repository.jobs[j].status == Indexed && repository.jobs[j].rawContentHash == Some(hash) {
          return Some(j);
        }
        left := left - {j};
      }
      return None;
    }

    /** The document that an uploaded content duplicates. */
    method FindDuplicate(hash: string) returns (existing: Option<Id>)
      ensures existing.Some? ==> DuplicateOf(repository.State(), hash, existing.value)
      ensures existing == None ==> IsNew(repository.State(), hash)
    {
      var job := FindIndexed(hash);
      existing := None;
      if job.Some? {
        existing := repository.jobs[job.value].documentId;
        if existing.Some? && existing.value !in repository.documents {
          existing := None;
        }
      }
    }

    method Accept(files: seq<UploadedFile>, c: Caller, st: Staging) returns (r: Response)
      requires forall j | j in repository.jobs :: j < repository.nextId
      modifies repository
      ensures r == Refused <==> Refusable(old(repository.State()), settings, files, c)
      ensures r == Refused ==> repository.State() == old(repository.State())
      ensures r.Sorted? ==> Partitions(r, |files|)
      ensures r.Sorted? ==> Justified(old(repository.State()), settings, files, c, st, r)
      ensures r.Sorted? ==> OneJobEach(old(repository.State()), repository.State(), settings, files, c, st, r)
    {
      ghost var db := repository.State();
      if |files| == 0 || |files| > settings.maxFiles || (c.confirm.Some? && |files| != 1) {
        return Refused;
      }
      if c.confirm.Some? {
        if c.confirm.value !in repository.documents {
          return Refused;
        }
        var workspaceId := repository.documents[c.confirm.value].workspaceId;
        if !c.isAdmin && (workspaceId == None || workspaceId.value !in c.workspaces) {
          return Refused;
        }
      }
      r := Sorted([], [], []);
      for i := 0 to |files|
        invariant r.Sorted? && Partitions(r, i)
        invariant Justified(db, settings, files, c, st, r)
        invariant OneJobEach(db, repository.State(), settings, files, c, st, r)
      {
        r := AcceptOne(files, i, c, st, r, db);
      }
    }

    /** The body of the loop over the files. */
    method AcceptOne(files: seq<UploadedFile>, i: nat, c: Caller, st: Staging, r: Response, ghost db: Db)
      returns (next: Response)
      requires i < |files| && r.Sorted? && Partitions(r, i) && Justified(db, settings, files, c, st, r)
      requires OneJobEach(db, repository.State(), settings, files, c, st, r)
      requires forall j | j in db.jobs :: j < db.nextId
      modifies repository
      ensures next.Sorted? && Partitions(next, i + 1) && Justified(db, settings, files, c, st, next)
      ensures OneJobEach(db, repository.State(), settings, files, c, st, next)
    {
      hide Partitions, OneJobEach, Justified;
      var f := files[i];
      if f.extension !in settings.supported || |f.content| == 0 || |f.content| > settings.maxBytes {
        next := r.(rejected := r.rejected + [i]);
        RejectedPartitions(r, i);
        OneMoreJustified(db, settings, files, c, st, r, i, 0);
        SameJobsSame(db, repository.State(), settings, files, c, st, r, next);
        return;
      }
      var hash := st.digest(f.content);
      if c.confirm == None {
        JudgedBefore(db, repository.State(), settings, files, c, st, r, hash);
        var existing := FindDuplicate(hash);
        if existing.Some? {
          next := r.(duplicates := r.duplicates + [(i, existing.value)]);
          DuplicatePartitions(r, i, existing.value);
          OneMoreJustified(db, settings, files, c, st, r, i, existing.value);
          SameJobsSame(db, repository.State(), settings, files, c, st, r, next);
          return;
        }
      }
      ghost var before := repository.State();
      var job := Job(st.path(i), c.name, Some(c.workspaceId), Queued, 0, settings.maxAttempts, None, None, None,
                     Some(hash), c.confirm, None, st.time(i));
      var j := repository.CreateIngestionJob(job);
      next := r.(jobs := r.jobs + [(i, j)]);
      JobPartitions(r, i, j);
      OneMoreJustified(db, settings, files, c, st, r, i, j);
      OneMoreJob(db, before, settings, files, c, st, r, i, job);
    }
  }

  // ---------------------------------------------------------------- one file more

  lemma RejectedPartitions(r: Response, i: nat)
    requires r.Sorted? && Partitions(r, i)
    ensures Partitions(r.(rejected := r.rejected + [i]), i + 1)
  {
    var next := r.(rejected := r.rejected + [i]);
    assert next.rejected[|r.rejected|] == i;
    assert !InJobs(r, i) && !InDuplicates(r, i);
    forall k: nat ensures InJobs(next, k) <==> InJobs(r, k) {}
    forall k: nat ensures InDuplicates(next, k) <==> InDuplicates(r, k) {}
    hide InJobs, InDuplicates;
  }

  lemma DuplicatePartitions(r: Response, i: nat, d: Id)
    requires r.Sorted? && Partitions(r, i)
    ensures Partitions(r.(duplicates := r.duplicates + [(i, d)]), i + 1)
  {
    var next := r.(duplicates := r.duplicates + [(i, d)]);
    assert next.duplicates[|r.duplicates|] == (i, d);
    assert !InJobs(r, i) && !InDuplicates(r, i) && i !in r.rejected;
    forall k: nat ensures InJobs(next, k) <==> InJobs(r, k) {}
    forall k: nat ensures InDuplicates(next, k) <==> InDuplicates(r, k) || k == i {
      if InDuplicates(r, k) {
        var a :| 0 <= a < |r.duplicates| && r.duplicates[a].0 == k;
        assert next.duplicates[a].0 == k;
      }
    }
    hide InJobs, InDuplicates;
  }

  lemma JobPartitions(r: Response, i: nat, j: Id)
    requires r.Sorted? && Partitions(r, i)
    ensures Partitions(r.(jobs := r.jobs + [(i, j)]), i + 1)
  {
    var next := r.(jobs := r.jobs + [(i, j)]);
    assert next.jobs[|r.jobs|] == (i, j);
    assert !InJobs(r, i) && !InDuplicates(r, i) && i !in r.rejected;
    forall k: nat ensures InDuplicates(next, k) <==> InDuplicates(r, k) {}
    forall k: nat ensures InJobs(next, k) <==> InJobs(r, k) || k == i {
      if InJobs(r, k) {
        var a :| 0 <= a < |r.jobs| && r.jobs[a].0 == k;
        assert next.jobs[a].0 == k;
      }
    }
    hide InJobs, InDuplicates;
  }

  lemma SameJobsSame(db: Db, now: Db, s: Settings, files: seq<UploadedFile>, c: Caller, st: Staging, r: Response,
                     next: Response)
    requires r.Sorted? && next.Sorted? && next.jobs == r.jobs && forall a | 0 <= a < |r.jobs| :: r.jobs[a].0 < |files|
    requires OneJobEach(db, now, s, files, c, st, r)
    ensures OneJobEach(db, now, s, files, c, st, next)
  {
  }

  lemma OneMoreJob(db: Db, now: Db, s: Settings, files: seq<UploadedFile>, c: Caller, st: Staging, r: Response, i: nat,
                   job: Job)
    requires i < |files| && r.Sorted? && forall a | 0 <= a < |r.jobs| :: r.jobs[a].0 < |files|
    requires OneJobEach(db, now, s, files, c, st, r) && forall j | j in db.jobs :: j < db.nextId
    requires AsksForFile(job, s, c, st, i, files[i])
    ensures OneJobEach(db, CreateJob(now, job), s, files, c, st, r.(jobs := r.jobs + [(i, now.nextId)]))
  {
    var next := r.(jobs := r.jobs + [(i, now.nextId)]);
    assert next.jobs[|r.jobs|] == (i, now.nextId);
    hide AsksForFile;
  }

  lemma OneMoreJustified(db: Db, s: Settings, files: seq<UploadedFile>, c: Caller, st: Staging, r: Response, i: nat,
                         d: Id)
    requires i < |files| && r.Sorted? && Justified(db, s, files, c, st, r)
    ensures forall a | 0 <= a < |r.jobs| :: r.jobs[a].0 < |files|
    ensures !Acceptable(s, files[i]) ==> Justified(db, s, files, c, st, r.(rejected := r.rejected + [i]))
    ensures Acceptable(s, files[i]) && c.confirm == None && DuplicateOf(db, st.digest(files[i].content), d) ==>
              Justified(db, s, files, c, st, r.(duplicates := r.duplicates + [(i, d)]))
    ensures Acceptable(s, files[i]) && (c.confirm == None ==> IsNew(db, st.digest(files[i].content))) ==>
              Justified(db, s, files, c, st, r.(jobs := r.jobs + [(i, d)]))
  {
    hide Acceptable, DuplicateOf, IsNew;
  }

  /** The jobs a batch has added so far are queued, so they decide nothing. */
  lemma JudgedBefore(db: Db, now: Db, s: Settings, files: seq<UploadedFile>, c: Caller, st: Staging, r: Response,
                     hash: string)
    requires r.Sorted? && Justified(db, s, files, c, st, r) && OneJobEach(db, now, s, files, c, st, r)
    ensures IsNew(now, hash) ==> IsNew(db, hash)
    ensures forall d :: DuplicateOf(now, hash, d) ==> DuplicateOf(db, hash, d)
  {
    forall j: Id ensures IndexedWith(now.jobs, j, hash) ==> IndexedWith(db.jobs, j, hash) {
      if j in now.jobs && j !in db.jobs {
        assert r.jobs[j - db.nextId].1 == j;
      }
    }
    forall j: Id ensures IndexedWith(db.jobs, j, hash) ==> IndexedWith(now.jobs, j, hash) {
    }
    hide Justified, OneJobEach;
    assert now.documents == db.documents;
  }
}
