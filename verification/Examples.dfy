/** Concrete runs, from the empty stores, that end with a search showing what it may not: one for
    each kind of harmful step. */
module Examples {
  import opened Options
  import opened Records
  import opened Store
  import opened StoreIntegrity
  import opened Ingestion
  import opened JobOutcome
  import opened Visibility
  import opened Services
  import opened Runs

  // ---------------------------------------------------------------- the setting

  /** Every document is one chunk, of low confidence if its title says so. */
  const PARTS := Setup(0.6, (doc: ParsedDocument) =>
    [ChunkOf(doc)])

  const NO_LABELS := Labels("md", map[], [], [])

  function Doc(path: string, title: string, hash: string): ParsedDocument {
    ParsedDocument(path, "md", "text/markdown", title, "text", hash, NO_LABELS)
  }

  function Upload(path: string, target: Option<Id>, time: int): Job {
    Job(path, "user", None, Queued, 0, 3, None, None, None, None, target, None, time)
  }

  function Load(doc: ParsedDocument): Plan {
    Plan(Some([doc]), [NoFault], false)
  }

  // ---------------------------------------------------------------- one document, one chunk

  function ChunkOf(doc: ParsedDocument): ChunkCandidate {
    ChunkCandidate(0, doc.content, if doc.title == "low" then 0.5 else 1.0)
  }

  lemma OneId(first: Id)
    ensures IdRange(first, 1) == {first}
  {
    assert IdRange(first, 0) == {};
  }

  lemma PointsOfOne(d: Id, workspaceId: Option<Id>, doc: ParsedDocument, first: Id)
    ensures PointsFor(d, workspaceId, doc, first, [ChunkOf(doc)], 1, 0.6)
            == if doc.title == "low" then map[] else map[first := NewPoint(d, workspaceId, doc, first, ChunkOf(doc))]
  {
    OneId(first);
    hide IdRange;
  }

  lemma ReviewsOfOne(db: Db, run: Id, d: Id, workspaceId: Option<Id>, doc: ParsedDocument, first: Id)
    ensures RouteReviews(db, run, d, workspaceId, doc, first, [ChunkOf(doc)], 1, 0.6)
            == if doc.title == "low"
               then CreateReview(db, NewReview(run, ChunkOf(doc), NewPoint(d, workspaceId, doc, first, ChunkOf(doc))))
               else db
  {
    hide CreateReview;
    assert RouteReviews(db, run, d, workspaceId, doc, first, [ChunkOf(doc)], 0, 0.6) == db;
  }

  /** The chunk replaces those of its document. */
  ghost function Replaced(db: Db, d: Id, doc: ParsedDocument): Db {
    db.(chunks := (map c | c in db.chunks && db.chunks[c].documentId != d :: db.chunks[c])
                  [db.nextId := NewChunk(d, ChunkOf(doc))],
        nextId := db.nextId + 1)
  }

  lemma ReplacedIs(db: Db, d: Id, doc: ParsedDocument)
    ensures ReplaceChunks(db, d, [ChunkOf(doc)]) == Replaced(db, d, doc)
  {
    OneId(db.nextId);
    hide IdRange;
    assert NewChunks(d, db.nextId, [ChunkOf(doc)]) == map[db.nextId := NewChunk(d, ChunkOf(doc))];
    hide NewChunks, NewChunk, ChunkOf;
  }

  lemma OneChunk(w: World, run: Id, d: Id, doc: ParsedDocument)
    requires d in w.db.documents
    ensures var point := NewPoint(d, w.db.documents[d].workspaceId, doc, w.db.nextId, ChunkOf(doc));
            var replaced := Replaced(w.db, d, doc);
            IndexDocument(w, run, d, doc, PARTS, NoFault)
            == if doc.title == "low" then DocResult(World(CreateReview(replaced, NewReview(run, ChunkOf(doc), point)),
                                                          w.points), Changed(0))
               else DocResult(World(replaced, w.points[w.db.nextId := point]), Changed(1))
  {
    hide ReplaceChunks, Replaced, RouteReviews, PointsFor, CreateReview;
    assert PARTS.chunker(doc) == [ChunkOf(doc)] && PARTS.threshold == 0.6;
    hide ChunkOf;
    var workspaceId := w.db.documents[d].workspaceId;
    ReplacedIs(w.db, d, doc);
    PointsOfOne(d, workspaceId, doc, w.db.nextId);
    ReviewsOfOne(Replaced(w.db, d, doc), run, d, workspaceId, doc, w.db.nextId);
    var point := NewPoint(d, workspaceId, doc, w.db.nextId, ChunkOf(doc));
    hide NewPoint;
    var one := map[w.db.nextId := point];
    assert |one| == 1 && w.points + one == w.points[w.db.nextId := point];
    var none: map<Id, Payload> := map[];
    assert |none| == 0 && w.points + none == w.points;
  }

  /** A run over one document that changes. */
  lemma OneDocument(w: World, request: Request, doc: ParsedDocument, fault: Fault)
    ensures var started := World(CreateRun(w.db, request.sourcePath), w.points);
            var d := IngestDocument(started, w.db.nextId, request, doc, PARTS, fault);
            d.outcome.Changed? || d.outcome.Raised? ==>
              var (status, n, points) :=
                if d.outcome.Changed? then (Completed, 1, d.outcome.points) else (Aborted, 0, 0);
              Ingest(w, request, PARTS, Plan(Some([doc]), [fault], false))
              == IngestResult(World(FinishRun(d.world.db, w.db.nextId, status, 1, n, points), d.world.points),
                              w.db.nextId, status)
  {
    hide IngestDocument, FinishRun;
    var started := World(CreateRun(w.db, request.sourcePath), w.points);
    assert IngestUpTo(started, w.db.nextId, request, [doc], PARTS, [fault], 0) == Progress(started, 0, 0, true);
    assert [doc][0] == doc && FaultOf([fault], 0) == fault;
  }

  // ---------------------------------------------------------------- a first scan

  const NO_POINTS: map<Id, Payload> := map[]

  ghost function RowOf(doc: ParsedDocument, uploader: Option<string>, version: int): Document {
    Document(NewFields(doc, uploader), doc.labels, version, None)
  }

  /** The stores after a first scan that finds one document: run 0, document 1, chunk 2 and, for
      a chunk of low confidence, review item 3. */
  ghost function Scanned(doc: ParsedDocument): World {
    var low, point := doc.title == "low", NewPoint(1, None, doc, 2, ChunkOf(doc));
    World(Db(map[1 := RowOf(doc, None, 1)], map[], map[2 := NewChunk(1, ChunkOf(doc))], map[],
             if low then map[3 := NewReview(0, ChunkOf(doc), point)] else map[],
             map[0 := IngestionRun("dir", Completed, 1, 1, if low then 0 else 1)], map[], if low then 4 else 3),
          if low then map[] else map[2 := point])
  }

  function ScanFor(doc: ParsedDocument, fault: Fault): Step {
    Scan("dir", Plan(Some([doc]), [fault], false))
  }

  lemma NewDocument(db: Db, doc: ParsedDocument)
    requires db.documents == map[]
    ensures UpsertDocument(db, doc, None, None)
            == Upserted(db.(documents := map[db.nextId := RowOf(doc, None, 1)], nextId := db.nextId + 1),
                        db.nextId, true)
  {
    assert Owner(db.documents, doc.sourcePath) == None;
  }

  lemma FirstScan(doc: ParsedDocument)
    ensures Enabled(EMPTY, ScanFor(doc, NoFault)) && Next(EMPTY, ScanFor(doc, NoFault), PARTS) == Scanned(doc)
    ensures Harmless(EMPTY, ScanFor(doc, NoFault))
  {
    hide ChunkOf, IndexDocument, NewPoint, NewFields;
    var request := Request("dir", None, None, None);
    var started := World(CreateRun(EMPTY.db, "dir"), NO_POINTS);
    NewDocument(started.db, doc);
    var u := UpsertDocument(started.db, doc, None, None);
    hide UpsertDocument;
    OneChunk(World(u.db, NO_POINTS), 0, 1, doc);
    OneDocument(EMPTY, request, doc, NoFault);
    hide Ingest;
    assert Replaced(u.db, 1, doc).chunks == map[2 := NewChunk(1, ChunkOf(doc))];
  }

  // ---------------------------------------------------------------- runs

  lemma Begin(step: Step)
    requires Enabled(EMPTY, step)
    ensures After([step], PARTS) == Some(Next(EMPTY, step, PARTS))
    ensures Harmless(EMPTY, step) ==> HarmlessRun([step], PARTS)
  {
    hide Next, Enabled, Harmless;
    assert [step][..0] == [];
    assert After([step][..0], PARTS) == Some(EMPTY);
    assert HarmlessRun([step][..0], PARTS);
  }

  lemma GoOn(steps: seq<Step>, w: World, step: Step)
    requires After(steps, PARTS) == Some(w) && Enabled(w, step)
    ensures After(steps + [step], PARTS) == Some(Next(w, step, PARTS))
    ensures HarmlessRun(steps, PARTS) && Harmless(w, step) ==> HarmlessRun(steps + [step], PARTS)
  {
    hide Next, Enabled, Harmless;
    assert (steps + [step])[..|steps|] == steps;
  }

  /** The run shows nothing it may not until its last step, after which the search for everything
      shows chunk `c`, which it may not. */
  ghost predicate ShowsInTheEnd(steps: seq<Step>, c: Id) {
    && |steps| > 0 && After(steps, PARTS).Some? && DiscreetRun(steps[..|steps| - 1], PARTS)
    && Findable(After(steps, PARTS).value, EVERYTHING, c) && !MayShow(After(steps, PARTS).value.db, EVERYTHING, c)
  }

  lemma Shows(steps: seq<Step>, w: World, step: Step, c: Id)
    requires After(steps, PARTS) == Some(w) && HarmlessRun(steps, PARTS) && Enabled(w, step)
    requires var after := Next(w, step, PARTS);
             && c in after.points && after.points[c].chunkId == c && after.points[c].published && c in after.db.chunks
             && (after.db.chunks[c].documentId in after.db.documents ==>
                   after.db.documents[after.db.chunks[c].documentId].fields.ackedAt == None)
    ensures ShowsInTheEnd(steps + [step], c)
  {
    hide Next, Enabled, HarmlessRun, DiscreetRun, After;
    GoOn(steps, w, step);
    assert (steps + [step])[..|steps|] == steps;
    DiscreetExactlyIfHarmless(steps, PARTS);
    var after := Next(w, step, PARTS);
    assert Matches(EVERYTHING, after.points[c]);
  }

  // ---------------------------------------------------------------- a review that publishes

  const LOW := Doc("a", "low", "h1")

  const NO_EDIT := Edit(None, None, None, None, None, None, None)

  const PUBLISH := Review(ReviewCall(3, Approve, "reviewer", None, NO_EDIT.(published := Some(true))), false)

  /** A chunk of low confidence is held for review; approving it with a payload marked published
      shows it although its document is not acknowledged. */
  lemma ExposingReview()
    ensures ShowsInTheEnd([ScanFor(LOW, NoFault), PUBLISH], 2)
  {
    FirstScan(LOW);
    Begin(ScanFor(LOW, NoFault));
    var w := Scanned(LOW);
    ReviewWrites(w, PUBLISH.call, false);
    ReviewRows(w, PUBLISH.call, false);
    hide ApplyReview, ScanFor;
    Shows([ScanFor(LOW, NoFault)], w, PUBLISH, 2);
    assert [ScanFor(LOW, NoFault)] + [PUBLISH] == [ScanFor(LOW, NoFault), PUBLISH];
  }

  // ---------------------------------------------------------------- a review that misplaces

  const MISPLACE := Review(ReviewCall(3, Approve, "reviewer", None, NO_EDIT.(workspaceId := Some(Some(99)))), false)

  const ACK := Ack(1, "admin", 10, false)

  /** Approving it under the workspace 99, which is not its document's, shows nothing yet; once the
      document is acknowledged, members of 99 find it. */
  lemma MisplacingReview()
    ensures var reviewed := After([ScanFor(LOW, NoFault), MISPLACE], PARTS);
            var acked := After([ScanFor(LOW, NoFault), MISPLACE, ACK], PARTS);
            && reviewed.Some? && Discreet(reviewed.value) && acked.Some? && !Discreet(acked.value)
  {
    hide Scanned, ApplyReview, ScanFor, ApplyAck, Discreet, After, Safe, Harmless, HarmlessRun, Misplaces, Edited;
    FirstScan(LOW);
    var steps, w := [ScanFor(LOW, NoFault)], Scanned(LOW);
    Begin(ScanFor(LOW, NoFault));
    HarmlessRunIsSafe(steps, PARTS);
    MisplaceMisplaces();
    MisplacedPointWaits(w, MISPLACE.call, "admin", 10);
    GoOn(steps, w, MISPLACE);
    GoOn(steps + [MISPLACE], Next(w, MISPLACE, PARTS), ACK);
    assert steps + [MISPLACE] == [ScanFor(LOW, NoFault), MISPLACE];
    assert steps + [MISPLACE] + [ACK] == [ScanFor(LOW, NoFault), MISPLACE, ACK];
  }

  lemma MisplaceMisplaces()
    ensures var w := Scanned(LOW);
            && Misplaces(w, MISPLACE.call)
            && w.db.chunks[Edited(w.db.reviews[3].point, MISPLACE.call.edit).chunkId].documentId == 1
  {
  }

  // ---------------------------------------------------------------- a scan that fails half way

  const FIRST := Doc("a", "title", "h1")
  const SECOND := Doc("a", "title", "h2")

  /** The first scan, acknowledged. */
  ghost function Acknowledged(): World {
    ApplyAck(Scanned(FIRST), 1, "admin", 10, false)
  }

  lemma AcknowledgedIs()
    ensures After([ScanFor(FIRST, NoFault), ACK], PARTS) == Some(Acknowledged())
    ensures HarmlessRun([ScanFor(FIRST, NoFault), ACK], PARTS)
  {
    FirstScan(FIRST);
    Begin(ScanFor(FIRST, NoFault));
    var steps, w := [ScanFor(FIRST, NoFault)], Scanned(FIRST);
    assert Harmless(w, ACK);
    hide ScanFor, ApplyAck;
    GoOn(steps, w, ACK);
    assert steps + [ACK] == [ScanFor(FIRST, NoFault), ACK];
  }

  lemma AcknowledgedRows()
    ensures var w := Acknowledged();
            && w.db.documents == map[1 := RowOf(FIRST, None, 1).(fields :=
                                            NewFields(FIRST, None).(ackedBy := Some("admin"), ackedAt := Some(10)))]
            && w.db.versions == map[] && w.db.chunks == map[2 := NewChunk(1, ChunkOf(FIRST))]
            && w.db.jobs == map[] && w.db.reviews == map[] && w.db.nextId == 3
            && w.points == map[2 := NewPoint(1, None, FIRST, 2, ChunkOf(FIRST)).(published := true)]
  {
    hide ChunkOf;
  }

  /** Scanned again with other content, the document loses its acknowledgement; when its chunks
      then cannot be replaced, the old one stays published. */
  lemma ExposingScan()
    ensures ShowsInTheEnd([ScanFor(FIRST, NoFault), ACK, ScanFor(SECOND, ReplaceFails)], 2)
  {
    hide After, HarmlessRun, Acknowledged, ShowsInTheEnd;
    AcknowledgedIs();
    AcknowledgedRows();
    var steps, w, step := [ScanFor(FIRST, NoFault), ACK], Acknowledged(), ScanFor(SECOND, ReplaceFails);
    Rescanned(w);
    hide Next;
    Shows(steps, w, step, 2);
    assert steps + [step] == [ScanFor(FIRST, NoFault), ACK, ScanFor(SECOND, ReplaceFails)];
  }

  lemma Rescanned(w: World)
    requires w == Acknowledged()
    ensures var after := Next(w, ScanFor(SECOND, ReplaceFails), PARTS);
            && after.points == w.points && after.db.chunks == w.db.chunks
            && 1 in after.db.documents && after.db.documents[1].fields.ackedAt == None
  {
    AcknowledgedRows();
    hide ChunkOf, Acknowledged;
    var request := Request("dir", None, None, None);
    var started := World(CreateRun(w.db, "dir"), w.points);
    assert UniquePaths(started.db.documents);
    OwnerIsUnique(started.db.documents, "a", 1);
    OneDocument(w, request, SECOND, ReplaceFails);
    hide Ingest;
  }

  // ---------------------------------------------------------------- a version that cannot be loaded

  const SECOND_VERSION := Doc("b", "title", "h2")

  const QUEUE_SECOND := Enqueue(Upload("b", Some(1), 0))
  const INDEX_SECOND := Work(3, Load(SECOND_VERSION))
  const QUEUE_THIRD := Enqueue(Upload("c", Some(1), 1))
  const MISS_THIRD := Work(7, Plan(None, [], false))

  const SCANNED := [ScanFor(FIRST, NoFault)]

  /** After a scan, a second version of its document is uploaded. */
  ghost function Queued2(): World {
    var w := Scanned(FIRST);
    World(w.db.(jobs := map[3 := Upload("b", Some(1), 0)], nextId := 4), w.points)
  }

  lemma QueuedIs()
    ensures After(SCANNED + [QUEUE_SECOND], PARTS) == Some(Queued2()) && HarmlessRun(SCANNED + [QUEUE_SECOND], PARTS)
  {
    FirstScan(FIRST);
    Begin(ScanFor(FIRST, NoFault));
    hide ScanFor, ChunkOf;
    GoOn(SCANNED, Scanned(FIRST), QUEUE_SECOND);
    assert Next(Scanned(FIRST), QUEUE_SECOND, PARTS) == Queued2();
  }

  /** It is ingested: run 4, version row 5, chunk 6. */
  ghost function Versioned(): World {
    World(Db(map[1 := RowOf(SECOND_VERSION, Some("user"), 2)], map[5 := VersionRow(1, 1, NewFields(FIRST, None))],
             map[6 := NewChunk(1, ChunkOf(SECOND_VERSION))],
             map[3 := Upload("b", Some(1), 0).(status := Indexed, attempt := 1, documentId := Some(1),
                                               runId := Some(4))],
             map[], map[0 := IngestionRun("dir", Completed, 1, 1, 1), 4 := IngestionRun("b", Completed, 1, 1, 1)],
             map[], 7),
          map[2 := NewPoint(1, None, FIRST, 2, ChunkOf(FIRST)),
              6 := NewPoint(1, None, SECOND_VERSION, 6, ChunkOf(SECOND_VERSION))])
  }

  /** The ingestion of the second version. */
  lemma SecondIngested(w: World)
    requires w == World(CreateRun(ClaimJob(Queued2().db, 3), "b"), Queued2().points)
    ensures var d := IngestDocument(w, 4, JobRequest(Upload("b", Some(1), 0)), SECOND_VERSION, PARTS, NoFault);
            && d.outcome == Changed(1)
            && d.world == World(Versioned().db.(jobs := w.db.jobs, runs := w.db.runs), Versioned().points)
  {
    hide ChunkOf, IndexDocument, NewPoint, NewFields;
    var u := UpsertVersion(w.db, 1, SECOND_VERSION, Some("user")).value;
    OneChunk(World(u, w.points), 4, 1, SECOND_VERSION);
    assert Replaced(u, 1, SECOND_VERSION).chunks == map[6 := NewChunk(1, ChunkOf(SECOND_VERSION))];
  }

  lemma VersionedIs()
    ensures Enabled(Queued2(), INDEX_SECOND) && Next(Queued2(), INDEX_SECOND, PARTS) == Versioned()
    ensures Harmless(Queued2(), INDEX_SECOND)
  {
    hide ChunkOf, IngestDocument, NewPoint, NewFields;
    var w := Queued2();
    var claimed := World(ClaimJob(w.db, 3), w.points);
    SecondIngested(World(CreateRun(claimed.db, "b"), w.points));
    OneDocument(claimed, JobRequest(w.db.jobs[3]), SECOND_VERSION, NoFault);
    hide Ingest;
    SecondOwner();
    hide Owner;
  }

  lemma SecondOwner()
    ensures Owner(Versioned().db.documents, "b") == Some(1)
  {
    hide ChunkOf, NewPoint;
    assert UniquePaths(Versioned().db.documents);
    OwnerIsUnique(Versioned().db.documents, "b", 1);
  }

  lemma UpToVersion()
    ensures After(SCANNED + [QUEUE_SECOND, INDEX_SECOND], PARTS) == Some(Versioned())
    ensures HarmlessRun(SCANNED + [QUEUE_SECOND, INDEX_SECOND], PARTS)
  {
    hide Next, Enabled, Harmless, After, HarmlessRun, Queued2, Versioned, ScanFor;
    QueuedIs();
    VersionedIs();
    GoOn(SCANNED + [QUEUE_SECOND], Queued2(), INDEX_SECOND);
    assert SCANNED + [QUEUE_SECOND] + [INDEX_SECOND] == SCANNED + [QUEUE_SECOND, INDEX_SECOND];
  }

  /** The second version is acknowledged and a third is uploaded. */
  ghost function Queued3(): World {
    var w := Versioned();
    var row := w.db.documents[1];
    World(w.db.(documents := map[1 := row.(fields := row.fields.(ackedBy := Some("admin"), ackedAt := Some(10)))],
                jobs := w.db.jobs[7 := Upload("c", Some(1), 1)], nextId := 8),
          w.points[6 := w.points[6].(published := true)])
  }

  lemma SecondAcknowledged()
    ensures var w := ApplyAck(Versioned(), 1, "admin", 10, false);
            && Harmless(Versioned(), ACK) && NewJob(w.db, QUEUE_THIRD.job)
            && World(CreateJob(w.db, QUEUE_THIRD.job), w.points) == Queued3()
  {
    hide ChunkOf;
    assert ChunksOf(Versioned().db, 1) == {6};
    hide ChunksOf;
  }

  lemma UpToThird()
    ensures After(SCANNED + [QUEUE_SECOND, INDEX_SECOND, ACK, QUEUE_THIRD], PARTS) == Some(Queued3())
    ensures HarmlessRun(SCANNED + [QUEUE_SECOND, INDEX_SECOND, ACK, QUEUE_THIRD], PARTS)
  {
    hide After, HarmlessRun, Queued3, Versioned, ScanFor, ApplyAck, CreateJob, NewJob;
    UpToVersion();
    SecondAcknowledged();
    var steps, w := SCANNED + [QUEUE_SECOND, INDEX_SECOND], Versioned();
    GoOn(steps, w, ACK);
    GoOn(steps + [ACK], ApplyAck(w, 1, "admin", 10, false), QUEUE_THIRD);
    assert steps + [ACK] + [QUEUE_THIRD] == SCANNED + [QUEUE_SECOND, INDEX_SECOND, ACK, QUEUE_THIRD];
  }

  /** The third cannot be loaded. Compensating for an upsert that never happened, the worker takes
      the second version off, and with it the acknowledgement; the first was never
      acknowledged. */
  lemma ThirdMissed()
    ensures Integrity(Queued3().db) ==>
              && Enabled(Queued3(), MISS_THIRD)
              && var after := Next(Queued3(), MISS_THIRD, PARTS);
                 && 1 in after.db.documents && after.db.documents[1].currentVersion == 1
                 && after.db.documents[1].fields == NewFields(FIRST, None) && after.db.versions == map[]
                 && after.db.chunks == Queued3().db.chunks && after.points == Queued3().points
  {
    hide ChunkOf, UniquePaths, FreshIds, References, VersionsOf, JobRun, RollbackVersion, NewPoint;
    if Integrity(Queued3().db) {
      var w, plan := Queued3(), Plan(None, [], false);
      assert IsNext(w.db.jobs, 7);
      assert FailsEarly(w, 7, plan);
      EarlyFailureRollsBack(w, 7, PARTS, plan);
      var r := JobRun(w, 7, PARTS, plan).world.db;
      hide RunOnce, Integrity;
      assert r.documents == w.db.documents && r.versions == w.db.versions;
      var v := RollbackIs(r, 1);
      assert v == 5;
      assert PathFree(r.documents, 1, "a");
    }
  }

  const HARMFUL := SCANNED + [QUEUE_SECOND, INDEX_SECOND, ACK, QUEUE_THIRD] + [MISS_THIRD]

  /** A run of six steps, reachable from nothing: the last pass shows a chunk of a document that
      is no longer acknowledged. */
  lemma HarmfulPass()
    ensures ShowsInTheEnd(HARMFUL, 6)
  {
    hide After, HarmlessRun, Next, Enabled, ShowsInTheEnd;
    UpToThird();
    var steps := SCANNED + [QUEUE_SECOND, INDEX_SECOND, ACK, QUEUE_THIRD];
    ReachableHasIntegrity(steps, PARTS);
    ThirdMissed();
    hide Integrity;
    Shows(steps, Queued3(), MISS_THIRD, 6);
  }

  /** And in the same pass the good second version is lost: before it the document was at
      version 2, after it is at version 1 and there is no other. */
  lemma LostVersion()
    ensures var steps := HARMFUL[..|HARMFUL| - 1];
            && After(steps, PARTS).Some? && After(HARMFUL, PARTS).Some?
            && var before, after := After(steps, PARTS).value.db, After(HARMFUL, PARTS).value.db;
               && 1 in before.documents && before.documents[1].currentVersion == 2
               && 1 in after.documents && after.documents[1].currentVersion == 1 && after.versions == map[]
  {
    hide After, HarmlessRun, Next, Enabled;
    UpToThird();
    var steps := SCANNED + [QUEUE_SECOND, INDEX_SECOND, ACK, QUEUE_THIRD];
    assert HARMFUL[..|HARMFUL| - 1] == steps;
    ReachableHasIntegrity(steps, PARTS);
    ThirdMissed();
    hide Integrity;
    GoOn(steps, Queued3(), MISS_THIRD);
  }
}
