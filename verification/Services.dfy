/** The other service calls on the two stores: reviewing a low-confidence chunk and
    acknowledging a document. */
module Services {
  import opened Options
  import opened Records
  import opened Store
  import opened StoreIntegrity
  import opened Visibility
  import opened IngestVisibility

  // ---------------------------------------------------------------- review

  datatype ReviewAction = Approve | Reject | Modify

  /** The payload fields a reviewer overwrites. */
  datatype Edit = Edit(
    documentId: Option<Id>, chunkId: Option<Id>, sourceType: Option<string>, tags: Option<seq<string>>,
    chunkIndex: Option<nat>, workspaceId: Option<Option<Id>>, published: Option<bool>)

  ghost function Edited(p: Payload, e: Edit): Payload {
    Payload(OrElse(e.documentId, p.documentId), OrElse(e.chunkId, p.chunkId), OrElse(e.sourceType, p.sourceType),
            OrElse(e.tags, p.tags), OrElse(e.chunkIndex, p.chunkIndex), OrElse(e.workspaceId, p.workspaceId),
            OrElse(e.published, p.published))
  }

  ghost function StatusOf(action: ReviewAction): ReviewStatus {
    match action
    case Approve => Approved
    case Reject => Rejected
    case Modify => Modified
  }

  datatype ReviewCall = ReviewCall(item: Id, action: ReviewAction, reviewer: string, content: Option<string>,
                                   edit: Edit)

  /** `apply_action`: the item is finalized first; an approved or modified one then rewrites
      its chunk and its point. A missing chunk or a failing index call raises after the item
      was finalized. */
  ghost function ApplyReview(w: World, call: ReviewCall, indexFails: bool): World {
    if call.item !in w.db.reviews || w.db.reviews[call.item].status != Pending then w
    else
      var item := w.db.reviews[call.item];
      var point := Edited(item.point, call.edit);
      var content := if call.action == Modify then Some(OrElse(call.content, item.content)) else None;
      var marked := MarkReview(w.db, call.item, StatusOf(call.action), call.reviewer, content, point).value;
      if call.action == Reject then World(marked, w.points)
      else
        var updated := UpdateChunk(marked, point.chunkId, OrElse(content, item.content), StatusOf(call.action));
        if updated == None then World(marked, w.points)
        else if indexFails then World(updated.value, w.points)
        else World(updated.value, w.points[point.chunkId := point])
  }

  /** The payload with the fields that the reviewer gave, and otherwise as it was. */
  ghost predicate EditedAs(p: Payload, q: Payload, e: Edit) {
    && q.documentId == (if e.documentId.Some? then e.documentId.value else p.documentId)
    && q.chunkId == (if e.chunkId.Some? then e.chunkId.value else p.chunkId)
    && q.sourceType == (if e.sourceType.Some? then e.sourceType.value else p.sourceType)
    && q.tags == (if e.tags.Some? then e.tags.value else p.tags)
    && q.chunkIndex == (if e.chunkIndex.Some? then e.chunkIndex.value else p.chunkIndex)
    && q.workspaceId == (if e.workspaceId.Some? then e.workspaceId.value else p.workspaceId)
    && q.published == (if e.published.Some? then e.published.value else p.published)
  }

  /** The item after it was reviewed: the status of the action, the reviewer, the edited point, and
      another text only if the action is to modify and brings one. */
  ghost predicate ReviewedAs(item: ReviewItem, after: ReviewItem, call: ReviewCall) {
    && (call.action == Approve ==> after.status == Approved)
    && (call.action == Reject ==> after.status == Rejected)
    && (call.action == Modify ==> after.status == Modified)
    && after.reviewerId == Some(call.reviewer) && after.runId == item.runId && after.confidence == item.confidence
    && after.content == (if call.action == Modify && call.content.Some? then call.content.value else item.content)
    && EditedAs(item.point, after.point, call.edit)
  }

  /** The chunk after a review that was not a rejection: the text and the status of the item. */
  ghost predicate RewrittenAs(chunk: Chunk, after: Chunk, item: ReviewItem) {
    && after.content == item.content && after.reviewStatus == Some(item.status)
    && after.documentId == chunk.documentId && after.chunkIndex == chunk.chunkIndex
  }

  /** What a review leaves, field by field. An item that is missing or final stays as it is, and so
      does everything else. A rejection changes the item alone. Any other review gives the chunk that
      the edited point names the item's text and status, if the chunk is there, and then writes the
      point under that id, if the index does not fail. */
  ghost predicate ReviewLeaves(w: World, after: World, call: ReviewCall, indexFails: bool) {
    if call.item !in w.db.reviews || w.db.reviews[call.item].status != Pending then after == w
    else
      && call.item in after.db.reviews
      && var item := after.db.reviews[call.item];
         var c := item.point.chunkId;
         && ReviewedAs(w.db.reviews[call.item], item, call)
         && after.db == w.db.(reviews := w.db.reviews[call.item := item], chunks := after.db.chunks)
         && (if call.action == Reject || c !in w.db.chunks then after.db.chunks == w.db.chunks
             else
               && c in after.db.chunks && RewrittenAs(w.db.chunks[c], after.db.chunks[c], item)
               && after.db.chunks == w.db.chunks[c := after.db.chunks[c]])
         && after.points == if call.action == Reject || c !in w.db.chunks || indexFails then w.points
                            else w.points[c := item.point]
  }

  lemma ReviewOutcome(w: World, call: ReviewCall, indexFails: bool)
    ensures ReviewLeaves(w, ApplyReview(w, call, indexFails), call, indexFails)
  {
    hide Edited, ReviewedAs, StatusOf, UpdateChunk, MarkReview, ReviewLeaves;
    if call.item !in w.db.reviews || w.db.reviews[call.item].status != Pending {
      NothingLeft(w, call, indexFails);
    } else {
      var item := w.db.reviews[call.item];
      ItemReviewed(item, call);
      var point := Edited(item.point, call.edit);
      var content := if call.action == Modify then Some(OrElse(call.content, item.content)) else None;
      MarkedIs(w.db, call.item, StatusOf(call.action), call.reviewer, content, point);
      var marked := MarkReview(w.db, call.item, StatusOf(call.action), call.reviewer, content, point).value;
      LeavesAfter(w, marked, call, indexFails);
    }
  }

  lemma NothingLeft(w: World, call: ReviewCall, indexFails: bool)
    requires call.item !in w.db.reviews || w.db.reviews[call.item].status != Pending
    ensures ReviewLeaves(w, w, call, indexFails)
  {
  }

  /** From the marked item on. */
  lemma LeavesAfter(w: World, marked: Db, call: ReviewCall, indexFails: bool)
    requires call.item in w.db.reviews && w.db.reviews[call.item].status == Pending && call.item in marked.reviews
    requires marked == w.db.(reviews := w.db.reviews[call.item := marked.reviews[call.item]])
    requires ReviewedAs(w.db.reviews[call.item], marked.reviews[call.item], call)
    ensures var item := marked.reviews[call.item];
            var updated := UpdateChunk(marked, item.point.chunkId, item.content, item.status);
            var after := if call.action == Reject || updated == None then World(marked, w.points)
                         else if indexFails then World(updated.value, w.points)
                         else World(updated.value, w.points[item.point.chunkId := item.point]);
            ReviewLeaves(w, after, call, indexFails)
  {
    hide ReviewedAs, UpdateChunk, RewrittenAs;
    ChunkRewritten(marked, marked.reviews[call.item]);
  }

  lemma MarkedIs(db: Db, r: Id, status: ReviewStatus, reviewer: string, content: Option<string>, point: Payload)
    requires r in db.reviews && db.reviews[r].status == Pending
    ensures var item := db.reviews[r];
            MarkReview(db, r, status, reviewer, content, point)
            == Some(db.(reviews := db.reviews[r := item.(status := status, reviewerId := Some(reviewer),
                                                         point := point, content := OrElse(content, item.content))]))
  {
  }

  lemma ChunkRewritten(db: Db, item: ReviewItem)
    ensures var c, after := item.point.chunkId, UpdateChunk(db, item.point.chunkId, item.content, item.status);
            if c !in db.chunks then after == None
            else
              && after.Some? && c in after.value.chunks && RewrittenAs(db.chunks[c], after.value.chunks[c], item)
              && after.value == db.(chunks := db.chunks[c := after.value.chunks[c]])
  {
  }

  lemma ItemReviewed(item: ReviewItem, call: ReviewCall)
    ensures var content := if call.action == Modify then OrElse(call.content, item.content) else item.content;
            ReviewedAs(item, item.(status := StatusOf(call.action), reviewerId := Some(call.reviewer),
                                   point := Edited(item.point, call.edit), content := content), call)
  {
  }

  /** The review goes through to the index. */
  ghost predicate Writes(w: World, call: ReviewCall, indexFails: bool) {
    && call.item in w.db.reviews && w.db.reviews[call.item].status == Pending
    && call.action != Reject && !indexFails
    && Edited(w.db.reviews[call.item].point, call.edit).chunkId in w.db.chunks
  }

  /** The document is not acknowledged, or the payload names another workspace than its. */
  ghost predicate Withheld(documents: map<Id, Document>, p: Payload, d: Id) {
    d in documents ==>
      documents[d].fields.ackedAt == None || (p.workspaceId.Some? && p.workspaceId != documents[d].workspaceId)
  }

  /** The review would write a published point for a chunk that is withheld. */
  ghost predicate ReviewExposes(w: World, call: ReviewCall, indexFails: bool) {
    && Writes(w, call, indexFails)
    && var point := Edited(w.db.reviews[call.item].point, call.edit);
       point.published && Withheld(w.db.documents, point, w.db.chunks[point.chunkId].documentId)
  }

  /** Only review items and chunk contents change. */
  ghost predicate OnlyReviewed(db: Db, after: Db, r: Id) {
    && after.documents == db.documents && after.versions == db.versions && after.nextId == db.nextId
    && after.jobs == db.jobs && after.runs == db.runs
    && after.chunks.Keys == db.chunks.Keys && after.reviews.Keys == db.reviews.Keys
    && (forall c | c in db.chunks :: after.chunks[c].documentId == db.chunks[c].documentId)
    && (forall i | i in db.reviews && i != r :: after.reviews[i] == db.reviews[i])
  }

  lemma MarkRows(db: Db, r: Id, status: ReviewStatus, reviewer: string, content: Option<string>, point: Payload)
    requires r in db.reviews && db.reviews[r].status == Pending && status != Pending
    ensures MarkReview(db, r, status, reviewer, content, point).Some?
    ensures var after := MarkReview(db, r, status, reviewer, content, point).value;
            OnlyReviewed(db, after, r) && after.chunks == db.chunks && after.reviews[r].status != Pending
  {
  }

  lemma UpdateRows(db: Db, r: Id, c: Id, content: string, status: ReviewStatus)
    requires UpdateChunk(db, c, content, status).Some?
    ensures var after := UpdateChunk(db, c, content, status).value;
            OnlyReviewed(db, after, r) && after.reviews == db.reviews
  {
  }

  lemma ReviewRows(w: World, call: ReviewCall, indexFails: bool)
    ensures var after := ApplyReview(w, call, indexFails).db;
            && OnlyReviewed(w.db, after, call.item)
            && (call.item in w.db.reviews && w.db.reviews[call.item].status == Pending ==>
                  after.reviews[call.item].status != Pending)
            && (call.item in w.db.reviews && w.db.reviews[call.item].status != Pending ==> after == w.db)
  {
    hide MarkReview, Edited, OnlyReviewed, UpdateChunk;
    SameIsOnlyReviewed(w.db, call.item);
    if call.item in w.db.reviews && w.db.reviews[call.item].status == Pending {
      var item := w.db.reviews[call.item];
      var point := Edited(item.point, call.edit);
      var content := if call.action == Modify then Some(OrElse(call.content, item.content)) else None;
      MarkRows(w.db, call.item, StatusOf(call.action), call.reviewer, content, point);
      var marked := MarkReview(w.db, call.item, StatusOf(call.action), call.reviewer, content, point).value;
      var updated := UpdateChunk(marked, point.chunkId, OrElse(content, item.content), StatusOf(call.action));
      if call.action != Reject && updated.Some? {
        UpdateRows(marked, call.item, point.chunkId, OrElse(content, item.content), StatusOf(call.action));
        OnlyReviewedTwice(w.db, marked, updated.value, call.item);
      }
    }
  }

  lemma SameIsOnlyReviewed(db: Db, r: Id)
    ensures OnlyReviewed(db, db, r)
  {
  }

  lemma OnlyReviewedTwice(db: Db, mid: Db, after: Db, r: Id)
    requires OnlyReviewed(db, mid, r) && OnlyReviewed(mid, after, r)
    ensures OnlyReviewed(db, after, r)
  {
  }

  lemma ReviewKeeps(w: World, call: ReviewCall, indexFails: bool)
    requires Integrity(w.db)
    ensures Integrity(ApplyReview(w, call, indexFails).db)
  {
    hide ApplyReview, VersionsOf, UniquePaths;
    ReviewRows(w, call, indexFails);
    OtherTablesKeep(w.db, ApplyReview(w, call, indexFails).db);
  }

  lemma ReviewIsCalm(w: World, call: ReviewCall, indexFails: bool)
    ensures Calm(w.db, ApplyReview(w, call, indexFails).db)
  {
    hide ApplyReview;
    ReviewRows(w, call, indexFails);
  }

  lemma ReviewKeepsReviews(w: World, call: ReviewCall, indexFails: bool)
    requires Integrity(w.db) && ReviewsSound(w.db)
    ensures ReviewsSound(ApplyReview(w, call, indexFails).db)
  {
    hide ApplyReview;
    var after := ApplyReview(w, call, indexFails).db;
    ReviewRows(w, call, indexFails);
    ReviewIsCalm(w, call, indexFails);
    ReviewKeeps(w, call, indexFails);
    assert References(after);
    hide Integrity, References, Calm, Steady;
    CalmIsSteady(w.db, after);
    forall r | r in after.reviews ensures PendingSound(after, after.reviews[r]) {
      if r != call.item || after == w.db {
        PendingAfterSteady(w.db, after, w.db.reviews[r]);
      }
    }
  }

  lemma CalmIsSteady(db: Db, after: Db)
    requires Calm(db, after)
    ensures Steady(db, after)
  {
  }

  /** A review keeps the world safe except when it writes a published point for a chunk that is
      withheld. */
  lemma ReviewIsSafeUnless(w: World, call: ReviewCall, indexFails: bool)
    requires Safe(w)
    ensures var after := ApplyReview(w, call, indexFails);
            && Integrity(after.db) && ReviewsSound(after.db)
            && (PointsSound(after) <==> !ReviewExposes(w, call, indexFails))
  {
    hide UniquePaths, VersionsOf, ReviewsSound, Calm, References, PointsSound, FreshIds, Sound;
    var after := ApplyReview(w, call, indexFails);
    ReviewKeeps(w, call, indexFails);
    ReviewKeepsReviews(w, call, indexFails);
    ReviewIsCalm(w, call, indexFails);
    ReviewRows(w, call, indexFails);
    hide Integrity;
    CalmKeepsPoints(w, after.db);
    if Writes(w, call, indexFails) {
      var point := Edited(w.db.reviews[call.item].point, call.edit);
      FreshChunk(after.db, point.chunkId);
      hide ApplyReview;
      OnePoint(World(after.db, w.points), point);
      WithheldIsUnsound(w.db.documents, point, w.db.chunks[point.chunkId].documentId);
    }
  }

  /** What a review does to the points. */
  lemma ReviewWrites(w: World, call: ReviewCall, indexFails: bool)
    ensures var after := ApplyReview(w, call, indexFails).points;
            if Writes(w, call, indexFails) then
              var point := Edited(w.db.reviews[call.item].point, call.edit);
              after == w.points[point.chunkId := point]
            else after == w.points
  {
    hide Edited;
  }

  /** An approved or modified chunk cannot be found until its document is acknowledged again:
      the review writes the point as it was held, unpublished, even when the document is
      acknowledged already. */
  lemma ReviewHides(w: World, call: ReviewCall, f: Filter)
    requires Safe(w) && call.item in w.db.reviews && w.db.reviews[call.item].status == Pending
    requires call.action != Reject && call.edit.published == None && call.edit.chunkId == None
    requires w.db.reviews[call.item].point.chunkId in w.db.chunks
    ensures var after := ApplyReview(w, call, false);
            var c := w.db.reviews[call.item].point.chunkId;
            && c in after.points && !after.points[c].published && !Findable(after, f, c)
  {
    hide Integrity, PointsSound;
    var item := w.db.reviews[call.item];
    HeldIsUnpublished(w.db, call.item);
    var point := Edited(item.point, call.edit);
    var after := ApplyReview(w, call, false);
    assert after.points == w.points[point.chunkId := point];
    hide ApplyReview, Edited;
    PointsBearTheirIds(w);
    UnpublishedIsHidden(after, f, point.chunkId);
  }

  lemma HeldIsUnpublished(db: Db, r: Id)
    requires ReviewsSound(db) && r in db.reviews && db.reviews[r].status == Pending
    ensures !db.reviews[r].point.published
  {
    assert PendingSound(db, db.reviews[r]);
  }

  lemma PointsBearTheirIds(w: World)
    requires PointsSound(w)
    ensures forall q | q in w.points :: w.points[q].chunkId == q
  {
  }

  lemma UnpublishedIsHidden(w: World, f: Filter, c: Id)
    requires c in w.points && !w.points[c].published && forall q | q in w.points :: w.points[q].chunkId == q
    ensures !Findable(w, f, c)
  {
  }

  lemma WithheldIsUnsound(documents: map<Id, Document>, p: Payload, d: Id)
    ensures p.published && Withheld(documents, p, d) <==> !Sound(documents, p, d)
  {
  }

  lemma FreshChunk(db: Db, c: Id)
    requires FreshIds(db) && c in db.chunks
    ensures c < db.nextId
  {
  }

  lemma OnePoint(w: World, point: Payload)
    requires PointsSound(w) && point.chunkId in w.db.chunks && point.chunkId < w.db.nextId
    ensures PointsSound(World(w.db, w.points[point.chunkId := point]))
            <==> Sound(w.db.documents, point, w.db.chunks[point.chunkId].documentId)
  {
    hide Sound;
    var points := w.points[point.chunkId := point];
    assert points[point.chunkId] == point;
  }

  // ---------------------------------------------------------------- acknowledgement

  ghost function Publish(points: map<Id, Payload>, ids: set<Id>): map<Id, Payload> {
    map c | c in points :: if c in ids then points[c].(published := true) else points[c]
  }

  /** `AckService.ack`: the row first, then the points of the document's chunks. */
  ghost function ApplyAck(w: World, d: Id, actor: string, now: int, indexFails: bool): World {
    var acked := AckDocument(w.db, d, actor, now);
    if acked == None then w
    else if indexFails then World(acked.value, w.points)
    else World(acked.value, Publish(w.points, ChunksOf(acked.value, d)))
  }

  /** A live chunk of document `d` has a point that names another workspace than the document's,
      as an edited review may leave it. */
  ghost predicate Misplaced(w: World, d: Id) {
    exists c :: c in w.points && MisplacedAt(w, d, c)
  }

  ghost predicate MisplacedAt(w: World, d: Id, c: Id)
    requires c in w.points
  {
    && c in w.db.chunks && w.db.chunks[c].documentId == d && d in w.db.documents
    && w.points[c].workspaceId.Some? && w.points[c].workspaceId != w.db.documents[d].workspaceId
  }

  /** The acknowledgement goes through and publishes such a point. */
  ghost predicate AckExposes(w: World, d: Id, actor: string, now: int, indexFails: bool) {
    AckDocument(w.db, d, actor, now).Some? && !indexFails && Misplaced(w, d)
  }

  /** An acknowledgement keeps the world safe except when it publishes a misplaced point. */
  lemma AckIsSafeUnless(w: World, d: Id, actor: string, now: int, indexFails: bool)
    requires Safe(w)
    ensures var after := ApplyAck(w, d, actor, now, indexFails);
            && Integrity(after.db) && ReviewsSound(after.db)
            && (PointsSound(after) <==> !AckExposes(w, d, actor, now, indexFails))
  {
    hide UniquePaths, References, VersionsOf, PointsSoundBut, PendingSound, AckDocument, Publish, Misplaced;
    var acked := AckDocument(w.db, d, actor, now);
    if acked.Some? {
      AckKeeps(w.db, d, actor, now);
      assert FreshIds(w.db);
      AckRows(w.db, d, actor, now);
      hide Integrity, PointsSound, ReviewsSound;
      AckIsCalm(w.db, acked.value, d);
      CalmIsSafe(w, acked.value);
      if !indexFails {
        PublishIsSoundUnless(World(acked.value, w.points), d);
        SameMisplaced(w, acked.value, d);
      }
    }
  }

  lemma SameMisplaced(w: World, after: Db, d: Id)
    requires after == w.db.(documents := after.documents) && d in w.db.documents && d in after.documents
    requires after.documents[d].workspaceId == w.db.documents[d].workspaceId
    ensures Misplaced(World(after, w.points), d) <==> Misplaced(w, d)
  {
    if Misplaced(w, d) {
      var c :| c in w.points && MisplacedAt(w, d, c);
      assert MisplacedAt(World(after, w.points), d, c);
    }
    if Misplaced(World(after, w.points), d) {
      var c :| c in w.points && MisplacedAt(World(after, w.points), d, c);
      assert MisplacedAt(w, d, c);
    }
  }

  lemma AckRows(db: Db, d: Id, actor: string, now: int)
    requires AckDocument(db, d, actor, now).Some?
    ensures var after := AckDocument(db, d, actor, now).value;
            && after == db.(documents := after.documents) && d in db.documents && d in after.documents
            && after.documents == db.documents[d := after.documents[d]]
            && after.documents[d].workspaceId == db.documents[d].workspaceId
            && after.documents[d].fields.ackedAt == Some(now)
  {
  }

  lemma AckIsCalm(db: Db, after: Db, d: Id)
    requires FreshIds(db) && after == db.(documents := after.documents) && d in db.documents && d in after.documents
    requires after.documents == db.documents[d := after.documents[d]]
    requires after.documents[d].workspaceId == db.documents[d].workspaceId && after.documents[d].fields.ackedAt.Some?
    ensures Calm(db, after)
  {
    SteadyRow(db, after, d);
    hide Steady;
  }

  lemma PublishIsSoundUnless(w: World, d: Id)
    requires PointsSound(w) && d in w.db.documents && w.db.documents[d].fields.ackedAt.Some?
    ensures PointsSound(World(w.db, Publish(w.points, ChunksOf(w.db, d)))) <==> !Misplaced(w, d)
  {
    var after := World(w.db, Publish(w.points, ChunksOf(w.db, d)));
    if Misplaced(w, d) {
      var c :| c in w.points && MisplacedAt(w, d, c);
      assert !Sound(w.db.documents, after.points[c], d);
    } else {
      forall c | c in after.points && c in w.db.chunks
        ensures Sound(w.db.documents, after.points[c], w.db.chunks[c].documentId)
      {
        assert !MisplacedAt(w, d, c);
      }
    }
  }

  /** The review goes through and writes an unpublished point under another workspace than that
      of the document, which is not acknowledged. */
  ghost predicate Misplaces(w: World, call: ReviewCall) {
    && Writes(w, call, false)
    && var point := Edited(w.db.reviews[call.item].point, call.edit);
       var d := w.db.chunks[point.chunkId].documentId;
       && !point.published && point.workspaceId.Some? && d in w.db.documents
       && point.workspaceId != w.db.documents[d].workspaceId && w.db.documents[d].fields.ackedAt == None
  }

  lemma AfterMisplacing(w: World, call: ReviewCall)
    requires Misplaces(w, call)
    ensures var reviewed := ApplyReview(w, call, false);
            var c := Edited(w.db.reviews[call.item].point, call.edit).chunkId;
            var d := w.db.chunks[c].documentId;
            && reviewed.db.documents == w.db.documents && d in w.db.documents
            && w.db.documents[d].fields.ackedAt == None
            && c in reviewed.points && MisplacedAt(reviewed, d, c) && !ReviewExposes(w, call, false)
  {
    hide ApplyReview, Edited;
    ReviewRows(w, call, false);
    ReviewWrites(w, call, false);
  }

  /** Such a review shows nothing yet; the acknowledgement of the document then shows the chunk
      to members of that workspace. */
  lemma MisplacedPointWaits(w: World, call: ReviewCall, actor: string, now: int)
    requires Safe(w) && Misplaces(w, call)
    ensures var c := Edited(w.db.reviews[call.item].point, call.edit).chunkId;
            var reviewed := ApplyReview(w, call, false);
            var acked := ApplyAck(reviewed, w.db.chunks[c].documentId, actor, now, false);
            Discreet(reviewed) && !Discreet(acked)
  {
    hide Integrity, PointsSound, ReviewsSound, ApplyReview, Edited, ReviewExposes, ApplyAck, Discreet, Keyed;
    hide MisplacedAt;
    var d := w.db.chunks[Edited(w.db.reviews[call.item].point, call.edit).chunkId].documentId;
    var reviewed := ApplyReview(w, call, false);
    AfterMisplacing(w, call);
    ReviewIsSafeUnless(w, call, false);
    SafeIsKeyed(reviewed);
    AckIsSafeUnless(reviewed, d, actor, now, false);
    AckKeysPoints(reviewed, d, actor, now, false);
    SoundIfDiscreet(reviewed);
    SoundIfDiscreet(ApplyAck(reviewed, d, actor, now, false));
  }

  lemma SafeIsKeyed(w: World)
    requires PointsSound(w)
    ensures Keyed(w)
  {
  }

  lemma SoundIfDiscreet(w: World)
    requires Integrity(w.db) && Keyed(w)
    ensures PointsSound(w) <==> Discreet(w)
  {
    hide Discreet;
    SoundExactlyIfDiscreet(w);
  }

  lemma AckKeysPoints(w: World, d: Id, actor: string, now: int, indexFails: bool)
    requires Keyed(w)
    ensures Keyed(ApplyAck(w, d, actor, now, indexFails))
  {
  }

  /** After an acknowledgement that went through, every chunk of the document that has a point
      is found by an unrestricted search. */
  lemma AckPublishes(w: World, d: Id, actor: string, now: int, c: Id)
    requires PointsSound(w) && AckDocument(w.db, d, actor, now).Some?
    requires c in w.points && c in w.db.chunks && w.db.chunks[c].documentId == d
    ensures Findable(ApplyAck(w, d, actor, now, false), Filter([], None, None), c)
  {
    var after := ApplyAck(w, d, actor, now, false);
    assert after.points[c].published && after.points[c].chunkId == c;
    assert Matches(Filter([], None, None), after.points[c]);
  }
}
