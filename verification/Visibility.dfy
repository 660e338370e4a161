/** What search may show, and the invariant on points and rows that says the same without
    mentioning searches. */
module Visibility {
  import opened Options
  import opened Records
  import opened Store

  /** A point with payload `p` may stand for a chunk of document `d`: it is unpublished, or the
      document is acknowledged and no other workspace than the document's is named. */
  ghost predicate Sound(documents: map<Id, Document>, p: Payload, d: Id) {
    p.published ==>
      && d in documents && documents[d].fields.ackedAt.Some?
      && (p.workspaceId.Some? ==> p.workspaceId == documents[d].workspaceId)
  }

  /** Every point stands for the chunk with its own id. */
  ghost predicate Keyed(w: World) {
    forall c | c in w.points :: w.points[c].chunkId == c && c < w.db.nextId
  }

  /** Every point stands for the chunk with its own id; those whose chunk is live in a document
      outside `D` are sound. */
  ghost predicate PointsSoundBut(w: World, D: set<Id>) {
    forall c | c in w.points ::
      && w.points[c].chunkId == c && c < w.db.nextId
      && (c in w.db.chunks && w.db.chunks[c].documentId !in D ==>
            Sound(w.db.documents, w.points[c], w.db.chunks[c].documentId))
  }

  ghost predicate PointsSound(w: World) {
    PointsSoundBut(w, {})
  }

  /** A pending review item holds an unpublished point. */
  ghost predicate PendingSound(db: Db, item: ReviewItem) {
    item.status == Pending ==> !item.point.published && item.point.chunkId < db.nextId
  }

  ghost predicate ReviewsSound(db: Db) {
    forall r | r in db.reviews :: PendingSound(db, db.reviews[r])
  }

  ghost predicate Safe(w: World) {
    Integrity(w.db) && PointsSound(w) && ReviewsSound(w.db)
  }

  // ---------------------------------------------------------------- search

  /** The filter of a search: `None` workspaces is an administrator, an empty list is nobody. */
  datatype Filter = Filter(tags: seq<string>, sourceType: Option<string>, workspaceIds: Option<seq<Id>>)

  ghost predicate Matches(f: Filter, p: Payload) {
    && (f.tags != [] ==> exists t :: t in f.tags && t in p.tags)
    && (f.sourceType.Some? ==> p.sourceType == f.sourceType.value)
    && (f.workspaceIds.Some? ==> p.workspaceId.Some? && p.workspaceId.value in f.workspaceIds.value)
    && p.published
  }

  /** Chunk `c` can be in the answer to a search: some matching point names it and its row is
      live. */
  ghost predicate Findable(w: World, f: Filter, c: Id) {
    exists q :: q in w.points && Matches(f, w.points[q]) && w.points[q].chunkId == c && c in w.db.chunks
  }

  /** The chunk is live in a document that is acknowledged now and that the caller may see. */
  ghost predicate MayShow(db: Db, f: Filter, c: Id) {
    && c in db.chunks && db.chunks[c].documentId in db.documents
    && var d := db.documents[db.chunks[c].documentId];
       && d.fields.ackedAt.Some?
       && (f.workspaceIds.Some? ==> d.workspaceId.Some? && d.workspaceId.value in f.workspaceIds.value)
  }

  /** No search, by anyone, finds a chunk that may not be shown to its caller. */
  ghost predicate Discreet(w: World) {
    forall f, c | Findable(w, f, c) :: MayShow(w.db, f, c)
  }

  const EVERYTHING := Filter([], None, None)

  /** The points are sound exactly if every search shows only what it may: a published point of
      a document that is not acknowledged is found by the search for everything, and one under
      a foreign workspace by a member of that workspace. */
  lemma SoundExactlyIfDiscreet(w: World)
    requires Keyed(w) && References(w.db)
    ensures PointsSound(w) <==> Discreet(w)
  {
    if !PointsSound(w) {
      var c :| c in w.points && c in w.db.chunks && !Sound(w.db.documents, w.points[c], w.db.chunks[c].documentId);
      var p, d := w.points[c], w.db.documents[w.db.chunks[c].documentId];
      if d.fields.ackedAt == None {
        FoundBy(w, EVERYTHING, c);
        assert !MayShow(w.db, EVERYTHING, c);
      } else {
        var member := Filter([], None, Some([p.workspaceId.value]));
        FoundBy(w, member, c);
        assert !MayShow(w.db, member, c);
      }
    }
  }

  lemma FoundBy(w: World, f: Filter, c: Id)
    requires Keyed(w) && c in w.points && c in w.db.chunks && Matches(f, w.points[c])
    ensures Findable(w, f, c)
  {
  }

  /** While the points are sound, whatever a search finds may be shown. */
  lemma FoundMayBeShown(w: World, f: Filter, c: Id)
    requires PointsSound(w) && Findable(w, f, c)
    ensures MayShow(w.db, f, c)
  {
  }

  lemma NobodyFindsNothing(w: World, f: Filter, c: Id)
    requires f.workspaceIds == Some([])
    ensures !Findable(w, f, c)
  {
  }

  // ---------------------------------------------------------------- changes that cannot expose

  /** A change that brings no old id to life again and moves no chunk to another document and
      no document to another workspace. */
  ghost predicate Steady(db: Db, after: Db) {
    && db.nextId <= after.nextId
    && (forall c | c in after.chunks && c < db.nextId ::
          c in db.chunks && after.chunks[c].documentId == db.chunks[c].documentId)
    && (forall d | d in after.documents && d in db.documents ::
          after.documents[d].workspaceId == db.documents[d].workspaceId)
  }

  /** A steady change that takes back no acknowledgement. */
  ghost predicate Calm(db: Db, after: Db) {
    && Steady(db, after)
    && (forall d | d in after.documents && d in db.documents && db.documents[d].fields.ackedAt.Some? ::
          after.documents[d].fields.ackedAt.Some?)
  }

  lemma SoundAfterSteady(db: Db, after: Db, p: Payload)
    requires Steady(db, after) && References(after) && p.chunkId < db.nextId
    requires p.published ==> Calm(db, after)
    requires p.chunkId in db.chunks ==> Sound(db.documents, p, db.chunks[p.chunkId].documentId)
    ensures p.chunkId in after.chunks ==> Sound(after.documents, p, after.chunks[p.chunkId].documentId)
  {
  }

  lemma SteadyGrows(db: Db, after: Db)
    requires Steady(db, after)
    ensures db.nextId <= after.nextId
  {
  }

  lemma CalmKeepsPoints(w: World, after: Db)
    requires PointsSound(w) && Calm(w.db, after) && References(after)
    ensures PointsSound(World(after, w.points))
  {
    assert Steady(w.db, after);
    hide Sound, Calm, Steady, References;
    SteadyGrows(w.db, after);
    forall c | c in w.points
      ensures w.points[c].chunkId == c && c < after.nextId
      ensures c in after.chunks ==> Sound(after.documents, w.points[c], after.chunks[c].documentId)
    {
      SoundAfterSteady(w.db, after, w.points[c]);
    }
  }

  lemma PendingAfterSteady(db: Db, after: Db, item: ReviewItem)
    requires PendingSound(db, item) && Steady(db, after)
    ensures PendingSound(after, item)
  {
    hide Steady, References;
    SteadyGrows(db, after);
  }

  lemma SteadyKeepsReviews(db: Db, after: Db)
    requires ReviewsSound(db) && Steady(db, after) && after.reviews == db.reviews
    ensures ReviewsSound(after)
  {
    hide PendingSound, Steady, References;
    forall r | r in after.reviews ensures PendingSound(after, after.reviews[r]) {
      PendingAfterSteady(db, after, db.reviews[r]);
    }
  }

  /** A calm change that touches neither points nor review items keeps the world safe. */
  lemma CalmIsSafe(w: World, after: Db)
    requires Safe(w) && Integrity(after) && Calm(w.db, after) && after.reviews == w.db.reviews
    ensures Safe(World(after, w.points))
  {
    assert References(after) && Steady(w.db, after);
    hide Integrity, Calm, PointsSoundBut, ReviewsSound, References;
    CalmKeepsPoints(w, after);
    SteadyKeepsReviews(w.db, after);
  }
}
