/** Search: the vector index answers with matching points, the live rows join them, and the
    best ranked of these are returned. */
module Search {
  import opened Options
  import opened Records
  import opened Store
  import opened Visibility
  import opened Repository

  /** One hit of the vector index. */
  datatype Hit = Hit(point: Id, payload: Payload, score: real)

  datatype SearchResult = SearchResult(chunkId: Id, chunk: Chunk, document: Document, vectorScore: real, rank: real)

  /** What a request asks for; its limit is validated to be positive. `rank` stands for the
      rerank score, which depends on the vector score, the chunk and its document. */
  datatype Request = Request(filter: Filter, limit: nat, rank: (real, Chunk, Document) -> real)

  /** How many hits the index is asked for: three times the limit, at most 50. */
  ghost function VectorLimit(limit: nat): nat {
    if limit > 16 then 50 else 3 * limit
  }

  /** What the index promises for a query: distinct matching points, best first, at most
      `limit` of them, and every matching point when there are fewer. */
  ghost predicate Answers(points: map<Id, Payload>, f: Filter, limit: nat, hits: seq<Hit>) {
    && |hits| <= limit
    && (forall i | 0 <= i < |hits| :: hits[i].point in points && hits[i].payload == points[hits[i].point]
                                      && Matches(f, hits[i].payload))
    && (forall i, j | 0 <= i < j < |hits| :: hits[i].point != hits[j].point && hits[i].score >= hits[j].score)
    && (|hits| < limit ==>
          forall c | c in points && Matches(f, points[c]) :: exists i :: 0 <= i < |hits| && hits[i].point == c)
  }

  // ---------------------------------------------------------------- the conditions of the filter

  datatype Condition = AnyTag(tags: seq<string>) | SourceIs(value: string) | AnyWorkspace(ids: seq<Id>) | Published

  ghost predicate Holds(c: Condition, p: Payload) {
    match c
    case AnyTag(tags) => exists t :: t in tags && t in p.tags
    case SourceIs(value) => p.sourceType == value
    case AnyWorkspace(ids) => p.workspaceId.Some? && p.workspaceId.value in ids
    case Published => p.published
  }

  ghost predicate AllHold(conditions: seq<Condition>, p: Payload) {
    forall i | 0 <= i < |conditions| :: Holds(conditions[i], p)
  }

  /** `build_search_filter` with `require_published`: the conditions collected say exactly what
      `Matches` says; an empty workspace list matches nothing instead of everything. */
  method BuildSearchFilter(f: Filter) returns (conditions: seq<Condition>)
    ensures forall p :: AllHold(conditions, p) <==> Matches(f, p)
    ensures f.workspaceIds == Some([]) ==> forall p :: !AllHold(conditions, p)
    ensures conditions != []
  {
    conditions := [];
    if f.tags != [] {
      conditions := conditions + [AnyTag(f.tags)];
    }
    if f.sourceType.Some? {
      conditions := conditions + [SourceIs(f.sourceType.value)];
    }
    if f.workspaceIds.Some? {
      conditions := conditions + [AnyWorkspace(f.workspaceIds.value)];
    }
    ghost var optional := conditions;
    conditions := conditions + [Published];
    forall p ensures AllHold(conditions, p) <==> AllHold(optional, p) && p.published {
      if AllHold(conditions, p) {
        assert Holds(conditions[|optional|], p);
        forall i | 0 <= i < |optional| ensures Holds(optional[i], p) { assert Holds(conditions[i], p); }
      }
    }
    forall p ensures AllHold(optional, p) && p.published <==> Matches(f, p) {
      OptionalConditions(f, optional, p);
    }
  }

  ghost function Optional(f: Filter): seq<Condition> {
    (if f.tags != [] then [AnyTag(f.tags)] else [])
    + (if f.sourceType.Some? then [SourceIs(f.sourceType.value)] else [])
    + (if f.workspaceIds.Some? then [AnyWorkspace(f.workspaceIds.value)] else [])
  }

  lemma AllHoldOfBoth(a: seq<Condition>, b: seq<Condition>, p: Payload)
    ensures AllHold(a + b, p) <==> AllHold(a, p) && AllHold(b, p)
  {
    if AllHold(a + b, p) {
      forall i | 0 <= i < |a| ensures Holds(a[i], p) { assert (a + b)[i] == a[i]; }
      forall i | 0 <= i < |b| ensures Holds(b[i], p) { assert (a + b)[|a| + i] == b[i]; }
    }
  }

  lemma OptionalConditions(f: Filter, optional: seq<Condition>, p: Payload)
    requires optional == Optional(f)
    ensures AllHold(optional, p) && p.published <==> Matches(f, p)
  {
    var a := if f.tags != [] then [AnyTag(f.tags)] else [];
    var b := if f.sourceType.Some? then [SourceIs(f.sourceType.value)] else [];
    var c := if f.workspaceIds.Some? then [AnyWorkspace(f.workspaceIds.value)] else [];
    AllHoldOfBoth(a + b, c, p);
    AllHoldOfBoth(a, b, p);
    OneHolds(AnyTag(f.tags), p);
    if f.sourceType.Some? { OneHolds(SourceIs(f.sourceType.value), p); }
    if f.workspaceIds.Some? { OneHolds(AnyWorkspace(f.workspaceIds.value), p); }
  }

  lemma OneHolds(c: Condition, p: Payload)
    ensures AllHold([c], p) <==> Holds(c, p)
  {
    assert [c][0] == c;
  }

  // ---------------------------------------------------------------- the join

  ghost predicate Live(db: Db, c: Id) {
    c in db.chunks && db.chunks[c].documentId in db.documents
  }

  ghost function ResultOf(db: Db, hit: Hit, rank: (real, Chunk, Document) -> real): SearchResult
    requires Live(db, hit.payload.chunkId)
  {
    var chunk := db.chunks[hit.payload.chunkId];
    var document := db.documents[chunk.documentId];
    SearchResult(hit.payload.chunkId, chunk, document, hit.score, rank(hit.score, chunk, document))
  }

  /** The hits that still have a live row, in the order of the hits. */
  ghost function Joined(db: Db, hits: seq<Hit>, rank: (real, Chunk, Document) -> real): (s: seq<SearchResult>)
    ensures |s| <= |hits|
  {
    if hits == [] then []
    else
      var last := hits[|hits| - 1];
      Joined(db, hits[..|hits| - 1], rank)
      + if Live(db, last.payload.chunkId) then [ResultOf(db, last, rank)] else []
  }

  /** The result names the hit's chunk, whose row and whose document's row are live, with both
      rows, the hit's score and the rank that these give. */
  ghost predicate IsResult(db: Db, hit: Hit, rank: (real, Chunk, Document) -> real, r: SearchResult) {
    && r.chunkId == hit.payload.chunkId && r.vectorScore == hit.score
    && r.chunkId in db.chunks && r.chunk == db.chunks[r.chunkId]
    && r.chunk.documentId in db.documents && r.document == db.documents[r.chunk.documentId]
    && r.rank == rank(hit.score, r.chunk, r.document)
  }

  lemma ResultOfIs(db: Db, hit: Hit, rank: (real, Chunk, Document) -> real, r: SearchResult)
    ensures IsResult(db, hit, rank, r) <==> Live(db, hit.payload.chunkId) && r == ResultOf(db, hit, rank)
  {
  }

  /** A result is joined exactly when it comes from a hit with a live row. */
  lemma {:induction false} JoinedAre(db: Db, hits: seq<Hit>, rank: (real, Chunk, Document) -> real, r: SearchResult)
    ensures r in Joined(db, hits, rank) <==> exists i :: 0 <= i < |hits| && IsResult(db, hits[i], rank, r)
  {
    hide IsResult, Live, ResultOf;
    if hits != [] {
      var rest, last := hits[..|hits| - 1], hits[|hits| - 1];
      JoinedAre(db, rest, rank, r);
      ResultOfIs(db, last, rank, r);
      if exists i :: 0 <= i < |rest| && IsResult(db, rest[i], rank, r) {
        var i :| 0 <= i < |rest| && IsResult(db, rest[i], rank, r);
        assert hits[i] == rest[i];
      }
    }
  }

  // ---------------------------------------------------------------- the stable sort

  ghost predicate Ranked(s: seq<SearchResult>) {
    forall i, j | 0 <= i < j < |s| :: s[i].rank >= s[j].rank
  }

  /** The results of one rank, in order. */
  ghost function OfRank(s: seq<SearchResult>, x: real): seq<SearchResult> {
    if s == [] then [] else OfRank(s[..|s| - 1], x) + if s[|s| - 1].rank == x then [s[|s| - 1]] else []
  }

  /** The sort that `results.sort(reverse=True)` performs: `t` is `s` ranked, and results of
      equal rank keep their order. */
  ghost predicate StablySorted(s: seq<SearchResult>, t: seq<SearchResult>) {
    multiset(t) == multiset(s) && Ranked(t) && SameOfEachRank(s, t)
  }

  ghost predicate SameOfEachRank(s: seq<SearchResult>, t: seq<SearchResult>) {
    forall x: real :: OfRank(t, x) == OfRank(s, x)
  }

  lemma {:induction false} OfRankOfBoth(a: seq<SearchResult>, b: seq<SearchResult>, x: real)
    ensures OfRank(a + b, x) == OfRank(a, x) + OfRank(b, x)
  {
    if b == [] {
      assert a + b == a;
    } else {
      OfRankOfBoth(a, b[..|b| - 1], x);
      assert (a + b)[..|a + b| - 1] == a + b[..|b| - 1];
    }
  }

  lemma {:induction false} NoneOfRank(s: seq<SearchResult>, x: real)
    requires forall i | 0 <= i < |s| :: s[i].rank != x
    ensures OfRank(s, x) == []
  {
    if s != [] { NoneOfRank(s[..|s| - 1], x); }
  }

  /** Stable insertion, one result after the other. */
  method SortByRank(s: seq<SearchResult>) returns (t: seq<SearchResult>)
    ensures StablySorted(s, t)
  {
    t := [];
    for i := 0 to |s|
      invariant StablySorted(s[..i], t)
    {
      var k := |t|;
      while k > 0 && t[k - 1].rank < s[i].rank
        invariant 0 <= k <= |t|
        invariant forall j | k <= j < |t| :: t[j].rank < s[i].rank
      {
        k := k - 1;
      }
      InsertedStably(s[..i], t, s[i], k);
      assert s[..i + 1] == s[..i] + [s[i]];
      t := t[..k] + [s[i]] + t[k..];
    }
    assert s[..|s|] == s;
  }

  lemma InsertedStably(s: seq<SearchResult>, t: seq<SearchResult>, r: SearchResult, k: nat)
    requires StablySorted(s, t) && k <= |t|
    requires k > 0 ==> t[k - 1].rank >= r.rank
    requires forall j | k <= j < |t| :: t[j].rank < r.rank
    ensures StablySorted(s + [r], t[..k] + [r] + t[k..])
  {
    hide StablySorted, Ranked, SameOfEachRank;
    assert multiset(t) == multiset(s) && Ranked(t) && SameOfEachRank(s, t) by { StableParts(s, t); }
    InsertedKeepsEachRank(s, t, r, k);
    InsertedKeepsOrder(t, r, k);
    assert t == t[..k] + t[k..];
    StableParts(s + [r], t[..k] + [r] + t[k..]);
  }

  lemma StableParts(s: seq<SearchResult>, t: seq<SearchResult>)
    ensures StablySorted(s, t) <==> multiset(t) == multiset(s) && Ranked(t) && SameOfEachRank(s, t)
  {
  }

  lemma InsertedKeepsOrder(t: seq<SearchResult>, r: SearchResult, k: nat)
    requires Ranked(t) && k <= |t|
    requires k > 0 ==> t[k - 1].rank >= r.rank
    requires forall j | k <= j < |t| :: t[j].rank < r.rank
    ensures Ranked(t[..k] + [r] + t[k..])
  {
    var u := t[..k] + [r] + t[k..];
    forall i, j | 0 <= i < j < |u| ensures u[i].rank >= u[j].rank {
      if i < k && j == k { assert t[i].rank >= t[k - 1].rank; }
    }
  }

  lemma InsertedKeepsEachRank(s: seq<SearchResult>, t: seq<SearchResult>, r: SearchResult, k: nat)
    requires SameOfEachRank(s, t) && k <= |t|
    requires forall j | k <= j < |t| :: t[j].rank < r.rank
    ensures SameOfEachRank(s + [r], t[..k] + [r] + t[k..])
  {
    forall x: real ensures OfRank(t[..k] + [r] + t[k..], x) == OfRank(s + [r], x) {
      assert OfRank(t, x) == OfRank(s, x);
      InsertedKeepsRank(s, t[..k], t[k..], t, r, x);
    }
  }

  lemma InsertedKeepsRank(s: seq<SearchResult>, high: seq<SearchResult>, low: seq<SearchResult>, t: seq<SearchResult>,
                          r: SearchResult, x: real)
    requires t == high + low && OfRank(t, x) == OfRank(s, x)
    requires forall j | 0 <= j < |low| :: low[j].rank < r.rank
    ensures OfRank(high + [r] + low, x) == OfRank(s + [r], x)
  {
    hide OfRank;
    var h, l := OfRank(high, x), OfRank(low, x);
    OneOfRank(r, x);
    OfRankOfBoth(high + [r], low, x);
    OfRankOfBoth(high, [r], x);
    OfRankOfBoth(high, low, x);
    OfRankOfBoth(s, [r], x);
    if x == r.rank {
      NoneOfRank(low, x);
      assert h + [r] + l == h + l + [r];
    } else {
      assert h + [] + l == h + l + [];
    }
  }

  lemma OneOfRank(r: SearchResult, x: real)
    ensures OfRank([r], x) == if r.rank == x then [r] else []
  {
    assert [r][..0] == [];
  }

  // ---------------------------------------------------------------- the service

  /** `results` answer a request whose query had these hits. */
  ghost predicate Answer(db: Db, request: Request, hits: seq<Hit>, results: seq<SearchResult>) {
    exists t :: StablySorted(Joined(db, hits, request.rank), t)
                && results == if request.limit <= |t| then t[..request.limit] else t
  }

  class SearchService {
    const repository: MetadataRepository

    constructor (repository: MetadataRepository)
      ensures this.repository == repository
    {
      this.repository := repository;
    }

    /** `search`; `ask` is the vector index. It is asked for three times as many points as results
        are wanted, but for no more than 50. */
    method Search(request: Request, ask: (Filter, nat) -> seq<Hit>)
      returns (results: seq<SearchResult>, ghost hits: seq<Hit>)
      ensures hits == ask(request.filter, VectorLimit(request.limit))
      ensures Answer(repository.State(), request, hits, results)
    {
      results := [];
      var wide := if request.limit * 3 > request.limit then request.limit * 3 else request.limit;
      var found := ask(request.filter, if wide < 50 then wide else 50);
      hits := found;
      ghost var db := repository.State();
      for i := 0 to |found|
        invariant repository.State() == db
        invariant results == Joined(db, found[..i], request.rank)
      {
        assert found[..i + 1][..i] == found[..i];
        var c := found[i].payload.chunkId;
        if c in repository.chunks && repository.chunks[c].documentId in repository.documents {
          var chunk := repository.chunks[c];
          var document := repository.documents[chunk.documentId];
          results := results + [SearchResult(c, chunk, document, found[i].score,
                                             request.rank(found[i].score, chunk, document))];
        }
      }
      assert found[..|found|] == found;
      var sorted := SortByRank(results);
      results := if request.limit <= |sorted| then sorted[..request.limit] else sorted;
    }
  }

  lemma SortedHasSame(s: seq<SearchResult>, t: seq<SearchResult>, r: SearchResult)
    requires multiset(s) == multiset(t)
    ensures r in s <==> r in t
    ensures |s| == |t|
  {
    assert r in s <==> r in multiset(s);
    assert |multiset(s)| == |s| && |multiset(t)| == |t|;
  }

  /** While the points are sound, every result is a live chunk of a document that is
      acknowledged now and that the caller may see, joined with its row. */
  lemma ResultsMayBeShown(w: World, request: Request, hits: seq<Hit>, results: seq<SearchResult>, r: SearchResult)
    requires PointsSound(w) && Answers(w.points, request.filter, VectorLimit(request.limit), hits)
    requires Answer(w.db, request, hits, results) && r in results
    ensures MayShow(w.db, request.filter, r.chunkId)
    ensures r.chunk == w.db.chunks[r.chunkId] && r.document == w.db.documents[r.chunk.documentId]
    ensures r.rank == request.rank(r.vectorScore, r.chunk, r.document)
    ensures exists i :: 0 <= i < |hits| && hits[i].payload.chunkId == r.chunkId && hits[i].score == r.vectorScore
  {
    hide PointsSound, Matches, MayShow;
    var t :| StablySorted(Joined(w.db, hits, request.rank), t)
             && results == if request.limit <= |t| then t[..request.limit] else t;
    assert r in t;
    SortedHasSame(Joined(w.db, hits, request.rank), t, r);
    JoinedAre(w.db, hits, request.rank, r);
    var i :| 0 <= i < |hits| && IsResult(w.db, hits[i], request.rank, r);
    assert Findable(w, request.filter, r.chunkId);
    FoundMayBeShown(w, request.filter, r.chunkId);
  }

  /** The results are ranked, as many as were asked for if that many live hits exist, and no
      live hit left out ranks above one that was returned. */
  lemma ResultsAreTheBest(db: Db, request: Request, hits: seq<Hit>, results: seq<SearchResult>)
    requires Answer(db, request, hits, results)
    ensures var joined := Joined(db, hits, request.rank);
            && Ranked(results)
            && |results| == (if request.limit <= |joined| then request.limit else |joined|)
            && multiset(results) <= multiset(joined)
            && forall r, i | r in joined && r !in results && 0 <= i < |results| :: results[i].rank >= r.rank
  {
    var joined := Joined(db, hits, request.rank);
    var t: seq<SearchResult> :| && StablySorted(joined, t)
                                && results == if request.limit <= |t| then t[..request.limit] else t;
    hide Joined, SameOfEachRank;
    var n := |results|;
    assert t == t[..n] + t[n..];
    assert |multiset(joined)| == |joined| && |multiset(t)| == |t|;
    forall r: SearchResult, i | r in joined && r !in results && 0 <= i < |results| ensures results[i].rank >= r.rank {
      SortedHasSame(joined, t, r);
      assert r in t[n..];
      var k :| 0 <= k < |t| - n && t[n..][k] == r;
      assert t[i].rank >= t[n + k].rank;
    }
  }

  /** When fewer points match than the index is asked for, and fewer than the limit are live,
      every chunk that can be found is found. */
  lemma NothingFindableIsMissed(w: World, request: Request, hits: seq<Hit>, results: seq<SearchResult>, c: Id)
    requires Answers(w.points, request.filter, VectorLimit(request.limit), hits)
    requires Answer(w.db, request, hits, results) && References(w.db)
    requires |hits| < VectorLimit(request.limit) && |results| < request.limit
    requires Findable(w, request.filter, c)
    ensures exists r :: r in results && r.chunkId == c
  {
    hide Matches, SameOfEachRank, Ranked, Joined;
    var t :| StablySorted(Joined(w.db, hits, request.rank), t)
             && results == if request.limit <= |t| then t[..request.limit] else t;
    var q :| q in w.points && Matches(request.filter, w.points[q]) && w.points[q].chunkId == c && c in w.db.chunks;
    var i :| 0 <= i < |hits| && hits[i].point == q;
    var r := ResultOf(w.db, hits[i], request.rank);
    ResultOfIs(w.db, hits[i], request.rank, r);
    JoinedAre(w.db, hits, request.rank, r);
    SortedHasSame(Joined(w.db, hits, request.rank), t, r);
    assert results == t;
  }
}
