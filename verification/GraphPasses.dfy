/** What each pass of a graph build keeps and adds, and what the returned graph promises. */
module GraphPasses {
  import opened Options
  import opened Records
  import opened Provenance
  import opened GraphStore
  import opened GraphTable
  import opened EntityMerging
  import opened GraphExtraction
  import opened GraphBuilding
  import opened GraphOps
  import opened GraphReplay
  import Text

  datatype BuildResult = BuildResult(entities: map<Id, Entity>, links: map<Id, Link>, hyperedges: seq<Hyperedge>)

  // ---------------------------------------------------------------- the first pass

  /** The candidates that the first pass upserts, in order. */
  ghost function AllMerged(lower: Lower, xs: seq<Extraction>): seq<Candidate> {
    if xs == [] then [] else AllMerged(lower, xs[..|xs| - 1]) + Merged(lower, xs[|xs| - 1].entities)
  }

  /** Some chunk so far has an entity of this name. */
  ghost predicate NameSeen(lower: Lower, xs: seq<Extraction>, n: string) {
    exists i :: 0 <= i < |xs| && HasName(lower, xs[i].entities, n)
  }

  /** `a or b` for two lookups: a TERM of that name if there is one, else the entity that was
      last given the name. */
  function Resolve(x: Index, n: string): Option<Entity> {
    if (n, "TERM") in x.byName then Some(x.byName[(n, "TERM")])
    else if n in x.byNorm then Some(x.byNorm[n])
    else None
  }

  lemma ResolvedIsNamed(g: Graph, x: Index, n: string)
    requires Agree(g, x) && Resolve(x, n).Some?
    ensures var e := Resolve(x, n).value; e.id in x.byId && x.byId[e.id].normalizedName == n
  {
    var e := Resolve(x, n).value;
    StoredKeysAgree(g, e, x.byId[e.id]);
  }

  ghost predicate LinkedAs(lower: Lower, x: Index, l: LinkCandidate) {
    Linked(x, Normalize(lower, l.source), Normalize(lower, l.target), l.linkType, l.confidence)
  }

  /** Every relationship of the chunks is there unless one of its ends was not named by any
      chunk up to its own. */
  ghost predicate FirstPassLinks(lower: Lower, xs: seq<Extraction>, x: Index) {
    forall i, l | 0 <= i < |xs| && l in xs[i].links ::
      || LinkedAs(lower, x, l)
      || !NameSeen(lower, xs[..i + 1], Normalize(lower, l.source))
      || !NameSeen(lower, xs[..i + 1], Normalize(lower, l.target))
  }

  /** How a build began: the graph, the extractor and its cache, and the candidates that made
      the graph. */
  datatype Run = Run(g: Graph, show: Show, least: real, cache: Cache, cs: seq<Candidate>)

  ghost function CacheAfter(lower: Lower, show: Show, least: real, cache: Cache, chunks: seq<ChunkInput>): Cache {
    if chunks == [] then cache
    else
      var before, chunk := CacheAfter(lower, show, least, cache, chunks[..|chunks| - 1]), chunks[|chunks| - 1];
      before[chunk.chunkId := Answer(lower, show, least, before, chunk)]
  }

  /** What the extractor says about each chunk, asked in turn. */
  ghost function Extractions(lower: Lower, show: Show, least: real, cache: Cache, chunks: seq<ChunkInput>)
    : (xs: seq<Extraction>)
    ensures |xs| == |chunks|
  {
    if chunks == [] then []
    else
      var before := chunks[..|chunks| - 1];
      Extractions(lower, show, least, cache, before)
      + [Answer(lower, show, least, CacheAfter(lower, show, least, cache, before), chunks[|chunks| - 1])]
  }

  /** Where a build stands after some chunks of the first pass. */
  ghost predicate Stands(lower: Lower, run: Run, now: Graph, cache: Cache, x: Index, chunks: seq<ChunkInput>) {
    && Passed(lower, run.g, now, x, run.cs, Extractions(lower, run.show, run.least, run.cache, chunks))
    && cache == CacheAfter(lower, run.show, run.least, run.cache, chunks)
  }

  lemma StandsAtFirst(lower: Lower, run: Run)
    requires ValidGraph(run.g) && Describes(run.cs, lower, run.g.entities)
    ensures Stands(lower, run, run.g, run.cache, EMPTY_INDEX, [])
  {
    NothingPassed(lower, run.g, run.cs);
    hide Passed;
  }

  lemma StandsParts(lower: Lower, run: Run, now: Graph, cache: Cache, x: Index, chunks: seq<ChunkInput>)
    requires Stands(lower, run, now, cache, x, chunks)
    ensures var xs := Extractions(lower, run.show, run.least, run.cache, chunks);
            && Agree(now, x) && Describes(run.cs + AllMerged(lower, xs), lower, now.entities)
            && Passed(lower, run.g, now, x, run.cs, xs)
            && Does(lower, run.g, now, EMPTY_INDEX, x, FirstOps(lower, xs))
    ensures cache == CacheAfter(lower, run.show, run.least, run.cache, chunks)
  {
    hide Extractions, FirstOps, AllMerged;
  }

  lemma StandsOneMore(lower: Lower, run: Run, now: Graph, cache: Cache, after: Cache, y: Index, chunks: seq<ChunkInput>,
                      chunk: ChunkInput, e: Extraction)
    requires cache == CacheAfter(lower, run.show, run.least, run.cache, chunks)
    requires Passed(lower, run.g, now, y, run.cs, Extractions(lower, run.show, run.least, run.cache, chunks) + [e])
    requires e == Answer(lower, run.show, run.least, cache, chunk) && after == cache[chunk.chunkId := e]
    ensures Stands(lower, run, now, after, y, chunks + [chunk])
  {
    hide Passed, Answer;
    assert (chunks + [chunk])[..|chunks|] == chunks;
  }

  /** Where the build stands after candidates `done` were put into graph `g` and index `x`. */
  ghost predicate Put(lower: Lower, g: Graph, now: Graph, x: Index, y: Index, cs: seq<Candidate>,
                      done: seq<Candidate>) {
    && Agree(now, y) && Grows(x, y) && Describes(cs + done, lower, now.entities) && now == After(g, lower, done)
    && Does(lower, g, now, x, y, EntityOps(done))
    && forall n :: n in y.byNorm <==> n in x.byNorm || HasName(lower, done, n)
  }

  lemma PutParts(lower: Lower, g: Graph, now: Graph, x: Index, y: Index, cs: seq<Candidate>, done: seq<Candidate>)
    requires Put(lower, g, now, x, y, cs, done)
    ensures Agree(now, y) && Grows(x, y) && Describes(cs + done, lower, now.entities) && now == After(g, lower, done)
    ensures Does(lower, g, now, x, y, EntityOps(done))
    ensures forall n :: n in y.byNorm <==> n in x.byNorm || HasName(lower, done, n)
  {
  }

  lemma PutNothing(lower: Lower, g: Graph, x: Index, cs: seq<Candidate>)
    requires Agree(g, x) && Describes(cs, lower, g.entities)
    ensures Put(lower, g, g, x, x, cs, [])
  {
    DoesNothing(lower, g, x);
    GrowsFromItself(x);
    hide Agree, Describes, Does, Grows;
    assert cs + [] == cs;
  }

  lemma PutOneMore(lower: Lower, g: Graph, before: Graph, x: Index, z: Index, cs: seq<Candidate>, done: seq<Candidate>,
                   c: Candidate, y: Index)
    requires Put(lower, g, before, x, z, cs, done) && Scalar(c.provenance)
    requires Agree(UpsertEntity(before, lower, c), y) && Grows(z, y)
    requires y.byNorm.Keys == z.byNorm.Keys + {Normalize(lower, c.name)}
    requires Does(lower, before, UpsertEntity(before, lower, c), z, y, [PutEntity(c, true)])
    ensures Put(lower, g, UpsertEntity(before, lower, c), x, y, cs, done + [c])
  {
    hide Agree, Grows, Describes, Normalize, UpsertEntity, Scalar, HasName, Does;
    GrowsFurther(x, z, y);
    DescribesOneMore(before, lower, cs + done, c);
    DoesFurther(lower, g, before, UpsertEntity(before, lower, c), x, z, y, EntityOps(done), [PutEntity(c, true)]);
    assert cs + done + [c] == cs + (done + [c]);
    assert (done + [c])[..|done|] == done;
    forall n ensures HasName(lower, done + [c], n) <==> HasName(lower, done, n) || Normalize(lower, c.name) == n {
      NameOneMore(lower, done, c, n);
    }
  }

  lemma ScalarAt(cs: seq<Candidate>, i: nat)
    requires ScalarCandidates(cs) && i < |cs|
    ensures Scalar(cs[i].provenance)
  {
    assert cs[i] in cs;
  }

  lemma NameOneMore(lower: Lower, cs: seq<Candidate>, c: Candidate, n: string)
    ensures HasName(lower, cs + [c], n) <==> HasName(lower, cs, n) || Normalize(lower, c.name) == n
  {
    hide Normalize;
    assert c in cs + [c];
  }

  /** Where the build stands after relationships `done` were put: no entity changed, and a
      relationship is there unless an end is unknown. */
  ghost predicate LinksPut(lower: Lower, g: Graph, now: Graph, x: Index, y: Index, done: seq<LinkCandidate>) {
    && Agree(now, y) && Grows(x, y) && y.byNorm == x.byNorm && y.byName == x.byName && now.entities == g.entities
    && Does(lower, g, now, x, y, LinkOps(lower, KeysOf(x), done))
    && forall l | l in done && Resolve(x, Normalize(lower, l.source)).Some?
                  && Resolve(x, Normalize(lower, l.target)).Some? ::
         LinkedAs(lower, y, l)
  }

  lemma UpsertLinkKeepsEntities(g: Graph, source: Id, target: Id, c: LinkCandidate)
    ensures UpsertLink(g, source, target, c).entities == g.entities
  {
  }

  lemma LinkSkipped(lower: Lower, g: Graph, x: Index, l: LinkCandidate)
    requires Agree(g, x)
    ensures Resolve(x, Normalize(lower, l.source)) == None || Resolve(x, Normalize(lower, l.target)) == None ==>
              LinksPut(lower, g, g, x, x, [l])
  {
    GrowsFromItself(x);
    DoesNothing(lower, g, x);
    OneLinkOp(lower, KeysOf(x), l);
    SameResolution(g, x, Normalize(lower, l.source));
    SameResolution(g, x, Normalize(lower, l.target));
    hide Agree, Grows, Normalize, Does, LinkOps, Resolve, ResolveKey, KeysOf, LinkedAs;
  }

  lemma OneLinkOp(lower: Lower, s: KeyNames, l: LinkCandidate)
    ensures LinkOps(lower, s, [l]) == LinkOp(lower, s, l)
  {
    hide LinkOp;
    assert LinkOps(lower, s, [l][..0]) == [];
  }

  /** Looking a name up in the dictionaries or among the keys is the same. */
  lemma SameResolution(g: Graph, x: Index, n: string)
    requires Agree(g, x)
    ensures Resolve(x, n).Some? <==> ResolveKey(KeysOf(x), n).Some?
    ensures Resolve(x, n).Some? ==>
              && Resolve(x, n).value.id in x.byId
              && ResolveKey(KeysOf(x), n) == Some(EntityKey(x.byId[Resolve(x, n).value.id]))
  {
    hide ValidGraph;
    if Resolve(x, n).Some? {
      var e := Resolve(x, n).value;
      StoredKeysAgree(g, e, x.byId[e.id]);
    }
  }

  lemma LinkPut(lower: Lower, g: Graph, now: Graph, source: Id, target: Id, x: Index, y: Index, l: LinkCandidate)
    requires now == UpsertLink(g, source, target, l) && Agree(now, y) && Grows(x, y)
    requires y.byNorm == x.byNorm && y.byName == x.byName && source in x.byId && target in x.byId
    requires x.byId[source].normalizedName == Normalize(lower, l.source)
    requires x.byId[target].normalizedName == Normalize(lower, l.target)
    requires Linked(y, x.byId[source].normalizedName, x.byId[target].normalizedName, l.linkType, l.confidence)
    requires Does(lower, g, now, x, y, LinkOp(lower, KeysOf(x), l))
    ensures LinksPut(lower, g, now, x, y, [l])
  {
    UpsertLinkKeepsEntities(g, source, target, l);
    OneLinkOp(lower, KeysOf(x), l);
    hide Agree, Grows, UpsertLink, Linked, Normalize, Does, LinkOp, LinkOps, KeysOf;
  }

  /** The relationship that was put is the one that the keys tell. */
  lemma ResolvedLinkOp(lower: Lower, g: Graph, x: Index, l: LinkCandidate)
    requires Agree(g, x)
    requires Resolve(x, Normalize(lower, l.source)).Some? && Resolve(x, Normalize(lower, l.target)).Some?
    ensures var source := Resolve(x, Normalize(lower, l.source)).value.id;
            var target := Resolve(x, Normalize(lower, l.target)).value.id;
            && source in x.byId && target in x.byId
            && LinkOp(lower, KeysOf(x), l) == [PutLink(EntityKey(x.byId[source]), EntityKey(x.byId[target]), l)]
  {
    hide Agree, Normalize, Resolve, ResolveKey, KeysOf, EntityKey;
    SameResolution(g, x, Normalize(lower, l.source));
    SameResolution(g, x, Normalize(lower, l.target));
  }

  lemma NoLinksPut(lower: Lower, g: Graph, x: Index)
    requires Agree(g, x)
    ensures LinksPut(lower, g, g, x, x, [])
  {
    GrowsFromItself(x);
    DoesNothing(lower, g, x);
    hide Agree, Grows, Does, KeysOf;
  }

  lemma LinksPutAgree(lower: Lower, g: Graph, now: Graph, x: Index, y: Index, done: seq<LinkCandidate>)
    requires LinksPut(lower, g, now, x, y, done)
    ensures Agree(now, y)
  {
  }

  lemma OneLinkMorePut(lower: Lower, g: Graph, before: Graph, now: Graph, x: Index, z: Index, y: Index,
                       done: seq<LinkCandidate>, l: LinkCandidate)
    requires LinksPut(lower, g, before, x, z, done) && LinksPut(lower, before, now, z, y, [l])
    ensures LinksPut(lower, g, now, x, y, done + [l])
  {
    hide Agree, Grows, Normalize, Linked, Does, LinkOp;
    GrowsFurther(x, z, y);
    assert l in [l];
    assert KeysOf(z) == KeysOf(x);
    OneLinkOp(lower, KeysOf(x), l);
    assert (done + [l])[..|done|] == done;
    DoesFurther(lower, g, before, now, x, z, y, LinkOps(lower, KeysOf(x), done), LinkOps(lower, KeysOf(z), [l]));
    hide LinkOps, KeysOf;
    forall m | m in done && LinkedAs(lower, z, m) ensures LinkedAs(lower, y, m) {
      StaysLinked(z, y, Normalize(lower, m.source), Normalize(lower, m.target), m.linkType, m.confidence);
    }
  }

  lemma MergedScalar(lower: Lower, x: Extraction)
    requires SoundExtraction(lower, x)
    ensures ScalarCandidates(Merged(lower, x.entities))
  {
    hide Merged;
    if x.entities != [] {
      MergedProvenance(lower, x.entities, Merged(lower, x.entities), x.entities[0].provenance);
      assert Scalar(x.entities[0].provenance);
    } else {
      assert Names(lower, x.entities) == [];
    }
  }

  lemma NameOfMerged(lower: Lower, cs: seq<Candidate>, m: Candidate)
    requires m in Merged(lower, cs)
    ensures HasName(lower, cs, Normalize(lower, m.name))
  {
    var merged, n := Merged(lower, cs), Normalize(lower, m.name);
    MergedStandFor(lower, cs, merged);
    hide Merged, Normalize, Group;
    var i :| 0 <= i < |merged| && merged[i] == m;
    var group := Group(lower, cs, n);
    assert StandsFor(m, group);
    GroupIs(lower, cs, n);
    var d :| 0 <= d < |group| && m.name == group[d].name;
    assert group[d] in group;
  }

  /** The names that the merged candidates have are those of the chunk's entities. */
  lemma MergedHaveNames(lower: Lower, cs: seq<Candidate>, n: string)
    ensures HasName(lower, Merged(lower, cs), n) <==> HasName(lower, cs, n)
  {
    hide Merged, Normalize, StandsFor;
    var merged := Merged(lower, cs);
    MergedStandFor(lower, cs, merged);
    if HasName(lower, cs, n) {
      var c :| c in cs && Normalize(lower, c.name) == n;
      var m :| m in merged && Normalize(lower, m.name) == Normalize(lower, c.name);
    }
    if HasName(lower, merged, n) {
      var m :| m in merged && Normalize(lower, m.name) == n;
      NameOfMerged(lower, cs, m);
    }
  }

  lemma PutAgree(lower: Lower, g: Graph, now: Graph, x: Index, y: Index, cs: seq<Candidate>, done: seq<Candidate>)
    requires Put(lower, g, now, x, y, cs, done)
    ensures Agree(now, y)
  {
  }

  // ---------------------------------------------------------------- after the first pass

  /** Where the first pass stands after the chunks that gave `xs`: the entity table describes
      every candidate upserted since the repository was empty and those of these chunks merged,
      every relationship with known ends is there, and the upserts were those that the chunks
      tell. */
  ghost predicate Passed(lower: Lower, g: Graph, now: Graph, x: Index, cs: seq<Candidate>, xs: seq<Extraction>) {
    && Agree(now, x)
    && Describes(cs + AllMerged(lower, xs), lower, now.entities)
    && FirstPassLinks(lower, xs, x)
    && (forall n :: n in x.byNorm <==> NameSeen(lower, xs, n))
    && Does(lower, g, now, EMPTY_INDEX, x, FirstOps(lower, xs))
  }

  lemma NothingPassed(lower: Lower, g: Graph, cs: seq<Candidate>)
    requires ValidGraph(g) && Describes(cs, lower, g.entities)
    ensures Passed(lower, g, g, EMPTY_INDEX, cs, [])
  {
    DoesNothing(lower, g, EMPTY_INDEX);
    hide ValidGraph, Describes, Does;
    assert cs + [] == cs;
  }

  lemma AllMergedOneMore(lower: Lower, xs: seq<Extraction>, e: Extraction)
    ensures AllMerged(lower, xs + [e]) == AllMerged(lower, xs) + Merged(lower, e.entities)
  {
    assert (xs + [e])[..|xs|] == xs;
  }

  lemma NameSeenOneMore(lower: Lower, xs: seq<Extraction>, e: Extraction, n: string)
    ensures NameSeen(lower, xs + [e], n) <==> NameSeen(lower, xs, n) || HasName(lower, e.entities, n)
  {
    hide HasName;
    var ys := xs + [e];
    if NameSeen(lower, xs, n) {
      var i :| 0 <= i < |xs| && HasName(lower, xs[i].entities, n);
      assert ys[i] == xs[i];
    }
    if HasName(lower, e.entities, n) { assert ys[|xs|] == e; }
  }

  lemma LinksStay(lower: Lower, xs: seq<Extraction>, e: Extraction, x: Index, y: Index)
    requires FirstPassLinks(lower, xs, x) && Grows(x, y)
    requires forall l | l in e.links && NameSeen(lower, xs + [e], Normalize(lower, l.source))
                        && NameSeen(lower, xs + [e], Normalize(lower, l.target)) :: LinkedAs(lower, y, l)
    ensures FirstPassLinks(lower, xs + [e], y)
  {
    hide Grows, NameSeen, Normalize, Linked;
    var ys := xs + [e];
    forall i, l | 0 <= i < |ys| && l in ys[i].links
      ensures || LinkedAs(lower, y, l)
              || !NameSeen(lower, ys[..i + 1], Normalize(lower, l.source))
              || !NameSeen(lower, ys[..i + 1], Normalize(lower, l.target))
    {
      if i < |xs| {
        assert ys[i] == xs[i] && ys[..i + 1] == xs[..i + 1];
        if LinkedAs(lower, x, l) {
          StaysLinked(x, y, Normalize(lower, l.source), Normalize(lower, l.target), l.linkType, l.confidence);
        }
      } else {
        assert ys[..i + 1] == ys;
      }
    }
  }

  lemma NamesOneChunkMore(lower: Lower, x: Index, z: Index, xs: seq<Extraction>, e: Extraction)
    requires forall n :: n in x.byNorm <==> NameSeen(lower, xs, n)
    requires forall n :: n in z.byNorm <==> n in x.byNorm || HasName(lower, Merged(lower, e.entities), n)
    ensures forall n :: n in z.byNorm <==> NameSeen(lower, xs + [e], n)
  {
    hide NameSeen, HasName, Merged;
    forall n ensures n in z.byNorm <==> NameSeen(lower, xs + [e], n) {
      NameSeenOneMore(lower, xs, e, n);
      MergedHaveNames(lower, e.entities, n);
    }
  }

  lemma LinksOneChunkMore(lower: Lower, middle: Graph, now: Graph, x: Index, z: Index, y: Index, xs: seq<Extraction>,
                          e: Extraction)
    requires FirstPassLinks(lower, xs, x) && Grows(x, z) && LinksPut(lower, middle, now, z, y, e.links)
    requires forall n :: n in z.byNorm <==> NameSeen(lower, xs + [e], n)
    ensures FirstPassLinks(lower, xs + [e], y)
  {
    hide FirstPassLinks, Grows, NameSeen, Normalize, Linked, Agree;
    GrowsFurther(x, z, y);
    LinksStay(lower, xs, e, x, y);
  }

  lemma OpsOneChunkMore(lower: Lower, g: Graph, before: Graph, middle: Graph, now: Graph, x: Index, z: Index, y: Index,
                        xs: seq<Extraction>, e: Extraction)
    requires Does(lower, g, before, EMPTY_INDEX, x, FirstOps(lower, xs))
    requires Does(lower, before, middle, x, z, EntityOps(Merged(lower, e.entities)))
    requires Does(lower, middle, now, z, y, LinkOps(lower, KeysOf(z), e.links))
    ensures Does(lower, g, now, EMPTY_INDEX, y, FirstOps(lower, xs + [e]))
  {
    hide Merged, EntityOps, LinkOps;
    var a, b, c := FirstOps(lower, xs), EntityOps(Merged(lower, e.entities)), LinkOps(lower, KeysOf(z), e.links);
    assert KeysOf(EMPTY_INDEX) == NO_NAMES;
    assert KeysOf(x) == NamesAfter(NO_NAMES, lower, a) && KeysOf(z) == NamesAfter(KeysOf(x), lower, b);
    hide Does, KeysOf;
    assert b + c == ChunkOps(lower, NamesAfter(NO_NAMES, lower, a), e);
    assert (xs + [e])[..|xs|] == xs;
    DoesFurther(lower, before, middle, now, x, z, y, b, c);
    DoesFurther(lower, g, before, now, EMPTY_INDEX, x, y, a, b + c);
  }

  lemma OneChunkMore(lower: Lower, g: Graph, before: Graph, middle: Graph, now: Graph, x: Index, z: Index, y: Index,
                     cs: seq<Candidate>, xs: seq<Extraction>, e: Extraction)
    requires Passed(lower, g, before, x, cs, xs)
    requires Put(lower, before, middle, x, z, cs + AllMerged(lower, xs), Merged(lower, e.entities))
    requires LinksPut(lower, middle, now, z, y, e.links)
    ensures Passed(lower, g, now, y, cs, xs + [e])
  {
    hide Agree, Grows, Describes, FirstPassLinks, NameSeen, Normalize, Linked, HasName, Merged, Does;
    hide AllMerged, After, FirstOps, EntityOps, LinkOps, KeysOf;
    var ds := Merged(lower, e.entities);
    AllMergedOneMore(lower, xs, e);
    assert cs + AllMerged(lower, xs) + ds == cs + (AllMerged(lower, xs) + ds);
    NamesOneChunkMore(lower, x, z, xs, e);
    LinksOneChunkMore(lower, middle, now, x, z, y, xs, e);
    OpsOneChunkMore(lower, g, before, middle, now, x, z, y, xs, e);
  }

  // ---------------------------------------------------------------- links between documents

  ghost function WikilinkLink(show: Show, chunk: ChunkInput, w: string): LinkCandidate {
    var title := if chunk.title.Some? && chunk.title.value != "" then chunk.title.value else show(chunk.documentId);
    LinkCandidate("DOC:" + title, "DOC:" + Text.Strip(w), LINKS_TO, chunk.confidence, ChunkProvenance(show, chunk))
  }

  /** A blank wikilink gives no link. */
  ghost function WikilinkLinks(show: Show, chunk: ChunkInput, n: nat): seq<LinkCandidate>
    requires n <= |chunk.wikilinks|
  {
    if n == 0 then []
    else
      WikilinkLinks(show, chunk, n - 1)
      + if Text.Strip(chunk.wikilinks[n - 1]) != "" then [WikilinkLink(show, chunk, chunk.wikilinks[n - 1])] else []
  }

  ghost function AllWikilinkLinks(show: Show, chunks: seq<ChunkInput>, n: nat): seq<LinkCandidate>
    requires n <= |chunks|
  {
    if n == 0 then []
    else AllWikilinkLinks(show, chunks, n - 1) + WikilinkLinks(show, chunks[n - 1], |chunks[n - 1].wikilinks|)
  }

  /** The link of the last pass: an empty title counts, and only an empty wikilink does not. */
  ghost function PageLink(show: Show, chunk: ChunkInput, w: string): LinkCandidate {
    LinkCandidate("DOC:" + OrElse(chunk.title, show(chunk.documentId)), "DOC:" + Text.Strip(w), LINKS_TO, 1.0,
                  ChunkProvenance(show, chunk))
  }

  lemma PageLinkIs(show: Show, chunk: ChunkInput, w: string)
    ensures PageLink(show, chunk, w)
            == LinkCandidate("DOC:" + (if chunk.title.Some? then chunk.title.value else show(chunk.documentId)),
                             "DOC:" + Text.Strip(w), "LINKS_TO", 1.0,
                             map["chunk_id" := One(show(chunk.chunkId)), "document_id" := One(show(chunk.documentId))])
  {
  }

  /** The first chunk of a document. */
  function FirstOf(chunks: seq<ChunkInput>, d: Id): (i: nat)
    requires exists c :: c in chunks && c.documentId == d
    ensures i < |chunks| && chunks[i].documentId == d && forall j | 0 <= j < i :: chunks[j].documentId != d
  {
    if chunks[0].documentId == d then 0 else FirstOf(chunks[1..], d) + 1
  }

  /** The documents in the order of their first chunks. */
  ghost function DocumentsOf(chunks: seq<ChunkInput>): seq<Id> {
    if chunks == [] then []
    else
      var before, d := DocumentsOf(chunks[..|chunks| - 1]), chunks[|chunks| - 1].documentId;
      if d in before then before else before + [d]
  }

  lemma {:induction false} DocumentsAre(chunks: seq<ChunkInput>, d: Id)
    ensures d in DocumentsOf(chunks) <==> exists c :: c in chunks && c.documentId == d
  {
    if chunks != [] {
      var init, last := chunks[..|chunks| - 1], chunks[|chunks| - 1];
      DocumentsAre(init, d);
      assert chunks == init + [last];
    }
  }

  /** The wikilinks of all chunks of a document. */
  ghost function WikilinksOf(chunks: seq<ChunkInput>, d: Id): set<string> {
    set c, w | c in chunks && c.documentId == d && w in c.wikilinks :: w
  }

  ghost predicate Collected(chunks: seq<ChunkInput>, documents: seq<Id>, wikilinks: map<Id, set<string>>) {
    && documents == DocumentsOf(chunks)
    && (forall d :: d in documents <==> d in wikilinks)
    && (forall d | d in wikilinks :: wikilinks[d] == WikilinksOf(chunks, d))
  }

  lemma WikilinksOneMore(chunks: seq<ChunkInput>, chunk: ChunkInput, d: Id)
    ensures WikilinksOf(chunks + [chunk], d)
            == WikilinksOf(chunks, d) + if chunk.documentId == d then set w | w in chunk.wikilinks else {}
  {
    assert chunk in chunks + [chunk];
    forall c | c in chunks ensures c in chunks + [chunk] {}
  }

  lemma CollectedOneMore(chunks: seq<ChunkInput>, chunk: ChunkInput, documents: seq<Id>,
                         wikilinks: map<Id, set<string>>)
    requires Collected(chunks, documents, wikilinks)
    ensures var d, more := chunk.documentId, set w | w in chunk.wikilinks;
            && (d !in wikilinks ==> Collected(chunks + [chunk], documents + [d], wikilinks[d := {}][d := {} + more]))
            && (d in wikilinks ==> Collected(chunks + [chunk], documents, wikilinks[d := wikilinks[d] + more]))
  {
    var d := chunk.documentId;
    assert (chunks + [chunk])[..|chunks|] == chunks;
    assert DocumentsOf(chunks + [chunk]) == if d in documents then documents else documents + [d];
    if d !in wikilinks {
      DocumentsAre(chunks, d);
      assert WikilinksOf(chunks, d) == {};
    }
    hide DocumentsOf, WikilinksOf;
    forall e ensures WikilinksOf(chunks + [chunk], e)
                     == WikilinksOf(chunks, e) + if d == e then set w | w in chunk.wikilinks else {}
    {
      WikilinksOneMore(chunks, chunk, e);
    }
  }

  lemma CollectedDocuments(chunks: seq<ChunkInput>, documents: seq<Id>, wikilinks: map<Id, set<string>>)
    requires Collected(chunks, documents, wikilinks)
    ensures documents == DocumentsOf(chunks)
  {
  }

  lemma CollectedHas(chunks: seq<ChunkInput>, documents: seq<Id>, wikilinks: map<Id, set<string>>, i: nat)
    requires Collected(chunks, documents, wikilinks) && i < |documents|
    ensures documents[i] in wikilinks && wikilinks[documents[i]] == WikilinksOf(chunks, documents[i])
    ensures exists c :: c in chunks && c.documentId == documents[i]
  {
    assert documents[i] in documents;
    DocumentsAre(chunks, documents[i]);
  }

  /** These are the page links of a document, in some order. */
  ghost predicate PagesOf(show: Show, chunks: seq<ChunkInput>, d: Id, links: seq<LinkCandidate>) {
    && (exists c :: c in chunks && c.documentId == d)
    && forall l :: l in links <==>
                     exists w :: w in WikilinksOf(chunks, d) && w != ""
                                 && l == PageLink(show, chunks[FirstOf(chunks, d)], w)
  }

  /** The page links of the first documents, document by document. */
  ghost predicate Arranged(show: Show, chunks: seq<ChunkInput>, groups: seq<seq<LinkCandidate>>) {
    && |groups| <= |DocumentsOf(chunks)|
    && forall i | 0 <= i < |groups| :: PagesOf(show, chunks, DocumentsOf(chunks)[i], groups[i])
  }

  ghost function ConcatLinks(groups: seq<seq<LinkCandidate>>): seq<LinkCandidate> {
    if groups == [] then [] else ConcatLinks(groups[..|groups| - 1]) + groups[|groups| - 1]
  }

  lemma ConcatOneMore(groups: seq<seq<LinkCandidate>>, links: seq<LinkCandidate>)
    ensures ConcatLinks(groups + [links]) == ConcatLinks(groups) + links
  {
    assert (groups + [links])[..|groups|] == groups;
  }

  lemma {:induction false} ConcatHas(groups: seq<seq<LinkCandidate>>, i: nat, l: LinkCandidate)
    requires i < |groups| && l in groups[i]
    ensures l in ConcatLinks(groups)
  {
    if i < |groups| - 1 {
      assert groups[..|groups| - 1][i] == groups[i];
      ConcatHas(groups[..|groups| - 1], i, l);
    }
  }

  lemma NoGroups(show: Show, chunks: seq<ChunkInput>)
    ensures Arranged(show, chunks, []) && ConcatLinks([]) == []
  {
  }

  lemma PagesAre(show: Show, chunks: seq<ChunkInput>, d: Id, wikilinks: set<string>, links: seq<LinkCandidate>)
    requires (exists c :: c in chunks && c.documentId == d) && wikilinks == WikilinksOf(chunks, d)
    requires forall l :: l in links <==>
                           exists w :: w in wikilinks && w != "" && l == PageLink(show, chunks[FirstOf(chunks, d)], w)
    ensures PagesOf(show, chunks, d, links) && ScalarLinks(links)
  {
    hide PageLink, FirstOf, WikilinksOf;
    PagesAreScalar(show, chunks[FirstOf(chunks, d)], links);
  }

  lemma OneGroupMore(show: Show, chunks: seq<ChunkInput>, groups: seq<seq<LinkCandidate>>, links: seq<LinkCandidate>)
    requires Arranged(show, chunks, groups) && |groups| < |DocumentsOf(chunks)|
    requires PagesOf(show, chunks, DocumentsOf(chunks)[|groups|], links)
    ensures Arranged(show, chunks, groups + [links]) && ConcatLinks(groups + [links]) == ConcatLinks(groups) + links
  {
    hide PagesOf, ConcatLinks;
    ConcatOneMore(groups, links);
  }

  /** With the links of every document, every page link is among them. */
  lemma AllPagesLinked(show: Show, chunks: seq<ChunkInput>, groups: seq<seq<LinkCandidate>>)
    requires Arranged(show, chunks, groups) && |groups| == |DocumentsOf(chunks)|
    ensures forall c, w | c in chunks && w in c.wikilinks && w != "" ::
              PageLink(show, chunks[FirstOf(chunks, c.documentId)], w) in ConcatLinks(groups)
  {
    hide PageLink, FirstOf, DocumentsOf, ConcatLinks;
    forall c, w | c in chunks && w in c.wikilinks && w != ""
      ensures PageLink(show, chunks[FirstOf(chunks, c.documentId)], w) in ConcatLinks(groups)
    {
      DocumentsAre(chunks, c.documentId);
      var i :| 0 <= i < |DocumentsOf(chunks)| && DocumentsOf(chunks)[i] == c.documentId;
      assert PagesOf(show, chunks, c.documentId, groups[i]);
      assert w in WikilinksOf(chunks, c.documentId);
      ConcatHas(groups, i, PageLink(show, chunks[FirstOf(chunks, c.documentId)], w));
    }
  }

  lemma PagesAreComplete(lower: Lower, show: Show, chunks: seq<ChunkInput>, x: Index, links: seq<LinkCandidate>)
    requires forall c, w | c in chunks && w in c.wikilinks && w != "" ::
               PageLink(show, chunks[FirstOf(chunks, c.documentId)], w) in links
    requires forall l | l in links :: DocumentsLinkedAs(lower, x, l)
    ensures PagesComplete(lower, show, chunks, x)
  {
    hide PageLink, FirstOf, DocumentsLinkedAs;
    forall c, w | c in chunks && w in c.wikilinks && w != ""
      ensures PageLinked(lower, show, x, chunks[FirstOf(chunks, c.documentId)], w)
    {
      PageIsLinked(lower, show, x, chunks[FirstOf(chunks, c.documentId)], w);
    }
  }

  lemma PageIsLinked(lower: Lower, show: Show, x: Index, chunk: ChunkInput, w: string)
    requires DocumentsLinkedAs(lower, x, PageLink(show, chunk, w))
    ensures PageLinked(lower, show, x, chunk, w)
  {
    hide Normalize, DocumentsJoined;
    PageLinkIs(show, chunk, w);
  }

  lemma {:induction false} WikilinkIsAmong(show: Show, chunk: ChunkInput, n: nat, w: string)
    requires n <= |chunk.wikilinks| && w in chunk.wikilinks[..n] && Text.Strip(w) != ""
    ensures WikilinkLink(show, chunk, w) in WikilinkLinks(show, chunk, n)
  {
    hide WikilinkLink, Text.Strip;
    assert chunk.wikilinks[..n] == chunk.wikilinks[..n - 1] + [chunk.wikilinks[n - 1]];
    if w != chunk.wikilinks[n - 1] { WikilinkIsAmong(show, chunk, n - 1, w); }
  }

  lemma {:induction false} AllWikilinksAreAmong(show: Show, chunks: seq<ChunkInput>, n: nat, chunk: ChunkInput,
                                                w: string)
    requires n <= |chunks| && chunk in chunks[..n] && w in chunk.wikilinks && Text.Strip(w) != ""
    ensures WikilinkLink(show, chunk, w) in AllWikilinkLinks(show, chunks, n)
  {
    hide WikilinkLink, WikilinkLinks, Text.Strip;
    assert chunks[..n] == chunks[..n - 1] + [chunks[n - 1]];
    if chunk == chunks[n - 1] {
      assert chunk.wikilinks[..|chunk.wikilinks|] == chunk.wikilinks;
      WikilinkIsAmong(show, chunk, |chunk.wikilinks|, w);
    } else {
      AllWikilinksAreAmong(show, chunks, n - 1, chunk, w);
    }
  }

  lemma WikilinksAreComplete(lower: Lower, show: Show, now: Graph, chunks: seq<ChunkInput>, x: Index, y: Index)
    requires Linking(lower, now, x, y, AllWikilinkLinks(show, chunks, |chunks|))
    ensures WikilinksComplete(lower, show, chunks, y)
  {
    hide Agree, Grows, DocumentsLinkedAs, WikilinkLink, AllWikilinkLinks, Text.Strip;
    forall c, w | c in chunks && w in c.wikilinks && Text.Strip(w) != "" ensures WikilinkLinked(lower, show, y, c, w) {
      assert chunks[..|chunks|] == chunks;
      AllWikilinksAreAmong(show, chunks, |chunks|, c, w);
      WikilinkIsLinked(lower, show, y, c, w);
    }
  }

  lemma WikilinkIsLinked(lower: Lower, show: Show, x: Index, chunk: ChunkInput, w: string)
    requires DocumentsLinkedAs(lower, x, WikilinkLink(show, chunk, w))
    ensures WikilinkLinked(lower, show, x, chunk, w)
  {
    hide Normalize, DocumentsJoined, Text.Strip;
  }

  lemma WikilinksStayComplete(lower: Lower, show: Show, chunks: seq<ChunkInput>, x: Index, y: Index)
    requires WikilinksComplete(lower, show, chunks, x) && Grows(x, y)
    ensures WikilinksComplete(lower, show, chunks, y)
  {
    hide Grows, DocumentsJoined, Normalize, Text.Strip;
    forall c, w | c in chunks && w in c.wikilinks && Text.Strip(w) != "" ensures WikilinkLinked(lower, show, y, c, w) {
      assert WikilinkLinked(lower, show, x, c, w);
      var title := if c.title.Some? && c.title.value != "" then c.title.value else show(c.documentId);
      StaysJoined(x, y, Normalize(lower, "DOC:" + title), Normalize(lower, "DOC:" + Text.Strip(w)), "LINKS_TO",
                  c.confidence);
    }
  }

  /** The link joins two DOCUMENT entities of the names that it gives. */
  ghost predicate DocumentsLinkedAs(lower: Lower, x: Index, l: LinkCandidate) {
    DocumentsJoined(x, Normalize(lower, l.source), Normalize(lower, l.target), l.linkType, l.confidence)
  }

  /** The link that a wikilink of a chunk makes is there: from the DOCUMENT of the chunk's title, or
      of its id without one, to the DOCUMENT of the link's text, with the chunk's confidence. */
  ghost predicate WikilinkLinked(lower: Lower, show: Show, x: Index, chunk: ChunkInput, w: string) {
    var title := if chunk.title.Some? && chunk.title.value != "" then chunk.title.value else show(chunk.documentId);
    DocumentsJoined(x, Normalize(lower, "DOC:" + title), Normalize(lower, "DOC:" + Text.Strip(w)), "LINKS_TO",
                    chunk.confidence)
  }

  /** The link that a wikilink of a document makes is there: from the DOCUMENT of the title, even an
      empty one, of its first chunk, to the DOCUMENT of the link's text, with confidence 1. */
  ghost predicate PageLinked(lower: Lower, show: Show, x: Index, chunk: ChunkInput, w: string) {
    var title := if chunk.title.Some? then chunk.title.value else show(chunk.documentId);
    DocumentsJoined(x, Normalize(lower, "DOC:" + title), Normalize(lower, "DOC:" + Text.Strip(w)), "LINKS_TO", 1.0)
  }

  /** Each wikilink of a chunk that is not blank is linked. */
  ghost predicate WikilinksComplete(lower: Lower, show: Show, chunks: seq<ChunkInput>, x: Index) {
    forall c, w | c in chunks && w in c.wikilinks && Text.Strip(w) != "" :: WikilinkLinked(lower, show, x, c, w)
  }

  /** Each non-empty wikilink of a document is linked from it, by way of its first chunk. */
  ghost predicate PagesComplete(lower: Lower, show: Show, chunks: seq<ChunkInput>, x: Index) {
    forall c, w | c in chunks && w in c.wikilinks && w != "" ::
      PageLinked(lower, show, x, chunks[FirstOf(chunks, c.documentId)], w)
  }

  /** Where the build stands after links `done` between documents: nothing is lost, no name is
      new without its type, and every link is there. */
  ghost predicate Linking(lower: Lower, now: Graph, x: Index, y: Index, done: seq<LinkCandidate>) {
    && Agree(now, y) && Grows(x, y) && y.byNorm.Keys == x.byNorm.Keys
    && forall l | l in done :: DocumentsLinkedAs(lower, y, l)
  }

  lemma LinkingNothing(lower: Lower, now: Graph, x: Index)
    requires Agree(now, x)
    ensures Linking(lower, now, x, x, [])
  {
    GrowsFromItself(x);
    hide Agree, Grows;
  }

  lemma LinkingAgrees(lower: Lower, now: Graph, x: Index, y: Index, done: seq<LinkCandidate>)
    requires Linking(lower, now, x, y, done)
    ensures Agree(now, y)
  {
  }

  lemma LinkingParts(lower: Lower, now: Graph, x: Index, y: Index, done: seq<LinkCandidate>)
    requires Linking(lower, now, x, y, done)
    ensures Linking(lower, now, x, y, []) && forall l | l in done :: DocumentsLinkedAs(lower, y, l)
  {
    hide Agree, Grows, DocumentsLinkedAs;
  }

  lemma LinkingMore(lower: Lower, before: Graph, now: Graph, x: Index, z: Index, y: Index, done: seq<LinkCandidate>,
                    more: seq<LinkCandidate>)
    requires Linking(lower, before, x, z, done) && Linking(lower, now, z, y, more)
    ensures Linking(lower, now, x, y, done + more)
  {
    hide Agree, Grows, Normalize, DocumentsJoined;
    GrowsFurther(x, z, y);
    forall l | l in done ensures DocumentsLinkedAs(lower, y, l) {
      assert DocumentsLinkedAs(lower, z, l);
      StaysJoined(z, y, Normalize(lower, l.source), Normalize(lower, l.target), l.linkType, l.confidence);
    }
  }

  lemma DocumentKnown(lower: Lower, now: Graph, x: Index, k: Key)
    requires Agree(now, x) && k in x.byName
    ensures Linking(lower, now, x, x, []) && x.byName[k].id in x.byId && EntityKey(x.byId[x.byName[k].id]) == k
  {
    LinkingNothing(lower, now, x);
    StoredKeysAgree(now, x.byName[k], x.byId[x.byName[k].id]);
  }

  lemma DocumentPut(lower: Lower, now: Graph, x: Index, y: Index, c: Candidate, e: Entity)
    requires Agree(now, y) && Grows(x, y) && KeyOf(lower, c) in y.byName && y.byName[KeyOf(lower, c)] == e
    requires y.byNorm.Keys == x.byNorm.Keys + {}
    ensures Linking(lower, now, x, y, []) && e.id in y.byId && EntityKey(y.byId[e.id]) == KeyOf(lower, c)
  {
    DocumentKnown(lower, now, y, KeyOf(lower, c));
    hide Agree, Grows;
  }

  lemma NameStays(lower: Lower, now: Graph, x: Index, y: Index, i: Id)
    requires i in x.byId && Linking(lower, now, x, y, [])
    ensures i in y.byId && EntityKey(y.byId[i]) == EntityKey(x.byId[i])
  {
  }

  lemma DocumentsLinked(lower: Lower, g: Graph, h: Graph, now: Graph, x: Index, v: Index, z: Index, y: Index,
                        source: Id, target: Id, l: LinkCandidate)
    requires Linking(lower, g, x, v, []) && Linking(lower, h, v, z, []) && Grows(z, y) && Agree(now, y)
    requires y.byNorm == z.byNorm
    requires source in z.byId && EntityKey(z.byId[source]) == DocumentKey(lower, l.source)
    requires target in z.byId && EntityKey(z.byId[target]) == DocumentKey(lower, l.target)
    requires Joins(y, source, target, l.linkType, l.confidence)
    ensures Linking(lower, now, x, y, [l])
  {
    hide Agree, Grows, Normalize, Joins;
    GrowsFurther(x, v, z);
    GrowsFurther(x, z, y);
    DocumentStays(z, y, source, Normalize(lower, l.source));
    DocumentStays(z, y, target, Normalize(lower, l.target));
  }

  /** Creating both documents and linking them is what the keys tell. */
  lemma PairDone(lower: Lower, g: Graph, h: Graph, k: Graph, now: Graph, x: Index, v: Index, z: Index, y: Index,
                 l: LinkCandidate)
    requires Does(lower, g, h, x, v, DocumentOps(lower, KeysOf(x), l.source, l))
    requires Does(lower, h, k, v, z, DocumentOps(lower, KeysOf(v), l.target, l))
    requires Does(lower, k, now, z, y, [PutLink(DocumentKey(lower, l.source), DocumentKey(lower, l.target), l)])
    ensures Does(lower, g, now, x, y, PairOps(lower, KeysOf(x), l))
  {
    hide DocumentOps, KeysOf, DocumentKey;
    var a, b := DocumentOps(lower, KeysOf(x), l.source, l), DocumentOps(lower, KeysOf(v), l.target, l);
    assert KeysOf(v) == NamesAfter(KeysOf(x), lower, a);
    hide Does, NamesAfter;
    DoesFurther(lower, g, h, k, x, v, z, a, b);
    DoesFurther(lower, g, k, now, x, z, y, a + b,
                [PutLink(DocumentKey(lower, l.source), DocumentKey(lower, l.target), l)]);
  }

  lemma PairsDone(lower: Lower, g: Graph, before: Graph, now: Graph, x: Index, z: Index, y: Index,
                  done: seq<LinkCandidate>, more: seq<LinkCandidate>)
    requires Does(lower, g, before, x, z, PairsOps(lower, KeysOf(x), done))
    requires Does(lower, before, now, z, y, PairsOps(lower, KeysOf(z), more))
    ensures Does(lower, g, now, x, y, PairsOps(lower, KeysOf(x), done + more))
  {
    hide PairsOps, KeysOf;
    assert KeysOf(z) == NamesAfter(KeysOf(x), lower, PairsOps(lower, KeysOf(x), done));
    hide Does, NamesAfter;
    PairsOfBoth(lower, KeysOf(x), done, more);
    DoesFurther(lower, g, before, now, x, z, y, PairsOps(lower, KeysOf(x), done), PairsOps(lower, KeysOf(z), more));
  }

  lemma NoPairs(lower: Lower, g: Graph, x: Index)
    ensures Does(lower, g, g, x, x, PairsOps(lower, KeysOf(x), []))
  {
    DoesNothing(lower, g, x);
    hide Does, KeysOf;
  }

  lemma OnePair(lower: Lower, s: KeyNames, l: LinkCandidate)
    ensures PairsOps(lower, s, [l]) == PairOps(lower, s, l)
  {
    hide PairOps;
    var none: seq<LinkCandidate> := [];
    assert [l][..0] == none && PairsOps(lower, s, none) == [] && NamesAfter(s, lower, []) == s;
  }

  // ---------------------------------------------------------------- scalar provenance

  ghost predicate ScalarLinks(links: seq<LinkCandidate>) {
    forall l | l in links :: Scalar(l.provenance)
  }

  lemma ScalarLinkAt(links: seq<LinkCandidate>, i: nat)
    requires ScalarLinks(links) && i < |links|
    ensures Scalar(links[i].provenance)
  {
    assert links[i] in links;
  }

  lemma ExtractedLinksAreScalar(lower: Lower, x: Extraction)
    requires SoundExtraction(lower, x)
    ensures ScalarLinks(x.links)
  {
    hide Scalar, EndsKnown;
  }

  lemma {:induction false} WikilinksAreScalar(show: Show, chunk: ChunkInput, n: nat)
    requires n <= |chunk.wikilinks|
    ensures ScalarLinks(WikilinkLinks(show, chunk, n))
  {
    hide WikilinkLink, Scalar, Text.Strip;
    if n > 0 {
      WikilinksAreScalar(show, chunk, n - 1);
      WikilinkIsScalar(show, chunk, chunk.wikilinks[n - 1]);
    }
  }

  lemma WikilinkIsScalar(show: Show, chunk: ChunkInput, w: string)
    ensures Scalar(WikilinkLink(show, chunk, w).provenance)
  {
    hide Text.Strip;
  }

  lemma PagesAreScalar(show: Show, chunk: ChunkInput, links: seq<LinkCandidate>)
    requires forall l | l in links :: exists w :: l == PageLink(show, chunk, w)
    ensures ScalarLinks(links)
  {
  }

  // ---------------------------------------------------------------- hyperedges

  ghost function Members(lower: Lower, x: Index, names: seq<string>): seq<Id> {
    if names == [] then []
    else
      var n := Normalize(lower, names[|names| - 1]);
      Members(lower, x, names[..|names| - 1]) + if n in x.byNorm then [x.byNorm[n].id] else []
  }

  function Distinct(members: seq<Id>): set<Id> {
    set m | m in members
  }

  ghost predicate ClosedHyperedge(x: Index, h: Hyperedge) {
    (forall m | m in h.members :: m in x.byId) && |Distinct(h.members)| >= 2
  }

  /** Every hyperedge found has at least two distinct members, all to be returned, and each
      candidate with two distinct known members has its hyperedge. */
  ghost predicate HyperedgesOf(lower: Lower, x: Index, candidates: seq<HyperedgeCandidate>, found: seq<Hyperedge>) {
    && (forall h | h in found :: ClosedHyperedge(x, h))
    && (forall c | c in candidates && |Distinct(Members(lower, x, c.names))| >= 2 ::
          exists h :: h in found && SameHyperedge(h, Members(lower, x, c.names), c.linkType))
  }

  lemma NoHyperedges(lower: Lower, x: Index)
    ensures HyperedgesOf(lower, x, [], [])
  {
  }

  lemma {:induction false} MembersAreReturned(lower: Lower, g: Graph, x: Index, names: seq<string>)
    requires Agree(g, x)
    ensures forall m | m in Members(lower, x, names) :: m in x.byId
  {
    hide Normalize;
    if names != [] { MembersAreReturned(lower, g, x, names[..|names| - 1]); }
  }

  lemma HyperedgeSkipped(lower: Lower, x: Index, done: seq<HyperedgeCandidate>, c: HyperedgeCandidate,
                         found: seq<Hyperedge>)
    requires HyperedgesOf(lower, x, done, found) && |Distinct(Members(lower, x, c.names))| < 2
    ensures HyperedgesOf(lower, x, done + [c], found)
  {
    hide Members, ClosedHyperedge, SameHyperedge;
  }

  lemma SameMembers(a: seq<Id>, b: seq<Id>)
    requires multiset(a) == multiset(b)
    ensures forall m :: m in a <==> m in b
    ensures Distinct(a) == Distinct(b)
  {
    forall m ensures m in a <==> m in b {
      assert m in multiset(a) <==> m in multiset(b);
    }
  }

  lemma OneHyperedgeMore(lower: Lower, g: Graph, x: Index, done: seq<HyperedgeCandidate>, c: HyperedgeCandidate,
                         found: seq<Hyperedge>, h: Hyperedge)
    requires Agree(g, x) && HyperedgesOf(lower, x, done, found)
    requires |Distinct(Members(lower, x, c.names))| >= 2 && SameHyperedge(h, Members(lower, x, c.names), c.linkType)
    ensures HyperedgesOf(lower, x, done + [c], found + [h])
  {
    var members := Members(lower, x, c.names);
    MembersAreReturned(lower, g, x, c.names);
    SameMembers(h.members, members);
    hide Agree, Members;
    assert ClosedHyperedge(x, h) by {
      forall m | m in h.members ensures m in x.byId { assert m in members; }
    }
    hide ClosedHyperedge;
    assert h in found + [h];
    forall k | k in found ensures k in found + [h] {}
  }

  lemma {:induction false} MembersAre(lower: Lower, g: Graph, x: Index, names: seq<string>)
    requires Agree(g, x)
    ensures var ks := MemberKeys(lower, KeysOf(x), names);
            Members(lower, x, names) == IdsOf(g, ks) && forall k | k in ks :: k in g.entities
  {
    hide ValidGraph, Normalize;
    if names != [] { MembersAre(lower, g, x, names[..|names| - 1]); }
  }

  lemma FewAreEqual(s: seq<Id>)
    ensures |Distinct(s)| < 2 <==> AllEqual(s)
  {
    var all := Distinct(s);
    if s == [] {
      assert all == {};
    } else if AllEqual(s) {
      assert all == {s[0]};
    } else {
      var i, j :| 0 <= i < j < |s| && s[i] != s[j];
      assert {s[i], s[j]} <= all;
      assert |all| == |{s[i], s[j]}| + |all - {s[i], s[j]}|;
    }
  }

  /** Records have the same id exactly if they have the same key. */
  lemma IdsTellKeys(g: Graph, ks: seq<Key>)
    requires ValidGraph(g) && forall k | k in ks :: k in g.entities
    ensures AllEqual(IdsOf(g, ks)) <==> AllEqual(ks)
  {
    var ids := IdsOf(g, ks);
    forall i, j | 0 <= i < j < |ks| ensures ids[i] == ids[j] <==> ks[i] == ks[j] {
      assert ks[i] in ks && ks[j] in ks;
      SameIdSameKey(g, ks[i], ks[j]);
    }
    hide IdsOf, ValidGraph;
  }

  lemma SameIdSameKey(g: Graph, k: Key, m: Key)
    requires ValidGraph(g) && k in g.entities && m in g.entities
    ensures IdOf(g, k) == IdOf(g, m) <==> k == m
  {
  }

  lemma FewMembers(lower: Lower, g: Graph, x: Index, names: seq<string>)
    requires Agree(g, x)
    ensures |Distinct(Members(lower, x, names))| < 2 <==> AllEqual(MemberKeys(lower, KeysOf(x), names))
  {
    hide Members, MemberKeys, KeysOf, ValidGraph, AllEqual, IdsOf;
    MembersAre(lower, g, x, names);
    FewAreEqual(Members(lower, x, names));
    IdsTellKeys(g, MemberKeys(lower, KeysOf(x), names));
  }

  lemma NoHyperedgeOps(lower: Lower, g: Graph, x: Index)
    ensures Does(lower, g, g, x, x, HyperedgeOps(lower, KeysOf(x), []))
  {
    DoesNothing(lower, g, x);
    hide Does, KeysOf;
  }

  lemma OneHyperedgeOp(lower: Lower, s: KeyNames, c: HyperedgeCandidate)
    ensures HyperedgeOps(lower, s, [c]) == HyperedgeOp(lower, s, c)
  {
    hide HyperedgeOp;
    assert HyperedgeOps(lower, s, [c][..0]) == [];
  }

  /** A hyperedge is put, or skipped, as the keys tell. */
  lemma HyperedgeDone(lower: Lower, g: Graph, x: Index, c: HyperedgeCandidate)
    requires Agree(g, x)
    ensures var members := Members(lower, x, c.names);
            var now := if |Distinct(members)| < 2 then g else UpsertHyperedge(g, members, c);
            Does(lower, g, now, x, x, HyperedgeOps(lower, KeysOf(x), [c]))
  {
    hide Agree, Members, MemberKeys, KeysOf, IdsOf, AllEqual;
    var members, ks := Members(lower, x, c.names), MemberKeys(lower, KeysOf(x), c.names);
    MembersAre(lower, g, x, c.names);
    FewMembers(lower, g, x, c.names);
    OneHyperedgeOp(lower, KeysOf(x), c);
    hide HyperedgeOps;
    DoesNothing(lower, g, x);
    if !AllEqual(ks) { DoesOne(lower, g, UpsertHyperedge(g, members, c), x, x, PutHyperedge(ks, c)); }
    hide Does;
  }

  lemma HyperedgesDone(lower: Lower, g: Graph, before: Graph, now: Graph, x: Index, done: seq<HyperedgeCandidate>,
                       more: seq<HyperedgeCandidate>)
    requires Does(lower, g, before, x, x, HyperedgeOps(lower, KeysOf(x), done))
    requires Does(lower, before, now, x, x, HyperedgeOps(lower, KeysOf(x), more))
    ensures Does(lower, g, now, x, x, HyperedgeOps(lower, KeysOf(x), done + more))
  {
    hide Does, HyperedgeOps, KeysOf;
    HyperedgeOpsOfBoth(lower, KeysOf(x), done, more);
    DoesFurther(lower, g, before, now, x, x, x, HyperedgeOps(lower, KeysOf(x), done),
                HyperedgeOps(lower, KeysOf(x), more));
  }

  lemma AgreeIsValid(g: Graph, x: Index)
    requires Agree(g, x)
    ensures ValidGraph(g)
  {
  }

  lemma AgreeWithHyperedge(g: Graph, x: Index, members: seq<Id>, c: HyperedgeCandidate)
    requires Agree(g, x)
    ensures Agree(UpsertHyperedge(g, members, c), x)
  {
    UpsertHyperedgeKeeps(g, members, c);
    hide ValidGraph, HasHyperedge;
  }

  ghost function AllHyperedges(chunks: seq<ChunkInput>, n: nat): seq<HyperedgeCandidate>
    requires n <= |chunks|
  {
    if n == 0 then [] else AllHyperedges(chunks, n - 1) + chunks[n - 1].hyperedges
  }

  lemma HyperedgesOfBoth(lower: Lower, x: Index, a: seq<HyperedgeCandidate>, b: seq<HyperedgeCandidate>,
                         found: seq<Hyperedge>, more: seq<Hyperedge>)
    requires HyperedgesOf(lower, x, a, found) && HyperedgesOf(lower, x, b, more)
    ensures HyperedgesOf(lower, x, a + b, found + more)
  {
    hide Members, ClosedHyperedge, SameHyperedge;
    forall h | h in found || h in more ensures h in found + more {}
  }

  // ---------------------------------------------------------------- the whole build

  /** Both ends of every relationship and all members of every hyperedge are returned, and a
      hyperedge has at least two distinct members. */
  ghost predicate Closed(r: BuildResult) {
    && (forall l | l in r.links :: r.links[l].source in r.entities && r.links[l].target in r.entities)
    && (forall h | h in r.hyperedges :: (forall m | m in h.members :: m in r.entities) && |Distinct(h.members)| >= 2)
  }

  /** Chunk `i` is the first with its id, and nothing is cached for it. */
  ghost predicate FirstAsked(cache: Cache, chunks: seq<ChunkInput>, i: nat)
    requires i < |chunks|
  {
    chunks[i].chunkId !in cache && forall j | 0 <= j < i :: chunks[j].chunkId != chunks[i].chunkId
  }

  /** The confidence of an entry: its own, else the chunk's. */
  ghost function Sure(own: Option<real>, chunk: ChunkInput): real {
    if own.Some? then own.value else chunk.confidence
  }

  /** The answer about the chunk names this entity with sufficient confidence. */
  ghost predicate NamesEntity(least: real, chunk: ChunkInput, e: RawEntity) {
    && chunk.response.Some? && e in chunk.response.value.entities
    && e.name.Some? && Text.Strip(e.name.value) != "" && Sure(e.confidence, chunk) >= least
  }

  /** This trimmed text is, but for the case of its letters, the name of such an entity. */
  ghost predicate IsNamed(lower: Lower, least: real, chunk: ChunkInput, name: string) {
    exists e: RawEntity :: NamesEntity(least, chunk, e) && lower(Text.Strip(e.name.value)) == lower(name)
  }

  /** The answer about the chunk relates these: with sufficient confidence, between two entities
      that it names. */
  ghost predicate Relates(lower: Lower, least: real, chunk: ChunkInput, r: RawLink) {
    && chunk.response.Some? && r in chunk.response.value.links
    && r.source.Some? && r.target.Some? && Sure(r.confidence, chunk) >= least
    && IsNamed(lower, least, chunk, Text.Strip(r.source.value))
    && IsNamed(lower, least, chunk, Text.Strip(r.target.value))
    && Text.Strip(r.source.value) != "" && Text.Strip(r.target.value) != ""
  }

  /** Some relationship to return goes from an entity named as the entry's source to one named as
      its target, with the entry's type and no less than its confidence. */
  ghost predicate EntryLinked(lower: Lower, x: Index, chunk: ChunkInput, r: RawLink) {
    && r.source.Some? && r.target.Some?
    && Linked(x, Normalize(lower, Text.Strip(r.source.value)), Normalize(lower, Text.Strip(r.target.value)),
              if r.linkType.Some? then r.linkType.value else "RELATED_TO", Sure(r.confidence, chunk))
  }

  /** Everything that the answers about newly asked chunks relate is there, and so is every name
      that they give to an entity. */
  ghost predicate AnswersLinked(lower: Lower, run: Run, chunks: seq<ChunkInput>, x: Index) {
    && (forall i, r | 0 <= i < |chunks| && FirstAsked(run.cache, chunks, i)
                      && Relates(lower, run.least, chunks[i], r) ::
          EntryLinked(lower, x, chunks[i], r))
    && (forall i, e | 0 <= i < |chunks| && FirstAsked(run.cache, chunks, i) && NamesEntity(run.least, chunks[i], e) ::
          Normalize(lower, Text.Strip(e.name.value)) in x.byNorm)
  }

  ghost predicate ParsedLinked(lower: Lower, xs: seq<Extraction>, x: Index) {
    forall i, l | 0 <= i < |xs| && xs[i].parsed && l in xs[i].links :: LinkedAs(lower, x, l)
  }

  /** Whatever the answers about the chunks relate is there, and so is what cached answers
      related, every relationship of a fallback whose ends were named, every name of an entity,
      and every link between documents. */
  ghost predicate Complete(lower: Lower, run: Run, chunks: seq<ChunkInput>, x: Index) {
    var xs := Extractions(lower, run.show, run.least, run.cache, chunks);
    && AnswersLinked(lower, run, chunks, x) && ParsedLinked(lower, xs, x) && FirstPassLinks(lower, xs, x)
    && (forall n :: n in x.byNorm <==> NameSeen(lower, xs, n))
    && WikilinksComplete(lower, run.show, chunks, x)
    && PagesComplete(lower, run.show, chunks, x)
  }

  /** A chunk asked about for the first time answers for itself. */
  lemma {:induction false} CacheAfterHas(lower: Lower, show: Show, least: real, cache: Cache, chunks: seq<ChunkInput>,
                                         c: Id)
    ensures c in CacheAfter(lower, show, least, cache, chunks)
            <==> c in cache || exists i :: 0 <= i < |chunks| && chunks[i].chunkId == c
    ensures c in cache ==> CacheAfter(lower, show, least, cache, chunks)[c] == cache[c]
  {
    hide ExtractionOf;
    if chunks != [] { CacheAfterHas(lower, show, least, cache, chunks[..|chunks| - 1], c); }
  }

  lemma {:induction false} ExtractionsAre(lower: Lower, show: Show, least: real, cache: Cache, chunks: seq<ChunkInput>,
                                          i: nat)
    requires i < |chunks|
    ensures Extractions(lower, show, least, cache, chunks)[i]
            == Answer(lower, show, least, CacheAfter(lower, show, least, cache, chunks[..i]), chunks[i])
  {
    hide Answer, CacheAfter;
    var init := chunks[..|chunks| - 1];
    if i < |chunks| - 1 {
      ExtractionsAre(lower, show, least, cache, init, i);
      assert init[..i] == chunks[..i];
    }
  }

  lemma FirstAskedAnswers(lower: Lower, show: Show, least: real, cache: Cache, chunks: seq<ChunkInput>, i: nat)
    requires i < |chunks| && FirstAsked(cache, chunks, i)
    ensures Extractions(lower, show, least, cache, chunks)[i] == ExtractionOf(lower, show, least, chunks[i])
  {
    hide ExtractionOf, CacheAfter, Extractions;
    ExtractionsAre(lower, show, least, cache, chunks, i);
    CacheAfterHas(lower, show, least, cache, chunks[..i], chunks[i].chunkId);
  }

  lemma AnswerIsSound(lower: Lower, show: Show, least: real, cache: Cache, chunk: ChunkInput)
    requires SoundCache(lower, cache)
    ensures SoundExtraction(lower, Answer(lower, show, least, cache, chunk))
    ensures SoundCache(lower, cache[chunk.chunkId := Answer(lower, show, least, cache, chunk)])
  {
    hide SoundExtraction, ExtractionOf;
    ExtractionIsSound(lower, show, least, chunk);
  }

  lemma {:induction false} ExtractionsAreSound(lower: Lower, show: Show, least: real, cache: Cache,
                                               chunks: seq<ChunkInput>)
    requires SoundCache(lower, cache)
    ensures SoundCache(lower, CacheAfter(lower, show, least, cache, chunks))
    ensures forall e | e in Extractions(lower, show, least, cache, chunks) :: SoundExtraction(lower, e)
  {
    hide SoundCache, SoundExtraction, Answer;
    if chunks != [] {
      var init := chunks[..|chunks| - 1];
      ExtractionsAreSound(lower, show, least, cache, init);
      AnswerIsSound(lower, show, least, CacheAfter(lower, show, least, cache, init), chunks[|chunks| - 1]);
    }
  }

  lemma ParsedIsLinked(lower: Lower, xs: seq<Extraction>, x: Index, i: nat, l: LinkCandidate)
    requires FirstPassLinks(lower, xs, x) && i < |xs| && SoundExtraction(lower, xs[i])
    requires xs[i].parsed && l in xs[i].links
    ensures LinkedAs(lower, x, l)
  {
    assert EndsKnown(lower, xs[i].entities, l);
    hide SoundExtraction, HasName, Linked, Normalize;
    assert xs[..i + 1][i] == xs[i];
  }

  /** An entity that the answer names is extracted. */
  lemma NamedIsParsed(lower: Lower, show: Show, least: real, chunk: ChunkInput, e: RawEntity) returns (c: Candidate)
    requires NamesEntity(least, chunk, e)
    ensures c.name == Text.Strip(e.name.value) && c.confidence == Sure(e.confidence, chunk)
    ensures c.provenance
            == map["chunk_id" := One(show(chunk.chunkId)), "document_id" := One(show(chunk.documentId))]
    ensures ExtractionOf(lower, show, least, chunk).parsed && c in ExtractionOf(lower, show, least, chunk).entities
  {
    hide KeptEntities, KeptLinks, Text.Strip;
    var p, raw := ChunkProvenance(show, chunk), chunk.response.value;
    c := EntityOf(e, chunk.confidence, p);
    KeptEntitiesAre(raw.entities, least, chunk.confidence, p, c);
    EntityOfGives(e, chunk.confidence, p, c);
  }

  lemma NamedEnd(lower: Lower, show: Show, least: real, chunk: ChunkInput, name: string)
    requires IsNamed(lower, least, chunk, name)
    ensures LowerName(lower, ExtractionOf(lower, show, least, chunk).entities, lower(name))
  {
    hide ExtractionOf, Text.Strip;
    var e: RawEntity :| NamesEntity(least, chunk, e) && lower(Text.Strip(e.name.value)) == lower(name);
    var c := NamedIsParsed(lower, show, least, chunk, e);
  }

  lemma RelatedIsParsed(lower: Lower, show: Show, least: real, chunk: ChunkInput, r: RawLink)
    returns (l: LinkCandidate)
    requires Relates(lower, least, chunk, r)
    ensures ExtractionOf(lower, show, least, chunk).parsed && l in ExtractionOf(lower, show, least, chunk).links
    ensures forall x :: LinkedAs(lower, x, l) ==> EntryLinked(lower, x, chunk, r)
  {
    hide KeptEntities, KeptLinks, Linked, Normalize, IsNamed, LowerName, Text.Strip;
    var p, raw := ChunkProvenance(show, chunk), chunk.response.value;
    l := LinkOf(r, chunk.confidence, p);
    var entities := KeptEntities(raw.entities, least, chunk.confidence, p);
    NamedEnd(lower, show, least, chunk, l.source);
    NamedEnd(lower, show, least, chunk, l.target);
    LinkOfGives(r, chunk.confidence, p, l);
    KeptLinksAre(lower, raw.links, entities, least, chunk.confidence, p, l);
  }

  lemma FirstPassLinksStay(lower: Lower, xs: seq<Extraction>, x: Index, y: Index)
    requires FirstPassLinks(lower, xs, x) && Grows(x, y)
    ensures FirstPassLinks(lower, xs, y)
  {
    hide Grows, NameSeen, Normalize, Linked;
    forall i, l | 0 <= i < |xs| && l in xs[i].links && LinkedAs(lower, x, l) ensures LinkedAs(lower, y, l) {
      StaysLinked(x, y, Normalize(lower, l.source), Normalize(lower, l.target), l.linkType, l.confidence);
    }
  }

  lemma PassedParts(lower: Lower, g: Graph, now: Graph, x: Index, cs: seq<Candidate>, xs: seq<Extraction>)
    requires Passed(lower, g, now, x, cs, xs)
    ensures FirstPassLinks(lower, xs, x) && forall n :: n in x.byNorm <==> NameSeen(lower, xs, n)
  {
    hide Agree, Describes, Does, FirstPassLinks, NameSeen;
  }

  lemma LinkingKeeps(lower: Lower, now: Graph, x: Index, y: Index, done: seq<LinkCandidate>)
    requires Linking(lower, now, x, y, done)
    ensures Grows(x, y) && y.byNorm.Keys == x.byNorm.Keys
  {
    hide Agree, Grows, DocumentsLinkedAs;
  }

  lemma AllParsedLinked(lower: Lower, xs: seq<Extraction>, x: Index)
    requires FirstPassLinks(lower, xs, x) && forall e | e in xs :: SoundExtraction(lower, e)
    ensures ParsedLinked(lower, xs, x)
  {
    hide FirstPassLinks, SoundExtraction, LinkedAs;
    forall i, l | 0 <= i < |xs| && xs[i].parsed && l in xs[i].links ensures LinkedAs(lower, x, l) {
      ParsedIsLinked(lower, xs, x, i, l);
    }
  }

  lemma AllAnswersLinked(lower: Lower, run: Run, chunks: seq<ChunkInput>, x: Index)
    requires ParsedLinked(lower, Extractions(lower, run.show, run.least, run.cache, chunks), x)
    requires var xs := Extractions(lower, run.show, run.least, run.cache, chunks);
             forall n :: n in x.byNorm <==> NameSeen(lower, xs, n)
    ensures AnswersLinked(lower, run, chunks, x)
  {
    hide LinkedAs, EntryLinked, Extractions, ExtractionOf, FirstAsked, Relates, Normalize, NameSeen, Text.Strip;
    forall i, r | 0 <= i < |chunks| && FirstAsked(run.cache, chunks, i) && Relates(lower, run.least, chunks[i], r)
      ensures EntryLinked(lower, x, chunks[i], r)
    {
      FirstAskedAnswers(lower, run.show, run.least, run.cache, chunks, i);
      var l := RelatedIsParsed(lower, run.show, run.least, chunks[i], r);
    }
    forall i, e | 0 <= i < |chunks| && FirstAsked(run.cache, chunks, i) && NamesEntity(run.least, chunks[i], e)
      ensures Normalize(lower, Text.Strip(e.name.value)) in x.byNorm
    {
      FirstAskedAnswers(lower, run.show, run.least, run.cache, chunks, i);
      var c := NamedIsParsed(lower, run.show, run.least, chunks[i], e);
      SeenIn(lower, Extractions(lower, run.show, run.least, run.cache, chunks), i, c);
    }
  }

  lemma SeenIn(lower: Lower, xs: seq<Extraction>, i: nat, c: Candidate)
    requires i < |xs| && c in xs[i].entities
    ensures NameSeen(lower, xs, Normalize(lower, c.name))
  {
    hide Normalize;
    assert HasName(lower, xs[i].entities, Normalize(lower, c.name));
  }

  lemma BuildIsComplete(lower: Lower, run: Run, g: Graph, h: Graph, now: Graph, chunks: seq<ChunkInput>, x: Index,
                        z: Index, y: Index)
    requires Passed(lower, run.g, g, x, run.cs, Extractions(lower, run.show, run.least, run.cache, chunks))
    requires SoundCache(lower, run.cache)
    requires Linking(lower, h, x, z, AllWikilinkLinks(run.show, chunks, |chunks|)) && Linking(lower, now, z, y, [])
    requires WikilinksComplete(lower, run.show, chunks, z) && PagesComplete(lower, run.show, chunks, y)
    ensures Complete(lower, run, chunks, y)
  {
    hide FirstPassLinks, SoundExtraction, LinkedAs, Grows, NameSeen, Passed, Linking, AllWikilinkLinks, Extractions;
    hide SoundCache, ParsedLinked, AnswersLinked, PagesComplete, WikilinksComplete;
    var xs := Extractions(lower, run.show, run.least, run.cache, chunks);
    var links := AllWikilinkLinks(run.show, chunks, |chunks|);
    ExtractionsAreSound(lower, run.show, run.least, run.cache, chunks);
    LinkingMore(lower, h, now, x, z, y, links, []);
    assert links + [] == links;
    PassedParts(lower, run.g, g, x, run.cs, xs);
    LinkingKeeps(lower, now, x, y, links);
    LinkingKeeps(lower, now, z, y, []);
    WikilinksStayComplete(lower, run.show, chunks, z, y);
    FirstPassLinksStay(lower, xs, x, y);
    AllParsedLinked(lower, xs, y);
    AllAnswersLinked(lower, run, chunks, y);
  }

  lemma BuildIsClosed(lower: Lower, now: Graph, chunks: seq<ChunkInput>, x: Index, r: BuildResult)
    requires Agree(now, x) && HyperedgesOf(lower, x, AllHyperedges(chunks, |chunks|), r.hyperedges)
    requires r.entities == x.byId && r.links == x.links
    ensures Closed(r)
  {
    hide AllHyperedges, ValidGraph, NamesAgree, LinksStored, Members, SameHyperedge;
  }
}
