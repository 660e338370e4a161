/** The graph builder as it runs, pass by pass over the chunks. */
module GraphBuild {
  import opened Options
  import opened Records
  import opened Provenance
  import opened GraphStore
  import opened GraphTable
  import opened EntityMerging
  import opened GraphExtraction
  import opened GraphBuilding
  import opened GraphOps
  import opened GraphReplay
  import opened GraphPasses
  import opened GraphRebuild
  import Text

  class GraphBuilder {
    const repository: InMemoryGraphRepository
    const extractor: LLMEntityExtractor
    const merger: EntityMerger
    const lower: Lower
    const show: Show

    constructor (repository: InMemoryGraphRepository, extractor: LLMEntityExtractor)
      requires repository.lower == extractor.lower
      ensures this.repository == repository && this.extractor == extractor
      ensures Wired() && fresh(merger)
    {
      this.repository, this.extractor := repository, extractor;
      lower, show := repository.lower, extractor.show;
      merger := new EntityMerger(repository.lower);
    }

    ghost predicate Wired() {
      repository.lower == lower && extractor.lower == lower && merger.lower == lower && extractor.show == show
    }

    lemma CacheIsSound()
      requires Wired() && extractor.Valid()
      ensures SoundCache(lower, extractor.cache)
    {
      hide SoundCache;
    }

    ghost function Now(): Graph
      reads repository
    {
      repository.State()
    }

    method PutEntity(c: Candidate, x: Index, named: bool) returns (e: Entity, y: Index)
      requires Wired() && Agree(Now(), x) && Scalar(c.provenance)
      modifies repository
      ensures Now() == UpsertEntity(old(Now()), lower, c)
      ensures Does(lower, old(Now()), Now(), x, y, [GraphOps.PutEntity(c, named)])
      ensures Agree(Now(), y) && Grows(x, y)
      ensures y.byNorm.Keys == x.byNorm.Keys + if named then {Normalize(lower, c.name)} else {}
      ensures KeyOf(lower, c) in y.byName && y.byName[KeyOf(lower, c)] == e
    {
      EntityAdded(Now(), lower, c, x, named);
      assert KeyOf(lower, c).0 == Normalize(lower, c.name);
      DoesEntity(lower, Now(), x, c, UpsertEntity(Now(), lower, c).entities[KeyOf(lower, c)], named);
      hide Agree, Grows, KeyOf, UpsertEntity, Normalize, Does, Scalar;
      e := repository.AddEntity(c);
      y := x.(byName := x.byName[(e.normalizedName, e.entityType) := e],
              byNorm := if named then x.byNorm[e.normalizedName := e] else x.byNorm,
              byId := x.byId[e.id := e]);
      assert y == WithEntity(x, e, named);
    }

    method PutLink(source: Id, target: Id, c: LinkCandidate, x: Index) returns (y: Index)
      requires Wired() && Agree(Now(), x) && source in x.byId && target in x.byId && Scalar(c.provenance)
      modifies repository
      ensures Now() == UpsertLink(old(Now()), source, target, c)
      ensures Does(lower, old(Now()), Now(), x, y,
                   [GraphOps.PutLink(EntityKey(x.byId[source]), EntityKey(x.byId[target]), c)])
      ensures Agree(Now(), y) && Grows(x, y) && y.byNorm == x.byNorm && y.byName == x.byName
      ensures Linked(y, x.byId[source].normalizedName, x.byId[target].normalizedName, c.linkType, c.confidence)
      ensures Joins(y, source, target, c.linkType, c.confidence)
    {
      LinkAdded(Now(), x, source, target, c);
      DoesLink(lower, Now(), x, source, target, c,
               UpsertLink(Now(), source, target, c).links[(source, target, c.linkType)]);
      hide Agree, Grows, UpsertLink, Linked, Joins, Does, EntityKey, Scalar;
      var l := repository.AddLink(source, target, c);
      y := x.(links := x.links[l.id := l]);
      assert y == WithLink(x, l);
    }

    /** One candidate of a chunk. */
    method PutCandidate(c: Candidate, ghost g: Graph, ghost x: Index, z: Index, ghost cs: seq<Candidate>,
                        ghost done: seq<Candidate>) returns (y: Index)
      requires Wired() && Put(lower, g, Now(), x, z, cs, done) && Scalar(c.provenance)
      modifies repository
      ensures Put(lower, g, Now(), x, y, cs, done + [c])
    {
      hide *;
      ghost var before := Now();
      PutParts(lower, g, before, x, z, cs, done);
      var e;
      e, y := PutEntity(c, z, true);
      PutOneMore(lower, g, before, x, z, cs, done, c, y);
    }

    /** The entities of one chunk. */
    method AddChunkEntities(merged: seq<Candidate>, x: Index, ghost cs: seq<Candidate>) returns (y: Index)
      requires Wired() && Agree(Now(), x) && Describes(cs, lower, Now().entities) && ScalarCandidates(merged)
      modifies repository
      ensures Put(lower, old(Now()), Now(), x, y, cs, merged)
    {
      hide *;
      y := x;
      ghost var g := Now();
      PutNothing(lower, g, x, cs);
      assert merged[..0] == [];
      for i := 0 to |merged|
        invariant Put(lower, g, Now(), x, y, cs, merged[..i])
      {
        ScalarAt(merged, i);
        assert merged[..i + 1] == merged[..i] + [merged[i]];
        y := PutCandidate(merged[i], g, x, y, cs, merged[..i]);
      }
      assert merged[..|merged|] == merged;
    }

    /** One relationship of a chunk; it is skipped when an end is unknown. */
    method PutResolved(l: LinkCandidate, x: Index) returns (y: Index)
      requires Wired() && Agree(Now(), x) && Scalar(l.provenance)
      modifies repository
      ensures LinksPut(lower, old(Now()), Now(), x, y, [l])
    {
      hide *;
      var source := Resolve(x, Normalize(lower, l.source));
      var target := Resolve(x, Normalize(lower, l.target));
      ghost var g := Now();
      if source == None || target == None {
        LinkSkipped(lower, g, x, l);
        return x;
      }
      ResolvedIsNamed(g, x, Normalize(lower, l.source));
      ResolvedIsNamed(g, x, Normalize(lower, l.target));
      ResolvedLinkOp(lower, g, x, l);
      y := PutLink(source.value.id, target.value.id, l, x);
      LinkPut(lower, g, Now(), source.value.id, target.value.id, x, y, l);
    }

    /** The relationships of one chunk. */
    method AddChunkLinks(links: seq<LinkCandidate>, x: Index) returns (y: Index)
      requires Wired() && Agree(Now(), x) && ScalarLinks(links)
      modifies repository
      ensures LinksPut(lower, old(Now()), Now(), x, y, links)
    {
      hide *;
      y := x;
      ghost var g := Now();
      NoLinksPut(lower, g, x);
      assert links[..0] == [];
      for i := 0 to |links|
        invariant LinksPut(lower, g, Now(), x, y, links[..i])
      {
        ghost var z, before := y, Now();
        LinksPutAgree(lower, g, before, x, z, links[..i]);
        ScalarLinkAt(links, i);
        y := PutResolved(links[i], y);
        assert links[..i + 1] == links[..i] + [links[i]];
        OneLinkMorePut(lower, g, before, Now(), x, z, y, links[..i], links[i]);
      }
      assert links[..|links|] == links;
    }

    /** The first pass for one chunk. */
    method AddChunk(chunk: ChunkInput, x: Index, ghost run: Run, ghost chunks: seq<ChunkInput>) returns (y: Index)
      requires Wired() && extractor.Valid() && run.show == show && run.least == extractor.minConfidence
      requires Stands(lower, run, Now(), extractor.cache, x, chunks)
      modifies repository, extractor
      ensures extractor.Valid() && Stands(lower, run, Now(), extractor.cache, y, chunks + [chunk])
    {
      hide Passed, SoundExtraction, Merged, ScalarCandidates, Put, LinksPut, Stands, Answer, CacheAfter, Extractions;
      hide ScalarLinks, SoundCache, Does, Agree, Describes;
      ghost var before, cache := Now(), extractor.cache;
      ghost var xs := Extractions(lower, run.show, run.least, run.cache, chunks);
      StandsParts(lower, run, before, cache, x, chunks);
      var e := extractor.GetOrExtract(chunk);
      var merged := merger.Merge(e.entities);
      MergedScalar(lower, e);
      ExtractedLinksAreScalar(lower, e);
      y := AddChunkEntities(merged, x, run.cs + AllMerged(lower, xs));
      ghost var middle, z := Now(), y;
      PutAgree(lower, before, middle, x, z, run.cs + AllMerged(lower, xs), merged);
      y := AddChunkLinks(e.links, y);
      OneChunkMore(lower, run.g, before, middle, Now(), x, z, y, run.cs, xs, e);
      StandsOneMore(lower, run, Now(), cache, extractor.cache, y, chunks, chunk, e);
    }

    /** Entities and relationships, chunk by chunk. */
    method FirstPass(chunks: seq<ChunkInput>, ghost cs: seq<Candidate>) returns (x: Index)
      requires Wired() && extractor.Valid() && ValidGraph(Now()) && Describes(cs, lower, Now().entities)
      modifies repository, extractor
      ensures extractor.Valid()
      ensures Stands(lower, Run(old(Now()), show, extractor.minConfidence, old(extractor.cache), cs), Now(),
                     extractor.cache, x, chunks)
    {
      hide *;
      x := EMPTY_INDEX;
      ghost var run := Run(Now(), show, extractor.minConfidence, extractor.cache, cs);
      StandsAtFirst(lower, run);
      for i := 0 to |chunks|
        invariant extractor.Valid() && Wired()
        invariant Stands(lower, run, Now(), extractor.cache, x, chunks[..i])
      {
        x := AddChunk(chunks[i], x, run, chunks[..i]);
        assert chunks[..i + 1] == chunks[..i] + [chunks[i]];
      }
      assert chunks[..|chunks|] == chunks;
    }

    // -------------------------------------------------------------- links between documents

    /** The DOCUMENT entity of a name, created if this build has not seen it. */
    method Document(name: string, l: LinkCandidate, x: Index) returns (e: Entity, y: Index)
      requires Wired() && Agree(Now(), x) && Scalar(l.provenance)
      modifies repository
      ensures Linking(lower, Now(), x, y, []) && e.id in y.byId && EntityKey(y.byId[e.id]) == DocumentKey(lower, name)
      ensures Does(lower, old(Now()), Now(), x, y, DocumentOps(lower, KeysOf(x), name, l))
    {
      hide Agree, Linking, Does, Normalize, EntityKey, Scalar, Grows;
      var key := (Normalize(lower, name), "DOCUMENT");
      if key in x.byName {
        e, y := x.byName[key], x;
        DocumentKnown(lower, Now(), x, key);
        DoesNothing(lower, Now(), x);
      } else {
        var c := Candidate(name, "DOCUMENT", l.confidence, l.provenance);
        e, y := PutEntity(c, x, false);
        DocumentPut(lower, Now(), x, y, c, e);
      }
    }

    method LinkDocuments(l: LinkCandidate, x: Index) returns (y: Index)
      requires Wired() && Agree(Now(), x) && Scalar(l.provenance)
      modifies repository
      ensures Linking(lower, Now(), x, y, [l])
      ensures Does(lower, old(Now()), Now(), x, y, PairOps(lower, KeysOf(x), l))
    {
      hide *;
      ghost var f := Now();
      var source, target;
      source, y := Document(l.source, l, x);
      ghost var v, g := y, Now();
      LinkingAgrees(lower, g, x, v, []);
      target, y := Document(l.target, l, y);
      ghost var z, h := y, Now();
      LinkingAgrees(lower, h, v, z, []);
      NameStays(lower, h, v, z, source.id);
      y := PutLink(source.id, target.id, l, y);
      DocumentsLinked(lower, g, h, Now(), x, v, z, y, source.id, target.id, l);
      PairDone(lower, f, g, h, Now(), x, v, z, y, l);
    }

    method LinkAll(links: seq<LinkCandidate>, x: Index) returns (y: Index)
      requires Wired() && Agree(Now(), x) && ScalarLinks(links)
      modifies repository
      ensures Linking(lower, Now(), x, y, links)
      ensures Does(lower, old(Now()), Now(), x, y, PairsOps(lower, KeysOf(x), links))
    {
      hide *;
      y := x;
      ghost var g := Now();
      LinkingNothing(lower, g, x);
      NoPairs(lower, g, x);
      for i := 0 to |links|
        invariant Linking(lower, Now(), x, y, links[..i])
        invariant Does(lower, g, Now(), x, y, PairsOps(lower, KeysOf(x), links[..i]))
      {
        ghost var z, before := y, Now();
        LinkingAgrees(lower, before, x, z, links[..i]);
        ScalarLinkAt(links, i);
        y := LinkDocuments(links[i], y);
        assert links[..i + 1] == links[..i] + [links[i]];
        LinkingMore(lower, before, Now(), x, z, y, links[..i], [links[i]]);
        OnePair(lower, KeysOf(z), links[i]);
        PairsDone(lower, g, before, Now(), x, z, y, links[..i], [links[i]]);
      }
      assert links[..|links|] == links;
    }

    /** `extract_wikilink_links`. */
    method ExtractWikilinks(chunk: ChunkInput) returns (links: seq<LinkCandidate>)
      ensures links == WikilinkLinks(show, chunk, |chunk.wikilinks|)
    {
      hide Text.Strip;
      var title := if chunk.title.Some? && chunk.title.value != "" then chunk.title.value else show(chunk.documentId);
      var p := map["chunk_id" := One(show(chunk.chunkId)), "document_id" := One(show(chunk.documentId))];
      links := [];
      for i := 0 to |chunk.wikilinks|
        invariant links == WikilinkLinks(show, chunk, i)
      {
        var target := Text.Strip(chunk.wikilinks[i]);
        if target != "" {
          links := links + [LinkCandidate("DOC:" + title, "DOC:" + target, "LINKS_TO", chunk.confidence, p)];
        }
      }
    }

    /** The links of each chunk. */
    method SecondPass(chunks: seq<ChunkInput>, x: Index) returns (y: Index)
      requires Wired() && Agree(Now(), x)
      modifies repository
      ensures Linking(lower, Now(), x, y, AllWikilinkLinks(show, chunks, |chunks|))
      ensures WikilinksComplete(lower, show, chunks, y)
      ensures Does(lower, old(Now()), Now(), x, y, PairsOps(lower, KeysOf(x), AllWikilinkLinks(show, chunks, |chunks|)))
    {
      hide Linking, Agree, WikilinkLinks, Does, PairsOps, KeysOf, ScalarLinks, WikilinksComplete;
      y := x;
      ghost var g := Now();
      LinkingNothing(lower, g, x);
      NoPairs(lower, g, x);
      for i := 0 to |chunks|
        invariant Linking(lower, Now(), x, y, AllWikilinkLinks(show, chunks, i))
        invariant Does(lower, g, Now(), x, y, PairsOps(lower, KeysOf(x), AllWikilinkLinks(show, chunks, i)))
      {
        ghost var z, before := y, Now();
        LinkingAgrees(lower, before, x, z, AllWikilinkLinks(show, chunks, i));
        var links := ExtractWikilinks(chunks[i]);
        WikilinksAreScalar(show, chunks[i], |chunks[i].wikilinks|);
        y := LinkAll(links, y);
        LinkingMore(lower, before, Now(), x, z, y, AllWikilinkLinks(show, chunks, i), links);
        PairsDone(lower, g, before, Now(), x, z, y, AllWikilinkLinks(show, chunks, i), links);
      }
      WikilinksAreComplete(lower, show, Now(), chunks, x, y);
    }

    /** The wikilinks of each document, collected over its chunks. */
    method CollectWikilinks(chunks: seq<ChunkInput>) returns (documents: seq<Id>, wikilinks: map<Id, set<string>>)
      ensures Collected(chunks, documents, wikilinks)
    {
      documents, wikilinks := [], map[];
      for i := 0 to |chunks|
        invariant Collected(chunks[..i], documents, wikilinks)
      {
        CollectedOneMore(chunks[..i], chunks[i], documents, wikilinks);
        assert chunks[..i + 1] == chunks[..i] + [chunks[i]];
        hide Collected;
        var d := chunks[i].documentId;
        if d !in wikilinks {
          documents := documents + [d];
          wikilinks := wikilinks[d := {}];
        }
        wikilinks := wikilinks[d := wikilinks[d] + set w | w in chunks[i].wikilinks];
      }
      assert chunks[..|chunks|] == chunks;
    }

    /** The links of one document, by way of its first chunk. */
    method PageLinks(chunk: ChunkInput, wikilinks: set<string>) returns (links: seq<LinkCandidate>)
      ensures forall l :: l in links <==> exists w :: w in wikilinks && w != "" && l == PageLink(show, chunk, w)
    {
      hide PageLink, Text.Strip;
      var title := if chunk.title.Some? then chunk.title.value else show(chunk.documentId);
      var p := map["chunk_id" := One(show(chunk.chunkId)), "document_id" := One(show(chunk.documentId))];
      links := [];
      var left := wikilinks;
      while left != {}
        invariant left <= wikilinks
        invariant forall l :: l in links <==>
                                exists w :: w in wikilinks && w !in left && w != "" && l == PageLink(show, chunk, w)
        decreases |left|
      {
        var w :| w in left;
        if w != "" {
          PageLinkIs(show, chunk, w);
          links := links + [LinkCandidate("DOC:" + title, "DOC:" + Text.Strip(w), "LINKS_TO", 1.0, p)];
        }
        left := left - {w};
      }
    }

    /** The links of each document as a whole; `groups` are the links in the order made. */
    method ThirdPass(chunks: seq<ChunkInput>, x: Index) returns (y: Index, ghost groups: seq<seq<LinkCandidate>>)
      requires Wired() && Agree(Now(), x)
      modifies repository
      ensures Linking(lower, Now(), x, y, []) && PagesComplete(lower, show, chunks, y)
      ensures Arranged(show, chunks, groups) && |groups| == |DocumentsOf(chunks)|
      ensures Does(lower, old(Now()), Now(), x, y, PairsOps(lower, KeysOf(x), ConcatLinks(groups)))
    {
      hide *;
      var documents, wikilinks := CollectWikilinks(chunks);
      y, groups := x, [];
      ghost var g := Now();
      LinkingNothing(lower, g, x);
      NoPairs(lower, g, x);
      NoGroups(show, chunks);
      CollectedDocuments(chunks, documents, wikilinks);
      for i := 0 to |documents|
        invariant |groups| == i && Arranged(show, chunks, groups)
        invariant Linking(lower, Now(), x, y, ConcatLinks(groups))
        invariant Does(lower, g, Now(), x, y, PairsOps(lower, KeysOf(x), ConcatLinks(groups)))
      {
        ghost var z, before := y, Now();
        LinkingAgrees(lower, before, x, z, ConcatLinks(groups));
        CollectedHas(chunks, documents, wikilinks, i);
        var links := PageLinks(chunks[FirstOf(chunks, documents[i])], wikilinks[documents[i]]);
        PagesAre(show, chunks, documents[i], wikilinks[documents[i]], links);
        y := LinkAll(links, y);
        LinkingMore(lower, before, Now(), x, z, y, ConcatLinks(groups), links);
        PairsDone(lower, g, before, Now(), x, z, y, ConcatLinks(groups), links);
        OneGroupMore(show, chunks, groups, links);
        groups := groups + [links];
      }
      LinkingParts(lower, Now(), x, y, ConcatLinks(groups));
      AllPagesLinked(show, chunks, groups);
      PagesAreComplete(lower, show, chunks, y, ConcatLinks(groups));
    }

    // -------------------------------------------------------------- hyperedges

    /** The known members of a hyperedge. */
    method Resolved(names: seq<string>, x: Index) returns (members: seq<Id>)
      ensures members == Members(lower, x, names)
    {
      hide Normalize;
      members := [];
      for i := 0 to |names|
        invariant members == Members(lower, x, names[..i])
      {
        assert names[..i + 1][..i] == names[..i];
        var n := Normalize(lower, names[i]);
        if n in x.byNorm {
          members := members + [x.byNorm[n].id];
        }
      }
      assert names[..|names|] == names;
    }

    method AddHyperedges(candidates: seq<HyperedgeCandidate>, x: Index) returns (found: seq<Hyperedge>)
      requires Wired() && Agree(Now(), x)
      modifies repository
      ensures Agree(Now(), x) && HyperedgesOf(lower, x, candidates, found)
      ensures Does(lower, old(Now()), Now(), x, x, HyperedgeOps(lower, KeysOf(x), candidates))
    {
      hide Agree, HyperedgesOf, Members, Does, HyperedgeOps, KeysOf, UpsertHyperedge, Distinct;
      found := [];
      ghost var g := Now();
      NoHyperedges(lower, x);
      NoHyperedgeOps(lower, g, x);
      for i := 0 to |candidates|
        invariant Agree(Now(), x) && HyperedgesOf(lower, x, candidates[..i], found)
        invariant Does(lower, g, Now(), x, x, HyperedgeOps(lower, KeysOf(x), candidates[..i]))
      {
        var c := candidates[i];
        ghost var before := Now();
        var members := Resolved(c.names, x);
        assert candidates[..i + 1] == candidates[..i] + [c];
        HyperedgeDone(lower, before, x, c);
        if |Distinct(members)| < 2 {
          HyperedgeSkipped(lower, x, candidates[..i], c, found);
        } else {
          AgreeWithHyperedge(before, x, members, c);
          var h := repository.AddHyperedge(members, c);
          OneHyperedgeMore(lower, Now(), x, candidates[..i], c, found, h);
          found := found + [h];
        }
        HyperedgesDone(lower, g, before, Now(), x, candidates[..i], [c]);
      }
      assert candidates[..|candidates|] == candidates;
    }

    method HyperedgePass(chunks: seq<ChunkInput>, x: Index) returns (found: seq<Hyperedge>)
      requires Wired() && Agree(Now(), x)
      modifies repository
      ensures Agree(Now(), x) && HyperedgesOf(lower, x, AllHyperedges(chunks, |chunks|), found)
      ensures Does(lower, old(Now()), Now(), x, x, HyperedgeOps(lower, KeysOf(x), AllHyperedges(chunks, |chunks|)))
    {
      hide Agree, HyperedgesOf, Does, HyperedgeOps, KeysOf;
      found := [];
      ghost var g := Now();
      NoHyperedges(lower, x);
      NoHyperedgeOps(lower, g, x);
      for i := 0 to |chunks|
        invariant Agree(Now(), x) && HyperedgesOf(lower, x, AllHyperedges(chunks, i), found)
        invariant Does(lower, g, Now(), x, x, HyperedgeOps(lower, KeysOf(x), AllHyperedges(chunks, i)))
      {
        ghost var before := Now();
        var more := AddHyperedges(chunks[i].hyperedges, x);
        HyperedgesOfBoth(lower, x, AllHyperedges(chunks, i), chunks[i].hyperedges, found, more);
        HyperedgesDone(lower, g, before, Now(), x, AllHyperedges(chunks, i), chunks[i].hyperedges);
        found := found + more;
      }
    }

    /** `build_from_chunks`. What is returned is closed, and complete in everything the chunks
        said; what is stored comes from the upserts that the chunks tell. */
    method BuildFromChunks(chunks: seq<ChunkInput>, ghost cs: seq<Candidate>)
      returns (r: BuildResult, ghost x: Index, ghost groups: seq<seq<LinkCandidate>>)
      requires Wired() && extractor.Valid() && ValidGraph(Now()) && Describes(cs, lower, Now().entities)
      modifies repository, extractor
      ensures extractor.Valid() && ValidGraph(Now())
      ensures var run := Run(old(Now()), show, extractor.minConfidence, old(extractor.cache), cs);
              && extractor.cache == CacheAfter(lower, show, run.least, run.cache, chunks)
              && Complete(lower, run, chunks, x) && Built(lower, run, Now(), chunks, groups)
      ensures r.entities == x.byId && r.links == x.links && Closed(r)
      ensures HyperedgesOf(lower, x, AllHyperedges(chunks, |chunks|), r.hyperedges)
      ensures Describes(cs + BuildPuts(lower, Run(old(Now()), show, extractor.minConfidence, old(extractor.cache), cs),
                                       chunks, groups), lower, Now().entities)
    {
      hide *;
      ghost var run := Run(Now(), show, extractor.minConfidence, extractor.cache, cs);
      assert SoundCache(lower, extractor.cache) by { CacheIsSound(); }
      var y := FirstPass(chunks, cs);
      ghost var first, g := y, Now();
      StandsParts(lower, run, g, extractor.cache, first, chunks);
      y := SecondPass(chunks, y);
      ghost var second, h := y, Now();
      LinkingAgrees(lower, h, first, second, AllWikilinkLinks(show, chunks, |chunks|));
      y, groups := ThirdPass(chunks, y);
      ghost var third, k := y, Now();
      LinkingAgrees(lower, k, second, third, []);
      BuildIsComplete(lower, run, g, h, k, chunks, first, second, third);
      var hyperedges := HyperedgePass(chunks, y);
      r := BuildResult(y.byId, y.links, hyperedges);
      x := y;
      AgreeIsValid(Now(), x);
      BuildIsClosed(lower, Now(), chunks, x, r);
      BuildIs(lower, run, g, h, k, Now(), chunks, groups, first, second, third);
      BuiltTable(lower, run, Now(), chunks, groups);
    }

    /** Two builds of the same chunks, one after the other, store what one build stores. */
    method BuildTwice(chunks: seq<ChunkInput>, ghost cs: seq<Candidate>)
      returns (first: BuildResult, second: BuildResult, ghost groups: seq<seq<LinkCandidate>>)
      requires Wired() && extractor.Valid() && ValidGraph(Now()) && Describes(cs, lower, Now().entities)
      modifies repository, extractor
      ensures var run := Run(old(Now()), show, extractor.minConfidence, old(extractor.cache), cs);
              Built(lower, run, Now(), chunks, groups)
    {
      hide *;
      ghost var run := Run(Now(), show, extractor.minConfidence, extractor.cache, cs);
      ghost var x;
      first, x, groups := BuildFromChunks(chunks, cs);
      ghost var puts := cs + BuildPuts(lower, run, chunks, groups);
      ghost var again := Run(Now(), show, extractor.minConfidence, extractor.cache, puts);
      ghost var more;
      second, x, more := BuildFromChunks(chunks, puts);
      RebuildChangesNothing(lower, run, again, again.g, Now(), chunks, groups, more);
    }
  }
}
