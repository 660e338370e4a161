/** What a whole build does to the stored graph: the order of the chunks does not matter to what
    they say of entities, and building the same chunks again changes nothing. */
module GraphRebuild {
  import opened Records
  import opened Provenance
  import opened GraphStore
  import opened GraphTable
  import opened GraphOps
  import opened EntityMerging
  import opened GraphExtraction
  import opened GraphBuilding
  import opened GraphReplay
  import opened GraphPasses
  import Text

  /** The upserts of a build, pass by pass; `groups` are the page links as arranged. */
  ghost function BuildOps(lower: Lower, run: Run, chunks: seq<ChunkInput>, groups: seq<seq<LinkCandidate>>): seq<Op> {
    var first := FirstOps(lower, Extractions(lower, run.show, run.least, run.cache, chunks));
    var second := PairsOps(lower, NamesAfter(NO_NAMES, lower, first), AllWikilinkLinks(run.show, chunks, |chunks|));
    var third := PairsOps(lower, NamesAfter(NO_NAMES, lower, first + second), ConcatLinks(groups));
    first + second + third
    + HyperedgeOps(lower, NamesAfter(NO_NAMES, lower, first + second + third), AllHyperedges(chunks, |chunks|))
  }

  /** The candidates that a build upserts. */
  ghost function BuildPuts(lower: Lower, run: Run, chunks: seq<ChunkInput>, groups: seq<seq<LinkCandidate>>)
    : seq<Candidate>
  {
    Puts(BuildOps(lower, run, chunks, groups))
  }

  /** The stored graph after a build comes from the one before by these upserts. */
  ghost predicate Built(lower: Lower, run: Run, now: Graph, chunks: seq<ChunkInput>, groups: seq<seq<LinkCandidate>>) {
    && Arranged(run.show, chunks, groups) && |groups| == |DocumentsOf(chunks)|
    && now == ExecAll(run.g, lower, BuildOps(lower, run, chunks, groups))
    && AllReady(run.g, lower, BuildOps(lower, run, chunks, groups))
  }

  lemma BuildIs(lower: Lower, run: Run, g: Graph, h: Graph, k: Graph, now: Graph, chunks: seq<ChunkInput>,
                groups: seq<seq<LinkCandidate>>, x: Index, z: Index, y: Index)
    requires Arranged(run.show, chunks, groups) && |groups| == |DocumentsOf(chunks)|
    requires Does(lower, run.g, g, EMPTY_INDEX, x,
                  FirstOps(lower, Extractions(lower, run.show, run.least, run.cache, chunks)))
    requires Does(lower, g, h, x, z, PairsOps(lower, KeysOf(x), AllWikilinkLinks(run.show, chunks, |chunks|)))
    requires Does(lower, h, k, z, y, PairsOps(lower, KeysOf(z), ConcatLinks(groups)))
    requires Does(lower, k, now, y, y, HyperedgeOps(lower, KeysOf(y), AllHyperedges(chunks, |chunks|)))
    ensures Built(lower, run, now, chunks, groups)
  {
    hide FirstOps, PairsOps, HyperedgeOps, ConcatLinks, Arranged, AllWikilinkLinks, AllHyperedges, Extractions;
    assert KeysOf(EMPTY_INDEX) == NO_NAMES;
    hide KeysOf;
    var first := FirstOps(lower, Extractions(lower, run.show, run.least, run.cache, chunks));
    var second := PairsOps(lower, KeysOf(x), AllWikilinkLinks(run.show, chunks, |chunks|));
    var third := PairsOps(lower, KeysOf(z), ConcatLinks(groups));
    var last := HyperedgeOps(lower, KeysOf(y), AllHyperedges(chunks, |chunks|));
    DoesFurther(lower, run.g, g, h, EMPTY_INDEX, x, z, first, second);
    DoesFurther(lower, run.g, h, k, EMPTY_INDEX, z, y, first + second, third);
    DoesFurther(lower, run.g, k, now, EMPTY_INDEX, y, y, first + second + third, last);
    hide ExecAll, AllReady, NamesAfter;
    assert first + second + third + last == BuildOps(lower, run, chunks, groups);
  }

  /** The entity table describes what was in it and what the build upserted. */
  lemma BuiltTable(lower: Lower, run: Run, now: Graph, chunks: seq<ChunkInput>, groups: seq<seq<LinkCandidate>>)
    requires Built(lower, run, now, chunks, groups) && Describes(run.cs, lower, run.g.entities)
    ensures Describes(run.cs + BuildPuts(lower, run, chunks, groups), lower, now.entities)
  {
    hide BuildOps, Describes, ExecAll, AllReady, Arranged;
    TableAfter(run.g, lower, run.cs, BuildOps(lower, run, chunks, groups));
  }

  // ---------------------------------------------------------------- page links in another order

  ghost function EndsOf(lower: Lower, l: LinkCandidate): set<Key> {
    {DocumentKey(lower, l.source), DocumentKey(lower, l.target)}
  }

  ghost function EndKeys(lower: Lower, links: seq<LinkCandidate>): set<Key> {
    set l, k | l in links && k in EndsOf(lower, l) :: k
  }

  lemma EndKeysOneMore(lower: Lower, links: seq<LinkCandidate>, l: LinkCandidate)
    ensures EndKeys(lower, links + [l]) == EndKeys(lower, links) + EndsOf(lower, l)
  {
    hide DocumentKey;
  }

  lemma PairNames(lower: Lower, s: KeyNames, l: LinkCandidate)
    ensures NamesAfter(s, lower, PairOps(lower, s, l)) == KeyNames(s.seen + EndsOf(lower, l), s.last)
  {
    hide Normalize;
    var first := DocumentOps(lower, s, l.source, l);
    DocumentNames(lower, s, l.source, l);
    var t := NamesAfter(s, lower, first);
    DocumentNames(lower, t, l.target, l);
    var second := DocumentOps(lower, t, l.target, l);
    var link := PutLink(DocumentKey(lower, l.source), DocumentKey(lower, l.target), l);
    NamesFurther(s, lower, first, second);
    hide DocumentOps, DocumentKey;
    assert (first + second + [link])[..|first + second|] == first + second;
  }

  lemma DocumentNames(lower: Lower, s: KeyNames, name: string, l: LinkCandidate)
    ensures NamesAfter(s, lower, DocumentOps(lower, s, name, l))
            == KeyNames(s.seen + {DocumentKey(lower, name)}, s.last)
  {
    hide Normalize;
    var ops := DocumentOps(lower, s, name, l);
    if ops == [] {
      assert s.seen + {DocumentKey(lower, name)} == s.seen;
    } else {
      assert ops[..0] == [] && NamesAfter(s, lower, ops[..0]) == s;
    }
  }

  lemma {:induction false} PairsNames(lower: Lower, s: KeyNames, links: seq<LinkCandidate>)
    ensures NamesAfter(s, lower, PairsOps(lower, s, links)) == KeyNames(s.seen + EndKeys(lower, links), s.last)
  {
    hide PairOps, EndsOf, EndKeys;
    if links == [] {
      assert EndKeys(lower, links) == {} by { NoEndKeys(lower); }
      assert s.seen + {} == s.seen;
    } else {
      var init, l := links[..|links| - 1], links[|links| - 1];
      PairsNames(lower, s, init);
      var before := PairsOps(lower, s, init);
      var t := NamesAfter(s, lower, before);
      PairNames(lower, t, l);
      NamesFurther(s, lower, before, PairOps(lower, t, l));
      EndKeysOneMore(lower, init, l);
      assert links == init + [l];
      assert t.seen + EndsOf(lower, l) == s.seen + EndKeys(lower, links);
    }
  }

  lemma NoEndKeys(lower: Lower)
    ensures EndKeys(lower, []) == {}
  {
  }

  /** An operation that links of this confidence and provenance may give. */
  ghost predicate PairOp(lower: Lower, s: KeyNames, links: seq<LinkCandidate>, confidence: real, p: Provenance,
                         op: Op) {
    || (exists l :: l in links && op == PutLink(DocumentKey(lower, l.source), DocumentKey(lower, l.target), l))
    || (op.PutEntity? && !op.named && op.c.confidence == confidence && op.c.provenance == p
        && KeyOf(lower, op.c) in EndKeys(lower, links) && KeyOf(lower, op.c) !in s.seen)
  }

  lemma OnePairOp(lower: Lower, s: KeyNames, l: LinkCandidate, op: Op)
    requires op in PairOps(lower, s, l)
    ensures PairOp(lower, s, [l], l.confidence, l.provenance, op)
  {
    hide Normalize;
    DocumentNames(lower, s, l.source, l);
    hide NamesAfter;
    assert l in [l];
    assert EndKeys(lower, [l]) == EndsOf(lower, l);
  }

  lemma PairOpStays(lower: Lower, s: KeyNames, t: KeyNames, links: seq<LinkCandidate>, more: seq<LinkCandidate>,
                    confidence: real, p: Provenance, op: Op)
    requires PairOp(lower, t, links, confidence, p, op) && s.seen <= t.seen
    requires forall l | l in links :: l in more
    ensures PairOp(lower, s, more, confidence, p, op)
  {
    hide KeyOf, DocumentKey;
  }

  lemma {:induction false} PairOpsAre(lower: Lower, s: KeyNames, links: seq<LinkCandidate>, confidence: real,
                                      p: Provenance, op: Op)
    requires forall l | l in links :: l.confidence == confidence && l.provenance == p
    requires op in PairsOps(lower, s, links)
    ensures PairOp(lower, s, links, confidence, p, op)
  {
    hide PairOps, PairOp, EndKeys, NamesAfter;
    var init, l := links[..|links| - 1], links[|links| - 1];
    var before := PairsOps(lower, s, init);
    PairsNames(lower, s, init);
    if op in before {
      PairOpsAre(lower, s, init, confidence, p, op);
      PairOpStays(lower, s, s, init, links, confidence, p, op);
    } else {
      assert op in PairOps(lower, NamesAfter(s, lower, before), l);
      OnePairOp(lower, NamesAfter(s, lower, before), l, op);
      assert l in links;
      PairOpStays(lower, s, NamesAfter(s, lower, before), [l], links, confidence, p, op);
    }
  }

  /** The operations that put this key. */
  ghost predicate PutsKey(lower: Lower, ops: seq<Op>, k: Key) {
    exists op :: op in ops && op.PutEntity? && KeyOf(lower, op.c) == k
  }

  lemma OnePairHas(lower: Lower, s: KeyNames, l: LinkCandidate, k: Key)
    requires k in EndsOf(lower, l) && k !in s.seen
    ensures PutsKey(lower, PairOps(lower, s, l), k)
    ensures PutLink(DocumentKey(lower, l.source), DocumentKey(lower, l.target), l) in PairOps(lower, s, l)
  {
    hide Normalize;
    var first := DocumentOps(lower, s, l.source, l);
    DocumentNames(lower, s, l.source, l);
    var second := DocumentOps(lower, NamesAfter(s, lower, first), l.target, l);
    hide NamesAfter;
    if k == DocumentKey(lower, l.source) {
      assert first[0] in PairOps(lower, s, l);
    } else {
      assert second[0] in PairOps(lower, s, l);
    }
  }

  lemma {:induction false} PairOpsHave(lower: Lower, s: KeyNames, links: seq<LinkCandidate>, k: Key)
    requires k in EndKeys(lower, links) && k !in s.seen
    ensures PutsKey(lower, PairsOps(lower, s, links), k)
  {
    hide PairOps, EndsOf, EndKeys, KeyOf, NamesAfter;
    if links == [] {
      NoEndKeys(lower);
    } else {
      var init, l := links[..|links| - 1], links[|links| - 1];
      var before := PairsOps(lower, s, init);
      PairsNames(lower, s, init);
      EndKeysOneMore(lower, init, l);
      assert links == init + [l];
      if k in EndKeys(lower, init) {
        PairOpsHave(lower, s, init, k);
      } else {
        OnePairHas(lower, NamesAfter(s, lower, before), l, k);
      }
    }
  }

  lemma {:induction false} PairLinksAre(lower: Lower, s: KeyNames, links: seq<LinkCandidate>, l: LinkCandidate)
    requires l in links
    ensures PutLink(DocumentKey(lower, l.source), DocumentKey(lower, l.target), l) in PairsOps(lower, s, links)
  {
    hide NamesAfter, DocumentKey, DocumentOps;
    var init := links[..|links| - 1];
    if l in init { PairLinksAre(lower, s, init, l); }
  }

  /** Links of one confidence and provenance, in any order, give operations alike. */
  lemma GroupRepeats(lower: Lower, s: KeyNames, links: seq<LinkCandidate>, again: seq<LinkCandidate>, confidence: real,
                     p: Provenance)
    requires forall l :: l in links <==> l in again
    requires forall l | l in links :: l.confidence == confidence && l.provenance == p
    ensures Repeats(lower, PairsOps(lower, s, links), PairsOps(lower, s, again))
    ensures NamesAfter(s, lower, PairsOps(lower, s, again)) == NamesAfter(s, lower, PairsOps(lower, s, links))
  {
    hide PairsOps, NamesAfter, KeyOf, DocumentKey;
    SameEndKeys(lower, links, again);
    PairsNames(lower, s, links);
    PairsNames(lower, s, again);
    var ops, more := PairsOps(lower, s, links), PairsOps(lower, s, again);
    forall i | 0 <= i < |more| ensures HasAlike(lower, ops, more[i]) {
      PairOpsAre(lower, s, again, confidence, p, more[i]);
      OpRepeats(lower, s, links, again, confidence, p, more[i]);
    }
  }

  lemma SameEndKeys(lower: Lower, links: seq<LinkCandidate>, again: seq<LinkCandidate>)
    requires forall l :: l in links <==> l in again
    ensures EndKeys(lower, links) == EndKeys(lower, again)
  {
    hide EndsOf;
  }

  lemma OpRepeats(lower: Lower, s: KeyNames, links: seq<LinkCandidate>, again: seq<LinkCandidate>, confidence: real,
                  p: Provenance, op: Op)
    requires (forall l :: l in links <==> l in again) && EndKeys(lower, links) == EndKeys(lower, again)
    requires forall l | l in links :: l.confidence == confidence && l.provenance == p
    requires PairOp(lower, s, again, confidence, p, op)
    ensures HasAlike(lower, PairsOps(lower, s, links), op)
  {
    hide PairsOps, KeyOf, DocumentKey, EndKeys;
    var ops := PairsOps(lower, s, links);
    if op.PutLink? {
      PairLinksAre(lower, s, links, op.l);
    } else {
      PairOpsHave(lower, s, links, KeyOf(lower, op.c));
      var o :| o in ops && o.PutEntity? && KeyOf(lower, o.c) == KeyOf(lower, op.c);
      PairOpsAre(lower, s, links, confidence, p, o);
      assert Alike(lower, o, op);
    }
  }

  lemma RepeatsBoth(lower: Lower, a: seq<Op>, b: seq<Op>, x: seq<Op>, y: seq<Op>)
    requires Repeats(lower, a, x) && Repeats(lower, b, y)
    ensures Repeats(lower, a + b, x + y)
  {
    hide Alike;
    forall i | 0 <= i < |x + y| ensures HasAlike(lower, a + b, (x + y)[i]) {
      if i < |x| {
        assert HasAlike(lower, a, x[i]);
        var j :| 0 <= j < |a| && Alike(lower, a[j], x[i]);
        assert (a + b)[j] == a[j];
      } else {
        assert HasAlike(lower, b, y[i - |x|]);
        var j :| 0 <= j < |b| && Alike(lower, b[j], y[i - |x|]);
        assert (a + b)[|a| + j] == b[j];
      }
    }
  }

  lemma RepeatsItself(lower: Lower, ops: seq<Op>)
    ensures Repeats(lower, ops, ops)
  {
    forall i | 0 <= i < |ops| ensures HasAlike(lower, ops, ops[i]) {
      assert Alike(lower, ops[i], ops[i]);
    }
  }

  lemma {:induction false} GroupsRepeat(lower: Lower, show: Show, s: KeyNames, chunks: seq<ChunkInput>,
                                        groups: seq<seq<LinkCandidate>>, more: seq<seq<LinkCandidate>>)
    requires Arranged(show, chunks, groups) && Arranged(show, chunks, more) && |groups| == |more|
    ensures var ops, again := PairsOps(lower, s, ConcatLinks(groups)), PairsOps(lower, s, ConcatLinks(more));
            Repeats(lower, ops, again) && NamesAfter(s, lower, again) == NamesAfter(s, lower, ops)
  {
    hide PairOps, NamesAfter, Repeats, PagesOf, DocumentsOf;
    if groups == [] {
      RepeatsItself(lower, []);
    } else {
      var n := |groups| - 1;
      GroupsRepeat(lower, show, s, chunks, groups[..n], more[..n]);
      var a, b := ConcatLinks(groups[..n]), ConcatLinks(more[..n]);
      PairsOfBoth(lower, s, a, groups[n]);
      PairsOfBoth(lower, s, b, more[n]);
      hide PairsOps;
      var t := NamesAfter(s, lower, PairsOps(lower, s, a));
      PagesAreUniform(show, chunks, DocumentsOf(chunks)[n], groups[n], more[n]);
      GroupRepeats(lower, t, groups[n], more[n], 1.0, PageProvenance(show, chunks, DocumentsOf(chunks)[n]));
      RepeatsBoth(lower, PairsOps(lower, s, a), PairsOps(lower, t, groups[n]), PairsOps(lower, s, b),
                  PairsOps(lower, t, more[n]));
      NamesFurther(s, lower, PairsOps(lower, s, a), PairsOps(lower, t, groups[n]));
      NamesFurther(s, lower, PairsOps(lower, s, b), PairsOps(lower, t, more[n]));
    }
  }

  ghost function PageProvenance(show: Show, chunks: seq<ChunkInput>, d: Id): Provenance {
    if exists c :: c in chunks && c.documentId == d then ChunkProvenance(show, chunks[FirstOf(chunks, d)]) else map[]
  }

  lemma PagesAreUniform(show: Show, chunks: seq<ChunkInput>, d: Id, links: seq<LinkCandidate>, more: seq<LinkCandidate>)
    requires PagesOf(show, chunks, d, links) && PagesOf(show, chunks, d, more)
    ensures forall l :: l in links <==> l in more
    ensures forall l | l in links :: l.confidence == 1.0 && l.provenance == PageProvenance(show, chunks, d)
  {
    hide FirstOf, WikilinksOf, ChunkProvenance;
  }

  // ---------------------------------------------------------------- building again

  /** An extractor that has seen the chunks says the same again. */
  lemma {:induction false} SameExtractions(lower: Lower, show: Show, least: real, cache: Cache, chunks: seq<ChunkInput>,
                                           again: Cache)
    requires forall c | c in CacheAfter(lower, show, least, cache, chunks) ::
               c in again && again[c] == CacheAfter(lower, show, least, cache, chunks)[c]
    ensures Extractions(lower, show, least, again, chunks) == Extractions(lower, show, least, cache, chunks)
    ensures CacheAfter(lower, show, least, again, chunks) == again
  {
    hide ExtractionOf;
    if chunks != [] {
      var init, chunk := chunks[..|chunks| - 1], chunks[|chunks| - 1];
      var before, after := CacheAfter(lower, show, least, cache, init), CacheAfter(lower, show, least, cache, chunks);
      assert after == before[chunk.chunkId := Answer(lower, show, least, before, chunk)];
      assert forall c | c in before :: c in after && after[c] == before[c];
      SameExtractions(lower, show, least, cache, init, again);
      assert chunk.chunkId in after;
      assert again[chunk.chunkId := again[chunk.chunkId]] == again;
    }
  }

  lemma OpsRepeat(lower: Lower, run: Run, again: Run, chunks: seq<ChunkInput>, groups: seq<seq<LinkCandidate>>,
                  more: seq<seq<LinkCandidate>>)
    requires again.show == run.show && again.least == run.least
    requires Extractions(lower, again.show, again.least, again.cache, chunks)
             == Extractions(lower, run.show, run.least, run.cache, chunks)
    requires Arranged(run.show, chunks, groups) && Arranged(run.show, chunks, more) && |groups| == |more|
    ensures Repeats(lower, BuildOps(lower, run, chunks, groups), BuildOps(lower, again, chunks, more))
  {
    hide FirstOps, PairsOps, HyperedgeOps, ConcatLinks, Arranged, AllWikilinkLinks, AllHyperedges, Extractions;
    hide NamesAfter, Repeats;
    var first := FirstOps(lower, Extractions(lower, run.show, run.least, run.cache, chunks));
    var second := PairsOps(lower, NamesAfter(NO_NAMES, lower, first), AllWikilinkLinks(run.show, chunks, |chunks|));
    var s := NamesAfter(NO_NAMES, lower, first + second);
    var third, other := PairsOps(lower, s, ConcatLinks(groups)), PairsOps(lower, s, ConcatLinks(more));
    GroupsRepeat(lower, run.show, s, chunks, groups, more);
    NamesFurther(NO_NAMES, lower, first + second, third);
    NamesFurther(NO_NAMES, lower, first + second, other);
    var last := HyperedgeOps(lower, NamesAfter(NO_NAMES, lower, first + second + third),
                             AllHyperedges(chunks, |chunks|));
    RepeatsItself(lower, first + second);
    RepeatsItself(lower, last);
    RepeatsBoth(lower, first + second, third, first + second, other);
    RepeatsBoth(lower, first + second + third, last, first + second + other, last);
  }

  /** Building the same chunks again changes nothing that is stored: no entity, no link and no
      hyperedge, whether the extractor remembers its answers or gives the same ones again, and
      in whatever order the sets of wikilinks are gone through. */
  lemma RebuildChangesNothing(lower: Lower, run: Run, again: Run, now: Graph, later: Graph, chunks: seq<ChunkInput>,
                              groups: seq<seq<LinkCandidate>>, more: seq<seq<LinkCandidate>>)
    requires Built(lower, run, now, chunks, groups) && Built(lower, again, later, chunks, more)
    requires again.g == now && again.show == run.show && again.least == run.least
    requires again.cache == CacheAfter(lower, run.show, run.least, run.cache, chunks) || again.cache == run.cache
    ensures later == now
  {
    hide BuildOps, Arranged, ExecAll, AllReady, Repeats, CacheAfter, Extractions;
    if again.cache != run.cache { SameExtractions(lower, run.show, run.least, run.cache, chunks, again.cache); }
    OpsRepeat(lower, run, again, chunks, groups, more);
    RepeatingChangesNothing(run.g, lower, BuildOps(lower, run, chunks, groups), BuildOps(lower, again, chunks, more));
  }

  // ---------------------------------------------------------------- the order of the chunks

  /** Chunks with the same id are the same chunk. */
  ghost predicate OneChunkPerId(chunks: seq<ChunkInput>) {
    forall i, j | 0 <= i < |chunks| && 0 <= j < |chunks| && chunks[i].chunkId == chunks[j].chunkId ::
      chunks[i] == chunks[j]
  }

  lemma {:induction false} CacheOfChunks(lower: Lower, show: Show, least: real, cache: Cache, chunks: seq<ChunkInput>,
                                         n: nat, i: nat)
    requires OneChunkPerId(chunks) && i < n <= |chunks|
    ensures var after := CacheAfter(lower, show, least, cache, chunks[..n]);
            chunks[i].chunkId in after && after[chunks[i].chunkId] == Answer(lower, show, least, cache, chunks[i])
  {
    hide ExtractionOf;
    assert chunks[..n][..n - 1] == chunks[..n - 1];
    if i < n - 1 {
      CacheOfChunks(lower, show, least, cache, chunks, n - 1, i);
    } else {
      CacheAfterHas(lower, show, least, cache, chunks[..n - 1], chunks[i].chunkId);
      if chunks[i].chunkId !in cache && chunks[i].chunkId in CacheAfter(lower, show, least, cache, chunks[..n - 1]) {
        var j :| 0 <= j < n - 1 && chunks[..n - 1][j].chunkId == chunks[i].chunkId;
        assert chunks[j] == chunks[i];
        CacheOfChunks(lower, show, least, cache, chunks, n - 1, j);
      }
    }
  }

  /** Each chunk's extraction is the answer about it, whatever was asked before. */
  lemma ExtractionsOfChunks(lower: Lower, show: Show, least: real, cache: Cache, chunks: seq<ChunkInput>, i: nat)
    requires OneChunkPerId(chunks) && i < |chunks|
    ensures Extractions(lower, show, least, cache, chunks)[i] == Answer(lower, show, least, cache, chunks[i])
  {
    hide Extractions, CacheAfter, ExtractionOf;
    ExtractionsAre(lower, show, least, cache, chunks, i);
    var before := CacheAfter(lower, show, least, cache, chunks[..i]);
    CacheAfterHas(lower, show, least, cache, chunks[..i], chunks[i].chunkId);
    if chunks[i].chunkId !in cache && chunks[i].chunkId in before {
      var j :| 0 <= j < i && chunks[..i][j].chunkId == chunks[i].chunkId;
      assert chunks[j] == chunks[i];
      CacheOfChunks(lower, show, least, cache, chunks, i, j);
    }
  }

  lemma {:induction false} AllMergedAre(lower: Lower, xs: seq<Extraction>, c: Candidate)
    ensures c in AllMerged(lower, xs) <==> exists i :: 0 <= i < |xs| && c in Merged(lower, xs[i].entities)
  {
    hide Merged;
    if xs != [] {
      AllMergedAre(lower, xs[..|xs| - 1], c);
      assert forall i | 0 <= i < |xs| - 1 :: xs[..|xs| - 1][i] == xs[i];
    }
  }

  lemma MergedOfBoth(lower: Lower, run: Run, chunks: seq<ChunkInput>, others: seq<ChunkInput>, c: Candidate)
    requires multiset(chunks) == multiset(others) && OneChunkPerId(chunks) && OneChunkPerId(others)
    requires c in AllMerged(lower, Extractions(lower, run.show, run.least, run.cache, chunks))
    ensures c in AllMerged(lower, Extractions(lower, run.show, run.least, run.cache, others))
  {
    hide AllMerged, Merged, Answer, Extractions, OneChunkPerId;
    var xs := Extractions(lower, run.show, run.least, run.cache, chunks);
    var ys := Extractions(lower, run.show, run.least, run.cache, others);
    AllMergedAre(lower, xs, c);
    AllMergedAre(lower, ys, c);
    var i :| 0 <= i < |xs| && c in Merged(lower, xs[i].entities);
    assert chunks[i] in multiset(chunks);
    assert chunks[i] in others;
    var j :| 0 <= j < |others| && others[j] == chunks[i];
    ExtractionsOfChunks(lower, run.show, run.least, run.cache, chunks, i);
    ExtractionsOfChunks(lower, run.show, run.least, run.cache, others, j);
    assert ys[j] == xs[i];
  }

  lemma PermutedIds(chunks: seq<ChunkInput>, others: seq<ChunkInput>)
    requires multiset(chunks) == multiset(others) && OneChunkPerId(chunks)
    ensures OneChunkPerId(others)
  {
    forall i | 0 <= i < |others| ensures others[i] in chunks {
      assert others[i] in multiset(others);
    }
  }

  /** Permuted chunks give the same merged candidates. */
  lemma SameMerged(lower: Lower, run: Run, other: Run, chunks: seq<ChunkInput>, others: seq<ChunkInput>, c: Candidate)
    requires multiset(chunks) == multiset(others) && OneChunkPerId(chunks)
    requires other.show == run.show && other.least == run.least && other.cache == run.cache
    ensures c in AllMerged(lower, Extractions(lower, run.show, run.least, run.cache, chunks))
            <==> c in AllMerged(lower, Extractions(lower, other.show, other.least, other.cache, others))
  {
    hide AllMerged, Extractions, OneChunkPerId;
    PermutedIds(chunks, others);
    if c in AllMerged(lower, Extractions(lower, run.show, run.least, run.cache, chunks)) {
      MergedOfBoth(lower, run, chunks, others, c);
    }
    if c in AllMerged(lower, Extractions(lower, run.show, run.least, run.cache, others)) {
      MergedOfBoth(lower, run, others, chunks, c);
    }
  }

  /** The entity table after the first pass is the same for every order of the chunks: keys,
      confidences and recorded provenance. */
  lemma ChunkOrderDoesNotMatter(lower: Lower, run: Run, other: Run, now: Graph, later: Graph, cache: Cache,
                                after: Cache, x: Index, y: Index, chunks: seq<ChunkInput>, others: seq<ChunkInput>)
    requires Stands(lower, run, now, cache, x, chunks) && Stands(lower, other, later, after, y, others)
    requires multiset(chunks) == multiset(others) && OneChunkPerId(chunks)
    requires forall c :: c in run.cs <==> c in other.cs
    requires other.show == run.show && other.least == run.least && other.cache == run.cache
    ensures SameTable(now.entities, later.entities)
  {
    hide AllMerged, Extractions, Describes, SameTable, Passed, Stands, OneChunkPerId, Agree, Does, FirstOps;
    StandsParts(lower, run, now, cache, x, chunks);
    StandsParts(lower, other, later, after, y, others);
    var a := AllMerged(lower, Extractions(lower, run.show, run.least, run.cache, chunks));
    var b := AllMerged(lower, Extractions(lower, other.show, other.least, other.cache, others));
    forall c ensures c in run.cs + a <==> c in other.cs + b { SameMerged(lower, run, other, chunks, others, c); }
    SameCandidatesSameTable(lower, run.cs + a, other.cs + b, now.entities, later.entities);
  }

  // ---------------------------------------------------------------- what the later passes put

  ghost predicate OnlyDocuments(ops: seq<Op>) {
    forall op | op in ops && op.PutEntity? :: op.c.entityType == DOCUMENT
  }

  lemma {:induction false} PairsAreDocuments(lower: Lower, s: KeyNames, links: seq<LinkCandidate>)
    ensures OnlyDocuments(PairsOps(lower, s, links))
  {
    hide NamesAfter, DocumentKey;
    if links != [] { PairsAreDocuments(lower, s, links[..|links| - 1]); }
  }

  lemma {:induction false} HyperedgesAreNoEntities(lower: Lower, s: KeyNames, cs: seq<HyperedgeCandidate>)
    ensures OnlyDocuments(HyperedgeOps(lower, s, cs))
  {
    hide MemberKeys, AllEqual;
    if cs != [] { HyperedgesAreNoEntities(lower, s, cs[..|cs| - 1]); }
  }

  lemma {:induction false} PutsAre(ops: seq<Op>, c: Candidate)
    ensures c in Puts(ops) <==> exists op :: op in ops && op.PutEntity? && op.c == c
  {
    if ops != [] {
      var init, last := ops[..|ops| - 1], ops[|ops| - 1];
      PutsAre(init, c);
      assert ops == init + [last];
    }
  }

  lemma {:induction false} EntityPuts(cs: seq<Candidate>)
    ensures Puts(EntityOps(cs)) == cs
  {
    if cs != [] {
      EntityPuts(cs[..|cs| - 1]);
      assert EntityOps(cs)[..|EntityOps(cs)| - 1] == EntityOps(cs[..|cs| - 1]);
    }
  }

  lemma {:induction false} LinkPuts(lower: Lower, s: KeyNames, links: seq<LinkCandidate>)
    ensures Puts(LinkOps(lower, s, links)) == []
  {
    hide ResolveKey, Normalize;
    if links != [] {
      var init, l := links[..|links| - 1], links[|links| - 1];
      LinkPuts(lower, s, init);
      PutsOfBoth(LinkOps(lower, s, init), LinkOp(lower, s, l));
      assert LinkOp(lower, s, l) == [] || LinkOp(lower, s, l)[..0] == [];
    }
  }

  /** The first pass puts the merged candidates. */
  lemma {:induction false} FirstPuts(lower: Lower, xs: seq<Extraction>)
    ensures Puts(FirstOps(lower, xs)) == AllMerged(lower, xs)
  {
    hide EntityOps, LinkOps, Merged, NamesAfter, Puts;
    if xs == [] {
      assert FirstOps(lower, xs) == [];
      PutsOfNothing();
    } else {
      var init, e := xs[..|xs| - 1], xs[|xs| - 1];
      FirstPuts(lower, init);
      var s := NamesAfter(NO_NAMES, lower, FirstOps(lower, init));
      var entities := EntityOps(Merged(lower, e.entities));
      var links := LinkOps(lower, NamesAfter(s, lower, entities), e.links);
      EntityPuts(Merged(lower, e.entities));
      LinkPuts(lower, NamesAfter(s, lower, entities), e.links);
      PutsOfBoth(entities, links);
      PutsOfBoth(FirstOps(lower, init), entities + links);
    }
  }

  lemma PutsOfNothing()
    ensures Puts([]) == []
  {
  }

  /** Of the candidates that a build puts, those of other types than DOCUMENT are the merged
      candidates of its chunks. */
  lemma OtherPuts(lower: Lower, run: Run, chunks: seq<ChunkInput>, groups: seq<seq<LinkCandidate>>, c: Candidate)
    requires c.entityType != DOCUMENT
    ensures c in BuildPuts(lower, run, chunks, groups)
            <==> c in AllMerged(lower, Extractions(lower, run.show, run.least, run.cache, chunks))
  {
    hide FirstOps, PairsOps, HyperedgeOps, ConcatLinks, AllWikilinkLinks, AllHyperedges, Extractions;
    hide NamesAfter, AllMerged, Puts;
    var xs := Extractions(lower, run.show, run.least, run.cache, chunks);
    var first := FirstOps(lower, xs);
    var s := NamesAfter(NO_NAMES, lower, first);
    var second := PairsOps(lower, s, AllWikilinkLinks(run.show, chunks, |chunks|));
    var t := NamesAfter(NO_NAMES, lower, first + second);
    var third := PairsOps(lower, t, ConcatLinks(groups));
    var u := NamesAfter(NO_NAMES, lower, first + second + third);
    PairsAreDocuments(lower, s, AllWikilinkLinks(run.show, chunks, |chunks|));
    PairsAreDocuments(lower, t, ConcatLinks(groups));
    HyperedgesAreNoEntities(lower, u, AllHyperedges(chunks, |chunks|));
    FirstPuts(lower, xs);
    PutsAre(first, c);
    PutsAre(BuildOps(lower, run, chunks, groups), c);
  }

  /** Nor does the order of the chunks matter after the whole build, except to the records of
      documents, which bear the mark of the chunk that came first. */
  lemma OrderMattersToDocumentsOnly(lower: Lower, run: Run, other: Run, now: Graph, later: Graph,
                                    chunks: seq<ChunkInput>, others: seq<ChunkInput>, groups: seq<seq<LinkCandidate>>,
                                    more: seq<seq<LinkCandidate>>, k: Key)
    requires Built(lower, run, now, chunks, groups) && Built(lower, other, later, others, more)
    requires Describes(run.cs, lower, run.g.entities) && Describes(other.cs, lower, other.g.entities)
    requires multiset(chunks) == multiset(others) && OneChunkPerId(chunks)
    requires forall c :: c in run.cs <==> c in other.cs
    requires other.show == run.show && other.least == run.least && other.cache == run.cache
    requires k.1 != DOCUMENT
    ensures SameRecord(now.entities, later.entities, k)
  {
    hide Built, BuildPuts, DescribesKey, SameRecord, AllMerged, Extractions, OneChunkPerId;
    BuiltTable(lower, run, now, chunks, groups);
    BuiltTable(lower, other, later, others, more);
    var a, b := BuildPuts(lower, run, chunks, groups), BuildPuts(lower, other, others, more);
    forall c | KeyOf(lower, c) == k ensures c in run.cs + a <==> c in other.cs + b {
      OtherPuts(lower, run, chunks, groups, c);
      OtherPuts(lower, other, others, more, c);
      SameMerged(lower, run, other, chunks, others, c);
    }
    assert DescribesKey(run.cs + a, lower, now.entities, k) && DescribesKey(other.cs + b, lower, later.entities, k);
    SameKey(run.cs + a, other.cs + b, lower, now.entities, later.entities, k);
  }

  // ---------------------------------------------------------------- what an answer leaves behind

  lemma {:induction false} MergedAreAmongAll(lower: Lower, xs: seq<Extraction>, i: nat, m: Candidate)
    requires i < |xs| && m in Merged(lower, xs[i].entities)
    ensures m in AllMerged(lower, xs)
  {
    hide Merged;
    if i < |xs| - 1 {
      assert xs[..|xs| - 1][i] == xs[i];
      MergedAreAmongAll(lower, xs[..|xs| - 1], i, m);
    }
  }

  /** What stands for an entity of a chunk has its name, no less confidence and its provenance. */
  lemma StandsIn(lower: Lower, cs: seq<Candidate>, c: Candidate) returns (m: Candidate)
    requires c in cs
    ensures m in Merged(lower, cs) && Normalize(lower, m.name) == Normalize(lower, c.name)
    ensures m.confidence >= c.confidence
    ensures forall f, v | v in At(c.provenance, f) :: v in At(m.provenance, f)
  {
    hide Merged, Normalize, Group, At;
    var merged, n := Merged(lower, cs), Normalize(lower, c.name);
    MergedStandFor(lower, cs, merged);
    m :| m in merged && Normalize(lower, m.name) == n;
    var i :| 0 <= i < |merged| && merged[i] == m;
    var group := Group(lower, cs, n);
    assert StandsFor(m, group);
    GroupIs(lower, cs, n);
    assert EntityMerging.Named(lower, c, n);
    var j :| 0 <= j < |group| && group[j] == c;
  }

  lemma FirstPassPuts(lower: Lower, run: Run, chunks: seq<ChunkInput>, groups: seq<seq<LinkCandidate>>, m: Candidate)
    requires m in AllMerged(lower, Extractions(lower, run.show, run.least, run.cache, chunks))
    ensures m in BuildPuts(lower, run, chunks, groups)
  {
    hide FirstOps, PairsOps, HyperedgeOps, ConcatLinks, AllWikilinkLinks, AllHyperedges, Extractions;
    hide NamesAfter, AllMerged, Puts;
    var xs := Extractions(lower, run.show, run.least, run.cache, chunks);
    FirstPuts(lower, xs);
    PutsAre(FirstOps(lower, xs), m);
    PutsAre(BuildOps(lower, run, chunks, groups), m);
  }

  /** Each entity that the answer about a newly asked chunk names is stored after the build, under
      its normalized name, with at least its confidence, and found in its chunk and document. */
  lemma AnswerIsStored(lower: Lower, run: Run, now: Graph, chunks: seq<ChunkInput>, groups: seq<seq<LinkCandidate>>,
                       i: nat, e: RawEntity) returns (k: Key)
    requires Built(lower, run, now, chunks, groups) && Describes(run.cs, lower, run.g.entities)
    requires i < |chunks| && FirstAsked(run.cache, chunks, i) && NamesEntity(run.least, chunks[i], e)
    ensures k in now.entities && k.0 == Normalize(lower, Text.Strip(e.name.value))
    ensures now.entities[k].confidence >= if e.confidence.Some? then e.confidence.value else chunks[i].confidence
    ensures One(run.show(chunks[i].chunkId)) in At(now.entities[k].provenance, "chunk_id")
    ensures One(run.show(chunks[i].documentId)) in At(now.entities[k].provenance, "document_id")
  {
    hide Built, Normalize, Extractions, ExtractionOf, FirstAsked, BuildPuts, Merged, AllMerged, DescribesKey;
    hide Text.Strip;
    var c := NamedIsParsed(lower, run.show, run.least, chunks[i], e);
    FirstAskedAnswers(lower, run.show, run.least, run.cache, chunks, i);
    var xs := Extractions(lower, run.show, run.least, run.cache, chunks);
    var m := StandsIn(lower, xs[i].entities, c);
    MergedAreAmongAll(lower, xs, i, m);
    FirstPassPuts(lower, run, chunks, groups, m);
    BuiltTable(lower, run, now, chunks, groups);
    k := KeyOf(lower, m);
    var puts := run.cs + BuildPuts(lower, run, chunks, groups);
    assert DescribesKey(puts, lower, now.entities, k);
    StoredAs(puts, lower, now.entities, m);
    assert One(run.show(chunks[i].chunkId)) in At(c.provenance, "chunk_id");
    assert One(run.show(chunks[i].documentId)) in At(c.provenance, "document_id");
  }

  lemma StoredAs(cs: seq<Candidate>, lower: Lower, t: Table, m: Candidate)
    requires m in cs && DescribesKey(cs, lower, t, KeyOf(lower, m))
    ensures var k := KeyOf(lower, m);
            && k in t && t[k].confidence >= m.confidence
            && forall f, v | v in At(m.provenance, f) :: v in At(t[k].provenance, f)
  {
    hide KeyOf, At;
  }
}
