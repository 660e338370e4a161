/** Which upserts a graph build makes, told from what its chunks say alone. */
module GraphReplay {
  import opened Options
  import opened Records
  import opened Provenance
  import opened GraphStore
  import opened GraphOps
  import opened EntityMerging
  import opened GraphExtraction
  import opened GraphBuilding

  ghost const DOCUMENT := "DOCUMENT"
  ghost const LINKS_TO := "LINKS_TO"

  // ---------------------------------------------------------------- names so far

  /** The keys a build has met and, for each name, the key that was last given it. */
  datatype KeyNames = KeyNames(seen: set<Key>, last: map<string, Key>)

  const NO_NAMES := KeyNames({}, map[])

  ghost function Named(s: KeyNames, lower: Lower, op: Op): KeyNames {
    if op.PutEntity? then
      var k := KeyOf(lower, op.c);
      KeyNames(s.seen + {k}, if op.named then s.last[k.0 := k] else s.last)
    else s
  }

  ghost function NamesAfter(s: KeyNames, lower: Lower, ops: seq<Op>): KeyNames {
    if ops == [] then s else Named(NamesAfter(s, lower, ops[..|ops| - 1]), lower, ops[|ops| - 1])
  }

  ghost function KeysOf(x: Index): KeyNames {
    KeyNames(x.byName.Keys, map n | n in x.byNorm :: EntityKey(x.byNorm[n]))
  }

  lemma {:induction false} NamesFurther(s: KeyNames, lower: Lower, a: seq<Op>, b: seq<Op>)
    ensures NamesAfter(s, lower, a + b) == NamesAfter(NamesAfter(s, lower, a), lower, b)
  {
    hide Named;
    if b == [] {
      assert a + b == a;
    } else {
      assert (a + b)[..|a + b| - 1] == a + b[..|b| - 1];
      NamesFurther(s, lower, a, b[..|b| - 1]);
    }
  }

  // ---------------------------------------------------------------- the first pass

  ghost function EntityOps(cs: seq<Candidate>): seq<Op> {
    if cs == [] then [] else EntityOps(cs[..|cs| - 1]) + [PutEntity(cs[|cs| - 1], true)]
  }

  /** The key that a name stands for: a TERM of that name, else the key last given it. */
  ghost function ResolveKey(s: KeyNames, n: string): Option<Key> {
    if (n, "TERM") in s.seen then Some((n, "TERM")) else if n in s.last then Some(s.last[n]) else None
  }

  ghost function LinkOp(lower: Lower, s: KeyNames, l: LinkCandidate): seq<Op> {
    var source, target := ResolveKey(s, Normalize(lower, l.source)), ResolveKey(s, Normalize(lower, l.target));
    if source == None || target == None then [] else [PutLink(source.value, target.value, l)]
  }

  ghost function LinkOps(lower: Lower, s: KeyNames, links: seq<LinkCandidate>): seq<Op> {
    if links == [] then [] else LinkOps(lower, s, links[..|links| - 1]) + LinkOp(lower, s, links[|links| - 1])
  }

  ghost function ChunkOps(lower: Lower, s: KeyNames, e: Extraction): seq<Op> {
    var entities := EntityOps(Merged(lower, e.entities));
    entities + LinkOps(lower, NamesAfter(s, lower, entities), e.links)
  }

  ghost function FirstOps(lower: Lower, xs: seq<Extraction>): seq<Op> {
    if xs == [] then []
    else
      var before := FirstOps(lower, xs[..|xs| - 1]);
      before + ChunkOps(lower, NamesAfter(NO_NAMES, lower, before), xs[|xs| - 1])
  }

  // ---------------------------------------------------------------- links between documents

  ghost function DocumentKey(lower: Lower, name: string): Key {
    (Normalize(lower, name), DOCUMENT)
  }

  ghost function DocumentOps(lower: Lower, s: KeyNames, name: string, l: LinkCandidate): seq<Op> {
    if DocumentKey(lower, name) in s.seen then []
    else [PutEntity(Candidate(name, DOCUMENT, l.confidence, l.provenance), false)]
  }

  ghost function PairOps(lower: Lower, s: KeyNames, l: LinkCandidate): seq<Op> {
    var first := DocumentOps(lower, s, l.source, l);
    first + DocumentOps(lower, NamesAfter(s, lower, first), l.target, l)
    + [PutLink(DocumentKey(lower, l.source), DocumentKey(lower, l.target), l)]
  }

  ghost function PairsOps(lower: Lower, s: KeyNames, links: seq<LinkCandidate>): seq<Op> {
    if links == [] then []
    else
      var before := PairsOps(lower, s, links[..|links| - 1]);
      before + PairOps(lower, NamesAfter(s, lower, before), links[|links| - 1])
  }

  lemma {:induction false} PairsOfBoth(lower: Lower, s: KeyNames, a: seq<LinkCandidate>, b: seq<LinkCandidate>)
    ensures PairsOps(lower, s, a + b)
            == PairsOps(lower, s, a) + PairsOps(lower, NamesAfter(s, lower, PairsOps(lower, s, a)), b)
  {
    hide PairOps, NamesAfter;
    var first := PairsOps(lower, s, a);
    if b == [] {
      assert a + b == a;
      assert first + [] == first;
    } else {
      var init := b[..|b| - 1];
      assert (a + b)[..|a + b| - 1] == a + init;
      PairsOfBoth(lower, s, a, init);
      var middle := PairsOps(lower, NamesAfter(s, lower, first), init);
      NamesFurther(s, lower, first, middle);
      var more := PairOps(lower, NamesAfter(NamesAfter(s, lower, first), lower, middle), b[|b| - 1]);
      assert first + middle + more == first + (middle + more);
    }
  }

  // ---------------------------------------------------------------- hyperedges

  ghost function MemberKeys(lower: Lower, s: KeyNames, names: seq<string>): seq<Key> {
    if names == [] then []
    else
      var n := Normalize(lower, names[|names| - 1]);
      MemberKeys(lower, s, names[..|names| - 1]) + if n in s.last then [s.last[n]] else []
  }

  ghost predicate AllEqual<T>(s: seq<T>) {
    forall i, j | 0 <= i < j < |s| :: s[i] == s[j]
  }

  ghost function HyperedgeOp(lower: Lower, s: KeyNames, c: HyperedgeCandidate): seq<Op> {
    var members := MemberKeys(lower, s, c.names);
    if AllEqual(members) then [] else [PutHyperedge(members, c)]
  }

  ghost function HyperedgeOps(lower: Lower, s: KeyNames, cs: seq<HyperedgeCandidate>): seq<Op> {
    if cs == [] then [] else HyperedgeOps(lower, s, cs[..|cs| - 1]) + HyperedgeOp(lower, s, cs[|cs| - 1])
  }

  lemma {:induction false} HyperedgeOpsOfBoth(lower: Lower, s: KeyNames, a: seq<HyperedgeCandidate>,
                                              b: seq<HyperedgeCandidate>)
    ensures HyperedgeOps(lower, s, a + b) == HyperedgeOps(lower, s, a) + HyperedgeOps(lower, s, b)
  {
    hide HyperedgeOp;
    if b == [] {
      assert a + b == a;
    } else {
      assert (a + b)[..|a + b| - 1] == a + b[..|b| - 1];
      HyperedgeOpsOfBoth(lower, s, a, b[..|b| - 1]);
    }
  }

  // ---------------------------------------------------------------- doing it

  /** From graph `g` and dictionaries `x`, these operations lead to `now` and `y`. */
  ghost predicate Does(lower: Lower, g: Graph, now: Graph, x: Index, y: Index, ops: seq<Op>) {
    now == ExecAll(g, lower, ops) && AllReady(g, lower, ops) && KeysOf(y) == NamesAfter(KeysOf(x), lower, ops)
  }

  lemma DoesNothing(lower: Lower, g: Graph, x: Index)
    ensures Does(lower, g, g, x, x, [])
  {
    hide KeysOf;
  }

  lemma DoesFurther(lower: Lower, g: Graph, middle: Graph, now: Graph, x: Index, z: Index, y: Index, a: seq<Op>,
                    b: seq<Op>)
    requires Does(lower, g, middle, x, z, a) && Does(lower, middle, now, z, y, b)
    ensures Does(lower, g, now, x, y, a + b)
  {
    hide KeysOf, ExecAll, AllReady, NamesAfter;
    ExecFurther(g, lower, a, b);
    NamesFurther(KeysOf(x), lower, a, b);
  }

  lemma DoesOne(lower: Lower, g: Graph, now: Graph, x: Index, y: Index, op: Op)
    requires now == Exec(g, lower, op) && Ready(g, op) && KeysOf(y) == Named(KeysOf(x), lower, op)
    ensures Does(lower, g, now, x, y, [op])
  {
    hide KeysOf, Exec, Ready, Named;
    var none: seq<Op> := [];
    assert none + [op] == [op];
    ExecOneMore(g, lower, none, op);
    assert AllReady(g, lower, none) && ExecAll(g, lower, none) == g;
    assert [op][..0] == none && NamesAfter(KeysOf(x), lower, none) == KeysOf(x);
  }

  lemma DoesEntity(lower: Lower, g: Graph, x: Index, c: Candidate, e: Entity, named: bool)
    requires EntityKey(e) == KeyOf(lower, c) && Scalar(c.provenance)
    ensures Does(lower, g, UpsertEntity(g, lower, c), x, WithEntity(x, e, named), [PutEntity(c, named)])
  {
    hide UpsertEntity, KeyOf, Scalar;
    var y, op := WithEntity(x, e, named), PutEntity(c, named);
    assert KeysOf(y) == Named(KeysOf(x), lower, op) by {
      assert KeysOf(y).seen == Named(KeysOf(x), lower, op).seen;
      assert KeysOf(y).last == Named(KeysOf(x), lower, op).last;
    }
    hide KeysOf, Named, WithEntity;
    DoesOne(lower, g, UpsertEntity(g, lower, c), x, y, op);
  }

  lemma DoesLink(lower: Lower, g: Graph, x: Index, source: Id, target: Id, c: LinkCandidate, l: Link)
    requires Agree(g, x) && source in x.byId && target in x.byId && Scalar(c.provenance)
    ensures Does(lower, g, UpsertLink(g, source, target, c), x, WithLink(x, l),
                 [PutLink(EntityKey(x.byId[source]), EntityKey(x.byId[target]), c)])
  {
    hide UpsertLink, Scalar, ValidGraph;
    var op := PutLink(EntityKey(x.byId[source]), EntityKey(x.byId[target]), c);
    assert Stored(g, x.byId[source]) && Stored(g, x.byId[target]);
    hide EntityKey;
    DoesOne(lower, g, UpsertLink(g, source, target, c), x, WithLink(x, l), op);
  }
}
