/** What the entity table says after any sequence of upserts: it depends on which candidates
    were upserted, not on their order, and upserting them again changes nothing. */
module GraphTable {
  import opened Provenance
  import opened GraphStore

  type Table = map<Key, Entity>

  ghost function After(g: Graph, lower: Lower, cs: seq<Candidate>): Graph {
    if cs == [] then g else UpsertEntity(After(g, lower, cs[..|cs| - 1]), lower, cs[|cs| - 1])
  }

  ghost predicate ScalarCandidates(cs: seq<Candidate>) {
    forall c | c in cs :: Scalar(c.provenance)
  }

  // ---------------------------------------------------------------- the table described

  ghost predicate HasKey(cs: seq<Candidate>, lower: Lower, k: Key) {
    exists c :: c in cs && KeyOf(lower, c) == k
  }

  /** Some candidate of the key records value `v` under `f`. */
  ghost predicate Found(cs: seq<Candidate>, lower: Lower, k: Key, f: string, v: Value) {
    exists c :: c in cs && KeyOf(lower, c) == k && v in At(c.provenance, f)
  }

  /** The confidence is the greatest of the candidates of the key. */
  ghost predicate IsGreatest(cs: seq<Candidate>, lower: Lower, k: Key, confidence: real) {
    && (forall c | c in cs && KeyOf(lower, c) == k :: c.confidence <= confidence)
    && (exists c :: c in cs && KeyOf(lower, c) == k && c.confidence == confidence)
  }

  /** The record of key `k`: there is one exactly if some candidate has the key, with the
      greatest confidence and the union of the provenance. */
  ghost predicate DescribesKey(cs: seq<Candidate>, lower: Lower, t: Table, k: Key) {
    && (k in t <==> HasKey(cs, lower, k))
    && (k in t ==> IsGreatest(cs, lower, k, t[k].confidence))
    && (k in t ==> forall f, v :: v in At(t[k].provenance, f) <==> Found(cs, lower, k, f, v))
  }

  ghost predicate Describes(cs: seq<Candidate>, lower: Lower, t: Table) {
    forall k :: DescribesKey(cs, lower, t, k)
  }

  lemma FoundOneMore(cs: seq<Candidate>, lower: Lower, c: Candidate, k: Key, f: string, v: Value)
    ensures Found(cs + [c], lower, k, f, v) <==>
              Found(cs, lower, k, f, v) || (KeyOf(lower, c) == k && v in At(c.provenance, f))
  {
    assert c in cs + [c];
  }

  lemma HasKeyOneMore(cs: seq<Candidate>, lower: Lower, c: Candidate, k: Key)
    ensures HasKey(cs + [c], lower, k) <==> HasKey(cs, lower, k) || KeyOf(lower, c) == k
  {
    assert c in cs + [c];
  }

  lemma GreatestOneMore(cs: seq<Candidate>, lower: Lower, c: Candidate, k: Key, confidence: real)
    requires IsGreatest(cs, lower, k, confidence)
    ensures KeyOf(lower, c) == k ==> IsGreatest(cs + [c], lower, k, Max(confidence, c.confidence))
    ensures KeyOf(lower, c) != k ==> IsGreatest(cs + [c], lower, k, confidence)
  {
    hide KeyOf;
    var d :| d in cs && KeyOf(lower, d) == k && d.confidence == confidence;
    assert c in cs + [c] && d in cs + [c];
  }

  lemma FirstOfKey(cs: seq<Candidate>, lower: Lower, c: Candidate)
    requires !HasKey(cs, lower, KeyOf(lower, c))
    ensures IsGreatest(cs + [c], lower, KeyOf(lower, c), c.confidence)
    ensures forall f, v :: !Found(cs, lower, KeyOf(lower, c), f, v)
  {
    assert c in cs + [c];
  }

  lemma OtherKey(cs: seq<Candidate>, lower: Lower, t: Table, u: Table, c: Candidate, k: Key)
    requires DescribesKey(cs, lower, t, k) && KeyOf(lower, c) != k
    requires (k in u <==> k in t) && (k in t ==> u[k] == t[k])
    ensures DescribesKey(cs + [c], lower, u, k)
  {
    hide Found, HasKey, IsGreatest, KeyOf, At;
    HasKeyOneMore(cs, lower, c, k);
    if k in t { GreatestOneMore(cs, lower, c, k, t[k].confidence); }
    forall f, v ensures Found(cs + [c], lower, k, f, v) <==> Found(cs, lower, k, f, v) {
      FoundOneMore(cs, lower, c, k, f, v);
    }
  }

  lemma MergedKey(cs: seq<Candidate>, lower: Lower, t: Table, u: Table, c: Candidate, k: Key)
    requires DescribesKey(cs, lower, t, k) && KeyOf(lower, c) == k && Scalar(c.provenance)
    requires k in t && k in u && u[k] == MergedEntity(t[k], c)
    ensures DescribesKey(cs + [c], lower, u, k)
  {
    assert forall f | f in c.provenance :: c.provenance[f].One?;
    hide Found, HasKey, IsGreatest, KeyOf, At, Merge, Max, Scalar;
    HasKeyOneMore(cs, lower, c, k);
    GreatestOneMore(cs, lower, c, k, t[k].confidence);
    forall f, v ensures v in At(u[k].provenance, f) <==> Found(cs + [c], lower, k, f, v) {
      FoundOneMore(cs, lower, c, k, f, v);
      MergeIsUnion(t[k].provenance, c.provenance, f);
    }
  }

  lemma NewKey(cs: seq<Candidate>, lower: Lower, t: Table, u: Table, c: Candidate, k: Key)
    requires DescribesKey(cs, lower, t, k) && KeyOf(lower, c) == k
    requires k !in t && k in u && u[k].confidence == c.confidence && u[k].provenance == c.provenance
    ensures DescribesKey(cs + [c], lower, u, k)
  {
    FirstOfKey(cs, lower, c);
    HasKeyOneMore(cs, lower, c, k);
    hide Found, HasKey, IsGreatest, At;
    forall f, v ensures v in At(u[k].provenance, f) <==> Found(cs + [c], lower, k, f, v) {
      FoundOneMore(cs, lower, c, k, f, v);
    }
  }

  lemma DescribesOneMore(g: Graph, lower: Lower, cs: seq<Candidate>, c: Candidate)
    requires Describes(cs, lower, g.entities) && Scalar(c.provenance)
    ensures Describes(cs + [c], lower, UpsertEntity(g, lower, c).entities)
  {
    hide DescribesKey, MergedEntity, KeyOf, Scalar;
    var t, u, key := g.entities, UpsertEntity(g, lower, c).entities, KeyOf(lower, c);
    forall k ensures DescribesKey(cs + [c], lower, u, k) {
      assert DescribesKey(cs, lower, t, k);
      if k != key {
        OtherKey(cs, lower, t, u, c, k);
      } else if k in t {
        MergedKey(cs, lower, t, u, c, k);
      } else {
        NewKey(cs, lower, t, u, c, k);
      }
    }
  }

  /** What the table holds after any upserts into an empty graph. */
  lemma {:induction false} TableIs(lower: Lower, cs: seq<Candidate>)
    requires ScalarCandidates(cs)
    ensures Describes(cs, lower, After(EMPTY_GRAPH, lower, cs).entities)
  {
    hide Describes, UpsertEntity, Scalar;
    if cs == [] {
      NothingDescribed(lower);
    } else {
      var rest := cs[..|cs| - 1];
      TableIs(lower, rest);
      assert rest + [cs[|cs| - 1]] == cs;
      DescribesOneMore(After(EMPTY_GRAPH, lower, rest), lower, rest, cs[|cs| - 1]);
    }
  }

  lemma NothingDescribed(lower: Lower)
    ensures Describes([], lower, map[])
  {
  }

  // ---------------------------------------------------------------- order does not matter

  /** The same keys with the same confidence and the same recorded provenance. */
  ghost predicate SameTable(t: Table, u: Table) {
    forall k :: SameRecord(t, u, k)
  }

  lemma SameGreatest(cs: seq<Candidate>, ds: seq<Candidate>, lower: Lower, k: Key, a: real, b: real)
    requires forall c | KeyOf(lower, c) == k :: c in cs <==> c in ds
    requires IsGreatest(cs, lower, k, a) && IsGreatest(ds, lower, k, b)
    ensures a == b
  {
    var c :| c in cs && KeyOf(lower, c) == k && c.confidence == a;
    var d :| d in ds && KeyOf(lower, d) == k && d.confidence == b;
    assert c in ds && d in cs;
  }

  lemma SameKeyFound(cs: seq<Candidate>, ds: seq<Candidate>, lower: Lower, k: Key)
    requires forall c | KeyOf(lower, c) == k :: c in cs <==> c in ds
    ensures HasKey(cs, lower, k) <==> HasKey(ds, lower, k)
    ensures forall f, v :: Found(cs, lower, k, f, v) <==> Found(ds, lower, k, f, v)
  {
    hide KeyOf, At;
  }

  /** The same record under key `k`, but for names and ids. */
  ghost predicate SameRecord(t: Table, u: Table, k: Key) {
    && (k in t <==> k in u)
    && (k in t ==> t[k].confidence == u[k].confidence && forall f :: At(t[k].provenance, f) == At(u[k].provenance, f))
  }

  /** The record of a key depends on the candidates of that key alone. */
  lemma SameKey(cs: seq<Candidate>, ds: seq<Candidate>, lower: Lower, t: Table, u: Table, k: Key)
    requires forall c | KeyOf(lower, c) == k :: c in cs <==> c in ds
    requires DescribesKey(cs, lower, t, k) && DescribesKey(ds, lower, u, k)
    ensures SameRecord(t, u, k)
  {
    SameKeyFound(cs, ds, lower, k);
    hide HasKey, Found, IsGreatest, At;
    if k in t {
      SameGreatest(cs, ds, lower, k, t[k].confidence, u[k].confidence);
      forall f ensures At(t[k].provenance, f) == At(u[k].provenance, f) {
        assert forall v :: v in At(t[k].provenance, f) <==> Found(cs, lower, k, f, v);
      }
    }
  }

  /** Tables that describe the same candidates, in any order and with any repetitions, are the
      same. */
  lemma SameCandidatesSameTable(lower: Lower, cs: seq<Candidate>, ds: seq<Candidate>, t: Table, u: Table)
    requires Describes(cs, lower, t) && Describes(ds, lower, u) && forall c :: c in cs <==> c in ds
    ensures SameTable(t, u)
  {
    hide DescribesKey, SameRecord;
    forall k ensures SameRecord(t, u, k) {
      assert DescribesKey(cs, lower, t, k) && DescribesKey(ds, lower, u, k);
      SameKey(cs, ds, lower, t, u, k);
    }
  }

  /** Upserting the same candidates in another order gives the same table. */
  lemma OrderDoesNotMatter(lower: Lower, cs: seq<Candidate>, ds: seq<Candidate>)
    requires ScalarCandidates(cs) && multiset(cs) == multiset(ds)
    ensures SameTable(After(EMPTY_GRAPH, lower, cs).entities, After(EMPTY_GRAPH, lower, ds).entities)
  {
    forall c ensures c in cs <==> c in ds { assert c in multiset(cs) <==> c in multiset(ds); }
    TableIs(lower, cs);
    TableIs(lower, ds);
    SameCandidatesSameTable(lower, cs, ds, After(EMPTY_GRAPH, lower, cs).entities,
                            After(EMPTY_GRAPH, lower, ds).entities);
  }

  /** The entities that `graph_for_chunk` returns are those that the chunk's own candidates
      named. */
  lemma EntitiesOfChunkAreItsOwn(lower: Lower, cs: seq<Candidate>, chunk: string, k: Key)
    requires ScalarCandidates(cs) && k in After(EMPTY_GRAPH, lower, cs).entities
    ensures One(chunk) in At(After(EMPTY_GRAPH, lower, cs).entities[k].provenance, "chunk_id") <==>
              exists c :: c in cs && KeyOf(lower, c) == k && "chunk_id" in c.provenance
                          && c.provenance["chunk_id"] == One(chunk)
  {
    TableIs(lower, cs);
    hide After;
    assert DescribesKey(cs, lower, After(EMPTY_GRAPH, lower, cs).entities, k);
    assert forall c | c in cs :: One(chunk) in At(c.provenance, "chunk_id") <==>
                                   "chunk_id" in c.provenance && c.provenance["chunk_id"] == One(chunk);
  }

  // ---------------------------------------------------------------- rebuilding

  /** The record of the candidate's key has nothing to learn from it. */
  ghost predicate Knows(t: Table, lower: Lower, c: Candidate) {
    var k := KeyOf(lower, c);
    k in t && c.confidence <= t[k].confidence && Recorded(t[k].provenance, c.provenance)
  }

  lemma UpsertLearns(g: Graph, lower: Lower, c: Candidate)
    requires Scalar(c.provenance)
    ensures Knows(UpsertEntity(g, lower, c).entities, lower, c)
  {
    var k := KeyOf(lower, c);
    if k in g.entities { MergeRecords(g.entities[k].provenance, c.provenance); }
  }

  lemma UpsertForgetsNothing(g: Graph, lower: Lower, c: Candidate, d: Candidate)
    requires Knows(g.entities, lower, d)
    ensures Knows(UpsertEntity(g, lower, c).entities, lower, d)
  {
    var k := KeyOf(lower, c);
    if k == KeyOf(lower, d) { StaysRecorded(g.entities[k].provenance, c.provenance, d.provenance); }
  }

  lemma {:induction false} AfterKnows(g: Graph, lower: Lower, cs: seq<Candidate>, i: nat)
    requires ScalarCandidates(cs) && i < |cs|
    ensures Knows(After(g, lower, cs).entities, lower, cs[i])
  {
    hide Knows, UpsertEntity;
    var n := |cs| - 1;
    if i == n {
      UpsertLearns(After(g, lower, cs[..n]), lower, cs[n]);
    } else {
      AfterKnows(g, lower, cs[..n], i);
      UpsertForgetsNothing(After(g, lower, cs[..n]), lower, cs[n], cs[i]);
    }
  }

  lemma KnownChangesNothing(g: Graph, lower: Lower, c: Candidate)
    requires Scalar(c.provenance) && Knows(g.entities, lower, c)
    ensures UpsertEntity(g, lower, c) == g
  {
    var k := KeyOf(lower, c);
    MergeOfRecorded(g.entities[k].provenance, c.provenance);
    assert g.entities[k := g.entities[k]] == g.entities;
  }

  lemma {:induction false} AllKnownChangesNothing(g: Graph, lower: Lower, cs: seq<Candidate>)
    requires ScalarCandidates(cs) && forall c | c in cs :: Knows(g.entities, lower, c)
    ensures After(g, lower, cs) == g
  {
    hide Knows, UpsertEntity;
    if cs != [] {
      AllKnownChangesNothing(g, lower, cs[..|cs| - 1]);
      KnownChangesNothing(g, lower, cs[|cs| - 1]);
    }
  }

  /** Upserting the same candidates again, into whatever graph, changes no key, id, name,
      confidence or provenance: nothing at all. */
  lemma RepeatedUpsertsChangeNothing(g: Graph, lower: Lower, cs: seq<Candidate>)
    requires ScalarCandidates(cs)
    ensures After(After(g, lower, cs), lower, cs) == After(g, lower, cs)
  {
    hide Knows, After;
    forall c | c in cs ensures Knows(After(g, lower, cs).entities, lower, c) {
      var i :| 0 <= i < |cs| && cs[i] == c;
      AfterKnows(g, lower, cs, i);
    }
    AllKnownChangesNothing(After(g, lower, cs), lower, cs);
  }
}
