/** The upserts of a graph build as a list of operations on keys, and what it means to run the
    same list again: nothing at all. */
module GraphOps {
  import opened Records
  import opened Provenance
  import opened GraphStore
  import opened GraphTable

  /** An upsert; records are named by their keys, so the same operation makes sense in every
      graph. A named entity can be the end of a relationship of a later chunk. */
  datatype Op =
    | PutEntity(c: Candidate, named: bool)
    | PutLink(source: Key, target: Key, l: LinkCandidate)
    | PutHyperedge(members: seq<Key>, h: HyperedgeCandidate)

  ghost function IdOf(g: Graph, k: Key): Id {
    if k in g.entities then g.entities[k].id else 0
  }

  ghost function IdsOf(g: Graph, ks: seq<Key>): (ids: seq<Id>)
    ensures |ids| == |ks|
  {
    seq(|ks|, i requires 0 <= i < |ks| => IdOf(g, ks[i]))
  }

  ghost function Exec(g: Graph, lower: Lower, op: Op): Graph {
    match op
    case PutEntity(c, _) => UpsertEntity(g, lower, c)
    case PutLink(s, t, l) => UpsertLink(g, IdOf(g, s), IdOf(g, t), l)
    case PutHyperedge(ms, h) => UpsertHyperedge(g, IdsOf(g, ms), h)
  }

  ghost function ExecAll(g: Graph, lower: Lower, ops: seq<Op>): Graph {
    if ops == [] then g else Exec(ExecAll(g, lower, ops[..|ops| - 1]), lower, ops[|ops| - 1])
  }

  /** The operation names only records that are there, and merges scalar provenance. */
  ghost predicate Ready(g: Graph, op: Op) {
    match op
    case PutEntity(c, _) => Scalar(c.provenance)
    case PutLink(s, t, l) => s in g.entities && t in g.entities && Scalar(l.provenance)
    case PutHyperedge(ms, _) => forall m | m in ms :: m in g.entities
  }

  ghost predicate AllReady(g: Graph, lower: Lower, ops: seq<Op>) {
    ops != [] ==>
      && AllReady(g, lower, ops[..|ops| - 1]) && Ready(ExecAll(g, lower, ops[..|ops| - 1]), ops[|ops| - 1])
  }

  // ---------------------------------------------------------------- one after the other

  lemma ExecOneMore(g: Graph, lower: Lower, ops: seq<Op>, op: Op)
    ensures ExecAll(g, lower, ops + [op]) == Exec(ExecAll(g, lower, ops), lower, op)
    ensures AllReady(g, lower, ops + [op]) <==> AllReady(g, lower, ops) && Ready(ExecAll(g, lower, ops), op)
  {
    assert (ops + [op])[..|ops|] == ops;
  }

  lemma {:induction false} ExecFurther(g: Graph, lower: Lower, a: seq<Op>, b: seq<Op>)
    ensures ExecAll(g, lower, a + b) == ExecAll(ExecAll(g, lower, a), lower, b)
    ensures AllReady(g, lower, a) && AllReady(ExecAll(g, lower, a), lower, b) ==> AllReady(g, lower, a + b)
  {
    hide Exec, Ready;
    if b == [] {
      assert a + b == a;
    } else {
      assert (a + b)[..|a + b| - 1] == a + b[..|b| - 1];
      ExecFurther(g, lower, a, b[..|b| - 1]);
    }
  }

  // ---------------------------------------------------------------- nothing left to learn

  /** The graph has nothing to learn from the operation. */
  ghost predicate Taught(g: Graph, lower: Lower, op: Op) {
    match op
    case PutEntity(c, _) => Knows(g.entities, lower, c)
    case PutLink(s, t, l) =>
      && s in g.entities && t in g.entities
      && var k := (IdOf(g, s), IdOf(g, t), l.linkType);
         k in g.links && l.confidence <= g.links[k].confidence && Recorded(g.links[k].provenance, l.provenance)
    case PutHyperedge(ms, h) => (forall m | m in ms :: m in g.entities) && HasHyperedge(g, IdsOf(g, ms), h.linkType)
  }

  /** Entities keep their ids, links and hyperedges stay. */
  ghost predicate Keeps(g: Graph, after: Graph) {
    && (forall k | k in g.entities :: k in after.entities && after.entities[k].id == g.entities[k].id)
    && (forall k | k in g.links ::
          && k in after.links && g.links[k].confidence <= after.links[k].confidence
          && forall seen | Recorded(g.links[k].provenance, seen) :: Recorded(after.links[k].provenance, seen))
    && g.hyperedges <= after.hyperedges
  }

  lemma LinkKeeps(g: Graph, source: Id, target: Id, l: LinkCandidate)
    ensures Keeps(g, UpsertLink(g, source, target, l))
  {
    hide Merge, Recorded;
    var k := (source, target, l.linkType);
    if k in g.links {
      forall seen | Recorded(g.links[k].provenance, seen) {
        StaysRecorded(g.links[k].provenance, l.provenance, seen);
      }
    }
  }

  lemma ExecKeeps(g: Graph, lower: Lower, op: Op)
    ensures Keeps(g, Exec(g, lower, op))
  {
    hide Merge, Recorded, Normalize, Max, HasHyperedge, IdsOf;
    if op.PutLink? {
      hide UpsertLink, Keeps;
      LinkKeeps(g, IdOf(g, op.source), IdOf(g, op.target), op.l);
    }
  }

  lemma SameIds(g: Graph, after: Graph, ks: seq<Key>)
    requires Keeps(g, after) && forall k | k in ks :: k in g.entities
    ensures IdsOf(after, ks) == IdsOf(g, ks)
  {
  }

  lemma LinkStaysTaught(g: Graph, after: Graph, lower: Lower, op: Op)
    requires Keeps(g, after) && op.PutLink? && Taught(g, lower, op)
    ensures Taught(after, lower, op)
  {
    hide Recorded;
  }

  lemma HyperedgeStaysTaught(g: Graph, after: Graph, lower: Lower, op: Op)
    requires Keeps(g, after) && op.PutHyperedge? && Taught(g, lower, op)
    ensures Taught(after, lower, op)
  {
    SameIds(g, after, op.members);
    hide IdsOf, SameHyperedge, Recorded;
    var i :| 0 <= i < |g.hyperedges| && SameHyperedge(g.hyperedges[i], IdsOf(g, op.members), op.h.linkType);
    assert after.hyperedges[i] == g.hyperedges[i];
  }

  lemma EntityStaysTaught(g: Graph, lower: Lower, op: Op, c: Candidate)
    requires Knows(g.entities, lower, c)
    ensures Knows(Exec(g, lower, op).entities, lower, c)
  {
    hide Knows, UpsertEntity, Normalize, Merge, IdsOf, HasHyperedge;
    if op.PutEntity? { UpsertForgetsNothing(g, lower, op.c, c); }
  }

  lemma StaysTaught(g: Graph, lower: Lower, op: Op, other: Op)
    requires Taught(g, lower, other)
    ensures Taught(Exec(g, lower, op), lower, other)
  {
    hide Exec, Keeps, Knows, HasHyperedge, Recorded, IdsOf, IdOf;
    ExecKeeps(g, lower, op);
    match other
    case PutEntity(c, _) => EntityStaysTaught(g, lower, op, c);
    case PutLink(_, _, _) => LinkStaysTaught(g, Exec(g, lower, op), lower, other);
    case PutHyperedge(_, _) => HyperedgeStaysTaught(g, Exec(g, lower, op), lower, other);
  }

  lemma LinkIsTaught(g: Graph, lower: Lower, op: Op)
    requires op.PutLink? && Ready(g, op)
    ensures Taught(Exec(g, lower, op), lower, op)
  {
    hide Recorded, Merge, Scalar;
    var k := (IdOf(g, op.source), IdOf(g, op.target), op.l.linkType);
    if k in g.links {
      MergeRecords(g.links[k].provenance, op.l.provenance);
    } else {
      RecordsItself(op.l.provenance);
    }
  }

  lemma RecordsItself(p: Provenance)
    requires Scalar(p)
    ensures Recorded(p, p)
  {
  }

  lemma HyperedgeIsTaught(g: Graph, lower: Lower, op: Op)
    requires op.PutHyperedge? && Ready(g, op)
    ensures Taught(Exec(g, lower, op), lower, op)
  {
    var members, after := IdsOf(g, op.members), Exec(g, lower, op);
    assert IdsOf(after, op.members) == members;
    hide IdsOf;
    if !HasHyperedge(g, members, op.h.linkType) {
      assert SameHyperedge(after.hyperedges[|g.hyperedges|], members, op.h.linkType);
    }
  }

  lemma Teaches(g: Graph, lower: Lower, op: Op)
    requires Ready(g, op)
    ensures Taught(Exec(g, lower, op), lower, op)
  {
    hide Knows, HasHyperedge, Recorded, IdsOf, IdOf, UpsertEntity, Scalar;
    match op
    case PutEntity(c, _) => UpsertLearns(g, lower, c);
    case PutLink(_, _, _) => LinkIsTaught(g, lower, op);
    case PutHyperedge(_, _) => HyperedgeIsTaught(g, lower, op);
  }

  lemma TaughtChangesNothing(g: Graph, lower: Lower, op: Op)
    requires Ready(g, op) && Taught(g, lower, op)
    ensures Exec(g, lower, op) == g
  {
    hide HasHyperedge, Recorded, IdsOf, Merge, Scalar, UpsertEntity, Knows;
    match op {
      case PutEntity(c, _) => KnownChangesNothing(g, lower, c);
      case PutLink(s, t, l) =>
        var k := (IdOf(g, s), IdOf(g, t), l.linkType);
        MergeOfRecorded(g.links[k].provenance, l.provenance);
        assert g.links[k := g.links[k]] == g.links;
      case PutHyperedge(ms, h) =>
    }
  }

  // ---------------------------------------------------------------- the same list again

  lemma {:induction false} AllTaught(g: Graph, lower: Lower, ops: seq<Op>, i: nat)
    requires AllReady(g, lower, ops) && i < |ops|
    ensures Taught(ExecAll(g, lower, ops), lower, ops[i])
  {
    hide Exec, Taught, Ready;
    var init, last := ops[..|ops| - 1], ops[|ops| - 1];
    var before := ExecAll(g, lower, init);
    if i == |ops| - 1 {
      Teaches(before, lower, last);
    } else {
      AllTaught(g, lower, init, i);
      StaysTaught(before, lower, last, init[i]);
    }
  }

  /** Two operations that teach the same: they are equal, or upsert entities of one key with the
      same confidence and provenance, though by differently written names. */
  ghost predicate Alike(lower: Lower, a: Op, b: Op) {
    || a == b
    || (a.PutEntity? && b.PutEntity? && KeyOf(lower, a.c) == KeyOf(lower, b.c) && a.c.confidence == b.c.confidence
        && a.c.provenance == b.c.provenance && a.named == b.named)
  }

  lemma AlikeTaught(g: Graph, lower: Lower, a: Op, b: Op)
    requires Alike(lower, a, b) && Taught(g, lower, a)
    ensures Taught(g, lower, b)
  {
    hide Recorded, IdsOf, HasHyperedge, KeyOf;
  }

  ghost predicate HasAlike(lower: Lower, ops: seq<Op>, op: Op) {
    exists j :: 0 <= j < |ops| && Alike(lower, ops[j], op)
  }

  /** Every operation of `again` is like one of `ops`. */
  ghost predicate Repeats(lower: Lower, ops: seq<Op>, again: seq<Op>) {
    forall i | 0 <= i < |again| :: HasAlike(lower, ops, again[i])
  }

  lemma {:induction false} TaughtListChangesNothing(g: Graph, lower: Lower, again: seq<Op>)
    requires AllReady(g, lower, again) && forall i | 0 <= i < |again| :: Taught(g, lower, again[i])
    ensures ExecAll(g, lower, again) == g
  {
    hide Exec, Taught, Ready;
    if again != [] {
      var init := again[..|again| - 1];
      forall i | 0 <= i < |init| ensures Taught(g, lower, init[i]) { assert init[i] == again[i]; }
      TaughtListChangesNothing(g, lower, init);
      TaughtChangesNothing(g, lower, again[|again| - 1]);
    }
  }

  /** Operations that repeat those that made a graph leave it as it is: no record, link or
      hyperedge changes, is added or gets another id. */
  lemma RepeatingChangesNothing(g: Graph, lower: Lower, ops: seq<Op>, again: seq<Op>)
    requires AllReady(g, lower, ops) && Repeats(lower, ops, again) && AllReady(ExecAll(g, lower, ops), lower, again)
    ensures ExecAll(ExecAll(g, lower, ops), lower, again) == ExecAll(g, lower, ops)
  {
    hide Alike, Taught, ExecAll, AllReady;
    var now := ExecAll(g, lower, ops);
    forall i | 0 <= i < |again| ensures Taught(now, lower, again[i]) {
      assert HasAlike(lower, ops, again[i]);
      var j :| 0 <= j < |ops| && Alike(lower, ops[j], again[i]);
      AllTaught(g, lower, ops, j);
      AlikeTaught(now, lower, ops[j], again[i]);
    }
    TaughtListChangesNothing(now, lower, again);
  }

  // ---------------------------------------------------------------- the table after a list

  /** The candidates that a list of operations upserts. */
  ghost function Puts(ops: seq<Op>): seq<Candidate> {
    if ops == [] then []
    else
      Puts(ops[..|ops| - 1]) + if ops[|ops| - 1].PutEntity? then [ops[|ops| - 1].c] else []
  }

  lemma {:induction false} PutsOfBoth(a: seq<Op>, b: seq<Op>)
    ensures Puts(a + b) == Puts(a) + Puts(b)
  {
    if b == [] {
      assert a + b == a;
    } else {
      assert (a + b)[..|a + b| - 1] == a + b[..|b| - 1];
      PutsOfBoth(a, b[..|b| - 1]);
    }
  }

  /** The entity table describes what was upserted into it, whatever links were put between. */
  lemma {:induction false} TableAfter(g: Graph, lower: Lower, cs: seq<Candidate>, ops: seq<Op>)
    requires AllReady(g, lower, ops) && Describes(cs, lower, g.entities)
    ensures Describes(cs + Puts(ops), lower, ExecAll(g, lower, ops).entities)
  {
    hide Describes, UpsertEntity, Scalar, Merge, IdsOf, HasHyperedge;
    if ops == [] {
      assert cs + Puts(ops) == cs;
    } else {
      var init, last := ops[..|ops| - 1], ops[|ops| - 1];
      TableAfter(g, lower, cs, init);
      if last.PutEntity? {
        DescribesOneMore(ExecAll(g, lower, init), lower, cs + Puts(init), last.c);
        assert cs + Puts(ops) == cs + Puts(init) + [last.c];
      } else {
        assert cs + Puts(ops) == cs + Puts(init);
      }
    }
  }
}
