/** Picking entities out of a text: matches are taken greedily, in order of priority, unless
    they overlap what was taken before; entities that start close together are related. */
module SpanExtraction {

  datatype Match = Match(text: string, kind: string, start: int, end: int)
  datatype Relation = Relation(source: string, target: string, kind: string)

  ghost predicate Overlap(a: Match, b: Match) {
    !(a.end <= b.start || a.start >= b.end)
  }

  ghost predicate Covers(m: Match, x: int) {
    m.start <= x < m.end
  }

  /** Matches that are not empty overlap exactly if some position lies in both. */
  lemma OverlapIsCommonPosition(a: Match, b: Match)
    requires a.start < a.end && b.start < b.end
    ensures Overlap(a, b) <==> exists x :: Covers(a, x) && Covers(b, x)
  {
    var x := if a.start < b.start then b.start else a.start;
    if Overlap(a, b) { assert Covers(a, x) && Covers(b, x); }
  }

  lemma OverlapIsMutual(a: Match, b: Match)
    ensures Overlap(a, b) <==> Overlap(b, a)
  {
  }

  ghost function Flat(groups: seq<seq<Match>>): seq<Match> {
    if groups == [] then [] else Flat(groups[..|groups| - 1]) + groups[|groups| - 1]
  }

  /** `kept` are the positions of the entities among the matches, in order. */
  ghost predicate KeptAt(matches: seq<Match>, kept: seq<nat>, entities: seq<Match>) {
    && |kept| == |entities|
    && (forall a | 0 <= a < |kept| :: kept[a] < |matches| && entities[a] == matches[kept[a]])
    && (forall a, b | 0 <= a < b < |kept| :: kept[a] < kept[b])
  }

  ghost predicate Blocked(matches: seq<Match>, kept: seq<nat>, i: nat)
    requires i < |matches|
  {
    exists k :: k in kept && k < i && k < |matches| && Overlap(matches[i], matches[k])
  }

  /** A match is kept exactly if it overlaps none that was kept before it. */
  ghost predicate Greedy(matches: seq<Match>, kept: seq<nat>) {
    forall i: nat | i < |matches| :: i in kept <==> !Blocked(matches, kept, i)
  }

  /** Relations are made for the index pairs `pairs`, in the order of two nested loops. */
  ghost predicate RelatedAt(entities: seq<Match>, pairs: seq<(nat, nat)>, relations: seq<Relation>) {
    && |pairs| == |relations|
    && (forall a | 0 <= a < |pairs| ::
          pairs[a].0 < pairs[a].1 < |entities| && Relates(relations[a], entities[pairs[a].0], entities[pairs[a].1]))
    && (forall a, b | 0 <= a < b < |pairs| :: Before(pairs[a], pairs[b]))
  }

  ghost predicate Before(p: (nat, nat), q: (nat, nat)) {
    p.0 < q.0 || (p.0 == q.0 && p.1 < q.1)
  }

  /** The relation goes from the first text to the second, and is a reference if one is an endpoint. */
  ghost predicate Relates(r: Relation, a: Match, b: Match) {
    && r.source == a.text && r.target == b.text
    && if a.kind == "ENDPOINT" || b.kind == "ENDPOINT" then r.kind == "REFERENCES" else r.kind == "CO_OCCURS"
  }

  /** They start less than 100 characters apart. */
  ghost predicate Near(a: Match, b: Match) {
    a.start < b.start + 100 && b.start < a.start + 100
  }

  /** The first two stages: the matches of each pattern in turn, those of the noun phrases
      last. */
  method Select(groups: seq<seq<Match>>) returns (entities: seq<Match>, ghost kept: seq<nat>)
    ensures KeptAt(Flat(groups), kept, entities) && Greedy(Flat(groups), kept)
    ensures forall e | e in entities :: e in Flat(groups)
    ensures forall a, b | 0 <= a < b < |entities| :: !Overlap(entities[a], entities[b])
  {
    entities, kept := [], [];
    for g := 0 to |groups|
      invariant KeptAt(Flat(groups[..g]), kept, entities) && Greedy(Flat(groups[..g]), kept)
    {
      ghost var before := Flat(groups[..g]);
      assert groups[..g + 1][..g] == groups[..g];
      assert before + groups[g][..0] == before;
      for i := 0 to |groups[g]|
        invariant KeptAt(before + groups[g][..i], kept, entities) && Greedy(before + groups[g][..i], kept)
      {
        var m := groups[g][i];
        var free := Overlapping(m, entities);
        ghost var matches := before + groups[g][..i];
        assert before + groups[g][..i + 1] == matches + [m];
        OneMatchMore(matches, kept, entities, m);
        if free {
          entities := entities + [m];
          kept := kept + [|matches|];
        }
      }
      assert groups[g][..|groups[g]|] == groups[g];
    }
    assert groups[..|groups|] == groups;
    forall a, b | 0 <= a < b < |entities| ensures !Overlap(entities[a], entities[b]) {
      EntitiesAreDisjoint(Flat(groups), kept, entities, a, b);
    }
  }

  method Overlapping(m: Match, entities: seq<Match>) returns (free: bool)
    ensures free <==> forall e | e in entities :: !Overlap(m, e)
  {
    for i := 0 to |entities|
      invariant forall j | 0 <= j < i :: !Overlap(m, entities[j])
    {
      var e := entities[i];
      if !(m.end <= e.start || m.start >= e.end) {
        assert Overlap(m, e);
        return false;
      }
    }
    return true;
  }

  lemma OneMatchMore(matches: seq<Match>, kept: seq<nat>, entities: seq<Match>, m: Match)
    requires KeptAt(matches, kept, entities) && Greedy(matches, kept)
    ensures (exists e :: e in entities && Overlap(m, e)) ==>
              KeptAt(matches + [m], kept, entities) && Greedy(matches + [m], kept)
    ensures (forall e | e in entities :: !Overlap(m, e)) ==>
              KeptAt(matches + [m], kept + [|matches|], entities + [m]) && Greedy(matches + [m], kept + [|matches|])
  {
    hide Overlap;
  }

  /** The pairs before `at` are settled. */
  ghost predicate RelatedUpTo(entities: seq<Match>, pairs: seq<(nat, nat)>, relations: seq<Relation>, at: (nat, nat)) {
    && RelatedAt(entities, pairs, relations) && (forall p | p in pairs :: Before(p, at))
    && (forall k: nat, l: nat | k < l < |entities| && Before((k, l), at) ::
          (k, l) in pairs <==> Near(entities[k], entities[l]))
  }

  lemma PairSettled(entities: seq<Match>, pairs: seq<(nat, nat)>, relations: seq<Relation>, i: nat, j: nat,
                    r: Relation)
    requires i < j < |entities| && RelatedUpTo(entities, pairs, relations, (i, j))
    ensures var a, b := entities[i], entities[j];
            && (Near(a, b) && Relates(r, a, b) ==>
                  RelatedUpTo(entities, pairs + [(i, j)], relations + [r], (i, j + 1)))
            && (!Near(a, b) ==> RelatedUpTo(entities, pairs, relations, (i, j + 1)))
  {
    hide Near, Relates;
  }

  lemma RowSettled(entities: seq<Match>, pairs: seq<(nat, nat)>, relations: seq<Relation>, i: nat, j: nat)
    requires i < |entities| <= j && RelatedUpTo(entities, pairs, relations, (i, j))
    ensures RelatedUpTo(entities, pairs, relations, (i + 1, i + 2))
  {
    hide Near, RelatedAt;
  }

  /** The third stage. */
  method Relate(entities: seq<Match>) returns (relations: seq<Relation>, ghost pairs: seq<(nat, nat)>)
    ensures RelatedAt(entities, pairs, relations)
    ensures forall i: nat, j: nat | i < j < |entities| :: (i, j) in pairs <==> Near(entities[i], entities[j])
  {
    relations, pairs := [], [];
    assert RelatedUpTo(entities, pairs, relations, (0, 1));
    for i := 0 to |entities|
      invariant RelatedUpTo(entities, pairs, relations, (i, i + 1))
    {
      for j := i + 1 to |entities|
        invariant RelatedUpTo(entities, pairs, relations, (i, j))
      {
        hide RelatedUpTo;
        var a, b := entities[i], entities[j];
        var distance := a.start - b.start;
        var kind := if a.kind == "ENDPOINT" || b.kind == "ENDPOINT" then "REFERENCES" else "CO_OCCURS";
        PairSettled(entities, pairs, relations, i, j, Relation(a.text, b.text, kind));
        if (if distance < 0 then -distance else distance) < 100 {
          relations := relations + [Relation(a.text, b.text, kind)];
          pairs := pairs + [(i, j)];
        }
      }
      RowSettled(entities, pairs, relations, i, |entities|);
    }
  }

  /** `extract`. */
  method Extract(text: string, groups: seq<seq<Match>>)
    returns (entities: seq<Match>, relations: seq<Relation>, ghost kept: seq<nat>, ghost pairs: seq<(nat, nat)>)
    ensures text == "" ==> entities == [] && relations == []
    ensures text != "" ==> KeptAt(Flat(groups), kept, entities) && Greedy(Flat(groups), kept)
    ensures RelatedAt(entities, pairs, relations)
    ensures forall i: nat, j: nat | i < j < |entities| :: (i, j) in pairs <==> Near(entities[i], entities[j])
    ensures forall a, b | 0 <= a < b < |entities| ::
              entities[a].end <= entities[b].start || entities[b].end <= entities[a].start
  {
    entities, relations, kept, pairs := [], [], [], [];
    if text != "" {
      entities, kept := Select(groups);
      relations, pairs := Relate(entities);
    }
  }

  /** Entities are pairwise disjoint. */
  lemma EntitiesAreDisjoint(matches: seq<Match>, kept: seq<nat>, entities: seq<Match>, a: nat, b: nat)
    requires KeptAt(matches, kept, entities) && Greedy(matches, kept) && a < |entities| && b < |entities| && a != b
    ensures entities[a].end <= entities[b].start || entities[b].end <= entities[a].start
  {
    var low, high := if a < b then a else b, if a < b then b else a;
    assert kept[high] in kept && kept[low] in kept;
    assert !Blocked(matches, kept, kept[high]);
    OverlapIsMutual(entities[a], entities[b]);
  }

  /** Greedy choice leaves nothing open: two choices for the same matches are the same. */
  lemma {:induction false} GreedyIsUnique(matches: seq<Match>, kept: seq<nat>, other: seq<nat>, i: nat)
    requires Greedy(matches, kept) && Greedy(matches, other) && i < |matches|
    ensures i in kept <==> i in other
    decreases i
  {
    if Blocked(matches, kept, i) {
      var k :| k in kept && k < i && k < |matches| && Overlap(matches[i], matches[k]);
      GreedyIsUnique(matches, kept, other, k);
    }
    if Blocked(matches, other, i) {
      var k :| k in other && k < i && k < |matches| && Overlap(matches[i], matches[k]);
      GreedyIsUnique(matches, kept, other, k);
    }
  }
}
