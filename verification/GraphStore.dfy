/** The knowledge graph: records keyed by normalized name and type, relationships keyed by
    their ends and type, hyperedges keyed by their members and type. */
module GraphStore {
  import opened Records
  import opened Provenance
  import Text

  /** `str.lower`, which is not modelled letter by letter. */
  type Lower = string -> string

  /** Runs of whitespace become one space. */
  function Collapse(s: string): string {
    if s == "" then ""
    else if !Text.IsSpace(s[0]) then [s[0]] + Collapse(s[1..])
    else " " + Collapse(s[Text.Lead(s)..])
  }

  function Normalize(lower: Lower, name: string): string {
    Collapse(lower(Text.Strip(name)))
  }

  // ---------------------------------------------------------------- what normalizing does

  /** No whitespace but single spaces. */
  ghost predicate SingleSpaced(s: string) {
    forall i | 0 <= i < |s| && Text.IsSpace(s[i]) :: s[i] == ' ' && (i + 1 < |s| ==> !Text.IsSpace(s[i + 1]))
  }

  lemma {:induction false} CollapseIsSingleSpaced(s: string)
    ensures SingleSpaced(Collapse(s)) && (Collapse(s) == "" <==> s == "")
    ensures s != "" ==> (Text.IsSpace(Collapse(s)[0]) <==> Text.IsSpace(s[0]))
    decreases |s|
  {
    if s != "" {
      var n := if Text.IsSpace(s[0]) then Text.Lead(s) else 1;
      CollapseIsSingleSpaced(s[n..]);
    }
  }

  /** Text with single spaces only stays as it is. */
  lemma {:induction false} SingleSpacedStays(s: string)
    requires SingleSpaced(s)
    ensures Collapse(s) == s
    decreases |s|
  {
    if s != "" {
      assert SingleSpaced(s[1..]) by {
        forall i | 0 <= i < |s[1..]| && Text.IsSpace(s[1..][i])
          ensures s[1..][i] == ' ' && (i + 1 < |s[1..]| ==> !Text.IsSpace(s[1..][i + 1]))
        {
          assert s[1..][i] == s[i + 1];
        }
      }
      SingleSpacedStays(s[1..]);
      if Text.IsSpace(s[0]) { assert Text.Lead(s[1..]) == 0; }
    }
  }

  /** The length of the first run of whitespace, or of the first character. */
  ghost function FirstRun(s: string): (n: nat)
    requires s != ""
    ensures 1 <= n <= |s|
  {
    if Text.IsSpace(s[0]) then Text.Lead(s) else 1
  }

  lemma CollapseStep(s: string)
    requires s != ""
    ensures Collapse(s) == (if Text.IsSpace(s[0]) then " " else [s[0]]) + Collapse(s[FirstRun(s)..])
  {
  }

  /** A run of whitespace becomes one space, wherever it is. */
  lemma {:induction false} RunBecomesSpace(a: string, run: string, b: string)
    requires run != "" && Text.AllSpace(run)
    requires a != "" ==> !Text.IsSpace(a[|a| - 1])
    requires b != "" ==> !Text.IsSpace(b[0])
    ensures Collapse(a + run + b) == Collapse(a) + " " + Collapse(b)
    decreases |a|
  {
    hide Collapse, Text.IsSpace, Text.Lead, Text.AllSpace;
    assert a + run + b == a + (run + b);
    if a == "" {
      RunInFront(run, b);
      assert a + run + b == run + b;
    } else {
      LeadOfPrefix(a, run + b);
      var n := FirstRun(a);
      RunBecomesSpace(a[n..], run, b);
      CollapseStep(a);
      CollapseStep(a + (run + b));
      assert a[n..] + run + b == a[n..] + (run + b);
    }
  }

  lemma RunInFront(run: string, b: string)
    requires run != "" && Text.AllSpace(run) && (b != "" ==> !Text.IsSpace(b[0]))
    ensures Collapse("") == "" && Collapse(run + b) == "" + " " + Collapse(b)
  {
    LeadOfRun(run, b);
  }

  lemma LeadOfRun(run: string, b: string)
    requires run != "" && Text.AllSpace(run) && (b != "" ==> !Text.IsSpace(b[0]))
    ensures Text.Lead(run + b) == |run| && (run + b)[|run|..] == b && Text.IsSpace((run + b)[0])
  {
    var n := Text.Lead(run + b);
    assert forall i | 0 <= i < |run| :: (run + b)[i] == run[i];
    assert b != "" ==> (run + b)[|run|] == b[0];
  }

  lemma LeadOfPrefix(a: string, rest: string)
    requires a != "" && !Text.IsSpace(a[|a| - 1])
    ensures var n := FirstRun(a);
            FirstRun(a + rest) == n && (a + rest)[0] == a[0] && (a + rest)[n..] == a[n..] + rest
    ensures var n := FirstRun(a); n < |a| ==> a[n..][|a[n..]| - 1] == a[|a| - 1]
  {
    assert forall i | 0 <= i < |a| :: (a + rest)[i] == a[i];
  }

  /** Outer whitespace does not count, and a trimmed name becomes its lower case with every run of
      whitespace made one space. */
  lemma NormalizeIs(lower: Lower, before: string, name: string, behind: string)
    requires Text.AllSpace(before) && Text.AllSpace(behind) && Text.Trimmed(name)
    ensures Normalize(lower, before + name + behind) == Collapse(lower(name))
    ensures SingleSpaced(Normalize(lower, before + name + behind))
  {
    Text.StripUnique(before, name, behind);
    CollapseIsSingleSpaced(lower(name));
  }

  // ---------------------------------------------------------------- records

  datatype Candidate = Candidate(name: string, entityType: string, confidence: real, provenance: Provenance)

  datatype Entity = Entity(
    id: Id, name: string, normalizedName: string, entityType: string, confidence: real, provenance: Provenance)

  datatype LinkCandidate = LinkCandidate(
    source: string, target: string, linkType: string, confidence: real, provenance: Provenance)

  datatype Link = Link(id: Id, source: Id, target: Id, linkType: string, confidence: real, provenance: Provenance)

  datatype HyperedgeCandidate = HyperedgeCandidate(
    names: seq<string>, linkType: string, confidence: real, provenance: Provenance)

  datatype Hyperedge = Hyperedge(id: Id, members: seq<Id>, linkType: string, confidence: real, provenance: Provenance)

  type Key = (string, string)
  type LinkKey = (Id, Id, string)

  datatype Graph = Graph(entities: map<Key, Entity>, links: map<LinkKey, Link>, hyperedges: seq<Hyperedge>, nextId: Id)

  const EMPTY_GRAPH := Graph(map[], map[], [], 0)

  ghost function KeyOf(lower: Lower, c: Candidate): Key {
    (Normalize(lower, c.name), c.entityType)
  }

  ghost function Max(a: real, b: real): real {
    if b > a then b else a
  }

  // ---------------------------------------------------------------- the operations

  ghost function MergedEntity(e: Entity, c: Candidate): Entity {
    e.(confidence := Max(e.confidence, c.confidence), provenance := Merge(e.provenance, c.provenance))
  }

  ghost function MergedLink(l: Link, c: LinkCandidate): Link {
    l.(confidence := Max(l.confidence, c.confidence), provenance := Merge(l.provenance, c.provenance))
  }

  ghost function UpsertEntity(g: Graph, lower: Lower, c: Candidate): Graph {
    var key := KeyOf(lower, c);
    if key in g.entities then g.(entities := g.entities[key := MergedEntity(g.entities[key], c)])
    else
      g.(entities := g.entities[key := Entity(g.nextId, c.name, key.0, key.1, c.confidence, c.provenance)],
         nextId := g.nextId + 1)
  }

  ghost function UpsertLink(g: Graph, source: Id, target: Id, c: LinkCandidate): Graph {
    var key := (source, target, c.linkType);
    if key in g.links then g.(links := g.links[key := MergedLink(g.links[key], c)])
    else
      g.(links := g.links[key := Link(g.nextId, source, target, c.linkType, c.confidence, c.provenance)],
         nextId := g.nextId + 1)
  }

  /** Two hyperedges are the same when they have the same members, however ordered, and type. */
  ghost predicate SameHyperedge(h: Hyperedge, members: seq<Id>, linkType: string) {
    multiset(h.members) == multiset(members) && h.linkType == linkType
  }

  ghost predicate HasHyperedge(g: Graph, members: seq<Id>, linkType: string) {
    exists i :: 0 <= i < |g.hyperedges| && SameHyperedge(g.hyperedges[i], members, linkType)
  }

  /** The one that is there already is kept as it is. */
  ghost function UpsertHyperedge(g: Graph, members: seq<Id>, c: HyperedgeCandidate): Graph {
    if HasHyperedge(g, members, c.linkType) then g
    else
      g.(hyperedges := g.hyperedges + [Hyperedge(g.nextId, members, c.linkType, c.confidence, c.provenance)],
         nextId := g.nextId + 1)
  }

  // ---------------------------------------------------------------- validity

  /** Every record carries the key it is stored under, and no two records share an id. */
  ghost predicate ValidGraph(g: Graph) {
    && (forall k | k in g.entities :: g.entities[k].normalizedName == k.0 && g.entities[k].entityType == k.1
                                      && g.entities[k].id < g.nextId)
    && (forall k, m | k in g.entities && m in g.entities && g.entities[k].id == g.entities[m].id :: k == m)
    && (forall k | k in g.links :: g.links[k].source == k.0 && g.links[k].target == k.1 && g.links[k].linkType == k.2
                                   && g.links[k].id < g.nextId)
    && (forall k, m | k in g.links && m in g.links && g.links[k].id == g.links[m].id :: k == m)
    && (forall i, j | 0 <= i < j < |g.hyperedges| ::
          !SameHyperedge(g.hyperedges[i], g.hyperedges[j].members, g.hyperedges[j].linkType))
  }

  lemma UpsertEntityKeeps(g: Graph, lower: Lower, c: Candidate)
    requires ValidGraph(g)
    ensures ValidGraph(UpsertEntity(g, lower, c))
  {
    hide Merge, Max, Normalize;
  }

  lemma UpsertLinkKeeps(g: Graph, source: Id, target: Id, c: LinkCandidate)
    requires ValidGraph(g)
    ensures ValidGraph(UpsertLink(g, source, target, c))
  {
    hide Merge, Max;
  }

  lemma UpsertHyperedgeKeeps(g: Graph, members: seq<Id>, c: HyperedgeCandidate)
    requires ValidGraph(g)
    ensures ValidGraph(UpsertHyperedge(g, members, c))
  {
    var after := UpsertHyperedge(g, members, c);
    if !HasHyperedge(g, members, c.linkType) {
      assert forall i | 0 <= i < |g.hyperedges| :: after.hyperedges[i] == g.hyperedges[i];
    }
  }

  class InMemoryGraphRepository {
    const lower: Lower
    var entities: map<Key, Entity>
    var links: map<LinkKey, Link>
    var hyperedges: seq<Hyperedge>
    var nextId: Id

    ghost function State(): Graph
      reads this
    {
      Graph(entities, links, hyperedges, nextId)
    }

    constructor (lower: Lower)
      ensures State() == EMPTY_GRAPH && ValidGraph(State()) && this.lower == lower
    {
      this.lower, entities, links, hyperedges, nextId := lower, map[], map[], [], 0;
    }

    method NewId() returns (id: Id)
      modifies this`nextId
      ensures id == old(nextId) && nextId == id + 1
    {
      id := nextId;
      nextId := nextId + 1;
    }

    /** `upsert_entity`: one record per normalized name and type, with the greatest confidence. */
    method AddEntity(c: Candidate) returns (e: Entity)
      modifies this`entities, this`nextId
      ensures State() == UpsertEntity(old(State()), lower, c)
      ensures KeyOf(lower, c) in entities && e == entities[KeyOf(lower, c)]
      ensures ValidGraph(old(State())) ==>
                e.normalizedName == Normalize(lower, c.name) && e.entityType == c.entityType
                && e.confidence >= c.confidence
    {
      hide Merge, Max, Normalize;
      var key := (Normalize(lower, c.name), c.entityType);
      if key !in entities {
        var id := NewId();
        e := Entity(id, c.name, key.0, key.1, c.confidence, c.provenance);
      } else {
        var existing := entities[key];
        var provenance := MergeProvenance(existing.provenance, c.provenance);
        e := existing.(confidence := if c.confidence > existing.confidence then c.confidence else existing.confidence,
                       provenance := provenance);
        assert e == MergedEntity(existing, c) by { MaxIs(existing.confidence, c.confidence); }
      }
      entities := entities[key := e];
    }

    /** `upsert_relationship`. */
    method AddLink(source: Id, target: Id, c: LinkCandidate) returns (l: Link)
      modifies this`links, this`nextId
      ensures State() == UpsertLink(old(State()), source, target, c)
      ensures (source, target, c.linkType) in links && l == links[(source, target, c.linkType)]
    {
      hide Merge, Max;
      var key := (source, target, c.linkType);
      if key !in links {
        var id := NewId();
        l := Link(id, source, target, c.linkType, c.confidence, c.provenance);
      } else {
        var existing := links[key];
        var provenance := MergeProvenance(existing.provenance, c.provenance);
        l := existing.(confidence := if c.confidence > existing.confidence then c.confidence else existing.confidence,
                       provenance := provenance);
        assert l == MergedLink(existing, c) by { MaxIs(existing.confidence, c.confidence); }
      }
      links := links[key := l];
    }

    /** `upsert_hyperedge`: the one that is there already, or a new one at the end. Either way one
        with the same members, however ordered, and the same type is returned. */
    method AddHyperedge(members: seq<Id>, c: HyperedgeCandidate) returns (h: Hyperedge)
      modifies this`hyperedges, this`nextId
      ensures State() == UpsertHyperedge(old(State()), members, c)
      ensures multiset(h.members) == multiset(members) && h.linkType == c.linkType && h in hyperedges
      ensures h !in old(hyperedges) ==>
                && forall i | 0 <= i < |old(hyperedges)| ::
                     !(multiset(old(hyperedges)[i].members) == multiset(members)
                       && old(hyperedges)[i].linkType == c.linkType)
    {
      for i := 0 to |hyperedges|
        invariant forall j | 0 <= j < i :: !SameHyperedge(hyperedges[j], members, c.linkType)
      {
        if multiset(hyperedges[i].members) == multiset(members) && hyperedges[i].linkType == c.linkType {
          return hyperedges[i];
        }
      }
      var id := NewId();
      h := Hyperedge(id, members, c.linkType, c.confidence, c.provenance);
      hyperedges := hyperedges + [h];
    }
  }

  lemma MaxIs(a: real, b: real)
    ensures Max(a, b) == if b > a then b else a
  {
  }
}
