/** Merging the candidates of one chunk before they reach the graph: those with the same
    normalized name become one. */
module EntityMerging {
  import opened Provenance
  import opened GraphStore

  // ---------------------------------------------------------------- groups

  ghost predicate Named(lower: Lower, c: Candidate, n: string) {
    Normalize(lower, c.name) == n
  }

  /** The candidates of one normalized name, in order. */
  ghost function Group(lower: Lower, cs: seq<Candidate>, n: string): seq<Candidate> {
    if cs == [] then []
    else
      Group(lower, cs[..|cs| - 1], n) + if Named(lower, cs[|cs| - 1], n) then [cs[|cs| - 1]] else []
  }

  /** The normalized names in the order in which they first occur. */
  ghost function Names(lower: Lower, cs: seq<Candidate>): seq<string> {
    if cs == [] then []
    else
      var rest, n := Names(lower, cs[..|cs| - 1]), Normalize(lower, cs[|cs| - 1].name);
      if n in rest then rest else rest + [n]
  }

  lemma {:induction false} NamesAre(lower: Lower, cs: seq<Candidate>)
    ensures forall i, j | 0 <= i < j < |Names(lower, cs)| :: Names(lower, cs)[i] != Names(lower, cs)[j]
    ensures forall n :: n in Names(lower, cs) <==> exists c :: c in cs && Named(lower, c, n)
  {
    hide Normalize;
    if cs != [] {
      var rest, c := cs[..|cs| - 1], cs[|cs| - 1];
      NamesAre(lower, rest);
      assert cs == rest + [c];
      assert Named(lower, c, Normalize(lower, c.name));
    }
  }

  lemma {:induction false} GroupIs(lower: Lower, cs: seq<Candidate>, n: string)
    ensures forall c :: c in Group(lower, cs, n) <==> c in cs && Named(lower, c, n)
  {
    hide Named;
    if cs != [] {
      GroupIs(lower, cs[..|cs| - 1], n);
      assert cs == cs[..|cs| - 1] + [cs[|cs| - 1]];
    }
  }

  // ---------------------------------------------------------------- one group

  /** The first candidate of the highest confidence among the first `n`. */
  ghost function Dominant(group: seq<Candidate>, n: nat): (d: nat)
    requires 1 <= n <= |group|
    ensures d < n && forall i | 0 <= i < n :: group[i].confidence <= group[d].confidence
    ensures forall i | 0 <= i < d :: group[i].confidence < group[d].confidence
  {
    if n == 1 then 0
    else
      var d := Dominant(group, n - 1);
      if group[n - 1].confidence > group[d].confidence then n - 1 else d
  }

  /** The provenance of candidate `d` with that of the other first `n` joined to it. */
  ghost function Joined(group: seq<Candidate>, d: nat, n: nat): Provenance
    requires d < |group| && n <= |group|
  {
    if n == 0 then group[d].provenance
    else if n - 1 == d then Joined(group, d, n - 1)
    else Union(Joined(group, d, n - 1), group[n - 1].provenance)
  }

  ghost function Representative(group: seq<Candidate>): Candidate
    requires group != []
  {
    if |group| == 1 then group[0]
    else
      var d := Dominant(group, |group|);
      group[d].(provenance := Joined(group, d, |group|))
  }

  lemma {:induction false} JoinedIsUnion(group: seq<Candidate>, d: nat, n: nat, k: string, v: Value)
    requires d < |group| && n <= |group|
    ensures v in At(Joined(group, d, n), k) <==>
              v in At(group[d].provenance, k) || exists i :: 0 <= i < n && v in At(group[i].provenance, k)
  {
    if n > 0 {
      JoinedIsUnion(group, d, n - 1, k, v);
      if n - 1 != d { UnionIsUnion(Joined(group, d, n - 1), group[n - 1].provenance, k); }
    }
  }

  lemma {:induction false} JoinedOfSame(group: seq<Candidate>, d: nat, n: nat, p: Provenance)
    requires d < |group| && n <= |group| && forall i | 0 <= i < |group| :: group[i].provenance == p
    ensures Joined(group, d, n) == p
  {
    if n > 0 {
      JoinedOfSame(group, d, n - 1, p);
      assert Union(p, p) == p;
    }
  }

  /** What stands for the candidates of one name: the name and type of the first of them with
      the highest confidence, that confidence, and all the provenance. */
  ghost predicate StandsFor(m: Candidate, group: seq<Candidate>) {
    && (exists d :: 0 <= d < |group| && m.name == group[d].name && m.entityType == group[d].entityType
                    && m.confidence == group[d].confidence
                    && forall i | 0 <= i < d :: group[i].confidence < m.confidence)
    && (forall i | 0 <= i < |group| :: group[i].confidence <= m.confidence)
    && (forall k, v :: v in At(m.provenance, k) <==> exists i :: 0 <= i < |group| && v in At(group[i].provenance, k))
  }

  lemma RepresentativeStandsFor(group: seq<Candidate>)
    requires group != []
    ensures StandsFor(Representative(group), group)
  {
    var m, n := Representative(group), |group|;
    var d := if n == 1 then 0 else Dominant(group, n);
    assert m.name == group[d].name && m.confidence == group[d].confidence;
    forall k, v ensures v in At(m.provenance, k) <==> exists i :: 0 <= i < n && v in At(group[i].provenance, k) {
      JoinedIsUnion(group, d, n, k, v);
    }
  }

  lemma RepresentativeKeepsProvenance(group: seq<Candidate>, p: Provenance)
    requires group != [] && forall i | 0 <= i < |group| :: group[i].provenance == p
    ensures Representative(group).provenance == p
  {
    if |group| > 1 { JoinedOfSame(group, Dominant(group, |group|), |group|, p); }
  }

  // ---------------------------------------------------------------- the merger

  lemma {:induction false} NamedGroup(lower: Lower, cs: seq<Candidate>, n: string)
    requires n in Names(lower, cs)
    ensures Group(lower, cs, n) != []
  {
    hide Normalize;
    var rest, c := cs[..|cs| - 1], cs[|cs| - 1];
    if n in Names(lower, rest) { NamedGroup(lower, rest, n); }
  }

  /** One candidate for each normalized name. */
  ghost function Merged(lower: Lower, cs: seq<Candidate>): (merged: seq<Candidate>)
    ensures |merged| == |Names(lower, cs)|
  {
    var names := Names(lower, cs);
    seq(|names|, i requires 0 <= i < |names| =>
      NamedGroup(lower, cs, names[i]); Representative(Group(lower, cs, names[i])))
  }

  class EntityMerger {
    const lower: Lower

    constructor (lower: Lower)
      ensures this.lower == lower
    {
      this.lower := lower;
    }

    /** Grouping by normalized name, in the order of first occurrence. */
    method GroupByName(cs: seq<Candidate>) returns (names: seq<string>, groups: map<string, seq<Candidate>>)
      ensures names == Names(lower, cs)
      ensures forall n | n in names :: n in groups && groups[n] == Group(lower, cs, n) && groups[n] != []
    {
      hide Normalize;
      names, groups := [], map[];
      for i := 0 to |cs|
        invariant names == Names(lower, cs[..i])
        invariant forall n :: n in names <==> n in groups
        invariant forall n | n in groups :: groups[n] == Group(lower, cs[..i], n) && groups[n] != []
        invariant forall n | n !in groups :: Group(lower, cs[..i], n) == []
      {
        assert cs[..i + 1][..i] == cs[..i];
        var n := Normalize(lower, cs[i].name);
        if n !in groups {
          names := names + [n];
          groups := groups[n := []];
        }
        groups := groups[n := groups[n] + [cs[i]]];
      }
      assert cs[..|cs|] == cs;
    }

    /** The candidate that stands for a group of several. */
    method MergeGroup(group: seq<Candidate>) returns (m: Candidate)
      requires |group| > 1
      ensures m == Representative(group)
    {
      hide Union;
      var d := 0;
      for i := 1 to |group|
        invariant d == Dominant(group, i)
      {
        if group[i].confidence > group[d].confidence {
          d := i;
        }
      }
      var provenance := group[d].provenance;
      for i := 0 to |group|
        invariant provenance == Joined(group, d, i)
      {
        if i != d {
          provenance := UnionProvenance(provenance, group[i].provenance);
        }
      }
      m := Candidate(group[d].name, group[d].entityType, group[d].confidence, provenance);
    }

    /** `merge` with the dominant strategy. */
    method Merge(cs: seq<Candidate>) returns (merged: seq<Candidate>)
      ensures merged == Merged(lower, cs)
    {
      hide Names, Group;
      var names, groups := GroupByName(cs);
      merged := [];
      for i := 0 to |names|
        invariant |merged| == i
        invariant forall j | 0 <= j < i :: merged[j] == Representative(groups[names[j]])
      {
        var group := groups[names[i]];
        if |group| == 1 {
          merged := merged + [group[0]];
        } else {
          var m := MergeGroup(group);
          merged := merged + [m];
        }
      }
    }
  }

  /** Each candidate of a chunk is stood for by exactly one merged candidate, which bears a name
      of its group, and every merged candidate stands for one group. */
  lemma MergedStandFor(lower: Lower, cs: seq<Candidate>, merged: seq<Candidate>)
    requires merged == Merged(lower, cs)
    ensures forall i | 0 <= i < |merged| :: StandsFor(merged[i], Group(lower, cs, Normalize(lower, merged[i].name)))
    ensures forall i, j | 0 <= i < j < |merged| :: Normalize(lower, merged[i].name) != Normalize(lower, merged[j].name)
    ensures forall c | c in cs :: exists m :: m in merged && Normalize(lower, m.name) == Normalize(lower, c.name)
  {
    hide Names, Group, Normalize;
    var names := Names(lower, cs);
    NamesAre(lower, cs);
    forall i | 0 <= i < |merged|
      ensures StandsFor(merged[i], Group(lower, cs, names[i])) && Normalize(lower, merged[i].name) == names[i]
    {
      NamedGroup(lower, cs, names[i]);
      MergedName(lower, cs, merged[i], names[i]);
    }
    forall c | c in cs ensures exists m :: m in merged && Normalize(lower, m.name) == Normalize(lower, c.name) {
      assert Named(lower, c, Normalize(lower, c.name));
      assert Normalize(lower, c.name) in names;
      var i :| 0 <= i < |names| && names[i] == Normalize(lower, c.name);
      assert merged[i] in merged;
    }
  }

  lemma MergedName(lower: Lower, cs: seq<Candidate>, m: Candidate, n: string)
    requires Group(lower, cs, n) != [] && m == Representative(Group(lower, cs, n))
    ensures StandsFor(m, Group(lower, cs, n)) && Normalize(lower, m.name) == n
  {
    var group := Group(lower, cs, n);
    RepresentativeStandsFor(group);
    GroupIs(lower, cs, n);
    hide Group, Representative;
    var d :| 0 <= d < |group| && m.name == group[d].name;
    assert group[d] in group;
    assert Named(lower, group[d], n);
  }

  /** When all candidates share one provenance, as those of one chunk do, the merged ones have
      it too. */
  lemma MergedProvenance(lower: Lower, cs: seq<Candidate>, merged: seq<Candidate>, p: Provenance)
    requires merged == Merged(lower, cs) && forall c | c in cs :: c.provenance == p
    ensures forall m | m in merged :: m.provenance == p
  {
    forall i | 0 <= i < |merged| ensures merged[i].provenance == p {
      var group := Group(lower, cs, Names(lower, cs)[i]);
      GroupIs(lower, cs, Names(lower, cs)[i]);
      NamedGroup(lower, cs, Names(lower, cs)[i]);
      hide Group, Representative, Names;
      forall j | 0 <= j < |group| ensures group[j].provenance == p { assert group[j] in group; }
      RepresentativeKeepsProvenance(group, p);
    }
  }
}
