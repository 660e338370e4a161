/** Where a graph record was found: string keys to one value or a list of values, and the two
    ways in which the graph builder merges them. */
module Provenance {

  datatype Value = One(text: string) | Many(items: seq<Value>)

  type Provenance = map<string, Value>

  /** The values recorded, whether alone or in a list. */
  ghost function Items(v: Value): set<Value> {
    if v.One? then {v} else set x | x in v.items
  }

  ghost function At(p: Provenance, k: string): set<Value> {
    if k in p then Items(p[k]) else {}
  }

  /** No value is a list, as the extractors produce it. */
  ghost predicate Scalar(p: Provenance) {
    forall k | k in p :: p[k].One?
  }

  /** No list lies inside a list. */
  ghost predicate Flat(v: Value) {
    v.Many? ==> forall x | x in v.items :: x.One?
  }

  function AsList(v: Value): seq<Value> {
    if v.One? then [v] else v.items
  }

  // ---------------------------------------------------------------- the repository's merge

  /** A value that is not there yet is appended as it is, even when it is a list. */
  ghost function Append(current: Value, value: Value): Value {
    if current == value then current
    else if value in AsList(current) then Many(AsList(current))
    else Many(AsList(current) + [value])
  }

  ghost function Merge(left: Provenance, right: Provenance): Provenance {
    map k | k in left.Keys + right.Keys ::
      if k !in left then right[k] else if k !in right then left[k] else Append(left[k], right[k])
  }

  /** `merged` holds the merged values except for the keys still to do. */
  ghost predicate Halfway(left: Provenance, right: Provenance, all: Provenance, merged: Provenance, todo: set<string>) {
    && all.Keys == left.Keys + right.Keys && merged.Keys == left.Keys + (right.Keys - todo)
    && (forall k | k in left && k !in right :: all[k] == left[k])
    && (forall k | k in merged :: merged[k] == if k in todo && k in left then left[k] else all[k])
  }

  lemma KeyOnTheWay(left: Provenance, right: Provenance, all: Provenance, merged: Provenance, todo: set<string>,
                    k: string)
    requires Halfway(left, right, all, merged, todo) && k in todo
    ensures k in merged <==> k in left
    ensures k in left ==> merged[k] == left[k]
  {
  }

  lemma OneKeyMore(left: Provenance, right: Provenance, all: Provenance, merged: Provenance, todo: set<string>,
                   k: string)
    requires Halfway(left, right, all, merged, todo) && k in todo && todo <= right.Keys
    ensures k in all && Halfway(left, right, all, merged[k := all[k]], todo - {k})
  {
  }

  lemma AllKeys(left: Provenance, right: Provenance, all: Provenance, merged: Provenance)
    requires Halfway(left, right, all, merged, {})
    ensures merged == all
  {
  }

  lemma MergeStarts(left: Provenance, right: Provenance)
    ensures Halfway(left, right, Merge(left, right), left, right.Keys)
  {
    hide Append;
  }

  lemma MergeAt(left: Provenance, right: Provenance, k: string)
    requires k in right
    ensures k in Merge(left, right)
    ensures Merge(left, right)[k] == if k in left then Append(left[k], right[k]) else right[k]
  {
  }

  method AppendTo(current: Value, value: Value) returns (r: Value)
    ensures r == Append(current, value)
  {
    if current == value {
      return current;
    }
    var values := AsList(current);
    if value !in values {
      values := values + [value];
    }
    r := Many(values);
  }

  /** `merge_provenance` of the in-memory repository. */
  method MergeProvenance(left: Provenance, right: Provenance) returns (merged: Provenance)
    ensures merged == Merge(left, right)
  {
    hide *;
    merged := left;
    ghost var all := Merge(left, right);
    var todo := right.Keys;
    MergeStarts(left, right);
    while todo != {}
      invariant todo <= right.Keys && Halfway(left, right, all, merged, todo)
      decreases |todo|
    {
      var k :| k in todo;
      var value := right[k];
      MergeAt(left, right, k);
      KeyOnTheWay(left, right, all, merged, todo, k);
      if k in merged {
        value := AppendTo(merged[k], value);
      }
      OneKeyMore(left, right, all, merged, todo, k);
      merged := merged[k := value];
      todo := todo - {k};
    }
    AllKeys(left, right, all, merged);
  }

  /** Merging scalar provenance records the union. */
  lemma MergeIsUnion(left: Provenance, right: Provenance, k: string)
    requires k in right ==> right[k].One?
    ensures At(Merge(left, right), k) == At(left, k) + At(right, k)
  {
  }

  /** With lists the repository's merge records the union only where nothing had to be appended
      to a list: a list value lands inside the list as one entry. */
  lemma MergeIsUnionUnlessNested(left: Provenance, right: Provenance, k: string)
    requires k in left ==> Flat(left[k])
    ensures At(Merge(left, right), k) == At(left, k) + At(right, k)
            <==> k !in left || k !in right || right[k].One? || right[k] == left[k]
  {
    if k in left && k in right && right[k].Many? && right[k] != left[k] {
      var value := right[k];
      assert value !in AsList(left[k]);
      assert Append(left[k], value).items[|AsList(left[k])|] == value;
      assert value in At(Merge(left, right), k);
    }
  }

  /** A list that nests: the chunks "a" and "b" are recorded, but not as values of their own. */
  lemma NestedExample()
    ensures var left: Provenance := map["chunk_id" := One("c")];
            var right: Provenance := map["chunk_id" := Many([One("a"), One("b")])];
            At(Merge(left, right), "chunk_id") != At(left, "chunk_id") + At(right, "chunk_id")
  {
    var left: Provenance := map["chunk_id" := One("c")];
    var right: Provenance := map["chunk_id" := Many([One("a"), One("b")])];
    MergeIsUnionUnlessNested(left, right, "chunk_id");
  }

  /** What has been recorded stays recorded. */
  lemma MergeKeepsItems(left: Provenance, right: Provenance, k: string)
    ensures At(left, k) <= At(Merge(left, right), k)
  {
    if k in left && k in right && right[k] != left[k] {
      var l := AsList(left[k]);
      forall x | x in Items(left[k]) ensures x in Items(Append(left[k], right[k])) {
        assert x in l;
      }
    }
  }

  ghost predicate Recorded(p: Provenance, seen: Provenance) {
    forall k | k in seen :: seen[k] in At(p, k)
  }

  /** Merging scalar provenance that is already recorded changes nothing at all. */
  lemma MergeOfRecorded(left: Provenance, right: Provenance)
    requires Scalar(right) && Recorded(left, right)
    ensures Merge(left, right) == left
  {
    var merged := Merge(left, right);
    forall k | k in merged ensures k in left && merged[k] == left[k] {
      if k in right { assert right[k] in At(left, k); }
    }
    assert merged.Keys == left.Keys;
  }

  lemma MergeRecords(left: Provenance, right: Provenance)
    requires Scalar(right)
    ensures Recorded(Merge(left, right), right)
  {
    forall k | k in right ensures right[k] in At(Merge(left, right), k) {
      MergeIsUnion(left, right, k);
    }
  }

  lemma StaysRecorded(left: Provenance, right: Provenance, seen: Provenance)
    requires Recorded(left, seen)
    ensures Recorded(Merge(left, right), seen)
  {
    forall k | k in seen ensures seen[k] in At(Merge(left, right), k) {
      MergeKeepsItems(left, right, k);
    }
  }

  // ---------------------------------------------------------------- the merger's merge

  ghost function AddAll(values: seq<Value>, more: seq<Value>): seq<Value>
    decreases |more|
  {
    if more == [] then values
    else AddAll(if more[0] in values then values else values + [more[0]], more[1..])
  }

  /** List values are spread out. */
  ghost function Spread(current: Value, value: Value): Value {
    if current == value then current else Many(AddAll(AsList(current), AsList(value)))
  }

  ghost function Union(left: Provenance, right: Provenance): Provenance {
    map k | k in left.Keys + right.Keys ::
      if k !in left then right[k] else if k !in right then left[k] else Spread(left[k], right[k])
  }

  method SpreadTo(current: Value, value: Value) returns (r: Value)
    ensures r == Spread(current, value)
  {
    if current == value {
      return current;
    }
    var values, more := AsList(current), AsList(value);
    while more != []
      invariant AddAll(values, more) == AddAll(AsList(current), AsList(value))
      decreases |more|
    {
      if more[0] !in values {
        values := values + [more[0]];
      }
      more := more[1..];
    }
    r := Many(values);
  }

  /** `_merge_provenance` of the merger. */
  method UnionProvenance(left: Provenance, right: Provenance) returns (merged: Provenance)
    ensures merged == Union(left, right)
  {
    hide *;
    merged := left;
    ghost var all := Union(left, right);
    var todo := right.Keys;
    UnionStarts(left, right);
    while todo != {}
      invariant todo <= right.Keys && Halfway(left, right, all, merged, todo)
      decreases |todo|
    {
      var k :| k in todo;
      var value := right[k];
      UnionAt(left, right, k);
      KeyOnTheWay(left, right, all, merged, todo, k);
      if k in merged {
        value := SpreadTo(merged[k], value);
      }
      OneKeyMore(left, right, all, merged, todo, k);
      merged := merged[k := value];
      todo := todo - {k};
    }
    AllKeys(left, right, all, merged);
  }

  lemma UnionStarts(left: Provenance, right: Provenance)
    ensures Halfway(left, right, Union(left, right), left, right.Keys)
  {
    hide Spread;
  }

  lemma UnionAt(left: Provenance, right: Provenance, k: string)
    requires k in right
    ensures k in Union(left, right)
    ensures Union(left, right)[k] == if k in left then Spread(left[k], right[k]) else right[k]
  {
  }

  lemma {:induction false} AddAllIsUnion(values: seq<Value>, more: seq<Value>)
    ensures (set x | x in AddAll(values, more)) == (set x | x in values) + (set x | x in more)
    decreases |more|
  {
    if more != [] {
      var grown := if more[0] in values then values else values + [more[0]];
      AddAllIsUnion(grown, more[1..]);
      assert (set x | x in more) == {more[0]} + (set x | x in more[1..]);
      assert (set x | x in grown) == (set x | x in values) + {more[0]};
    }
  }

  /** The merger records the union for every kind of value. */
  lemma UnionIsUnion(left: Provenance, right: Provenance, k: string)
    ensures At(Union(left, right), k) == At(left, k) + At(right, k)
  {
    if k in left && k in right { AddAllIsUnion(AsList(left[k]), AsList(right[k])); }
  }
}
