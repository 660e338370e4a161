/** Looking graphs up by chunk: a cache with a time to live in front of batched loads. */
module GraphCache {
  import opened Options

  type Key = string

  /** What the backing store holds for each key. A batch call is pointwise: it returns exactly
      the keys it was asked for, each with its value. */
  type Source<!V> = Key -> V

  ghost function Fetch<V>(source: Source<V>, keys: seq<Key>): map<Key, V> {
    map k | k in keys :: source(k)
  }

  /** The answer holds exactly the keys asked for, each with what the source holds. */
  ghost predicate Direct<V>(source: Source<V>, keys: seq<Key>, answer: map<Key, V>) {
    forall k :: (k in answer <==> k in keys) && (k in answer ==> answer[k] == source(k))
  }

  lemma FetchIsDirect<V>(source: Source<V>, keys: seq<Key>, answer: map<Key, V>)
    ensures Direct(source, keys, answer) <==> answer == Fetch(source, keys)
  {
    if Direct(source, keys, answer) { assert answer.Keys == Fetch(source, keys).Keys; }
  }

  // ---------------------------------------------------------------- batches

  ghost function Concat(batches: seq<seq<Key>>): seq<Key> {
    if batches == [] then [] else Concat(batches[..|batches| - 1]) + batches[|batches| - 1]
  }

  class BatchLoader<V> {
    const source: Source<V>
    const maxBatch: int
    /** The batches asked for so far. */
    ghost var asked: seq<seq<Key>>

    constructor (source: Source<V>, maxBatch: int)
      ensures this.maxBatch == maxBatch && this.source == source && asked == []
    {
      this.source, this.maxBatch := source, maxBatch;
      asked := [];
    }

    /** `load_many`: `None` when the step of the range is zero and `range` raises. With a
        negative step no batch is made and nothing is loaded. */
    method LoadMany(keys: seq<Key>) returns (results: Option<map<Key, V>>)
      modifies this
      ensures results == None <==> maxBatch == 0
      ensures maxBatch < 0 ==> results == Some(map[]) && asked == old(asked)
      ensures maxBatch > 0 ==>
                && results.Some? && Direct(source, keys, results.value)
                && exists made :: asked == old(asked) + made && Cuts(keys, maxBatch, made)
    {
      hide CutsUpTo, Cuts, Fetch, Direct;
      if maxBatch == 0 {
        return None;
      }
      var loaded: map<Key, V> := map[];
      ghost var made: seq<seq<Key>> := [];
      var i := 0;
      NothingCut(source, keys, maxBatch);
      while maxBatch > 0 && i < |keys|
        invariant 0 <= i && asked == old(asked) + made
        invariant maxBatch > 0 ==>
                    CutsUpTo(keys, maxBatch, made, i) && loaded == Fetch(source, keys[..Least(i, |keys|)])
        invariant maxBatch < 0 ==> loaded == map[] && made == []
        decreases |keys| - i
      {
        var batch := keys[i..Least(i + maxBatch, |keys|)];
        asked := asked + [batch];
        CutOneMore(keys, maxBatch, made, i);
        made := made + [batch];
        FetchBoth(source, keys[..i], batch);
        BatchFetched(source, batch);
        loaded := loaded + map k | k in batch :: source(k);
        assert keys[..Least(i + maxBatch, |keys|)] == keys[..i] + batch;
        i := i + maxBatch;
      }
      assert maxBatch > 0 ==> keys[..Least(i, |keys|)] == keys;
      if maxBatch > 0 { AllCut(keys, maxBatch, made, i); }
      FetchIsDirect(source, keys, loaded);
      results := Some(loaded);
    }
  }

  /** What a batch call returns. */
  lemma BatchFetched<V>(source: Source<V>, batch: seq<Key>)
    ensures Fetch(source, batch) == map k | k in batch :: source(k)
  {
  }

  function Least(a: int, b: int): int {
    if a < b then a else b
  }

  /** The batches are the keys cut in order into pieces of 1 to `most` keys, as few as
      possible. */
  ghost predicate Cuts(keys: seq<Key>, most: int, batches: seq<seq<Key>>)
    requires most > 0
  {
    && Concat(batches) == keys
    && (forall b | b in batches :: 1 <= |b| <= most)
    && |batches| == (|keys| + most - 1) / most
  }

  /** The batches made before position `i`. */
  ghost predicate CutsUpTo(keys: seq<Key>, most: int, batches: seq<seq<Key>>, i: int) {
    && 0 <= i && i == |batches| * most && (i < |keys| + most)
    && Concat(batches) == keys[..Least(i, |keys|)]
    && forall b | b in batches :: 1 <= |b| <= most
  }

  lemma NothingCut<V>(source: Source<V>, keys: seq<Key>, most: int)
    ensures most > 0 ==> CutsUpTo(keys, most, [], 0)
    ensures Fetch(source, keys[..Least(0, |keys|)]) == map[]
  {
  }

  lemma FetchBoth<V>(source: Source<V>, a: seq<Key>, b: seq<Key>)
    ensures Fetch(source, a) + Fetch(source, b) == Fetch(source, a + b)
  {
    assert (Fetch(source, a) + Fetch(source, b)).Keys == Fetch(source, a + b).Keys;
  }

  lemma CutOneMore(keys: seq<Key>, most: int, batches: seq<seq<Key>>, i: int)
    requires most > 0 && CutsUpTo(keys, most, batches, i) && i < |keys|
    ensures CutsUpTo(keys, most, batches + [keys[i..Least(i + most, |keys|)]], i + most)
  {
    var batch := keys[i..Least(i + most, |keys|)];
    assert (batches + [batch])[..|batches|] == batches;
    assert keys[..i] + batch == keys[..Least(i + most, |keys|)];
    NextMultiple(|batches|, most);
  }

  lemma NextMultiple(n: int, most: int)
    ensures (n + 1) * most == n * most + most
  {
  }

  lemma AllCut(keys: seq<Key>, most: int, batches: seq<seq<Key>>, i: int)
    requires most > 0 && CutsUpTo(keys, most, batches, i) && i >= |keys|
    ensures Cuts(keys, most, batches)
  {
    assert keys[..|keys|] == keys;
    Quotient(|keys|, most, |batches|);
  }

  /** The least n with n * most >= size is the size divided by `most`, rounded up. */
  lemma Quotient(size: nat, most: int, n: nat)
    requires most > 0 && size <= n * most < size + most
    ensures n == (size + most - 1) / most
  {
    var q := (size + most - 1) / most;
    assert q * most <= size + most - 1 < q * most + most;
    if n < q { Products(n, q, most); }
    if n > q { Products(q, n, most); }
  }

  lemma {:induction false} Products(a: int, b: int, most: int)
    requires a < b && most > 0
    ensures a * most + most <= b * most
    decreases b - a
  {
    assert b * most == (b - 1) * most + most;
    if a + 1 < b { Products(a, b - 1, most); }
  }

  // ---------------------------------------------------------------- the cache

  type Store<V> = map<Key, (V, real)>

  /** The entry of the key is younger than the time to live. */
  ghost predicate Live<V>(store: Store<V>, ttl: real, k: Key, now: real) {
    k in store && now - store[k].1 < ttl
  }

  class QueryCache<V(==)> {
    const ttl: real
    var store: Store<V>

    constructor (ttl: real)
      ensures this.ttl == ttl && store == map[]
    {
      this.ttl, store := ttl, map[];
    }

    /** Every cached value, expired or not, is what the source holds. */
    ghost predicate Coherent(source: Source<V>)
      reads this
    {
      forall k | k in store :: store[k].0 == source(k)
    }

    /** `get` at a time: an expired entry is dropped. */
    method Get(k: Key, now: real) returns (v: Option<V>)
      modifies this
      ensures k in old(store) && now - old(store)[k].1 < ttl ==> v == Some(old(store)[k].0) && store == old(store)
      ensures !(k in old(store) && now - old(store)[k].1 < ttl) ==> v == None && store == old(store) - {k}
    {
      if k in store {
        if now - store[k].1 < ttl {
          return Some(store[k].0);
        }
        store := store - {k};
      }
      return None;
    }

    method Set(k: Key, v: V, now: real)
      modifies this
      ensures store == old(store)[k := (v, now)]
    {
      store := store[k := (v, now)];
    }
  }

  ghost predicate Monotone(clock: nat -> real) {
    forall i: nat, j: nat | i <= j :: clock(i) <= clock(j)
  }

  /** The looks, of the first `n`, that find no live entry; look `i` is at key `i`, at time
      `clock(i)`. */
  ghost function Misses<V>(store: Store<V>, ttl: real, keys: seq<Key>, clock: nat -> real, n: nat): seq<Key>
    requires n <= |keys|
  {
    if n == 0 then []
    else
      Misses(store, ttl, keys, clock, n - 1)
      + if Live(store, ttl, keys[n - 1], clock(n - 1)) then [] else [keys[n - 1]]
  }

  /** One of the first `n` looks at key `k` finds a live entry. */
  ghost predicate Hit<V>(store: Store<V>, ttl: real, keys: seq<Key>, clock: nat -> real, n: nat, k: Key)
    requires n <= |keys|
  {
    exists i: nat :: i < n && keys[i] == k && Live(store, ttl, k, clock(i))
  }

  /** After the first `n` looks only entries that were found expired are gone. */
  ghost predicate Dropped<V>(store: Store<V>, now: Store<V>, ttl: real, keys: seq<Key>, clock: nat -> real, n: nat)
    requires n <= |keys|
  {
    && (forall k | k in now :: k in store && now[k] == store[k])
    && (forall k | k in store && k !in now :: exists i: nat :: i < n && keys[i] == k && !Live(store, ttl, k, clock(i)))
  }

  /** What is live in the store now was live before all the looks, and the other way round. */
  lemma SameLife<V>(store: Store<V>, now: Store<V>, ttl: real, keys: seq<Key>, clock: nat -> real, n: nat)
    requires n < |keys| && Dropped(store, now, ttl, keys, clock, n) && Monotone(clock)
    ensures Live(now, ttl, keys[n], clock(n)) <==> Live(store, ttl, keys[n], clock(n))
  {
    var k := keys[n];
    if k in store && k !in now {
      var i: nat :| i < n && keys[i] == k && !Live(store, ttl, k, clock(i));
      assert clock(i) <= clock(n);
    }
  }

  lemma DroppedMore<V>(store: Store<V>, now: Store<V>, ttl: real, keys: seq<Key>, clock: nat -> real, n: nat)
    requires n < |keys| && Dropped(store, now, ttl, keys, clock, n)
    ensures Live(store, ttl, keys[n], clock(n)) ==> Dropped(store, now, ttl, keys, clock, n + 1)
    ensures !Live(store, ttl, keys[n], clock(n)) ==> Dropped(store, now - {keys[n]}, ttl, keys, clock, n + 1)
  {
    hide Live;
  }

  /** `found` holds the keys of the first `n` looks that had a hit. */
  ghost predicate Found<V>(source: Source<V>, store: Store<V>, ttl: real, keys: seq<Key>, clock: nat -> real, n: nat,
                           found: map<Key, V>)
    requires n <= |keys|
  {
    forall k :: (k in found <==> Hit(store, ttl, keys, clock, n, k)) && (k in found ==> found[k] == source(k))
  }

  lemma FoundMore<V>(source: Source<V>, store: Store<V>, ttl: real, keys: seq<Key>, clock: nat -> real, n: nat,
                     found: map<Key, V>)
    requires n < |keys| && Found(source, store, ttl, keys, clock, n, found)
    ensures var live := Live(store, ttl, keys[n], clock(n));
            Found(source, store, ttl, keys, clock, n + 1, if live then found[keys[n] := source(keys[n])] else found)
  {
    hide Live;
    var m := n + 1;
    forall k ensures Hit(store, ttl, keys, clock, m, k)
                     <==> Hit(store, ttl, keys, clock, n, k) || (keys[n] == k && Live(store, ttl, k, clock(n))) {
    }
    hide Hit;
  }

  /** The first loop of `cached_graph_lookup`. */
  method Probe<V(==)>(cache: QueryCache<V>, ghost source: Source<V>, keys: seq<Key>, clock: nat -> real)
    returns (found: map<Key, V>, missing: seq<Key>)
    requires cache.Coherent(source) && Monotone(clock)
    modifies cache
    ensures cache.Coherent(source)
    ensures missing == Misses(old(cache.store), cache.ttl, keys, clock, |keys|)
    ensures Found(source, old(cache.store), cache.ttl, keys, clock, |keys|, found)
  {
    found, missing := map[], [];
    ghost var store := cache.store;
    assert Found(source, store, cache.ttl, keys, clock, 0, found) && Dropped(store, store, cache.ttl, keys, clock, 0);
    hide Found, Dropped, Monotone;
    for i := 0 to |keys|
      invariant cache.Coherent(source) && Dropped(store, cache.store, cache.ttl, keys, clock, i)
      invariant missing == Misses(store, cache.ttl, keys, clock, i)
      invariant Found(source, store, cache.ttl, keys, clock, i, found)
    {
      SameLife(store, cache.store, cache.ttl, keys, clock, i);
      DroppedMore(store, cache.store, cache.ttl, keys, clock, i);
      FoundMore(source, store, cache.ttl, keys, clock, i, found);
      LiveIsThere(cache.store, cache.ttl, keys[i], clock(i));
      var v := cache.Get(keys[i], clock(i));
      if v.Some? {
        found := found[keys[i] := v.value];
      } else {
        missing := missing + [keys[i]];
      }
    }
  }

  lemma LiveIsThere<V>(store: Store<V>, ttl: real, k: Key, now: real)
    ensures Live(store, ttl, k, now) ==> k in store
  {
  }

  /** The second loop: what was fetched is cached and added to the hits. */
  method Remember<V(==)>(cache: QueryCache<V>, ghost source: Source<V>, found: map<Key, V>, fetched: map<Key, V>,
                         clock: nat -> real, start: nat)
    returns (hits: map<Key, V>)
    requires cache.Coherent(source) && forall k | k in fetched :: fetched[k] == source(k)
    modifies cache
    ensures cache.Coherent(source) && hits == found + fetched
  {
    hits := found;
    var todo, tick := fetched.Keys, start;
    while todo != {}
      invariant todo <= fetched.Keys && cache.Coherent(source)
      invariant hits + fetched == found + fetched
      invariant forall k | k in fetched && k !in todo :: k in hits && hits[k] == fetched[k]
      decreases |todo|
    {
      var k :| k in todo;
      assert hits[k := fetched[k]] + fetched == hits + fetched;
      cache.Set(k, fetched[k], clock(tick));
      hits := hits[k := fetched[k]];
      todo, tick := todo - {k}, tick + 1;
    }
    assert hits == hits + fetched;
  }

  /** `cached_graph_lookup`; look `i` is at time `clock(i)`. Whatever is cached, expired, missing
      or asked for twice, the answer is the direct lookup, provided the loader can make batches
      or no look misses; with a negative batch size it is so exactly if every key was live at
      one of its looks. Exactly the misses are loaded. */
  method CachedGraphLookup<V(==)>(cache: QueryCache<V>, loader: BatchLoader<V>, keys: seq<Key>, clock: nat -> real)
    returns (hits: Option<map<Key, V>>)
    requires cache.Coherent(loader.source) && Monotone(clock)
    modifies cache, loader
    ensures cache.Coherent(loader.source)
    ensures var misses := Misses(old(cache.store), cache.ttl, keys, clock, |keys|);
            && (loader.maxBatch > 0 || misses == [] ==> hits.Some? && Direct(loader.source, keys, hits.value))
            && (loader.maxBatch == 0 && misses != [] ==> hits == None)
            && (misses == [] ==> loader.asked == old(loader.asked))
            && (misses != [] && loader.maxBatch > 0 ==>
                  exists made :: loader.asked == old(loader.asked) + made && Cuts(misses, loader.maxBatch, made))
    ensures loader.maxBatch < 0 ==>
              && hits.Some? && Found(loader.source, old(cache.store), cache.ttl, keys, clock, |keys|, hits.value)
              && (Direct(loader.source, keys, hits.value)
                  <==> forall k | k in keys :: Hit(old(cache.store), cache.ttl, keys, clock, |keys|, k))
  {
    hide Cuts, Found, Monotone, Hit;
    ghost var store := cache.store;
    var found, missing := Probe(cache, loader.source, keys, clock);
    DirectLookup(loader.source, store, cache.ttl, keys, clock, found);
    hide Fetch, Direct;
    FetchIsDirect(loader.source, keys, found);
    if missing == [] {
      return Some(found);
    }
    var fetched := loader.LoadMany(missing);
    if fetched == None {
      return None;
    }
    FetchIsDirect(loader.source, missing, fetched.value);
    FetchedAre(loader.source, missing);
    var all := Remember(cache, loader.source, found, fetched.value, clock, |keys|);
    assert fetched.value == map[] ==> all == found;
    FetchIsDirect(loader.source, keys, all);
    hits := Some(all);
  }

  lemma FetchedAre<V>(source: Source<V>, keys: seq<Key>)
    ensures forall k | k in Fetch(source, keys) :: Fetch(source, keys)[k] == source(k)
  {
  }

  lemma {:induction false} MissesAre<V>(store: Store<V>, ttl: real, keys: seq<Key>, clock: nat -> real, n: nat, k: Key)
    requires n <= |keys|
    ensures k in Misses(store, ttl, keys, clock, n)
            <==> exists i: nat :: i < n && keys[i] == k && !Live(store, ttl, k, clock(i))
  {
    hide Live;
    if n > 0 { MissesAre(store, ttl, keys, clock, n - 1, k); }
  }

  lemma DirectLookup<V>(source: Source<V>, store: Store<V>, ttl: real, keys: seq<Key>, clock: nat -> real,
                        found: map<Key, V>)
    requires Found(source, store, ttl, keys, clock, |keys|, found)
    ensures var misses := Misses(store, ttl, keys, clock, |keys|);
            && found + Fetch(source, misses) == Fetch(source, keys)
            && (misses == [] ==> found == Fetch(source, keys))
    ensures found == Fetch(source, keys) <==> forall k | k in keys :: Hit(store, ttl, keys, clock, |keys|, k)
  {
    hide Live, Misses;
    var misses := Misses(store, ttl, keys, clock, |keys|);
    forall k ensures k in found || k in misses <==> k in keys {
      MissesAre(store, ttl, keys, clock, |keys|, k);
      if k in keys {
        var i: nat :| i < |keys| && keys[i] == k;
        assert Live(store, ttl, k, clock(i)) || !Live(store, ttl, k, clock(i));
      }
    }
    assert (found + Fetch(source, misses)).Keys == Fetch(source, keys).Keys;
    assert misses == [] ==> found + Fetch(source, misses) == found;
    forall k | k in found ensures k in keys { assert Hit(store, ttl, keys, clock, |keys|, k); }
    hide Hit;
    if forall k | k in keys :: Hit(store, ttl, keys, clock, |keys|, k) {
      assert found.Keys == Fetch(source, keys).Keys;
    }
  }

  /** With a negative batch size the answer to one key that is not cached is empty. */
  method NegativeBatchExample() returns (hits: Option<map<Key, int>>)
    ensures hits == Some(map[]) && !Direct((k: Key) => 7, ["a"], map[])
  {
    var cache := new QueryCache<int>(60.0);
    var loader := new BatchLoader<int>((k: Key) => 7, -1);
    var clock: nat -> real := n => n as real;
    ghost var store := cache.store;
    hits := CachedGraphLookup(cache, loader, ["a"], clock);
    assert forall k :: !Hit(store, 60.0, ["a"], clock, 1, k);
    assert hits.value == map[];
    assert "a" in ["a"];
  }
}
