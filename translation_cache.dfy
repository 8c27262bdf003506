/**
 * The process-wide translation cache: a JavaScript `Map` from trimmed source
 * text to its translation, kept in insertion order and capped at
 * MAX_CACHE_SIZE entries. When full, the oldest inserted key is deleted
 * before a new entry is set (first in, first out); reads never reorder it.
 */
module TranslationCache {
  import opened JsValues

  const MAX_CACHE_SIZE: nat := 5000

  /** The abstract content of a JavaScript `Map`: its keys in insertion order, and its entries. */
  datatype CacheState = CacheState(order: seq<string>, entries: map<string, Value>)

  const Empty := CacheState([], map[])

  predicate Distinct(s: seq<string>) {
    forall i, j :: 0 <= i < j < |s| ==> s[i] != s[j]
  }

  /** `order` lists every key of `entries` exactly once. */
  ghost predicate WellFormed(c: CacheState) {
    && Distinct(c.order)
    && (forall k :: k in c.entries <==> k in c.order)
  }

  /** The invariant every resolution path keeps. */
  ghost predicate Bounded(c: CacheState, cap: nat) {
    WellFormed(c) && |c.order| <= cap
  }

  /** `s` with every occurrence of `k` removed, the rest in order. */
  function Without(s: seq<string>, k: string): seq<string> {
    if s == [] then []
    else if s[0] == k then Without(s[1..], k)
    else [s[0]] + Without(s[1..], k)
  }

  /** Deleting `k` keeps every other key and only those. */
  lemma {:induction false} WithoutMembers(s: seq<string>, k: string)
    ensures forall x :: x in Without(s, k) <==> x in s && x != k
    ensures |Without(s, k)| <= |s|
  {
    if s != [] {
      WithoutMembers(s[1..], k);
    }
  }

  lemma {:induction false} WithoutDistinct(s: seq<string>, k: string)
    requires Distinct(s)
    ensures Distinct(Without(s, k))
  {
    if s != [] {
      WithoutDistinct(s[1..], k);
      WithoutMembers(s[1..], k);
      if s[0] != k {
        assert s[0] !in s[1..];
        assert s[0] !in Without(s[1..], k);
      }
    }
  }

  lemma {:induction false} WithoutAbsent(s: seq<string>, k: string)
    requires k !in s
    ensures Without(s, k) == s
  {
    if s != [] {
      WithoutAbsent(s[1..], k);
    }
  }

  /** Deleting the first key of a duplicate-free order drops exactly the head. */
  lemma WithoutHead(s: seq<string>)
    requires Distinct(s) && s != []
    ensures Without(s, s[0]) == s[1..]
  {
    assert s[0] !in s[1..];
    WithoutAbsent(s[1..], s[0]);
  }

  /** `map.delete(k)` */
  function Deleted(c: CacheState, k: string): CacheState {
    CacheState(Without(c.order, k), c.entries - {k})
  }

  /** `map.set(k, v)`: an existing key keeps its place in the insertion order. */
  function Inserted(c: CacheState, k: string, v: Value): CacheState {
    if k in c.entries then CacheState(c.order, c.entries[k := v])
    else CacheState(c.order + [k], c.entries[k := v])
  }

  /**
   * The store step of both resolution paths: when the map holds `cap` or more
   * entries, its first key is deleted; then `k` is set to `v`.
   */
  function Put(c: CacheState, cap: nat, k: string, v: Value): CacheState {
    var evicted := if |c.order| >= cap && c.order != [] then Deleted(c, c.order[0]) else c;
    Inserted(evicted, k, v)
  }

  /** The stores of one batch, in request order: `(ks[j], vs[j])` for j < n. */
  function PutAll(c: CacheState, cap: nat, ks: seq<string>, vs: seq<Value>, n: nat): CacheState
    requires n <= |ks| && n <= |vs|
  {
    if n == 0 then c else Put(PutAll(c, cap, ks, vs, n - 1), cap, ks[n - 1], vs[n - 1])
  }

  lemma {:induction false} DistinctCard(s: seq<string>)
    requires Distinct(s)
    ensures |set x | x in s| == |s|
  {
    if s != [] {
      DistinctCard(s[1..]);
      assert (set x | x in s) == {s[0]} + (set x | x in s[1..]);
    }
  }

  /** The size of the map (the number of its entries) is the length of its key order. */
  lemma SizeIsCount(c: CacheState)
    requires WellFormed(c)
    ensures |c.entries| == |c.order|
  {
    DistinctCard(c.order);
    assert c.entries.Keys == set x | x in c.order;
  }

  /**
   * What one store does. Below capacity it is a plain `set`: the order gains
   * `k` at its end only if `k` is new. At capacity the oldest key is dropped
   * first, whatever was read since, and then `k` is set.
   */
  lemma PutEffect(c: CacheState, cap: nat, k: string, v: Value)
    requires Bounded(c, cap) && cap >= 1
    ensures var r := Put(c, cap, k, v);
      |c.order| < cap ==>
        && r.order == c.order + (if k in c.entries then [] else [k])
        && r.entries == c.entries[k := v]
    ensures var r := Put(c, cap, k, v);
      |c.order| >= cap ==>
        && r.order == c.order[1..] + (if k in c.order[1..] then [] else [k])
        && r.entries == (c.entries - {c.order[0]})[k := v]
  {
    if |c.order| >= cap {
      WithoutHead(c.order);
      var d := Deleted(c, c.order[0]);
      assert forall x :: x in d.entries <==> x in c.order[1..];
    }
  }

  /** One store keeps the map well formed and within its capacity, and leaves `k` mapped to `v`. */
  lemma PutBounded(c: CacheState, cap: nat, k: string, v: Value)
    requires Bounded(c, cap) && cap >= 1
    ensures var r := Put(c, cap, k, v);
      Bounded(r, cap) && k in r.entries && r.entries[k] == v
  {
    PutEffect(c, cap, k, v);
    if |c.order| >= cap {
      assert c.order[0] !in c.order[1..];
    }
  }

  /** Every batch of stores keeps the map well formed and within its capacity. */
  lemma {:induction false} PutAllBounded(c: CacheState, cap: nat, ks: seq<string>, vs: seq<Value>, n: nat)
    requires Bounded(c, cap) && cap >= 1
    requires n <= |ks| && n <= |vs|
    ensures Bounded(PutAll(c, cap, ks, vs, n), cap)
  {
    if n > 0 {
      PutAllBounded(c, cap, ks, vs, n - 1);
      PutBounded(PutAll(c, cap, ks, vs, n - 1), cap, ks[n - 1], vs[n - 1]);
    }
  }

  /**
   * While the stores of a batch fit within the capacity nothing is evicted:
   * every key held before is still held, and every stored key is present.
   */
  lemma {:induction false} PutAllKeeps(c: CacheState, cap: nat, ks: seq<string>, vs: seq<Value>, n: nat)
    requires Bounded(c, cap)
    requires n <= |ks| && n <= |vs| && |c.order| + n <= cap
    ensures |PutAll(c, cap, ks, vs, n).order| <= |c.order| + n
    ensures c.entries.Keys <= PutAll(c, cap, ks, vs, n).entries.Keys
    ensures forall j :: 0 <= j < n ==> ks[j] in PutAll(c, cap, ks, vs, n).entries
  {
    if n > 0 {
      PutAllKeeps(c, cap, ks, vs, n - 1);
      var prev := PutAll(c, cap, ks, vs, n - 1);
      PutAllBounded(c, cap, ks, vs, n - 1);
      PutEffect(prev, cap, ks[n - 1], vs[n - 1]);
    }
  }

  /**
   * While the stores of a batch fit within the capacity, a key holds the
   * value of its last store.
   */
  lemma {:induction false} PutAllLast(c: CacheState, cap: nat, ks: seq<string>, vs: seq<Value>, n: nat, j: nat)
    requires Bounded(c, cap)
    requires n <= |ks| && n <= |vs| && |c.order| + n <= cap
    requires j < n && forall m :: j < m < n ==> ks[m] != ks[j]
    ensures ks[j] in PutAll(c, cap, ks, vs, n).entries
    ensures PutAll(c, cap, ks, vs, n).entries[ks[j]] == vs[j]
  {
    PutAllKeeps(c, cap, ks, vs, n - 1);
    var prev := PutAll(c, cap, ks, vs, n - 1);
    assert PutAll(c, cap, ks, vs, n).entries == prev.entries[ks[n - 1] := vs[n - 1]];
    if j < n - 1 {
      PutAllLast(c, cap, ks, vs, n - 1, j);
    }
  }

  /** A batch of stores adds no key but its own: every key held afterwards was held before or was stored. */
  lemma {:induction false} PutAllFrame(c: CacheState, cap: nat, ks: seq<string>, vs: seq<Value>, n: nat)
    requires n <= |ks| && n <= |vs|
    ensures forall k :: k in PutAll(c, cap, ks, vs, n).entries ==> k in c.entries || k in ks[..n]
  {
    if n > 0 {
      PutAllFrame(c, cap, ks, vs, n - 1);
      assert ks[..n] == ks[..n - 1] + [ks[n - 1]];
    }
  }

  /**
   * One store into a map whose first `|order| - m` keys are all in `held`,
   * with fewer than `cap` later ones: the map keeps that shape with one more
   * later key, and a key outside `held` is never the one evicted.
   */
  lemma PutKeepsNewer(prev: CacheState, cap: nat, k: string, v: Value, m: nat, held: map<string, Value>)
    requires Bounded(prev, cap) && m < cap
    requires forall i :: 0 <= i < |prev.order| - m ==> prev.order[i] in held
    ensures k in Put(prev, cap, k, v).entries && Put(prev, cap, k, v).entries[k] == v
    ensures forall i :: 0 <= i < |Put(prev, cap, k, v).order| - (m + 1) ==> Put(prev, cap, k, v).order[i] in held
    ensures forall x :: x in prev.entries && x !in held ==> x in Put(prev, cap, k, v).entries
    ensures forall x :: x in prev.entries && x !in held && x != k ==> Put(prev, cap, k, v).entries[x] == prev.entries[x]
  {
    var r := Put(prev, cap, k, v);
    PutEffect(prev, cap, k, v);
    if |prev.order| >= cap {
      assert prev.order[0] in held;
      forall i | 0 <= i < |r.order| - (m + 1)
        ensures r.order[i] in held
      {
        assert r.order[i] == prev.order[i + 1];
      }
    } else {
      forall i | 0 <= i < |r.order| - (m + 1)
        ensures r.order[i] in held
      {
        assert r.order[i] == prev.order[i];
      }
    }
  }

  /**
   * A batch of at most `cap` keys the map did not hold evicts none of them,
   * even from a full map: each stored key goes in after every key held
   * before, so only keys held before are evicted.
   */
  lemma {:induction false} PutAllFresh(c: CacheState, cap: nat, ks: seq<string>, vs: seq<Value>, n: nat)
    requires Bounded(c, cap)
    requires n <= |ks| && n <= |vs| && n <= cap
    requires forall m :: 0 <= m < n ==> ks[m] !in c.entries
    ensures forall i :: 0 <= i < |PutAll(c, cap, ks, vs, n).order| - n ==> PutAll(c, cap, ks, vs, n).order[i] in c.entries
    ensures forall j :: 0 <= j < n ==> ks[j] in PutAll(c, cap, ks, vs, n).entries
  {
    if n > 0 {
      PutAllFresh(c, cap, ks, vs, n - 1);
      PutAllBounded(c, cap, ks, vs, n - 1);
      var prev := PutAll(c, cap, ks, vs, n - 1);
      PutKeepsNewer(prev, cap, ks[n - 1], vs[n - 1], n - 1, c.entries);
      var r := PutAll(c, cap, ks, vs, n);
      assert r == Put(prev, cap, ks[n - 1], vs[n - 1]);
      forall j | 0 <= j < n
        ensures ks[j] in r.entries
      {
        if j < n - 1 {
          assert ks[j] in prev.entries && ks[j] !in c.entries;
        }
      }
    }
  }

  /** In such a batch a key holds the value of its last store, even in a full map. */
  lemma {:induction false} PutAllFreshLast(c: CacheState, cap: nat, ks: seq<string>, vs: seq<Value>, n: nat, j: nat)
    requires Bounded(c, cap)
    requires n <= |ks| && n <= |vs| && n <= cap
    requires forall m :: 0 <= m < n ==> ks[m] !in c.entries
    requires j < n && forall m :: j < m < n ==> ks[m] != ks[j]
    ensures ks[j] in PutAll(c, cap, ks, vs, n).entries
    ensures PutAll(c, cap, ks, vs, n).entries[ks[j]] == vs[j]
  {
    var prev := PutAll(c, cap, ks, vs, n - 1);
    var r := PutAll(c, cap, ks, vs, n);
    assert r == Put(prev, cap, ks[n - 1], vs[n - 1]);
    PutAllFresh(c, cap, ks, vs, n - 1);
    PutAllBounded(c, cap, ks, vs, n - 1);
    PutKeepsNewer(prev, cap, ks[n - 1], vs[n - 1], n - 1, c.entries);
    if j < n - 1 {
      PutAllFreshLast(c, cap, ks, vs, n - 1, j);
      assert ks[j] in prev.entries && ks[j] !in c.entries && ks[j] != ks[n - 1];
      assert ks[j] in r.entries && r.entries[ks[j]] == prev.entries[ks[j]];
    } else {
      assert ks[j] == ks[n - 1];
    }
  }

  /** Below capacity, storing a new key appends it and evicts nothing. */
  lemma PutFresh(c: CacheState, cap: nat, k: string, v: Value)
    requires |c.order| < cap && k !in c.entries
    ensures Put(c, cap, k, v) == CacheState(c.order + [k], c.entries[k := v])
  {
  }

  /** Each of the first `n` keys differs from every key before it. */
  predicate FreshKeys(ks: seq<string>, n: nat)
    requires n <= |ks|
  {
    n == 0 || (FreshKeys(ks, n - 1) && ks[n - 1] !in ks[..n - 1])
  }

  lemma {:induction false} DistinctFresh(ks: seq<string>, n: nat)
    requires Distinct(ks) && n <= |ks|
    ensures FreshKeys(ks, n)
  {
    if n > 0 {
      DistinctFresh(ks, n - 1);
    }
  }

  /** Up to `cap` distinct keys stored into an empty map are kept, in the order they were stored, and nothing else is. */
  lemma {:induction false} FillOrder(cap: nat, ks: seq<string>, vs: seq<Value>, n: nat)
    requires |vs| == |ks| && n <= |ks| && n <= cap && FreshKeys(ks, n)
    ensures PutAll(Empty, cap, ks, vs, n).order == ks[..n]
    ensures PutAll(Empty, cap, ks, vs, n).entries.Keys == set k | k in ks[..n]
  {
    if n > 0 {
      FillOrder(cap, ks, vs, n - 1);
      var prev := PutAll(Empty, cap, ks, vs, n - 1);
      PutFresh(prev, cap, ks[n - 1], vs[n - 1]);
      assert ks[..n] == ks[..n - 1] + [ks[n - 1]];
    }
  }

  /** Up to `cap` distinct keys stored into an empty map each keep the value stored with them. */
  lemma {:induction false} FillKeepsValues(cap: nat, ks: seq<string>, vs: seq<Value>, n: nat)
    requires |vs| == |ks| && n <= |ks| && n <= cap && FreshKeys(ks, n)
    ensures forall j :: 0 <= j < n ==>
      ks[j] in PutAll(Empty, cap, ks, vs, n).entries && PutAll(Empty, cap, ks, vs, n).entries[ks[j]] == vs[j]
  {
    if n > 0 {
      FillKeepsValues(cap, ks, vs, n - 1);
      FillOrder(cap, ks, vs, n - 1);
      var prev := PutAll(Empty, cap, ks, vs, n - 1);
      PutFresh(prev, cap, ks[n - 1], vs[n - 1]);
      var r := PutAll(Empty, cap, ks, vs, n);
      assert r.entries == prev.entries[ks[n - 1] := vs[n - 1]];
      forall j | 0 <= j < n - 1
        ensures ks[j] in r.entries && r.entries[ks[j]] == vs[j]
      {
        assert ks[j] in ks[..n - 1];
      }
    }
  }

  /**
   * After `cap + 1` distinct keys are stored into an empty map, the first one
   * is gone and every later one is still there with its value.
   */
  lemma OverflowEvictsFirst(cap: nat, ks: seq<string>, vs: seq<Value>)
    requires cap >= 1 && Distinct(ks) && |ks| == cap + 1 && |vs| == |ks|
    ensures ks[0] !in PutAll(Empty, cap, ks, vs, cap + 1).entries
    ensures forall j :: 1 <= j <= cap ==>
      ks[j] in PutAll(Empty, cap, ks, vs, cap + 1).entries && PutAll(Empty, cap, ks, vs, cap + 1).entries[ks[j]] == vs[j]
  {
    DistinctFresh(ks, cap);
    FillOrder(cap, ks, vs, cap);
    FillKeepsValues(cap, ks, vs, cap);
    PutAllBounded(Empty, cap, ks, vs, cap);
    var full := PutAll(Empty, cap, ks, vs, cap);
    var r := PutAll(Empty, cap, ks, vs, cap + 1);
    assert full.order[0] == ks[0];
    PutEffect(full, cap, ks[cap], vs[cap]);
    var keep := full.entries - {ks[0]};
    assert r.entries == keep[ks[cap] := vs[cap]];
    assert ks[0] != ks[cap];
    forall j | 1 <= j <= cap
      ensures ks[j] in r.entries && r.entries[ks[j]] == vs[j]
    {
      if j < cap {
        assert ks[j] in full.entries && full.entries[ks[j]] == vs[j];
        assert ks[j] != ks[0] && ks[j] != ks[cap];
        assert ks[j] in keep && keep[ks[j]] == vs[j];
      }
    }
  }

  /** With room for two entries, storing a, b, c in that order evicts a and keeps b and c. */
  lemma CapacityTwoExample(ks: seq<string>, vs: seq<Value>)
    requires ks == ["a", "b", "c"] && vs == [Str("A"), Str("B"), Str("C")]
    ensures "a" !in PutAll(Empty, 2, ks, vs, 3).entries
    ensures "b" in PutAll(Empty, 2, ks, vs, 3).entries && PutAll(Empty, 2, ks, vs, 3).entries["b"] == Str("B")
    ensures "c" in PutAll(Empty, 2, ks, vs, 3).entries && PutAll(Empty, 2, ks, vs, 3).entries["c"] == Str("C")
  {
    OverflowEvictsFirst(2, ks, vs);
  }

  /**
   * A JavaScript `Map` from strings to values, with the operations the
   * translation code uses. `order` is its key iteration order.
   */
  class OrderedMap {
    var order: seq<string>
    var entries: map<string, Value>

    ghost predicate Valid()
      reads this
    {
      WellFormed(State())
    }

    function State(): CacheState
      reads this
    {
      CacheState(order, entries)
    }

    /** `new Map()` */
    constructor ()
      ensures Valid() && State() == Empty
    {
      order := [];
      entries := map[];
    }

    /** `map.has(key)` */
    method Has(key: string) returns (b: bool)
      requires Valid()
      ensures b <==> key in order
    {
      b := key in entries;
    }

    /** `map.get(key)`: a pure read; the order is untouched. */
    method Get(key: string) returns (v: Value)
      requires Valid()
      ensures key in order ==> v == entries[key]
      ensures key !in order ==> v == Undefined
    {
      v := Lookup(entries, key);
    }

    /** `map.size` */
    method Size() returns (n: nat)
      requires Valid()
      ensures n == |entries| && n == |order|
    {
      SizeIsCount(State());
      n := |order|;
    }

    /** `map.keys().next().value`: the oldest key, or `undefined` when empty. */
    method FirstKey() returns (k: Option<string>)
      requires Valid()
      ensures k.Some? <==> |entries| > 0
      ensures k.Some? ==> k.value == order[0]
    {
      SizeIsCount(State());
      k := if order == [] then None else Some(order[0]);
    }

    /** `map.delete(key)` */
    method Delete(key: string)
      requires Valid()
      modifies this
      ensures Valid()
      ensures State() == Deleted(old(State()), key)
    {
      WithoutDistinct(order, key);
      WithoutMembers(order, key);
      order := Without(order, key);
      entries := entries - {key};
    }

    /** `map.set(key, v)` */
    method Set(key: string, v: Value)
      requires Valid()
      modifies this
      ensures Valid()
      ensures State() == Inserted(old(State()), key, v)
    {
      if key !in entries {
        order := order + [key];
      }
      entries := entries[key := v];
    }
  }
}
