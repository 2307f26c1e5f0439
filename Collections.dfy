/** The JavaScript collection operations the store is built from: a `Map`
    that remembers insertion order, `filter`, `find`, `slice(0, n)` and a
    stable `sort`. */
module Collections {
  import opened Wrappers

  /** `items.filter(p)` */
  function Filter<T(!new)>(s: seq<T>, p: T -> bool): (r: seq<T>)
    ensures |r| <= |s|
    ensures forall x :: x in r <==> x in s && p(x)
    ensures forall i :: 0 <= i < |r| ==> p(r[i])
  {
    if s == [] then [] else (if p(s[0]) then [s[0]] else []) + Filter(s[1..], p)
  }

  /** `r` is `s` with some elements left out and the rest in their order. */
  predicate IsSubsequence<T(==)>(r: seq<T>, s: seq<T>) {
    if r == [] then true
    else if s == [] then false
    else if r[0] == s[0] then IsSubsequence(r[1..], s[1..])
    else IsSubsequence(r, s[1..])
  }

  /** Filtering keeps the order of what it keeps. */
  lemma {:induction false} FilterIsSubsequence<T(!new)>(s: seq<T>, p: T -> bool)
    ensures IsSubsequence(Filter(s, p), s)
  {
    if s != [] {
      FilterIsSubsequence(s[1..], p);
      var r := Filter(s, p);
      if p(s[0]) {
        assert r[1..] == Filter(s[1..], p);
      } else {
        assert r == Filter(s[1..], p);
        assert r != [] ==> r[0] != s[0];
      }
    }
  }

  /** Filters by predicates that agree everywhere keep the same elements. */
  lemma {:induction false} FilterExtensional<T(!new)>(s: seq<T>, p: T -> bool, q: T -> bool)
    requires forall x :: p(x) == q(x)
    ensures Filter(s, p) == Filter(s, q)
  {
    if s != [] {
      FilterExtensional(s[1..], p, q);
    }
  }

  /** The number of elements of `s` satisfying `p`. */
  function Count<T(!new)>(s: seq<T>, p: T -> bool): nat {
    |Filter(s, p)|
  }

  /** A test some element fails counts less than the whole sequence. */
  lemma {:induction false} CountMissesOne<T(!new)>(s: seq<T>, p: T -> bool, i: nat)
    requires i < |s| && !p(s[i])
    ensures Count(s, p) < |s|
  {
    if i > 0 {
      CountMissesOne(s[1..], p, i - 1);
    }
  }

  /** Two tests no element passes together count at most the whole sequence. */
  lemma {:induction false} CountExclusive<T(!new)>(s: seq<T>, p: T -> bool, q: T -> bool)
    requires forall x :: !(p(x) && q(x))
    ensures Count(s, p) + Count(s, q) <= |s|
  {
    if s != [] {
      CountExclusive(s[1..], p, q);
    }
  }

  /** Index of the first element satisfying `p`, or `|s|` when none does. */
  function FindIndex<T>(s: seq<T>, p: T -> bool): (k: nat)
    ensures k <= |s|
    ensures forall i :: 0 <= i < k ==> !p(s[i])
    ensures k < |s| ==> p(s[k])
  {
    if s == [] then 0 else if p(s[0]) then 0 else 1 + FindIndex(s[1..], p)
  }

  /** `items.find(p)`: the first element satisfying `p`. */
  function Find<T>(s: seq<T>, p: T -> bool): (r: Option<T>)
    ensures r.Some? ==> r.value in s && p(r.value)
    ensures r.Some? ==> exists k :: 0 <= k < |s| && s[k] == r.value && forall j :: 0 <= j < k ==> !p(s[j])
    ensures r.None? ==> forall x :: x in s ==> !p(x)
  {
    var k := FindIndex(s, p);
    if k < |s| then Some(s[k]) else None
  }

  /** `items.slice(0, end)`: a negative `end` counts from the back. */
  function SliceTo<T>(s: seq<T>, end: int): (r: seq<T>)
    ensures 0 <= end ==> |r| == if end < |s| then end else |s|
    ensures end < 0 ==> |r| == if |s| + end < 0 then 0 else |s| + end
    ensures r == s[..|r|]
  {
    var e := if end < 0 then (if |s| + end < 0 then 0 else |s| + end)
             else if end < |s| then end else |s|;
    s[..e]
  }

  // Sorting newest first

  predicate SortedDesc<T>(s: seq<T>, key: T -> int) {
    forall i, j :: 0 <= i < j < |s| ==> key(s[i]) >= key(s[j])
  }

  /** Puts `x` in front of the first element whose key is not larger, so that
      among equal keys `x` comes first. */
  function InsertDesc<T>(x: T, t: seq<T>, key: T -> int): (r: seq<T>)
    ensures multiset(r) == multiset(t) + multiset{x}
  {
    if t == [] || key(t[0]) <= key(x) then [x] + t
    else
      assert t == [t[0]] + t[1..];
      [t[0]] + InsertDesc(x, t[1..], key)
  }

  lemma {:induction false} InsertDescSorted<T>(x: T, t: seq<T>, key: T -> int)
    requires SortedDesc(t, key)
    ensures SortedDesc(InsertDesc(x, t, key), key)
  {
    var r := InsertDesc(x, t, key);
    if t == [] || key(t[0]) <= key(x) {
      assert forall j :: 0 < j < |r| ==> r[j] == t[j - 1];
    } else {
      var rest := InsertDesc(x, t[1..], key);
      InsertDescSorted(x, t[1..], key);
      forall j | 0 <= j < |rest| ensures key(rest[j]) <= key(t[0]) {
        assert rest[j] in multiset(rest);
        assert rest[j] in multiset(t[1..]) || rest[j] == x;
      }
      assert r == [t[0]] + rest;
    }
  }

  /** `items.sort((a, b) => key(b) - key(a))`: newest first, stable, as
      Array.prototype.sort is. */
  function SortNewestFirst<T>(s: seq<T>, key: T -> int): (r: seq<T>)
    ensures multiset(r) == multiset(s)
    ensures SortedDesc(r, key)
  {
    if s == [] then []
    else
      assert s == [s[0]] + s[1..];
      var tail := SortNewestFirst(s[1..], key);
      InsertDescSorted(s[0], tail, key);
      InsertDesc(s[0], tail, key)
  }

  /** The test "has key `c`". */
  function KeyIs<T>(key: T -> int, c: int): T -> bool {
    x => key(x) == c
  }

  lemma FilterCons<T(!new)>(x: T, t: seq<T>, p: T -> bool)
    ensures Filter([x] + t, p) == (if p(x) then [x] else []) + Filter(t, p)
  {
    assert ([x] + t)[1..] == t;
  }

  /** Inserting `x` keeps, among the elements with any one key, the order
      `[x] + t` has. */
  lemma {:induction false} InsertDescStable<T(!new)>(x: T, t: seq<T>, key: T -> int, c: int)
    ensures Filter(InsertDesc(x, t, key), KeyIs(key, c)) == Filter([x] + t, KeyIs(key, c))
  {
    if t != [] && key(t[0]) > key(x) {
      var p := KeyIs(key, c);
      var rest := InsertDesc(x, t[1..], key);
      var fx := if p(x) then [x] else [];
      var f0 := if p(t[0]) then [t[0]] else [];
      InsertDescStable(x, t[1..], key, c);
      FilterCons(t[0], rest, p);
      FilterCons(x, t[1..], p);
      FilterCons(x, t, p);
      SwapExclusive(f0, fx, Filter(t[1..], p));
      calc {
        Filter(InsertDesc(x, t, key), p);
        Filter([t[0]] + rest, p);
        f0 + Filter(rest, p);
        f0 + (fx + Filter(t[1..], p));
        fx + (f0 + Filter(t[1..], p));
        fx + Filter(t, p);
        Filter([x] + t, p);
      }
    }
  }

  lemma SwapExclusive<T>(a: seq<T>, b: seq<T>, rest: seq<T>)
    requires a == [] || b == []
    ensures a + (b + rest) == b + (a + rest)
  {
    if a == [] {
      assert a + (b + rest) == b + rest;
    } else {
      assert b + (a + rest) == a + rest;
    }
  }

  /** The sort is stable: the elements with any one key come out in the
      order they went in. */
  lemma {:induction false} SortNewestFirstStable<T(!new)>(s: seq<T>, key: T -> int, c: int)
    ensures Filter(SortNewestFirst(s, key), KeyIs(key, c)) == Filter(s, KeyIs(key, c))
  {
    if s != [] {
      var tail := SortNewestFirst(s[1..], key);
      SortNewestFirstStable(s[1..], key, c);
      InsertDescStable(s[0], tail, key, c);
      FilterCons(s[0], tail, KeyIs(key, c));
      assert s == [s[0]] + s[1..];
      FilterCons(s[0], s[1..], KeyIs(key, c));
    }
  }

  /** A `Map` with its insertion order. Setting an existing key keeps its
      place; setting a new key puts it last; deleting removes it. */
  datatype JsMap<K(==,!new), V> = JsMap(keys: seq<K>, entries: map<K, V>) {

    ghost predicate Valid() {
      && Distinct(keys)
      && (forall k :: k in entries <==> k in keys)
    }

    /** `map.get(k)` */
    function Get(k: K): (r: Option<V>)
      ensures r.Some? <==> k in entries
      ensures r.Some? ==> r.value == entries[k]
    {
      if k in entries then Some(entries[k]) else None
    }

    /** `map.set(k, v)` */
    function Set(k: K, v: V): (r: JsMap<K, V>)
      requires Valid()
      ensures r.Valid()
      ensures k in entries ==> r.keys == keys
      ensures k !in entries ==> r.keys == keys + [k]
    {
      JsMap(if k in entries then keys else keys + [k], entries[k := v])
    }

    /** `map.delete(k)` */
    function Delete(k: K): (r: JsMap<K, V>)
      requires Valid()
      ensures r.Valid()
      ensures IsSubsequence(r.keys, keys)
    {
      var keep := x => x != k;
      FilterKeepsDistinct(keys, keep);
      FilterIsSubsequence(keys, keep);
      JsMap(Filter(keys, keep), entries - {k})
    }

    /** `Array.from(map.values())`, in insertion order. */
    function Values(): (vs: seq<V>)
      requires Valid()
      ensures |vs| == |keys|
      ensures forall i :: 0 <= i < |keys| ==> vs[i] == entries[keys[i]]
    {
      seq(|keys|, i requires 0 <= i < |keys| => entries[keys[i]])
    }
  }

  /** Reading after `map.set(k, v)`: `v` under `k`, and every other key
      reads as before. */
  lemma SetThenGet<K(!new), V>(m: JsMap<K, V>, k: K, v: V)
    requires m.Valid()
    ensures m.Set(k, v).Get(k) == Some(v)
    ensures forall j :: j != k ==> m.Set(k, v).Get(j) == m.Get(j)
  {
  }

  /** Reading after `map.delete(k)`: nothing under `k`, every other key reads
      as before, and the order lists the other keys only. */
  lemma DeleteThenGet<K(!new), V>(m: JsMap<K, V>, k: K)
    requires m.Valid()
    ensures m.Delete(k).Get(k) == None
    ensures forall j :: j != k ==> m.Delete(k).Get(j) == m.Get(j)
    ensures forall j :: j in m.Delete(k).keys <==> j in m.keys && j != k
  {
  }

  function EmptyMap<K(==,!new), V>(): (m: JsMap<K, V>)
    ensures m.Valid()
  {
    JsMap([], map[])
  }

  /** No element occurs twice. */
  ghost predicate Distinct<T>(s: seq<T>) {
    forall i, j :: 0 <= i < j < |s| ==> s[i] != s[j]
  }

  lemma {:induction false} FilterKeepsDistinct<T(!new)>(s: seq<T>, p: T -> bool)
    requires Distinct(s)
    ensures Distinct(Filter(s, p))
  {
    if s != [] {
      FilterKeepsDistinct(s[1..], p);
      var rest := Filter(s[1..], p);
      assert s[0] !in s[1..] by {
        assert forall m :: 0 <= m < |s[1..]| ==> s[1..][m] == s[m + 1];
      }
      assert s[0] !in rest;
      var r := Filter(s, p);
      if p(s[0]) {
        assert r == [s[0]] + rest;
        forall i, j | 0 <= i < j < |r| ensures r[i] != r[j] {
          if i == 0 {
            assert r[j] == rest[j - 1];
          } else {
            assert r[i] == rest[i - 1] && r[j] == rest[j - 1];
          }
        }
      } else {
        assert r == rest;
      }
    }
  }

  /** A value is among a map's values exactly when some key holds it. */
  lemma ValuesMembership<K(!new), V>(m: JsMap<K, V>, v: V)
    requires m.Valid()
    ensures v in m.Values() <==> exists k :: k in m.entries && m.entries[k] == v
  {
    var vs := m.Values();
    if v in vs {
      var i :| 0 <= i < |vs| && vs[i] == v;
      assert m.keys[i] in m.entries;
    }
    if exists k :: k in m.entries && m.entries[k] == v {
      var k :| k in m.entries && m.entries[k] == v;
      var i :| 0 <= i < |m.keys| && m.keys[i] == k;
      assert vs[i] == v;
    }
  }
  /** `m.set(key(v), v)` for each `v` of `vs` in turn. */
  function SetEach<K(==,!new), V>(m: JsMap<K, V>, vs: seq<V>, key: V -> K): (r: JsMap<K, V>)
    requires m.Valid()
    ensures r.Valid()
    decreases |vs|
  {
    if vs == [] then m else SetEach(m, vs[..|vs| - 1], key).Set(key(vs[|vs| - 1]), vs[|vs| - 1])
  }

  /** Some element of `vs` has key `k`. */
  ghost predicate HasKey<K, V>(vs: seq<V>, k: K, key: V -> K) {
    exists i :: 0 <= i < |vs| && key(vs[i]) == k
  }

  /** `v` is the last element of `vs` whose key is `k`. */
  ghost predicate LastWithKey<K, V>(vs: seq<V>, k: K, key: V -> K, v: V) {
    exists i :: 0 <= i < |vs| && vs[i] == v && key(vs[i]) == k
      && forall j :: i < j < |vs| ==> key(vs[j]) != k
  }

  /** Filling an empty map from `vs`: the keys are exactly the keys of `vs`,
      and each key holds the last element of `vs` with that key. */
  lemma SetEachFromEmpty<K(!new), V>(vs: seq<V>, key: V -> K)
    ensures forall k :: k in SetEach(EmptyMap(), vs, key).entries <==> HasKey(vs, k, key)
    ensures forall k :: k in SetEach(EmptyMap(), vs, key).entries ==>
      LastWithKey(vs, k, key, SetEach(EmptyMap(), vs, key).entries[k])
  {
    SetEachKeys(vs, key);
    SetEachLast(vs, key);
  }

  lemma {:induction false} SetEachKeys<K(!new), V>(vs: seq<V>, key: V -> K)
    ensures forall k :: k in SetEach(EmptyMap(), vs, key).entries <==> HasKey(vs, k, key)
  {
    if vs != [] {
      var init := vs[..|vs| - 1];
      var last := vs[|vs| - 1];
      SetEachKeys(init, key);
      var prev := SetEach(EmptyMap(), init, key);
      var r := SetEach(EmptyMap(), vs, key);
      assert r.entries == prev.entries[key(last) := last];
      forall k ensures k in r.entries <==> HasKey(vs, k, key) {
        if k in prev.entries {
          assert HasKey(init, k, key);
          var i :| 0 <= i < |init| && key(init[i]) == k;
          assert key(vs[i]) == k;
        }
        if HasKey(vs, k, key) {
          var i :| 0 <= i < |vs| && key(vs[i]) == k;
          if i < |init| {
            assert key(init[i]) == k;
          }
        }
      }
    }
  }

  lemma {:induction false} SetEachLast<K(!new), V>(vs: seq<V>, key: V -> K)
    ensures forall k :: k in SetEach(EmptyMap(), vs, key).entries ==>
      LastWithKey(vs, k, key, SetEach(EmptyMap(), vs, key).entries[k])
  {
    if vs != [] {
      var init := vs[..|vs| - 1];
      var last := vs[|vs| - 1];
      SetEachLast(init, key);
      var prev := SetEach(EmptyMap(), init, key);
      var r := SetEach(EmptyMap(), vs, key);
      assert r.entries == prev.entries[key(last) := last];
      forall k | k in r.entries ensures LastWithKey(vs, k, key, r.entries[k]) {
        if k == key(last) {
          assert key(vs[|vs| - 1]) == k;
        } else {
          assert k in prev.entries;
          assert LastWithKey(init, k, key, prev.entries[k]);
          var i :| 0 <= i < |init| && init[i] == prev.entries[k] && key(init[i]) == k
            && forall j :: i < j < |init| ==> key(init[j]) != k;
          assert vs[i] == init[i];
          forall j | i < j < |vs| ensures key(vs[j]) != k {
            if j < |init| {
              assert vs[j] == init[j];
            }
          }
        }
      }
    }
  }

  /** Every value of `m` is stored under its own key `key(v)`. */
  ghost predicate KeyedBy<K(!new), V>(m: JsMap<K, V>, key: V -> K) {
    forall k :: k in m.entries ==> key(m.entries[k]) == k
  }

  /** In a map keyed by `key`, a value is among the map's values exactly
      when it is stored under its own key. */
  lemma ValuesKeyedBy<K(!new), V(!new)>(m: JsMap<K, V>, key: V -> K)
    requires m.Valid() && KeyedBy(m, key)
    ensures forall v :: v in m.Values() <==> key(v) in m.entries && m.entries[key(v)] == v
  {
    forall v ensures v in m.Values() <==> key(v) in m.entries && m.entries[key(v)] == v {
      ValuesMembership(m, v);
    }
  }

  /** Filling an empty map through `key` stores every value under its own key. */
  lemma SetEachKeyedBy<K(!new), V>(vs: seq<V>, key: V -> K)
    ensures KeyedBy(SetEach(EmptyMap(), vs, key), key)
  {
    SetEachFromEmpty(vs, key);
    var r := SetEach(EmptyMap(), vs, key);
    forall k | k in r.entries ensures key(r.entries[k]) == k {
      assert LastWithKey(vs, k, key, r.entries[k]);
    }
  }

  /** Setting a value under its own key keeps a map keyed by `key`. */
  lemma SetKeyedBy<K(!new), V>(m: JsMap<K, V>, v: V, key: V -> K)
    requires m.Valid() && KeyedBy(m, key)
    ensures KeyedBy(m.Set(key(v), v), key)
  {
  }

  /** Deleting keeps a map keyed by `key`. */
  lemma DeleteKeyedBy<K(!new), V>(m: JsMap<K, V>, k: K, key: V -> K)
    requires m.Valid() && KeyedBy(m, key)
    ensures KeyedBy(m.Delete(k), key)
  {
  }
}
