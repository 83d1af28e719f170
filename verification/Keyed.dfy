/**
  Sequences of keyed items.
  The items of a key, in their order; how often an item occurs; tables from keys to the items that have
  arrived, which the operators keep in hash maps; and the stable sort by key, which the operators take
  from a library.
 */
module Keyed {

  function ItemsOf<K(==), V>(items: seq<(K, V)>, k: K): seq<V> {
    if items == [] then []
    else
      var last := items[|items| - 1];
      if last.0 == k then ItemsOf(items[..|items| - 1], k) + [last.1] else ItemsOf(items[..|items| - 1], k)
  }

  function Times<K(==), V(==)>(items: seq<(K, V)>, k: K, v: V): nat {
    multiset(ItemsOf(items, k))[v]
  }

  /** A key has items if and only if it occurs. */
  lemma HasItem<K, V>(s: seq<(K, V)>, k: K)
    ensures ItemsOf(s, k) != [] <==> exists m :: 0 <= m < |s| && s[m].0 == k
  {
    if ItemsOf(s, k) != [] { var m := FindItem(s, k); }
    if m :| 0 <= m < |s| && s[m].0 == k { FoundItem(s, k, m); }
  }

  lemma {:induction false} FindItem<K, V>(s: seq<(K, V)>, k: K) returns (m: nat)
    requires ItemsOf(s, k) != []
    ensures m < |s| && s[m].0 == k
  {
    m := |s| - 1;
    if s[m].0 != k { m := FindItem(s[..m], k); }
  }

  lemma {:induction false} FoundItem<K, V>(s: seq<(K, V)>, k: K, m: nat)
    requires m < |s| && s[m].0 == k
    ensures ItemsOf(s, k) != []
  {
    if m < |s| - 1 { FoundItem(s[..|s| - 1], k, m); }
  }

  /** An element belongs to a key as often as it occurs with it. */
  lemma {:induction false} TimesIsCount<K, V>(items: seq<(K, V)>, k: K, v: V)
    ensures Times(items, k, v) == multiset(items)[(k, v)]
  {
    if items != [] {
      var n := |items| - 1;
      TimesIsCount(items[..n], k, v);
      assert items == items[..n] + [items[n]];
    }
  }

  lemma ItemsOfAppend<K, V>(items: seq<(K, V)>, k: K, v: V, k': K)
    ensures ItemsOf(items + [(k, v)], k') == if k == k' then ItemsOf(items, k') + [v] else ItemsOf(items, k')
  {
    assert (items + [(k, v)])[..|items|] == items;
  }

  lemma TimesAppend<K, V>(items: seq<(K, V)>, k: K, v: V, k': K, v': V)
    ensures Times(items + [(k, v)], k', v') == Times(items, k', v') + if k == k' && v == v' then 1 else 0
  {
    ItemsOfAppend(items, k, v, k');
  }

  lemma ItemsOfConcat<K, V>(s: seq<(K, V)>, t: seq<(K, V)>, k: K)
    ensures ItemsOf(s + t, k) == ItemsOf(s, k) + ItemsOf(t, k)
  {
    if t == [] {
      assert s + t == s;
    } else {
      assert (s + t)[..|s + t| - 1] == s + t[..|t| - 1];
      ItemsOfConcat(s, t[..|t| - 1], k);
    }
  }

  lemma SameKeyItems<K, V(!new)>(l: seq<(K, V)>, l': seq<(K, V)>, k: K)
    requires multiset(l) == multiset(l')
    ensures multiset(ItemsOf(l, k)) == multiset(ItemsOf(l', k))
    ensures ItemsOf(l, k) == [] <==> ItemsOf(l', k) == []
  {
    var m, m' := multiset(ItemsOf(l, k)), multiset(ItemsOf(l', k));
    forall v ensures m[v] == m'[v] {
      TimesIsCount(l, k, v);
      TimesIsCount(l', k, v);
    }
    assert m == m';
    assert |m| == |ItemsOf(l, k)| && |m'| == |ItemsOf(l', k)|;
  }

  // Tables ----------------------------------------------------------------------------------------

  function Bucket<K, V>(data: map<K, seq<V>>, k: K): seq<V> { if k in data then data[k] else [] }

  ghost predicate Groups<K(!new), V>(data: map<K, seq<V>>, items: seq<(K, V)>) {
    && (forall k {:trigger Bucket(data, k)} {:trigger ItemsOf(items, k)} :: Bucket(data, k) == ItemsOf(items, k))
    && forall k :: k in data ==> data[k] != []
  }

  lemma PushGroups<K(!new), V>(data: map<K, seq<V>>, items: seq<(K, V)>, key: K, item: V)
    requires Groups(data, items)
    ensures Groups(data[key := Bucket(data, key) + [item]], items + [(key, item)])
  {
    var data' := data[key := Bucket(data, key) + [item]];
    forall k ensures Bucket(data', k) == ItemsOf(items + [(key, item)], k) {
      PushBucket(data, items, key, item, k);
    }
  }

  lemma PushBucket<K, V>(data: map<K, seq<V>>, items: seq<(K, V)>, key: K, item: V, k: K)
    requires Bucket(data, k) == ItemsOf(items, k)
    ensures Bucket(data[key := Bucket(data, key) + [item]], k) == ItemsOf(items + [(key, item)], k)
  {
    ItemsOfAppend(items, key, item, k);
  }

  // Sorting ----------------------------------------------------------------------------------------

  datatype Order<!K> = Order(leq: (K, K) -> bool) {
    predicate Le(a: K, b: K) { leq(a, b) }
    predicate Transitive(a: K, b: K, c: K) { Le(a, b) && Le(b, c) ==> Le(a, c) }
  }

  ghost predicate IsTotal<K(!new)>(o: Order<K>) {
    && (forall a, b {:trigger o.Le(a, b)} :: o.Le(a, b) || o.Le(b, a))
    && (forall a, b {:trigger o.Le(a, b), o.Le(b, a)} :: o.Le(a, b) && o.Le(b, a) ==> a == b)
    && forall a, b, c :: o.Transitive(a, b, c)
  }

  ghost predicate Sorted<K(!new), V>(o: Order<K>, s: seq<(K, V)>) {
    forall i, j :: 0 <= i <= j < |s| ==> o.Le(s[i].0, s[j].0)
  }

  /** The stable sort of the library. */
  function Sort<K, V>(o: Order<K>, s: seq<(K, V)>): seq<(K, V)> {
    if s == [] then [] else Insert(o, Sort(o, s[..|s| - 1]), s[|s| - 1])
  }

  function Insert<K, V>(o: Order<K>, s: seq<(K, V)>, x: (K, V)): seq<(K, V)> {
    if s == [] || o.Le(s[|s| - 1].0, x.0) then s + [x]
    else Insert(o, s[..|s| - 1], x) + [s[|s| - 1]]
  }

  /** Sorting keeps the items of each key, in their order of arrival. */
  lemma {:induction false} SortIsStable<K(!new), V>(o: Order<K>, s: seq<(K, V)>)
    requires IsTotal(o)
    ensures Sorted(o, Sort(o, s)) && forall k :: ItemsOf(Sort(o, s), k) == ItemsOf(s, k)
  {
    if s != [] {
      var n := |s| - 1;
      SortIsStable(o, s[..n]);
      InsertSorted(o, Sort(o, s[..n]), s[n]);
      forall k ensures ItemsOf(Sort(o, s), k) == ItemsOf(s, k) {
        InsertItems(o, Sort(o, s[..n]), s[n], k);
      }
    }
  }

  ghost predicate AllLe<K(!new), V>(o: Order<K>, s: seq<(K, V)>, k: K) {
    forall i :: 0 <= i < |s| ==> o.Le(s[i].0, k)
  }

  lemma {:induction false} InsertSorted<K(!new), V>(o: Order<K>, s: seq<(K, V)>, x: (K, V))
    requires IsTotal(o) && Sorted(o, s)
    ensures Sorted(o, Insert(o, s, x))
  {
    forall i | 0 <= i < |s| ensures o.Transitive(s[i].0, s[|s| - 1].0, x.0) {}
    if s != [] && !o.Le(s[|s| - 1].0, x.0) {
      var n := |s| - 1;
      InsertSorted(o, s[..n], x);
      InsertBound(o, s[..n], x, s[n].0);
    }
  }

  lemma {:induction false} InsertBound<K(!new), V>(o: Order<K>, s: seq<(K, V)>, x: (K, V), k: K)
    requires AllLe(o, s, k) && o.Le(x.0, k)
    ensures AllLe(o, Insert(o, s, x), k)
  {
    if s != [] && !o.Le(s[|s| - 1].0, x.0) {
      InsertBound(o, s[..|s| - 1], x, k);
    }
  }

  lemma Differ<K(!new)>(o: Order<K>, a: K, b: K)
    requires IsTotal(o) && !o.Le(a, b)
    ensures a != b
  {
    assert o.Le(b, b);
  }

  lemma {:induction false} InsertItems<K(!new), V>(o: Order<K>, s: seq<(K, V)>, x: (K, V), k: K)
    requires IsTotal(o)
    ensures ItemsOf(Insert(o, s, x), k) == if x.0 == k then ItemsOf(s, k) + [x.1] else ItemsOf(s, k)
  {
    if s == [] || o.Le(s[|s| - 1].0, x.0) {
      ItemsOfAppend(s, x.0, x.1, k);
    } else {
      var n := |s| - 1;
      Differ(o, s[n].0, x.0);
      InsertItems(o, s[..n], x, k);
      ItemsOfAppend(Insert(o, s[..n], x), s[n].0, s[n].1, k);
    }
  }
}
