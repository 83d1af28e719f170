/** Joins whose two sides are spread over the replicas of a block. */
module JoinDistribution {
  import opened Streams
  import opened Keyed
  import opened JoinSpec
  import opened Routing
  import opened EndOfBlock
  import opened Delivery

  // The join by key --------------------------------------------------------------------------------

  /** With the same items for the key, the key has the same tuples. */
  lemma JoinCountByKey<K, A, B>(v: Variant, l: seq<(K, A)>, r: seq<(K, B)>, l': seq<(K, A)>, r': seq<(K, B)>,
      x: Joined<K, A, B>)
    requires multiset(ItemsOf(l, x.key)) == multiset(ItemsOf(l', x.key))
    requires multiset(ItemsOf(r, x.key)) == multiset(ItemsOf(r', x.key))
    ensures JoinCount(v, l, r, x) == JoinCount(v, l', r', x)
  {
    EmptyAlike(ItemsOf(l, x.key), ItemsOf(l', x.key));
    EmptyAlike(ItemsOf(r, x.key), ItemsOf(r', x.key));
  }

  lemma NoJoinOfNone<K, A, B>(v: Variant, l: seq<(K, A)>, r: seq<(K, B)>, x: Joined<K, A, B>)
    requires ItemsOf(l, x.key) == [] && ItemsOf(r, x.key) == []
    ensures JoinCount(v, l, r, x) == 0
  {
  }

  // Both sides sent by the hash of their keys ------------------------------------------------------

  /**
    Each side comes from any number of replicas of its own block. In every round, the joins of the
    replicas make the join of all that these replicas have in this round.
   */
  lemma HashedJoinIsJoin<K(!new), A(!new), B(!new), S>(
      v: Variant, hash: K -> nat, block: nat, replicas: seq<Coord>,
      leftUps: seq<Upstream<(K, A), S>>, rightUps: seq<Upstream<(K, B), S>>, i: nat,
      lefts: seq<seq<(K, A)>>, rights: seq<seq<(K, B)>>, outs: seq<seq<Joined<K, A, B>>>)
    requires IsReplicas(block, replicas) && replicas != []
    requires AreConnected(false, leftUps, block, replicas) && AreConnected(false, rightUps, block, replicas)
    requires Delivered(ByKey(hash), leftUps, replicas, i, lefts) &&
      Delivered(ByKey(hash), rightUps, replicas, i, rights)
    requires AreJoins(v, lefts, rights, outs)
    ensures IsJoin(v, ItemsFrom(leftUps, i), ItemsFrom(rightUps, i), Flatten(outs))
  {
    var l, r := ItemsFrom(leftUps, i), ItemsFrom(rightUps, i);
    forall x ensures multiset(Flatten(outs))[x] == JoinCount(v, l, r, x) {
      var d := hash(x.key) % |replicas|;
      forall j | 0 <= j < |outs| ensures multiset(outs[j])[x] == if j == d then JoinCount(v, l, r, x) else 0 {
        assert IsJoin(v, lefts[j], rights[j], outs[j]);
        DeliveredByKey(hash, leftUps, block, replicas, i, lefts, j, x.key);
        DeliveredByKey(hash, rightUps, block, replicas, i, rights, j, x.key);
        if j == d {
          JoinCountByKey(v, lefts[j], rights[j], l, r, x);
        } else {
          EmptyAlike(ItemsOf(lefts[j], x.key), []);
          EmptyAlike(ItemsOf(rights[j], x.key), []);
          NoJoinOfNone(v, lefts[j], rights[j], x);
        }
      }
      CountInOnePart(outs, d, x, JoinCount(v, l, r, x));
    }
  }

  /** The replicas of a join have joined what they received. */
  ghost predicate AreJoins<K(!new), A(!new), B(!new)>(v: Variant, lefts: seq<seq<(K, A)>>, rights: seq<seq<(K, B)>>,
      outs: seq<seq<Joined<K, A, B>>>) {
    |lefts| == |rights| == |outs| && forall j :: 0 <= j < |outs| ==> IsJoin(v, lefts[j], rights[j], outs[j])
  }

  // The right side broadcast -----------------------------------------------------------------------

  /** The replicas whose left part does not have the key. */
  function Lacking<K(==), A>(lefts: seq<seq<(K, A)>>, k: K): nat {
    if lefts == [] then 0
    else Lacking(lefts[..|lefts| - 1], k) + if ItemsOf(lefts[|lefts| - 1], k) == [] then 1 else 0
  }

  /** How often a tuple comes out when the right side is broadcast and the left one is partitioned at will. */
  function BroadcastCount<K(==), A(==), B(==)>(v: Variant, lefts: seq<seq<(K, A)>>, r: seq<(K, B)>,
      x: Joined<K, A, B>): nat {
    if x.left.None? && x.right.Some? then
      if v.RightOuter() then Lacking(lefts, x.key) * Times(r, x.key, x.right.value) else 0
    else JoinCount(v, Flatten(lefts), r, x)
  }

  lemma {:induction false} BroadcastCounts<K(!new), A(!new), B(!new)>(
      v: Variant, lefts: seq<seq<(K, A)>>, r: seq<(K, B)>, outs: seq<seq<Joined<K, A, B>>>, x: Joined<K, A, B>)
    requires |lefts| == |outs| && forall j :: 0 <= j < |outs| ==> multiset(outs[j])[x] == JoinCount(v, lefts[j], r, x)
    ensures multiset(Flatten(outs))[x] == BroadcastCount(v, lefts, r, x)
    decreases |outs|
  {
    if outs == [] {
      NoParts(v, r, x);
    } else {
      var n := |outs| - 1;
      BroadcastCounts(v, lefts[..n], r, outs[..n], x);
      OneMorePart(v, lefts, r, x);
      assert multiset(Flatten(outs))[x] == multiset(Flatten(outs[..n]))[x] + multiset(outs[n])[x];
    }
  }

  lemma NoParts<K, A, B>(v: Variant, r: seq<(K, B)>, x: Joined<K, A, B>)
    ensures BroadcastCount(v, [], r, x) == 0
  {
    assert x.left.Some? ==> Times<K, A>([], x.key, x.left.value) == 0;
  }

  lemma OneMorePart<K, A, B>(v: Variant, lefts: seq<seq<(K, A)>>, r: seq<(K, B)>, x: Joined<K, A, B>)
    requires lefts != []
    ensures var n := |lefts| - 1;
            BroadcastCount(v, lefts, r, x) == BroadcastCount(v, lefts[..n], r, x) + JoinCount(v, lefts[n], r, x)
  {
    var n := |lefts| - 1;
    ItemsOfConcat(Flatten(lefts[..n]), lefts[n], x.key);
    match x
    case Joined(k, Some(a), Some(b)) => MorePairs(v, Flatten(lefts[..n]), lefts[n], r, k, a, b);
    case Joined(k, None, Some(b)) => MoreLacking(v, lefts, r, k, b);
    case _ =>
  }

  lemma MorePairs<K, A, B>(v: Variant, l: seq<(K, A)>, part: seq<(K, A)>, r: seq<(K, B)>, k: K, a: A, b: B)
    ensures var x := Joined(k, Some(a), Some(b));
            JoinCount(v, l + part, r, x) == JoinCount(v, l, r, x) + JoinCount(v, part, r, x)
  {
    ItemsOfConcat(l, part, k);
    Distribute(Times(l + part, k, a), Times(l, k, a), Times(part, k, a), Times(r, k, b));
  }

  lemma MoreLacking<K, A, B>(v: Variant, lefts: seq<seq<(K, A)>>, r: seq<(K, B)>, k: K, b: B)
    requires lefts != []
    ensures var x := Joined(k, None, Some(b));
            BroadcastCount(v, lefts, r, x) == BroadcastCount(v, lefts[..|lefts| - 1], r, x) +
              JoinCount(v, lefts[|lefts| - 1], r, x)
  {
    var n := |lefts| - 1;
    Distribute(Lacking(lefts, k), Lacking(lefts[..n], k), if ItemsOf(lefts[n], k) == [] then 1 else 0, Times(r, k, b));
  }

  /** Sums of parts. */
  lemma {:induction false} FlattenAdd<T>(a: seq<seq<T>>, b: seq<seq<T>>, d: nat, more: seq<T>)
    requires |a| == |b|
    requires forall j :: 0 <= j < |a| ==> multiset(b[j]) == multiset(a[j]) + multiset(if j == d then more else [])
    ensures multiset(Flatten(b)) == multiset(Flatten(a)) + multiset(if d < |a| then more else [])
  {
    if a != [] {
      var n := |a| - 1;
      FlattenAdd(a[..n], b[..n], d, more);
    }
  }

  function PartsSent<T, S>(ups: seq<Upstream<T, S>>, replicas: seq<Coord>, i: nat): seq<seq<T>> {
    seq(|replicas|, j requires 0 <= j < |replicas| => AllSentTo(OnlyOne, ups, replicas[j], i))
  }

  /** No connection of the graph is missing: the next block has one replica, or as many as this one. */
  ghost predicate AreForwarded<T, S>(ups: seq<Upstream<T, S>>, block: nat, replicas: seq<Coord>) {
    forall u :: 0 <= u < |ups| ==> IsForwarded(ups[u], block, replicas)
  }

  ghost predicate IsForwarded<T, S>(up: Upstream<T, S>, block: nat, replicas: seq<Coord>) {
    IsConnected(true, up, block, replicas) && Reached(true, up.coord, block, replicas) != []
  }

  /** Without shuffle, the replicas get the items in parts. */
  lemma {:induction false} PartsOfItems<T, S>(ups: seq<Upstream<T, S>>, block: nat, replicas: seq<Coord>, i: nat)
    requires AreForwarded(ups, block, replicas) && IsReplicas(block, replicas)
    ensures multiset(Flatten(PartsSent(ups, replicas, i))) == multiset(ItemsFrom(ups, i))
  {
    if ups == [] {
      EmptyParts(PartsSent(ups, replicas, i));
    } else {
      var n := |ups| - 1;
      PartsOfItems(ups[..n], block, replicas, i);
      assert IsForwarded(ups[n], block, replicas);
      var d := SentToOne(ups[n], block, replicas, i);
      FlattenAdd(PartsSent(ups[..n], replicas, i), PartsSent(ups, replicas, i), d, RoundOf(Elements(ups[n].stream), i));
    }
  }

  lemma {:induction false} EmptyParts<T>(parts: seq<seq<T>>)
    requires forall j :: 0 <= j < |parts| ==> parts[j] == []
    ensures Flatten(parts) == []
  {
    if parts != [] { EmptyParts(parts[..|parts| - 1]); }
  }

  /** The left side is forwarded and the right one is broadcast; the replicas join what they get. */
  ghost predicate IsBroadcastJoin<K(!new), A(!new), B(!new), S>(
      v: Variant, block: nat, replicas: seq<Coord>, leftUps: seq<Upstream<(K, A), S>>,
      rightUps: seq<Upstream<(K, B), S>>, i: nat,
      lefts: seq<seq<(K, A)>>, rights: seq<seq<(K, B)>>, outs: seq<seq<Joined<K, A, B>>>) {
    && IsReplicas(block, replicas)
    && AreForwarded(leftUps, block, replicas) && AreConnected(false, rightUps, block, replicas)
    && Delivered(OnlyOne, leftUps, replicas, i, lefts) && Delivered(All, rightUps, replicas, i, rights)
    && AreJoins(v, lefts, rights, outs)
  }

  lemma BroadcastSides<K(!new), A(!new), B(!new), S>(
      v: Variant, block: nat, replicas: seq<Coord>, leftUps: seq<Upstream<(K, A), S>>,
      rightUps: seq<Upstream<(K, B), S>>, i: nat,
      lefts: seq<seq<(K, A)>>, rights: seq<seq<(K, B)>>, outs: seq<seq<Joined<K, A, B>>>)
    requires IsBroadcastJoin(v, block, replicas, leftUps, rightUps, i, lefts, rights, outs)
    ensures multiset(Flatten(lefts)) == multiset(ItemsFrom(leftUps, i))
    ensures forall j :: 0 <= j < |rights| ==> multiset(rights[j]) == multiset(ItemsFrom(rightUps, i))
  {
    PartsOfItems(leftUps, block, replicas, i);
    FlattenAdd(PartsSent(leftUps, replicas, i), lefts, 0, []);
    forall j | 0 <= j < |rights| ensures multiset(rights[j]) == multiset(ItemsFrom(rightUps, i)) {
      SentToAll(rightUps, block, replicas, i, j);
    }
  }

  lemma BroadcastCountsOut<K(!new), A(!new), B(!new), S>(
      v: Variant, block: nat, replicas: seq<Coord>, leftUps: seq<Upstream<(K, A), S>>,
      rightUps: seq<Upstream<(K, B), S>>, i: nat,
      lefts: seq<seq<(K, A)>>, rights: seq<seq<(K, B)>>, outs: seq<seq<Joined<K, A, B>>>, x: Joined<K, A, B>)
    requires IsBroadcastJoin(v, block, replicas, leftUps, rightUps, i, lefts, rights, outs)
    ensures multiset(Flatten(outs))[x] == BroadcastCount(v, lefts, ItemsFrom(rightUps, i), x)
    ensures JoinCount(v, Flatten(lefts), ItemsFrom(rightUps, i), x) ==
            JoinCount(v, ItemsFrom(leftUps, i), ItemsFrom(rightUps, i), x)
  {
    BroadcastSides(v, block, replicas, leftUps, rightUps, i, lefts, rights, outs);
    var r := ItemsFrom(rightUps, i);
    forall j | 0 <= j < |outs| ensures multiset(outs[j])[x] == JoinCount(v, lefts[j], r, x) {
      assert IsJoin(v, lefts[j], rights[j], outs[j]);
      JoinOfPermutations(v, lefts[j], rights[j], lefts[j], r, x);
    }
    BroadcastCounts(v, lefts, r, outs, x);
    JoinOfPermutations(v, Flatten(lefts), r, ItemsFrom(leftUps, i), r, x);
  }

  /** Inner and left joins may broadcast the right side. */
  lemma BroadcastJoinIsJoin<K(!new), A(!new), B(!new), S>(
      v: Variant, block: nat, replicas: seq<Coord>, leftUps: seq<Upstream<(K, A), S>>,
      rightUps: seq<Upstream<(K, B), S>>, i: nat,
      lefts: seq<seq<(K, A)>>, rights: seq<seq<(K, B)>>, outs: seq<seq<Joined<K, A, B>>>)
    requires IsBroadcastJoin(v, block, replicas, leftUps, rightUps, i, lefts, rights, outs)
    requires !v.Outer?
    ensures IsJoin(v, ItemsFrom(leftUps, i), ItemsFrom(rightUps, i), Flatten(outs))
  {
    forall x ensures multiset(Flatten(outs))[x] == JoinCount(v, ItemsFrom(leftUps, i), ItemsFrom(rightUps, i), x) {
      BroadcastCountsOut(v, block, replicas, leftUps, rightUps, i, lefts, rights, outs, x);
    }
  }

  /** Exactly one replica lacks the key if it has no left item, and none if it has one. */
  predicate LackedOnce<K(==), A>(l: seq<(K, A)>, lefts: seq<seq<(K, A)>>, k: K) {
    Lacking(lefts, k) == if ItemsOf(l, k) == [] then 1 else 0
  }

  lemma LackedCount<K, A, B>(l: seq<(K, A)>, lefts: seq<seq<(K, A)>>, r: seq<(K, B)>, x: Joined<K, A, B>)
    requires ItemsOf(r, x.key) != [] ==> LackedOnce(l, lefts, x.key)
    requires JoinCount(Outer, Flatten(lefts), r, x) == JoinCount(Outer, l, r, x)
    ensures BroadcastCount(Outer, lefts, r, x) == JoinCount(Outer, l, r, x)
  {
  }

  lemma CountLacked<K, A, B>(l: seq<(K, A)>, lefts: seq<seq<(K, A)>>, r: seq<(K, B)>, i: nat)
    requires i < |r|
    requires var x := Joined(r[i].0, None, Some(r[i].1));
      BroadcastCount(Outer, lefts, r, x) == JoinCount(Outer, l, r, x)
    ensures LackedOnce(l, lefts, r[i].0)
  {
    TimesIsCount(r, r[i].0, r[i].1);
    assert r[i] in multiset(r);
    Cancel(Lacking(lefts, r[i].0), if ItemsOf(l, r[i].0) == [] then 1 else 0, Times(r, r[i].0, r[i].1));
  }

  lemma Cancel(a: nat, b: nat, c: nat)
    requires a * c == b * c && c > 0
    ensures a == b
  {
  }

  /**
    The outer join may do so only if there is one replica, or every replica has on its left side all
    the keys of the right one; this is why it is not offered.
   */
  lemma OuterBroadcast<K(!new), A(!new), B(!new), S>(
      block: nat, replicas: seq<Coord>, leftUps: seq<Upstream<(K, A), S>>, rightUps: seq<Upstream<(K, B), S>>, i: nat,
      lefts: seq<seq<(K, A)>>, rights: seq<seq<(K, B)>>, outs: seq<seq<Joined<K, A, B>>>)
    requires IsBroadcastJoin(Outer, block, replicas, leftUps, rightUps, i, lefts, rights, outs)
    ensures var l, r := ItemsFrom(leftUps, i), ItemsFrom(rightUps, i);
            IsJoin(Outer, l, r, Flatten(outs)) <==> forall m :: 0 <= m < |r| ==> LackedOnce(l, lefts, r[m].0)
  {
    var l, r := ItemsFrom(leftUps, i), ItemsFrom(rightUps, i);
    if forall m :: 0 <= m < |r| ==> LackedOnce(l, lefts, r[m].0) {
      forall x ensures multiset(Flatten(outs))[x] == JoinCount(Outer, l, r, x) {
        BroadcastCountsOut(Outer, block, replicas, leftUps, rightUps, i, lefts, rights, outs, x);
        HasItem(r, x.key);
        LackedCount(l, lefts, r, x);
      }
    }
    if IsJoin(Outer, l, r, Flatten(outs)) {
      forall m | 0 <= m < |r| ensures LackedOnce(l, lefts, r[m].0) {
        var x := Joined(r[m].0, None, Some(r[m].1));
        BroadcastCountsOut(Outer, block, replicas, leftUps, rightUps, i, lefts, rights, outs, x);
        assert multiset(Flatten(outs))[x] == JoinCount(Outer, l, r, x);
        CountLacked(l, lefts, r, m);
      }
    }
  }
}
