/** What the replicas of a block receive from the ends of the blocks before it. */
module Delivery {
  import opened Streams
  import opened Keyed
  import opened Routing
  import opened EndOfBlock

  // What the replicas of a block receive ----------------------------------------------------------

  /** A replica of a block before it: its connections, and its stream with the numbers drawn at its end. */
  datatype Upstream<T, B> = Upstream(coord: Coord, senders: seq<(Endpoint, B)>, stream: seq<(StreamElement<T>, nat)>)

  /** The connections are those of the execution graph, in any order. */
  ghost predicate AreConnected<T, B>(onlyOne: bool, ups: seq<Upstream<T, B>>, block: nat, replicas: seq<Coord>) {
    forall i :: 0 <= i < |ups| ==> IsConnected(onlyOne, ups[i], block, replicas)
  }

  ghost predicate IsConnected<T, B>(onlyOne: bool, up: Upstream<T, B>, block: nat, replicas: seq<Coord>) {
    ConnectedTo(up.coord.block, up.senders, block, Reached(onlyOne, up.coord, block, replicas))
  }

  /** The items of a round of a stream. */
  function RoundOf<T>(stream: seq<StreamElement<T>>, i: nat): seq<T> {
    var rounds := Rounds(stream, []);
    if i < |rounds| then rounds[i] else []
  }

  /** The items of a round of all replicas. */
  function ItemsFrom<T, B>(ups: seq<Upstream<T, B>>, i: nat): seq<T> {
    if ups == [] then [] else ItemsFrom(ups[..|ups| - 1], i) + RoundOf(Elements(ups[|ups| - 1].stream), i)
  }

  /** The first sender to a replica, if there is one. */
  function PositionOf<B>(senders: seq<(Endpoint, B)>, to: Coord): (p: nat)
    ensures p <= |senders| && (p < |senders| ==> senders[p].0.coord == to)
    ensures forall q :: 0 <= q < p ==> senders[q].0.coord != to
  {
    if senders == [] || senders[0].0.coord == to then 0 else 1 + PositionOf(senders[1..], to)
  }

  /** What the end of the replica sends to a replica of the next block in a round. */
  function SentTo<T, B>(s: Strategy<T>, up: Upstream<T, B>, to: Coord, i: nat): seq<T> {
    var sorted := Sort(EndpointOrder(), up.senders);
    var p := PositionOf(sorted, to);
    if p < |sorted| then RoundOf(SendsAll(s, None, sorted, p, up.stream), i) else []
  }

  function AllSentTo<T, B>(s: Strategy<T>, ups: seq<Upstream<T, B>>, to: Coord, i: nat): seq<T> {
    if ups == [] then [] else AllSentTo(s, ups[..|ups| - 1], to, i) + SentTo(s, ups[|ups| - 1], to, i)
  }

  /** What each replica receives in a round is what is sent to it in this round, in any order. */
  ghost predicate Delivered<T, B>(s: Strategy<T>, ups: seq<Upstream<T, B>>, replicas: seq<Coord>, i: nat,
      local: seq<seq<T>>) {
    |local| == |replicas| && forall j :: 0 <= j < |local| ==>
      multiset(local[j]) == multiset(AllSentTo(s, ups, replicas[j], i))
  }

  /** The replica at a position. */
  lemma PlaceOf<B>(from: nat, senders: seq<(Endpoint, B)>, block: nat, replicas: seq<Coord>, p: nat) returns (j: nat)
    requires ConnectedTo(from, senders, block, replicas)
    requires p < |Sort(EndpointOrder(), senders)| && Sort(EndpointOrder(), senders)[p].0.coord.block == block
    ensures j < |replicas| && replicas[j] == Sort(EndpointOrder(), senders)[p].0.coord
    ensures j < |Positions(Sort(EndpointOrder(), senders), block)| &&
      Positions(Sort(EndpointOrder(), senders), block)[j] == p
  {
    var sorted := Sort(EndpointOrder(), senders);
    HasPosition(sorted, p);
    j :| 0 <= j < |Positions(sorted, block)| && Positions(sorted, block)[j] == p;
    PositionsAreOfBlock(sorted, block, j);
    SortKeepsEndpoints(senders, block);
    assert EndpointsOf(sorted, block)[j] in multiset(EndpointsFrom(from, replicas));
    ReceiverIsSame(from, senders, block, replicas, 0);
  }

  /** A replica that is not connected gets nothing. */
  lemma SentToNone<T, B>(s: Strategy<T>, up: Upstream<T, B>, block: nat, reached: seq<Coord>, to: Coord, i: nat)
    requires ConnectedTo(up.coord.block, up.senders, block, reached) && to.block == block && to !in reached
    ensures SentTo(s, up, to, i) == []
  {
    var sorted := Sort(EndpointOrder(), up.senders);
    var p := PositionOf(sorted, to);
    if p < |sorted| { var j := PlaceOf(up.coord.block, up.senders, block, reached, p); }
  }

  /** A replica that is connected gets the items for which it is chosen. */
  lemma SentIsKept<T, B>(s: Strategy<T>, up: Upstream<T, B>, block: nat, reached: seq<Coord>, j: nat, i: nat)
    requires !s.Random? && ConnectedTo(up.coord.block, up.senders, block, reached) && j < |reached|
    ensures var sorted := Sort(EndpointOrder(), up.senders);
            var ps := Positions(sorted, block);
            && |ps| == |reached| && ps[j] < |sorted|
            && SentTo(s, up, reached[j], i) == Kept(s, sorted, ps[j], RoundOf(Elements(up.stream), i))
  {
    var sorted := Sort(EndpointOrder(), up.senders);
    var p := PositionOf(sorted, reached[j]);
    ReplicaIsChosen(s, up.coord.block, up.senders, block, reached, 0, j);
    var j' := PlaceOf(up.coord.block, up.senders, block, reached, p);
    RoundsSent(s, sorted, p, up.stream, []);
  }

  // Single strategies ------------------------------------------------------------------------------

  /** With a hash, the items of a key all go to one replica. */
  function ByKey<K, V>(hash: K -> nat): Strategy<(K, V)> { GroupBy((x: (K, V)) => hash(x.0)) }

  lemma {:induction false} KeptByKey<K, V, B>(hash: K -> nat, senders: seq<(Endpoint, B)>, p: nat, items: seq<(K, V)>,
      k: K)
    requires p < |senders|
    ensures ItemsOf(Kept(ByKey(hash), senders, p, items), k) ==
            if Chosen(ByKey<K, V>(hash), senders, p, hash(k)) then ItemsOf(items, k) else []
  {
    if items != [] {
      var n := |items| - 1;
      var x := items[n];
      KeptByKey(hash, senders, p, items[..n], k);
      assert items == items[..n] + [x] && Index(ByKey<K, V>(hash), x, 0) == hash(x.0);
      KeptAppend(ByKey(hash), senders, p, items[..n], x);
      ItemsOfAppend(Kept(ByKey(hash), senders, p, items[..n]), x.0, x.1, k);
    }
  }

  lemma {:induction false} KeptIsAll<T, B>(s: Strategy<T>, senders: seq<(Endpoint, B)>, p: nat, items: seq<T>)
    requires p < |senders| && Chosen(s, senders, p, 0) && (s.All? || s.OnlyOne?)
    ensures Kept(s, senders, p, items) == items
  {
    if items != [] { KeptIsAll(s, senders, p, items[..|items| - 1]); }
  }

  lemma {:induction false} SentByKey<K, V, B>(hash: K -> nat, ups: seq<Upstream<(K, V), B>>, block: nat,
      replicas: seq<Coord>, i: nat, j: nat, k: K)
    requires AreConnected(false, ups, block, replicas) && IsReplicas(block, replicas) && j < |replicas|
    ensures ItemsOf(AllSentTo(ByKey(hash), ups, replicas[j], i), k) ==
      if hash(k) % |replicas| == j then ItemsOf(ItemsFrom(ups, i), k) else []
  {
    if ups != [] {
      var n := |ups| - 1;
      var s := ByKey<K, V>(hash);
      SentByKey(hash, ups[..n], block, replicas, i, j, k);
      assert IsConnected(false, ups[n], block, replicas);
      SentIsKept(s, ups[n], block, replicas, j, i);
      var sorted := Sort(EndpointOrder(), ups[n].senders);
      ReplicaIsChosen(s, ups[n].coord.block, ups[n].senders, block, replicas, hash(k), j);
      KeptByKey(hash, sorted, Positions(sorted, block)[j], RoundOf(Elements(ups[n].stream), i), k);
      ItemsOfConcat(AllSentTo(s, ups[..n], replicas[j], i), SentTo(s, ups[n], replicas[j], i), k);
      ItemsOfConcat(ItemsFrom(ups[..n], i), RoundOf(Elements(ups[n].stream), i), k);
    }
  }

  lemma DeliveredByKey<K, V(!new), S>(hash: K -> nat, ups: seq<Upstream<(K, V), S>>, block: nat, replicas: seq<Coord>,
      i: nat,
      local: seq<seq<(K, V)>>, j: nat, k: K)
    requires Delivered(ByKey(hash), ups, replicas, i, local) && j < |local|
    requires AreConnected(false, ups, block, replicas) && IsReplicas(block, replicas)
    ensures multiset(ItemsOf(local[j], k)) ==
            multiset(if hash(k) % |replicas| == j then ItemsOf(ItemsFrom(ups, i), k) else [])
  {
    SameKeyItems(local[j], AllSentTo(ByKey(hash), ups, replicas[j], i), k);
    SentByKey(hash, ups, block, replicas, i, j, k);
  }

  /** A broadcast reaches every replica. */
  lemma {:induction false} SentToAll<T, B>(ups: seq<Upstream<T, B>>, block: nat, replicas: seq<Coord>, i: nat, j: nat)
    requires AreConnected(false, ups, block, replicas) && IsReplicas(block, replicas) && j < |replicas|
    ensures AllSentTo(All, ups, replicas[j], i) == ItemsFrom(ups, i)
  {
    if ups != [] {
      var n := |ups| - 1;
      SentToAll(ups[..n], block, replicas, i, j);
      assert IsConnected(false, ups[n], block, replicas);
      SentIsKept(All, ups[n], block, replicas, j, i);
      var sorted := Sort(EndpointOrder(), ups[n].senders);
      KeptIsAll(All, sorted, Positions(sorted, block)[j], RoundOf(Elements(ups[n].stream), i));
    }
  }

  /** Without shuffle, every item reaches exactly one replica. */
  lemma SentToOne<T, B>(up: Upstream<T, B>, block: nat, replicas: seq<Coord>, i: nat) returns (d: nat)
    requires IsConnected(true, up, block, replicas) && IsReplicas(block, replicas) &&
      Reached(true, up.coord, block, replicas) != []
    ensures d < |replicas|
    ensures forall j :: 0 <= j < |replicas| ==>
      SentTo(OnlyOne, up, replicas[j], i) == if j == d then RoundOf(Elements(up.stream), i) else []
  {
    var reached := Reached(true, up.coord, block, replicas);
    ReachedAreConnected(true, up.coord, block, replicas);
    assert reached[0] in reached;
    d :| 0 <= d < |replicas| && replicas[d] == reached[0];
    var sorted := Sort(EndpointOrder(), up.senders);
    forall j | 0 <= j < |replicas| ensures SentTo(OnlyOne, up, replicas[j], i) ==
      if j == d then RoundOf(Elements(up.stream), i) else [] {
      if j != d {
        SentToNone(OnlyOne, up, block, reached, replicas[j], i);
      } else {
        SentIsKept(OnlyOne, up, block, reached, 0, i);
        ReplicaIsChosen<T, B>(OnlyOne, up.coord.block, up.senders, block, reached, 0, 0);
        KeptIsAll(OnlyOne, sorted, Positions(sorted, block)[0], RoundOf(Elements(up.stream), i));
      }
    }
  }
}
