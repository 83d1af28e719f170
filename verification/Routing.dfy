/** The receivers of a message. */
module Routing {
  /*
    How the end of a block chooses the replicas of the next blocks that get a message.
   */

  import opened Keyed

  datatype Coord = Coord(block: nat, host: nat, replica: nat)

  datatype Endpoint = Endpoint(coord: Coord, prevBlock: nat)

  /** A demultiplexer: it receives for a block on a host what comes from another block. */
  datatype DemuxCoord = DemuxCoord(block: nat, host: nat, prevBlock: nat)

  function DemuxOf(dest: Endpoint): DemuxCoord { DemuxCoord(dest.coord.block, dest.coord.host, dest.prevBlock) }

  datatype Strategy<!Out> = OnlyOne | Random | GroupBy(index: Out -> nat) | All

  /** The index of the replica for a message, before it is reduced modulo the number of replicas. */
  function Index<Out>(s: Strategy<Out>, message: Out, random: nat): nat {
    match s
    case GroupBy(index) => index(message)
    case Random => random
    case _ => 0
  }

  // The order of the endpoints ---------------------------------------------------------------------

  predicate CoordLe(a: Coord, b: Coord) {
    a.block < b.block || (a.block == b.block && (a.host < b.host || (a.host == b.host && a.replica <= b.replica)))
  }

  predicate EndpointLe(a: Endpoint, b: Endpoint) {
    if a.coord == b.coord then a.prevBlock <= b.prevBlock else CoordLe(a.coord, b.coord)
  }

  function EndpointOrder(): Order<Endpoint> { Order(EndpointLe) }

  lemma EndpointOrderIsTotal()
    ensures IsTotal(EndpointOrder())
  {
  }

  // Grouping the senders ---------------------------------------------------------------------------

  /** The positions of the senders to a block, in order. */
  function Positions<B>(senders: seq<(Endpoint, B)>, block: nat): seq<nat> {
    if senders == [] then []
    else
      var n := |senders| - 1;
      var before := Positions(senders[..n], block);
      if senders[n].0.coord.block == block then before + [n] else before
  }

  function EndpointsOf<B>(senders: seq<(Endpoint, B)>, block: nat): seq<Endpoint> {
    if senders == [] then []
    else
      var n := |senders| - 1;
      var before := EndpointsOf(senders[..n], block);
      if senders[n].0.coord.block == block then before + [senders[n].0] else before
  }

  lemma PositionsAreOfBlock<B>(senders: seq<(Endpoint, B)>, block: nat, i: nat)
    requires i < |Positions(senders, block)|
    ensures |Positions(senders, block)| == |EndpointsOf(senders, block)|
    ensures Positions(senders, block)[i] < |senders|
    ensures senders[Positions(senders, block)[i]].0 == EndpointsOf(senders, block)[i]
    ensures EndpointsOf(senders, block)[i].coord.block == block
  {
    var n := |senders| - 1;
    var before := Positions(senders[..n], block);
    if i < |before| {
      PositionsAreOfBlock(senders[..n], block, i);
    } else if i > 0 {
      PositionsAreOfBlock(senders[..n], block, i - 1);
    } else {
      SameLength(senders[..n], block);
    }
  }

  lemma SameLength<B>(senders: seq<(Endpoint, B)>, block: nat)
    ensures |Positions(senders, block)| == |EndpointsOf(senders, block)|
  {
  }

  /** Every group is that of one block, and every block has its group. */
  ghost predicate IsGrouping<Out, B>(s: Strategy<Out>, senders: seq<(Endpoint, B)>, groups: seq<seq<nat>>) {
    if s.All? then groups == seq(|senders|, i => [i])
    else exists blocks: seq<nat> :: IsGroupingOf(senders, groups, blocks)
  }

  ghost predicate IsGroupingOf<B>(senders: seq<(Endpoint, B)>, groups: seq<seq<nat>>, blocks: seq<nat>) {
    && |blocks| == |groups|
    && (forall g :: 0 <= g < |groups| ==> groups[g] == Positions(senders, blocks[g]) && groups[g] != [])
    && (forall g, g' :: 0 <= g < g' < |groups| ==> blocks[g] != blocks[g'])
    && forall p :: 0 <= p < |senders| ==> senders[p].0.coord.block in blocks
  }

  ghost predicate IsByBlock<B>(senders: seq<(Endpoint, B)>, byBlock: map<nat, seq<nat>>) {
    && (forall b :: b in byBlock ==> byBlock[b] == Positions(senders, b) && byBlock[b] != [])
    && (forall b :: b !in byBlock ==> Positions(senders, b) == [])
    && forall p :: 0 <= p < |senders| ==> senders[p].0.coord.block in byBlock
  }

  /** The sender at position p gets a message with this index. */
  predicate Chosen<Out, B>(s: Strategy<Out>, senders: seq<(Endpoint, B)>, p: nat, index: nat)
    requires p < |senders|
  {
    s.All? ||
    var ps := Positions(senders, senders[p].0.coord.block);
    ps != [] && ps[index % |ps|] == p
  }

  /** Positions increase, so that a sender has only one of them. */
  lemma {:induction false} PositionsIncrease<B>(senders: seq<(Endpoint, B)>, block: nat)
    ensures forall i, j :: 0 <= i < j < |Positions(senders, block)| ==>
      Positions(senders, block)[i] < Positions(senders, block)[j]
    ensures forall i :: 0 <= i < |Positions(senders, block)| ==> Positions(senders, block)[i] < |senders|
  {
    if senders != [] { PositionsIncrease(senders[..|senders| - 1], block); }
  }

  lemma {:induction false} HasPosition<B>(senders: seq<(Endpoint, B)>, p: nat)
    requires p < |senders|
    ensures p in Positions(senders, senders[p].0.coord.block)
  {
    if p < |senders| - 1 { HasPosition(senders[..|senders| - 1], p); }
  }

  predicate IsAt(groups: seq<seq<nat>>, g: int, j: int, p: int) {
    0 <= g < |groups| && 0 <= j < |groups[g]| && groups[g][j] == p
  }

  ghost predicate Occurs(groups: seq<seq<nat>>, p: int) { exists g, j :: IsAt(groups, g, j, p) }

  /** Every sender is in one group, at one place. */
  ghost predicate IsPartition(groups: seq<seq<nat>>, n: nat) {
    && (forall g, j, p :: IsAt(groups, g, j, p) ==> p < n)
    && (forall g, j, g', j', p :: IsAt(groups, g, j, p) && IsAt(groups, g', j', p) ==> g == g' && j == j')
    && forall p :: 0 <= p < n ==> Occurs(groups, p)
  }

  lemma GroupsPartition<Out, B>(s: Strategy<Out>, senders: seq<(Endpoint, B)>, groups: seq<seq<nat>>)
    requires IsGrouping(s, senders, groups)
    ensures IsPartition(groups, |senders|)
    ensures forall g :: 0 <= g < |groups| ==> groups[g] != []
  {
    if s.All? {
      forall p | 0 <= p < |senders| ensures Occurs(groups, p) { assert IsAt(groups, p, 0, p); }
    } else {
      var blocks :| IsGroupingOf(senders, groups, blocks);
      ByBlockPartition(senders, groups, blocks);
    }
  }

  lemma BlockOfGroup<B>(senders: seq<(Endpoint, B)>, groups: seq<seq<nat>>, blocks: seq<nat>, g: nat, j: nat, p: nat)
    requires IsGroupingOf(senders, groups, blocks) && IsAt(groups, g, j, p)
    ensures p < |senders| && senders[p].0.coord.block == blocks[g]
  {
    PositionsAreOfBlock(senders, blocks[g], j);
  }

  lemma ByBlockPartition<B>(senders: seq<(Endpoint, B)>, groups: seq<seq<nat>>, blocks: seq<nat>)
    requires IsGroupingOf(senders, groups, blocks)
    ensures IsPartition(groups, |senders|)
  {
    forall g, j, p | IsAt(groups, g, j, p) ensures p < |senders| { BlockOfGroup(senders, groups, blocks, g, j, p); }
    forall g, j, g', j', p | IsAt(groups, g, j, p) && IsAt(groups, g', j', p) ensures g == g' && j == j' {
      BlockOfGroup(senders, groups, blocks, g, j, p);
      BlockOfGroup(senders, groups, blocks, g', j', p);
      PositionsIncrease(senders, blocks[g]);
    }
    forall p | 0 <= p < |senders| ensures Occurs(groups, p) {
      HasPosition(senders, p);
      var g :| 0 <= g < |blocks| && blocks[g] == senders[p].0.coord.block;
      var j :| 0 <= j < |groups[g]| && groups[g][j] == p;
      assert IsAt(groups, g, j, p);
    }
  }

  /** Of every group, the sender the index chooses gets the message. */
  lemma ChosenInGroup<Out, B>(s: Strategy<Out>, senders: seq<(Endpoint, B)>, groups: seq<seq<nat>>, index: nat,
      g: nat, j: nat, p: nat)
    requires IsGrouping(s, senders, groups) && IsAt(groups, g, j, p)
    ensures p < |senders| && (Chosen(s, senders, p, index) <==> j == index % |groups[g]|)
  {
    if !s.All? {
      var blocks :| IsGroupingOf(senders, groups, blocks);
      BlockOfGroup(senders, groups, blocks, g, j, p);
      PositionsIncrease(senders, blocks[g]);
    }
  }

  method GroupByBlock<B>(senders: seq<(Endpoint, B)>) returns (byBlock: map<nat, seq<nat>>)
    ensures IsByBlock(senders, byBlock)
  {
    byBlock := map[];
    for i := 0 to |senders|
      invariant IsByBlock(senders[..i], byBlock)
    {
      var b := senders[i].0.coord.block;
      assert senders[..i + 1][..i] == senders[..i];
      PushPosition(senders[..i + 1], byBlock);
      byBlock := byBlock[b := (if b in byBlock then byBlock[b] else []) + [i]];
    }
    assert senders[..|senders|] == senders;
  }

  lemma PushPosition<B>(senders: seq<(Endpoint, B)>, byBlock: map<nat, seq<nat>>)
    requires senders != [] && IsByBlock(senders[..|senders| - 1], byBlock)
    ensures var n := |senders| - 1;
            var b := senders[n].0.coord.block;
            IsByBlock(senders, byBlock[b := (if b in byBlock then byBlock[b] else []) + [n]])
  {
    var n := |senders| - 1;
    var b := senders[n].0.coord.block;
    var byBlock' := byBlock[b := (if b in byBlock then byBlock[b] else []) + [n]];
    forall p | 0 <= p < |senders| ensures senders[p].0.coord.block in byBlock' {
      if p < n { assert senders[..n][p] == senders[p]; }
    }
  }

  /** The values of a map, in any order. */
  method Values(byBlock: map<nat, seq<nat>>) returns (groups: seq<seq<nat>>, ghost blocks: seq<nat>)
    ensures |blocks| == |groups|
    ensures forall g :: 0 <= g < |groups| ==> blocks[g] in byBlock && groups[g] == byBlock[blocks[g]]
    ensures forall g, g' :: 0 <= g < g' < |groups| ==> blocks[g] != blocks[g']
    ensures forall b :: b in byBlock ==> b in blocks
  {
    groups, blocks := [], [];
    var rest := byBlock;
    while rest != map[]
      invariant |blocks| == |groups|
      invariant forall g :: 0 <= g < |groups| ==>
        blocks[g] in byBlock && blocks[g] !in rest && groups[g] == byBlock[blocks[g]]
      invariant forall g, g' :: 0 <= g < g' < |groups| ==> blocks[g] != blocks[g']
      invariant forall b :: b in rest ==> b in byBlock && rest[b] == byBlock[b]
      invariant forall b :: b in byBlock ==> b in rest || b in blocks
      decreases |rest|
    {
      var b :| b in rest;
      groups, blocks := groups + [rest[b]], blocks + [b];
      rest := rest - {b};
    }
  }

  /** Sort the senders and group them as the strategy demands. */
  method SetupSenders<Out, B>(s: Strategy<Out>, senders: seq<(Endpoint, B)>)
    returns (sorted: seq<(Endpoint, B)>, groups: seq<seq<nat>>)
    requires s.OnlyOne? ==> forall b :: |EndpointsOf(senders, b)| <= 1
    ensures sorted == Sort(EndpointOrder(), senders) && IsGrouping(s, sorted, groups)
  {
    sorted := Sort(EndpointOrder(), senders);
    if s.All? {
      groups := seq(|sorted|, i => [i]);
    } else {
      var byBlock := GroupByBlock(sorted);
      ghost var blocks;
      groups, blocks := Values(byBlock);
      assert IsGroupingOf(sorted, groups, blocks);
      if s.OnlyOne? {
        forall g | 0 <= g < |groups| ensures |groups[g]| == 1 {
          SameLength(sorted, blocks[g]);
          SortKeepsEndpoints(senders, blocks[g]);
        }
        assert forall g :: 0 <= g < |groups| ==> |groups[g]| == 1;
      }
    }
  }

  lemma {:induction false} SortKeepsEndpoints<B>(senders: seq<(Endpoint, B)>, block: nat)
    ensures multiset(EndpointsOf(Sort(EndpointOrder(), senders), block)) == multiset(EndpointsOf(senders, block))
    ensures |EndpointsOf(Sort(EndpointOrder(), senders), block)| == |EndpointsOf(senders, block)|
  {
    if senders != [] {
      var n := |senders| - 1;
      SortKeepsEndpoints(senders[..n], block);
      InsertKeepsEndpoints(Sort(EndpointOrder(), senders[..n]), senders[n], block);
    }
    var m, m' := multiset(EndpointsOf(Sort(EndpointOrder(), senders), block)), multiset(EndpointsOf(senders, block));
    assert |m| == |m'|;
  }

  lemma {:induction false} InsertKeepsEndpoints<B>(s: seq<(Endpoint, B)>, x: (Endpoint, B), block: nat)
    ensures multiset(EndpointsOf(Insert(EndpointOrder(), s, x), block)) ==
            multiset(EndpointsOf(s, block)) + if x.0.coord.block == block then multiset{x.0} else multiset{}
  {
    var n := |s| - 1;
    if s == [] || EndpointOrder().Le(s[n].0, x.0) {
      assert (s + [x])[..|s|] == s;
    } else {
      InsertKeepsEndpoints(s[..n], x, block);
      var t := Insert(EndpointOrder(), s[..n], x);
      assert (t + [s[n]])[..|t|] == t;
    }
  }

  // Which replica gets a message -------------------------------------------------------------------

  /** The replicas of a block, in order; and the senders to it of any replica of the block `from`. */
  predicate IsReplicas(block: nat, replicas: seq<Coord>) {
    && (forall i :: 0 <= i < |replicas| ==> replicas[i].block == block)
    && forall i, j :: 0 <= i < j < |replicas| ==> CoordLe(replicas[i], replicas[j]) && replicas[i] != replicas[j]
  }

  function EndpointsFrom(from: nat, replicas: seq<Coord>): seq<Endpoint> {
    seq(|replicas|, i requires 0 <= i < |replicas| => Endpoint(replicas[i], from))
  }

  /** A replica of the block `from` is connected, in whatever order, with these replicas of a block. */
  predicate ConnectedTo<B>(from: nat, senders: seq<(Endpoint, B)>, block: nat, replicas: seq<Coord>) {
    IsReplicas(block, replicas) && multiset(EndpointsOf(senders, block)) == multiset(EndpointsFrom(from, replicas))
  }

  /** The receiver of a message, in a block. */
  function Receiver<B>(senders: seq<(Endpoint, B)>, block: nat, index: nat): (c: Coord)
    requires EndpointsOf(senders, block) != []
  {
    var es := EndpointsOf(senders, block);
    es[index % |es|].coord
  }

  predicate InOrder(es: seq<Endpoint>) {
    forall i, j :: 0 <= i < j < |es| ==> EndpointLe(es[i], es[j])
  }

  lemma SortedEndpoints<B>(sorted: seq<(Endpoint, B)>, block: nat)
    requires Sorted(EndpointOrder(), sorted)
    ensures InOrder(EndpointsOf(sorted, block))
    ensures forall i :: 0 <= i < |EndpointsOf(sorted, block)| ==>
      exists p :: 0 <= p < |sorted| && sorted[p].0 == EndpointsOf(sorted, block)[i]
  {
    if sorted != [] {
      var n := |sorted| - 1;
      SortedEndpoints(sorted[..n], block);
      var before := EndpointsOf(sorted[..n], block);
      forall i | 0 <= i < |before|
        ensures EndpointLe(before[i], sorted[n].0) && exists p :: 0 <= p < |sorted| && sorted[p].0 == before[i]
      {
        var p :| 0 <= p < n && sorted[..n][p].0 == before[i];
        assert sorted[p].0 == before[i] && EndpointOrder().Le(sorted[p].0, sorted[n].0);
      }
    }
  }

  lemma WithoutLast<T>(a: seq<T>)
    requires a != []
    ensures multiset(a[..|a| - 1]) == multiset(a) - multiset{a[|a| - 1]}
  {
    assert a == a[..|a| - 1] + [a[|a| - 1]];
  }

  lemma SameLast(a: seq<Endpoint>, b: seq<Endpoint>)
    requires InOrder(a) && InOrder(b) && multiset(a) == multiset(b) && a != [] && b != []
    ensures a[|a| - 1] == b[|b| - 1]
  {
    assert a[|a| - 1] in multiset(a) && b[|b| - 1] in multiset(b);
    LastIsGreatest(a, b[|b| - 1]);
    LastIsGreatest(b, a[|a| - 1]);
  }

  /** A multiset of endpoints has only one order. */
  lemma {:induction false} OrderIsUnique(a: seq<Endpoint>, b: seq<Endpoint>)
    requires InOrder(a) && InOrder(b) && multiset(a) == multiset(b)
    ensures a == b
  {
    assert |multiset(a)| == |a| && |multiset(b)| == |b|;
    if a != [] {
      var n := |a| - 1;
      SameLast(a, b);
      WithoutLast(a);
      WithoutLast(b);
      OrderIsUnique(a[..n], b[..n]);
      assert a == a[..n] + [a[n]] && b == b[..n] + [b[n]];
    }
  }

  lemma LastIsGreatest(a: seq<Endpoint>, e: Endpoint)
    requires InOrder(a) && e in multiset(a)
    ensures EndpointLe(e, a[|a| - 1])
  {
    assert e in a;
  }

  /**
    Which replica of a block gets a message does not depend on the block and the replica that send it,
    nor on the order in which the network lists its connections.
   */
  lemma ReceiverIsSame<B>(from: nat, senders: seq<(Endpoint, B)>, block: nat, replicas: seq<Coord>, index: nat)
    requires ConnectedTo(from, senders, block, replicas) && replicas != []
    ensures EndpointsOf(Sort(EndpointOrder(), senders), block) == EndpointsFrom(from, replicas)
    ensures Receiver(Sort(EndpointOrder(), senders), block, index) == replicas[index % |replicas|]
  {
    EndpointOrderIsTotal();
    SortIsStable(EndpointOrder(), senders);
    SortedEndpoints(Sort(EndpointOrder(), senders), block);
    SortKeepsEndpoints(senders, block);
    OrderIsUnique(EndpointsOf(Sort(EndpointOrder(), senders), block), EndpointsFrom(from, replicas));
  }

  /**
    Whatever the order of its connections, the j-th replica of a block is reached over the j-th position
    of the block, and gets the messages whose index is j modulo the number of replicas.
   */
  lemma ReplicaIsChosen<Out, B>(s: Strategy<Out>, from: nat, senders: seq<(Endpoint, B)>, block: nat,
      replicas: seq<Coord>, index: nat, j: nat)
    requires ConnectedTo(from, senders, block, replicas) && j < |replicas|
    ensures var sorted := Sort(EndpointOrder(), senders);
            var ps := Positions(sorted, block);
            && |ps| == |replicas| && ps[j] < |sorted| && sorted[ps[j]].0.coord == replicas[j]
            && (Chosen(s, sorted, ps[j], index) <==> s.All? || index % |replicas| == j)
  {
    var sorted := Sort(EndpointOrder(), senders);
    ReceiverIsSame(from, senders, block, replicas, index);
    SameLength(sorted, block);
    PositionsAreOfBlock(sorted, block, j);
    PositionsIncrease(sorted, block);
  }

  // The execution graph ----------------------------------------------------------------------------

  /** Whether the scheduler connects two replicas. */
  predicate Connects(onlyOne: bool, fragile: bool, from: Coord, to: Coord, toReplicas: seq<Coord>) {
    !(onlyOne || fragile) || |toReplicas| == 1 || (to.host == from.host && to.replica == from.replica)
  }

  /** With a shuffle all replicas are connected; a fragile connection is like one without. */
  lemma ShuffleConnectsAll(from: Coord, to: seq<Coord>, block: nat, i: nat)
    requires IsReplicas(block, to) && i < |to|
    ensures Connects(false, false, from, to[i], to)
    ensures forall onlyOne ::
      Connects(onlyOne, true, from, to[i], to) <==>
        |to| == 1 || (to[i].host == from.host && to[i].replica == from.replica)
  {
  }

  /**
    A connection without shuffle leads to exactly one replica, if the next block has a single one or
    one for each replica of this block.
   */
  lemma OnlyOneReceiver(fragile: bool, from: Coord, to: seq<Coord>, block: nat)
    requires IsReplicas(block, to)
    ensures (exists i :: 0 <= i < |to| && Connects(true, fragile, from, to[i], to)) <==>
              |to| == 1 || Coord(block, from.host, from.replica) in to
    ensures forall i, j :: 0 <= i < j < |to| ==>
              !Connects(true, fragile, from, to[i], to) || !Connects(true, fragile, from, to[j], to)
  {
    forall i | 0 <= i < |to| ensures to[i].block == block {}
    if Coord(block, from.host, from.replica) in to {
      var i :| 0 <= i < |to| && to[i] == Coord(block, from.host, from.replica);
      assert Connects(true, fragile, from, to[i], to);
    }
    if |to| == 1 { assert Connects(true, fragile, from, to[0], to); }
  }

  /** The replicas that a replica of a block is connected with. */
  function Reached(onlyOne: bool, from: Coord, block: nat, replicas: seq<Coord>): seq<Coord> {
    var same := Coord(block, from.host, from.replica);
    if !onlyOne || |replicas| == 1 then replicas
    else if same in replicas then [same]
    else []
  }

  lemma ReachedAreConnected(onlyOne: bool, from: Coord, block: nat, replicas: seq<Coord>)
    requires IsReplicas(block, replicas)
    ensures IsReplicas(block, Reached(onlyOne, from, block, replicas))
    ensures forall c :: c in Reached(onlyOne, from, block, replicas) <==>
      c in replicas && Connects(onlyOne, false, from, c, replicas)
  {
    forall c | c in replicas ensures c.block == block {}
  }
}
