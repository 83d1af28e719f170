/**
  Ports and connections of the hosts.
  The ports of the demultiplexers, and the multiplexers that connect to them: every host computes them for
  itself.
 */
module Topology {
  import opened Streams
  import opened Keyed
  import opened Routing

  /** A call of `connect`. */
  datatype Connection = Connection(from: Coord, to: Coord, typ: nat, fragile: bool)

  function DemuxFor(c: Connection): DemuxCoord { DemuxCoord(c.to.block, c.to.host, c.from.block) }

  function Demuxes(cs: seq<Connection>): set<DemuxCoord> { set c | c in cs :: DemuxFor(c) }

  predicate DemuxLe(a: DemuxCoord, b: DemuxCoord) {
    a.block < b.block || (a.block == b.block && (a.host < b.host || (a.host == b.host && a.prevBlock <= b.prevBlock)))
  }

  function DemuxOrder(): Order<DemuxCoord> { Order(DemuxLe) }

  lemma DemuxOrderIsTotal()
    ensures IsTotal(DemuxOrder())
  {
  }

  // The assignment of ports ------------------------------------------------------------------------

  function OnHost(ds: set<DemuxCoord>, host: nat): set<DemuxCoord> { set d | d in ds && d.host == host }

  /** The demultiplexers of the same host that come before this one. */
  function Before(ds: set<DemuxCoord>, d: DemuxCoord): set<DemuxCoord> {
    set e | e in ds && e.host == d.host && DemuxLe(e, d) && e != d
  }

  predicate PortOk(base: nat -> nat, ds: set<DemuxCoord>, ports: map<DemuxCoord, nat>, d: DemuxCoord) {
    d in ports && ports[d] == base(d.host) + |Before(ds, d)|
  }

  /** Each demultiplexer has the port that follows those of the ones before it on its host. */
  ghost predicate ArePorts(base: nat -> nat, ds: set<DemuxCoord>, ports: map<DemuxCoord, nat>) {
    && (forall d {:trigger PortOk(base, ds, ports, d)} :: d in ds ==> PortOk(base, ds, ports, d))
    && forall d :: d in ports ==> d in ds
  }

  /** Hosts that have the same connections, registered in any order, agree on all the ports. */
  lemma HostsAgree(base: nat -> nat, cs: seq<Connection>, cs': seq<Connection>, ports: map<DemuxCoord, nat>,
      ports': map<DemuxCoord, nat>)
    requires ArePorts(base, Demuxes(cs), ports) && ArePorts(base, Demuxes(cs'), ports')
    requires forall c :: c in cs <==> c in cs'
    ensures ports == ports'
  {
    assert Demuxes(cs) == Demuxes(cs');
    forall d | d in ports || d in ports' ensures d in ports && d in ports' && ports[d] == ports'[d] {
      assert PortOk(base, Demuxes(cs), ports, d) && PortOk(base, Demuxes(cs'), ports', d);
    }
  }

  lemma SmallerSet<T>(a: set<T>, b: set<T>)
    requires a <= b
    ensures |a| <= |b| && (a != b ==> |a| < |b|)
  {
    assert b == a + (b - a) && |b| == |a| + |b - a|;
  }

  /** On a host, the ports are all different, and they are exactly the first ones from its base port on. */
  lemma PortsAreConsecutive(base: nat -> nat, ds: set<DemuxCoord>, ports: map<DemuxCoord, nat>, host: nat)
    requires ArePorts(base, ds, ports)
    ensures forall d, e :: d in ds && e in ds && d.host == e.host && d != e ==>
      d in ports && e in ports && ports[d] != ports[e]
    ensures (set d | d in OnHost(ds, host) && d in ports :: ports[d]) == Range(base(host), |OnHost(ds, host)|)
  {
    forall d, e | d in ds && e in ds && d.host == e.host && d != e ensures d in ports && e in ports &&
      ports[d] != ports[e] {
      assert PortOk(base, ds, ports, d) && PortOk(base, ds, ports, e);
      if DemuxLe(d, e) { BeforeGrows(ds, d, e); } else { BeforeGrows(ds, e, d); }
    }
    var used := set d | d in OnHost(ds, host) && d in ports :: ports[d];
    forall d | d in OnHost(ds, host) ensures d in ports { assert PortOk(base, ds, ports, d); }
    ImageSize(OnHost(ds, host), ports, OnHost(ds, host));
    forall p | p in used ensures base(host) <= p < base(host) + |OnHost(ds, host)| {
      var d :| d in OnHost(ds, host) && d in ports && ports[d] == p;
      assert PortOk(base, ds, ports, d);
      assert d in OnHost(ds, host) && d !in Before(ds, d);
      SmallerSet(Before(ds, d), OnHost(ds, host));
    }
    FullRange(used, base(host), |OnHost(ds, host)|);
  }

  /** The ports of a host are in the order of the blocks that receive, and then of those that send. */
  lemma PortsAreInOrder(base: nat -> nat, ds: set<DemuxCoord>, ports: map<DemuxCoord, nat>, d: DemuxCoord,
    e: DemuxCoord)
    requires ArePorts(base, ds, ports) && d in ds && e in ds && d.host == e.host
    ensures d in ports && e in ports
    ensures ports[d] < ports[e] <==> d.block < e.block || (d.block == e.block && d.prevBlock < e.prevBlock)
  {
    assert PortOk(base, ds, ports, d) && PortOk(base, ds, ports, e);
    if d != e {
      if DemuxLe(d, e) { BeforeGrows(ds, d, e); } else { BeforeGrows(ds, e, d); }
    }
  }

  lemma BeforeGrows(ds: set<DemuxCoord>, d: DemuxCoord, e: DemuxCoord)
    requires d in ds && d.host == e.host && DemuxLe(d, e) && d != e
    ensures |Before(ds, d)| < |Before(ds, e)|
  {
    assert d in Before(ds, e) && d !in Before(ds, d);
    SmallerSet(Before(ds, d), Before(ds, e));
  }

  lemma {:induction false} ImageSize(some: set<DemuxCoord>, ports: map<DemuxCoord, nat>, all: set<DemuxCoord>)
    requires some <= all && forall d :: d in all ==> d in ports
    requires forall d, e :: d in all && e in all && d != e ==> ports[d] != ports[e]
    ensures |set d | d in some && d in ports :: ports[d]| == |some|
  {
    var image := set d | d in some && d in ports :: ports[d];
    if some == {} {
      assert image == {};
    } else {
      var x :| x in some;
      ImageSize(some - {x}, ports, all);
      assert image == (set d | d in some - {x} && d in ports :: ports[d]) + {ports[x]};
      assert some == (some - {x}) + {x};
    }
  }

  /** The numbers from lo on. */
  function Range(lo: nat, n: nat): set<nat>
    decreases n
  {
    if n == 0 then {} else Range(lo, n - 1) + {lo + n - 1}
  }

  lemma {:induction false} InRange(lo: nat, n: nat, p: nat)
    ensures p in Range(lo, n) <==> lo <= p < lo + n
  {
    if n > 0 { InRange(lo, n - 1, p); }
  }

  lemma {:induction false} RangeSize(lo: nat, n: nat)
    ensures |Range(lo, n)| == n
  {
    if n > 0 {
      RangeSize(lo, n - 1);
      InRange(lo, n - 1, lo + n - 1);
    }
  }

  lemma FullRange(s: set<nat>, lo: nat, n: nat)
    requires |s| == n && forall p :: p in s ==> lo <= p < lo + n
    ensures s == Range(lo, n)
  {
    RangeSize(lo, n);
    forall p | p in s ensures p in Range(lo, n) { InRange(lo, n, p); }
    SmallerSet(s, Range(lo, n));
  }

  // What a host computes ---------------------------------------------------------------------------

  ghost predicate IsInserted(ds: seq<DemuxCoord>, s: set<DemuxCoord>) {
    (forall d :: d in ds <==> d in s) && forall i, j :: 0 <= i < j < |ds| ==> ds[i] != ds[j]
  }

  function AsPairs(ds: seq<DemuxCoord>): (s: seq<(DemuxCoord, ())>)
    ensures |s| == |ds| && forall i :: 0 <= i < |s| ==> s[i] == (ds[i], ())
  {
    seq(|ds|, i requires 0 <= i < |ds| => (ds[i], ()))
  }

  /** Sorted, and without repetitions. */
  ghost predicate Ascends(ds: seq<DemuxCoord>) {
    forall i, j :: 0 <= i < j < |ds| ==> DemuxLe(ds[i], ds[j]) && ds[i] != ds[j]
  }

  method SortDemuxes(ds: seq<DemuxCoord>, ghost s: set<DemuxCoord>) returns (sorted: seq<DemuxCoord>)
    requires IsInserted(ds, s)
    ensures Ascends(sorted) && forall d :: d in sorted <==> d in s
  {
    var pairs := Sort(DemuxOrder(), AsPairs(ds));
    sorted := seq(|pairs|, i requires 0 <= i < |pairs| => pairs[i].0);
    DemuxOrderIsTotal();
    SortIsStable(DemuxOrder(), AsPairs(ds));
    SortedDemuxes(ds, s, pairs, sorted);
  }

  lemma SortedDemuxes(ds: seq<DemuxCoord>, s: set<DemuxCoord>, pairs: seq<(DemuxCoord, ())>, sorted: seq<DemuxCoord>)
    requires IsInserted(ds, s) && Sorted(DemuxOrder(), pairs)
    requires forall k :: ItemsOf(pairs, k) == ItemsOf(AsPairs(ds), k)
    requires |sorted| == |pairs| && forall i :: 0 <= i < |sorted| ==> sorted[i] == pairs[i].0
    ensures Ascends(sorted) && forall d :: d in sorted <==> d in s
  {
    forall d ensures d in sorted <==> d in s { SameDemuxes(ds, s, pairs, sorted, d); }
    forall i, j | 0 <= i < j < |sorted| ensures DemuxLe(sorted[i], sorted[j]) && sorted[i] != sorted[j] {
      assert DemuxOrder().Le(pairs[i].0, pairs[j].0);
      if sorted[i] == sorted[j] {
        TwoItems(pairs, i, j);
        OneItem(ds, sorted[i]);
      }
    }
  }

  lemma SameDemuxes(ds: seq<DemuxCoord>, s: set<DemuxCoord>, pairs: seq<(DemuxCoord, ())>, sorted: seq<DemuxCoord>,
      d: DemuxCoord)
    requires IsInserted(ds, s) && ItemsOf(pairs, d) == ItemsOf(AsPairs(ds), d)
    requires |sorted| == |pairs| && forall i :: 0 <= i < |sorted| ==> sorted[i] == pairs[i].0
    ensures d in sorted <==> d in s
  {
    if d in s {
      var i :| 0 <= i < |ds| && ds[i] == d;
      FoundItem(AsPairs(ds), d, i);
      var m := FindItem(pairs, d);
      assert sorted[m] == d;
    } else if d in sorted {
      var i :| 0 <= i < |sorted| && sorted[i] == d;
      FoundItem(pairs, d, i);
      var m := FindItem(AsPairs(ds), d);
    }
  }

  lemma {:induction false} TwoItems<K, V>(s: seq<(K, V)>, i: nat, j: nat)
    requires i < j < |s| && s[i].0 == s[j].0
    ensures |ItemsOf(s, s[i].0)| >= 2
  {
    var n := |s| - 1;
    if j < n { TwoItems(s[..n], i, j); } else { FoundItem(s[..n], s[i].0, i); }
  }

  lemma {:induction false} OneItem(ds: seq<DemuxCoord>, d: DemuxCoord)
    requires forall i, j :: 0 <= i < j < |ds| ==> ds[i] != ds[j]
    ensures |ItemsOf(AsPairs(ds), d)| <= 1
  {
    if ds != [] {
      var n := |ds| - 1;
      OneItem(ds[..n], d);
      assert AsPairs(ds)[..n] == AsPairs(ds[..n]);
      if ItemsOf(AsPairs(ds[..n]), d) != [] { var m := FindItem(AsPairs(ds[..n]), d); }
    }
  }

  /** The number of demultiplexers of a host. */
  function CountOn(ds: seq<DemuxCoord>, host: nat): nat {
    if ds == [] then 0
    else
      var before := CountOn(ds[..|ds| - 1], host);
      if ds[|ds| - 1].host == host then before + 1 else before
  }

  function Counted(ds: seq<DemuxCoord>, host: nat): set<DemuxCoord> {
    if ds == [] then {}
    else
      var before := Counted(ds[..|ds| - 1], host);
      if ds[|ds| - 1].host == host then before + {ds[|ds| - 1]} else before
  }

  lemma {:induction false} InCounted(ds: seq<DemuxCoord>, host: nat, d: DemuxCoord)
    ensures d in Counted(ds, host) <==> d in ds && d.host == host
  {
    if ds != [] {
      var n := |ds| - 1;
      InCounted(ds[..n], host, d);
      assert ds == ds[..n] + [ds[n]];
    }
  }

  lemma {:induction false} CountIsSize(ds: seq<DemuxCoord>, host: nat)
    requires forall i, j :: 0 <= i < j < |ds| ==> ds[i] != ds[j]
    ensures |Counted(ds, host)| == CountOn(ds, host)
  {
    if ds != [] {
      var n := |ds| - 1;
      CountIsSize(ds[..n], host);
      InCounted(ds[..n], host, ds[n]);
    }
  }

  /** In the sorted sequence, those before it on the host are the ones that were counted. */
  lemma CountedBefore(sorted: seq<DemuxCoord>, s: set<DemuxCoord>, i: nat)
    requires Ascends(sorted) && (forall d :: d in sorted <==> d in s) && i < |sorted|
    ensures CountOn(sorted[..i], sorted[i].host) == |Before(s, sorted[i])|
  {
    var d := sorted[i];
    CountIsSize(sorted[..i], d.host);
    var some := Counted(sorted[..i], d.host);
    forall e ensures e in some <==> e in Before(s, d) {
      InCounted(sorted[..i], d.host, e);
      if e in Before(s, d) {
        var j :| 0 <= j < |sorted| && sorted[j] == e;
        assert j < i;
        assert sorted[..i][j] == e;
      }
      if e in some {
        var j :| 0 <= j < i && sorted[..i][j] == e;
        assert sorted[j] == e;
      }
    }
    assert some == Before(s, d);
  }

  predicate NextCalls(next: map<(Coord, nat), seq<(Coord, bool)>>, c: Connection) {
    (c.from, c.typ) in next && (c.to, c.fragile) in next[(c.from, c.typ)]
  }

  class NetworkTopology {
    const base: nat -> nat                                   // the base port of each host
    var next: map<(Coord, nat), seq<(Coord, bool)>>
    var addresses: map<DemuxCoord, nat>
    ghost var connections: seq<Connection>

    constructor (base: nat -> nat)
      ensures Valid() && connections == [] && this.base == base
    {
      this.base, next, addresses, connections := base, map[], map[], [];
    }

    ghost predicate Valid()
      reads this
    {
      forall c {:trigger NextCalls(next, c)} {:trigger c in connections} :: NextCalls(next, c) <==> c in connections
    }

    method Connect(from: Coord, to: Coord, typ: nat, fragile: bool)
      requires Valid()
      modifies this`next, this`connections
      ensures Valid() && connections == old(connections) + [Connection(from, to, typ, fragile)]
    {
      ghost var before := next;
      next := next[(from, typ) := (if (from, typ) in next then next[(from, typ)] else []) + [(to, fragile)]];
      connections := connections + [Connection(from, to, typ, fragile)];
      forall c ensures NextCalls(next, c) <==> c in connections {
        assert NextCalls(before, c) <==> c in old(connections);
      }
    }

    /** All the demultiplexers, in any order, without repetitions. */
    method Collect() returns (ds: seq<DemuxCoord>)
      requires Valid()
      ensures IsInserted(ds, Demuxes(connections))
    {
      ds := [];
      var rest := next;
      while rest != map[]
        invariant forall k :: k in rest ==> k in next && rest[k] == next[k]
        invariant forall i, j :: 0 <= i < j < |ds| ==> ds[i] != ds[j]
        invariant forall d :: d in ds ==> d in Demuxes(connections)
        invariant forall c :: c in connections ==> (c.from, c.typ) in rest || DemuxFor(c) in ds
        decreases |rest|
      {
        var k :| k in rest;
        ghost var before := ds;
        assert forall t :: t in next[k] ==> NextCalls(next, Connection(k.0, t.0, k.1, t.1));
        ds := InsertAll(ds, k.0, rest[k]);
        forall d | d in ds ensures d in Demuxes(connections) {
          if d !in before {
            var t :| t in next[k] && d == DemuxCoord(t.0.block, t.0.host, k.0.block);
            assert NextCalls(next, Connection(k.0, t.0, k.1, t.1)) && DemuxFor(Connection(k.0, t.0, k.1, t.1)) == d;
          }
        }
        forall c | c in connections ensures (c.from, c.typ) in rest - {k} || DemuxFor(c) in ds {
          assert NextCalls(next, c);
          if (c.from, c.typ) == k { assert (c.to, c.fragile) in rest[k]; }
        }
        rest := rest - {k};
      }
      forall d ensures d in ds <==> d in Demuxes(connections) {}
    }

    /** The port of every demultiplexer; the numbers have 16 bits. */
    method Build()
      requires Valid() && forall h :: base(h) + |OnHost(Demuxes(connections), h)| <= 0xFFFF
      modifies this`addresses
      ensures ArePorts(base, Demuxes(connections), addresses)
      ensures forall d :: d in addresses ==> addresses[d] <= 0xFFFF
    {
      var coords := Collect();
      coords := SortDemuxes(coords, Demuxes(connections));
      addresses := AssignPorts(base, coords, Demuxes(connections));
      forall d | d in addresses ensures addresses[d] <= 0xFFFF {
        assert PortOk(base, Demuxes(connections), addresses, d);
        SmallerSet(Before(Demuxes(connections), d), OnHost(Demuxes(connections), d.host));
      }
    }
  }

  /** The demultiplexers of the channels of a replica join those there are. */
  method InsertAll(ds: seq<DemuxCoord>, from: Coord, tos: seq<(Coord, bool)>) returns (more: seq<DemuxCoord>)
    requires forall i, j :: 0 <= i < j < |ds| ==> ds[i] != ds[j]
    ensures forall i, j :: 0 <= i < j < |more| ==> more[i] != more[j]
    ensures forall d :: d in more <==> d in ds || exists t: (Coord, bool) ::
      t in tos && d == DemuxCoord(t.0.block, t.0.host, from.block)
  {
    more := ds;
    for i := 0 to |tos|
      invariant forall i, j :: 0 <= i < j < |more| ==> more[i] != more[j]
      invariant forall d :: d in more <==> d in ds || exists t: (Coord, bool) ::
        t in tos[..i] && d == DemuxCoord(t.0.block, t.0.host, from.block)
    {
      var d := DemuxCoord(tos[i].0.block, tos[i].0.host, from.block);
      assert tos[..i + 1] == tos[..i] + [tos[i]];
      if d !in more { more := more + [d]; }
    }
    assert tos[..|tos|] == tos;
  }

  predicate IsUsed(used: map<nat, nat>, ds: seq<DemuxCoord>, host: nat) {
    (if host in used then used[host] else 0) == CountOn(ds, host)
  }

  ghost predicate AreUsed(used: map<nat, nat>, ds: seq<DemuxCoord>) {
    forall h {:trigger IsUsed(used, ds, h)} :: IsUsed(used, ds, h)
  }

  lemma OneMoreUsed(used: map<nat, nat>, sorted: seq<DemuxCoord>, i: nat, offset: nat)
    requires i < |sorted| && AreUsed(used, sorted[..i]) && offset == CountOn(sorted[..i], sorted[i].host)
    ensures AreUsed(used[sorted[i].host := offset + 1], sorted[..i + 1])
  {
    var used', ds := used[sorted[i].host := offset + 1], sorted[..i + 1];
    assert ds[..i] == sorted[..i];
    forall h ensures IsUsed(used', ds, h) { assert IsUsed(used, sorted[..i], h); }
  }

  method AssignPorts(base: nat -> nat, sorted: seq<DemuxCoord>, ghost s: set<DemuxCoord>)
    returns (ports: map<DemuxCoord, nat>)
    requires Ascends(sorted) && forall d :: d in sorted <==> d in s
    ensures ArePorts(base, s, ports)
  {
    ports := map[];
    var used: map<nat, nat> := map[];
    for i := 0 to |sorted|
      invariant AreUsed(used, sorted[..i]) && AreAssigned(base, s, sorted, i, ports)
    {
      ports, used := AssignNext(base, sorted, i, ports, used, s);
    }
    AllAssigned(base, s, sorted, ports);
  }

  /** The next demultiplexer gets the next port of its host. */
  method AssignNext(base: nat -> nat, sorted: seq<DemuxCoord>, i: nat, ports: map<DemuxCoord, nat>,
      used: map<nat, nat>, ghost s: set<DemuxCoord>)
    returns (ports': map<DemuxCoord, nat>, used': map<nat, nat>)
    requires Ascends(sorted) && (forall d :: d in sorted <==> d in s) && i < |sorted|
    requires AreUsed(used, sorted[..i]) && AreAssigned(base, s, sorted, i, ports)
    ensures AreUsed(used', sorted[..i + 1]) && AreAssigned(base, s, sorted, i + 1, ports')
  {
    var d := sorted[i];
    var offset := if d.host in used then used[d.host] else 0;
    ports', used' := ports[d := base(d.host) + offset], used[d.host := offset + 1];
    NextPort(base, s, sorted, i, ports, used, offset, ports', used');
  }

  lemma NextPort(base: nat -> nat, s: set<DemuxCoord>, sorted: seq<DemuxCoord>, i: nat, ports: map<DemuxCoord, nat>,
      used: map<nat, nat>, offset: nat, ports': map<DemuxCoord, nat>, used': map<nat, nat>)
    requires Ascends(sorted) && (forall d :: d in sorted <==> d in s) && i < |sorted|
    requires AreUsed(used, sorted[..i]) && AreAssigned(base, s, sorted, i, ports)
    requires offset == if sorted[i].host in used then used[sorted[i].host] else 0
    requires ports' == ports[sorted[i] := base(sorted[i].host) + offset]
    requires used' == used[sorted[i].host := offset + 1]
    ensures AreUsed(used', sorted[..i + 1]) && AreAssigned(base, s, sorted, i + 1, ports')
  {
    OffsetIs(s, sorted, i, used, offset);
    OneMorePort(base, s, sorted, i, ports, offset);
    OneMoreUsed(used, sorted, i, offset);
  }


  lemma NotBefore(sorted: seq<DemuxCoord>, i: nat)
    requires Ascends(sorted) && i < |sorted|
    ensures sorted[i] !in sorted[..i]
  {
  }

  lemma OffsetIs(s: set<DemuxCoord>, sorted: seq<DemuxCoord>, i: nat, used: map<nat, nat>, offset: nat)
    requires Ascends(sorted) && (forall d :: d in sorted <==> d in s) && i < |sorted| && AreUsed(used, sorted[..i])
    requires offset == if sorted[i].host in used then used[sorted[i].host] else 0
    ensures sorted[i] !in sorted[..i]
    ensures offset == CountOn(sorted[..i], sorted[i].host) == |Before(s, sorted[i])|
  {
    NotBefore(sorted, i);
    assert IsUsed(used, sorted[..i], sorted[i].host);
    CountedBefore(sorted, s, i);
  }

  /** The first i demultiplexers have their ports. */
  ghost predicate AreAssigned(base: nat -> nat, s: set<DemuxCoord>, sorted: seq<DemuxCoord>, i: nat,
      ports: map<DemuxCoord, nat>)
    requires i <= |sorted|
  {
    (forall d :: d in ports <==> d in sorted[..i]) && forall j :: 0 <= j < i ==> PortOk(base, s, ports, sorted[j])
  }

  lemma AllAssigned(base: nat -> nat, s: set<DemuxCoord>, sorted: seq<DemuxCoord>, ports: map<DemuxCoord, nat>)
    requires (forall d :: d in sorted <==> d in s) && AreAssigned(base, s, sorted, |sorted|, ports)
    ensures ArePorts(base, s, ports)
  {
    assert sorted[..|sorted|] == sorted;
    forall d | d in s ensures PortOk(base, s, ports, d) {
      var j :| 0 <= j < |sorted| && sorted[j] == d;
    }
  }

  lemma OneMorePort(base: nat -> nat, s: set<DemuxCoord>, sorted: seq<DemuxCoord>, i: nat,
      ports: map<DemuxCoord, nat>, offset: nat)
    requires i < |sorted| && sorted[i] !in sorted[..i] && offset == |Before(s, sorted[i])|
    requires AreAssigned(base, s, sorted, i, ports)
    ensures AreAssigned(base, s, sorted, i + 1, ports[sorted[i] := base(sorted[i].host) + offset])
  {
    assert sorted[..i + 1] == sorted[..i] + [sorted[i]];
    var ports' := ports[sorted[i] := base(sorted[i].host) + offset];
    forall j | 0 <= j <= i ensures PortOk(base, s, ports', sorted[j]) {
      if j < i { assert PortOk(base, s, ports, sorted[j]); }
    }
  }

  // Clients ----------------------------------------------------------------------------------------

  predicate Passes(c: Connection, d: DemuxCoord, typ: nat) { DemuxFor(c) == d && c.typ == typ && c.from.host != d.host }

  /** The blocks on other hosts that a demultiplexer expects to connect. */
  function Expected(cs: seq<Connection>, d: DemuxCoord, typ: nat): set<(nat, nat)> {
    set c | c in cs && Passes(c, d, typ) :: (c.from.block, c.from.host)
  }

  /** A replica gets all its senders at once but for those of fragile connections, which it may ask for one by one. */
  predicate Serves(c: Connection, asked: seq<(Coord, Coord)>) { !c.fragile || (c.from, c.to) in asked }

  /** The other hosts whose replicas get a sender to the demultiplexer. */
  function Clients(cs: seq<Connection>, asked: seq<(Coord, Coord)>, d: DemuxCoord, typ: nat): set<nat> {
    set c | c in cs && Passes(c, d, typ) && Serves(c, asked) :: c.from.host
  }

  /** A connection of this type, from a block on another host through the demultiplexer. */
  predicate Leads(c: Connection, b: nat, h: nat, d: DemuxCoord, typ: nat) {
    && c.from.block == b == d.prevBlock && c.from.host == h != d.host
    && c.to.block == d.block && c.to.host == d.host && c.typ == typ
  }

  /** Who is waited for, and who connects, by the connections that were registered. */
  lemma ExpectedAre(cs: seq<Connection>, asked: seq<(Coord, Coord)>, d: DemuxCoord, typ: nat, b: nat, h: nat)
    ensures (b, h) in Expected(cs, d, typ) <==> exists i :: 0 <= i < |cs| && Leads(cs[i], b, h, d, typ)
    ensures h in Clients(cs, asked, d, typ) <==>
      exists i :: 0 <= i < |cs| && Leads(cs[i], d.prevBlock, h, d, typ) && Serves(cs[i], asked)
  {
    if (b, h) in Expected(cs, d, typ) {
      var c :| c in cs && Passes(c, d, typ) && (c.from.block, c.from.host) == (b, h);
      assert Leads(c, b, h, d, typ);
    }
    if i :| 0 <= i < |cs| && Leads(cs[i], b, h, d, typ) { assert cs[i] in cs && Passes(cs[i], d, typ); }
    if h in Clients(cs, asked, d, typ) {
      var c :| c in cs && Passes(c, d, typ) && Serves(c, asked) && c.from.host == h;
      assert Leads(c, d.prevBlock, h, d, typ);
    }
    if i :| 0 <= i < |cs| && Leads(cs[i], d.prevBlock, h, d, typ) && Serves(cs[i], asked) {
      assert cs[i] in cs && Passes(cs[i], d, typ) && Serves(cs[i], asked);
    }
  }

  function Blocks(hosts: set<nat>, block: nat): set<(nat, nat)> { set h | h in hosts :: (block, h) }

  lemma {:induction false} BlocksSize(hosts: set<nat>, block: nat)
    ensures |Blocks(hosts, block)| == |hosts|
  {
    if hosts == {} {
      assert Blocks(hosts, block) == {};
    } else {
      var h :| h in hosts;
      BlocksSize(hosts - {h}, block);
      assert Blocks(hosts, block) == Blocks(hosts - {h}, block) + {(block, h)};
    }
  }

  /**
    As many clients connect as a demultiplexer waits for, if and only if no host has only fragile
    connections to it that no replica asks for.
   */
  lemma ClientsAreExpected(cs: seq<Connection>, asked: seq<(Coord, Coord)>, d: DemuxCoord, typ: nat)
    ensures |Clients(cs, asked, d, typ)| == |Expected(cs, d, typ)| <==>
            forall c :: c in cs && Passes(c, d, typ) ==> c.from.host in Clients(cs, asked, d, typ)
  {
    var clients, expected := Clients(cs, asked, d, typ), Expected(cs, d, typ);
    var blocks := Blocks(clients, d.prevBlock);
    BlocksSize(clients, d.prevBlock);
    forall b | b in blocks ensures b in expected {
      var c :| c in cs && Passes(c, d, typ) && Serves(c, asked) && c.from.host == b.1;
      assert (c.from.block, c.from.host) == b;
    }
    SmallerSet(blocks, expected);
    if blocks == expected {
      forall c | c in cs && Passes(c, d, typ)
        ensures c.from.host in clients { assert (c.from.block, c.from.host) in expected; }
    }
    if forall c :: c in cs && Passes(c, d, typ) ==> c.from.host in clients {
      assert blocks == expected;
    }
  }

  /** The receiver's host waits for a client that never connects, unless the sender asks for it. */
  lemma FragileClientIsMissed(asked: bool)
    ensures var from, to, d := Coord(1, 1, 0), Coord(2, 0, 0), DemuxCoord(2, 0, 1);
            var cs := [Connection(from, to, 0, true)];
            && |Expected(cs, d, 0)| == 1
            && |Clients(cs, if asked then [(from, to)] else [], d, 0)| == if asked then 1 else 0
  {
    var from, to, d := Coord(1, 1, 0), Coord(2, 0, 0), DemuxCoord(2, 0, 1);
    var c := Connection(from, to, 0, true);
    var a := if asked then [(from, to)] else [];
    assert c in [c] && Passes(c, d, 0);
    assert Expected([c], d, 0) == {(1, 1)};
    assert Clients([c], a, d, 0) == if asked then {1} else {};
  }

  /** A host gives its replicas their senders: it makes one multiplexer for each demultiplexer they need. */
  method MakeMultiplexers(next: map<(Coord, nat), seq<(Coord, bool)>>, locals: seq<Coord>,
      asked: seq<(Coord, Coord)>, typ: nat, host: nat, ghost cs: seq<Connection>)
    returns (muxes: seq<DemuxCoord>)
    requires forall c {:trigger NextCalls(next, c)} {:trigger c in cs} :: NextCalls(next, c) <==> c in cs
    requires forall i :: 0 <= i < |locals| ==> locals[i].host == host
    requires forall c :: c in cs && c.from.host == host && c.typ == typ ==> c.from in locals
    requires forall a :: a in asked ==> IsChannel(cs, a.0, a.1, typ) && a.0.host == host
    ensures forall i, j :: 0 <= i < j < |muxes| ==> muxes[i] != muxes[j]
    ensures forall d: DemuxCoord :: d in muxes ==> d.host != host
    ensures forall d: DemuxCoord :: d.host != host ==> (d in muxes <==> host in Clients(cs, asked, d, typ))
  {
    muxes := [];
    for i := 0 to |locals|
      invariant forall i, j :: 0 <= i < j < |muxes| ==> muxes[i] != muxes[j]
      invariant forall d :: d in muxes ==> d.host != host && host in Clients(cs, asked, d, typ)
      invariant forall c :: c in cs && c.typ == typ && !c.fragile && c.from in locals[..i] && c.to.host != host ==>
        DemuxFor(c) in muxes
    {
      var from := locals[i];
      assert locals[..i + 1] == locals[..i] + [from];
      if (from, typ) in next {
        muxes := Register(muxes, from, asked, typ, host, next[(from, typ)], cs, next);
      }
      forall c | c in cs && c.typ == typ && !c.fragile && c.from == from &&
        c.to.host != host ensures DemuxFor(c) in muxes {
        assert NextCalls(next, c);
      }
    }
    assert locals[..|locals|] == locals;
    muxes := RegisterAsked(muxes, asked, typ, host, cs);
  }

  /** The original panics when a sender is asked for that was not registered. */
  ghost predicate IsChannel(cs: seq<Connection>, from: Coord, to: Coord, typ: nat) {
    exists c :: c in cs && c.from == from && c.to == to && c.typ == typ
  }

  /** The senders that are asked for one by one. */
  method RegisterAsked(muxes: seq<DemuxCoord>, asked: seq<(Coord, Coord)>, typ: nat, host: nat,
      ghost cs: seq<Connection>)
    returns (more: seq<DemuxCoord>)
    requires forall a :: a in asked ==> IsChannel(cs, a.0, a.1, typ) && a.0.host == host
    requires forall i, j :: 0 <= i < j < |muxes| ==> muxes[i] != muxes[j]
    requires forall d :: d in muxes ==> d.host != host && host in Clients(cs, asked, d, typ)
    ensures forall i, j :: 0 <= i < j < |more| ==> more[i] != more[j]
    ensures forall d :: d in more ==> d.host != host && host in Clients(cs, asked, d, typ)
    ensures forall d :: d in muxes ==> d in more
    ensures forall a :: a in asked && a.1.host != host ==> DemuxCoord(a.1.block, a.1.host, a.0.block) in more
  {
    more := muxes;
    for i := 0 to |asked|
      invariant forall i, j :: 0 <= i < j < |more| ==> more[i] != more[j]
      invariant forall d :: d in more ==> d.host != host && host in Clients(cs, asked, d, typ)
      invariant forall d :: d in muxes ==> d in more
      invariant forall a :: a in asked[..i] && a.1.host != host ==> DemuxCoord(a.1.block, a.1.host, a.0.block) in more
    {
      var (from, to) := asked[i];
      assert asked[..i + 1] == asked[..i] + [asked[i]] && asked[i] in asked;
      if to.host != host {
        var d := DemuxCoord(to.block, to.host, from.block);
        ghost var c :| c in cs && c.from == from && c.to == to && c.typ == typ;
        assert Passes(c, d, typ) && Serves(c, asked);
        if d !in more { more := more + [d]; }
      }
    }
    assert asked[..|asked|] == asked;
  }

  method Register(muxes: seq<DemuxCoord>, from: Coord, ghost asked: seq<(Coord, Coord)>, typ: nat, host: nat,
      tos: seq<(Coord, bool)>, ghost cs: seq<Connection>,
      ghost next: map<(Coord, nat), seq<(Coord, bool)>>)
    returns (more: seq<DemuxCoord>)
    requires forall c {:trigger NextCalls(next, c)} {:trigger c in cs} :: NextCalls(next, c) <==> c in cs
    requires from.host == host && (from, typ) in next && tos == next[(from, typ)]
    requires forall i, j :: 0 <= i < j < |muxes| ==> muxes[i] != muxes[j]
    requires forall d :: d in muxes ==> d.host != host && host in Clients(cs, asked, d, typ)
    ensures forall i, j :: 0 <= i < j < |more| ==> more[i] != more[j]
    ensures forall d :: d in more ==> d.host != host && host in Clients(cs, asked, d, typ)
    ensures forall d :: d in muxes ==> d in more
    ensures forall t: (Coord, bool) :: t in tos && !t.1 && t.0.host != host ==>
      DemuxCoord(t.0.block, t.0.host, from.block) in more
  {
    more := muxes;
    for i := 0 to |tos|
      invariant forall i, j :: 0 <= i < j < |more| ==> more[i] != more[j]
      invariant forall d :: d in more ==> d.host != host && host in Clients(cs, asked, d, typ)
      invariant forall d :: d in muxes ==> d in more
      invariant forall t: (Coord, bool) :: t in tos[..i] && !t.1 && t.0.host != host ==>
        DemuxCoord(t.0.block, t.0.host, from.block) in more
    {
      var (to, fragile) := tos[i];
      assert tos[..i + 1] == tos[..i] + [tos[i]];
      if !fragile && to.host != host {
        var d := DemuxCoord(to.block, to.host, from.block);
        ghost var c := Connection(from, to, typ, fragile);
        assert NextCalls(next, c) && Passes(c, d, typ) && Serves(c, asked);
        if d !in more { more := more + [d]; }
      }
    }
    assert tos[..|tos|] == tos;
  }

  /** The clients that a demultiplexer counts, from all the connections its host knows. */
  method CountClients(next: map<(Coord, nat), seq<(Coord, bool)>>, d: DemuxCoord, typ: nat,
      ghost cs: seq<Connection>) returns (count: nat)
    requires forall c {:trigger NextCalls(next, c)} {:trigger c in cs} :: NextCalls(next, c) <==> c in cs
    ensures count == |Expected(cs, d, typ)|
  {
    var prev: set<(nat, nat)> := {};
    var rest := next;
    while rest != map[]
      invariant forall k :: k in rest ==> k in next && rest[k] == next[k]
      invariant forall b :: b in prev ==> b in Expected(cs, d, typ)
      invariant forall c :: c in cs && Passes(c, d, typ) ==>
        (c.from, c.typ) in rest || (c.from.block, c.from.host) in prev
      decreases |rest|
    {
      var k :| k in rest;
      ghost var before := prev;
      if k.0.host != d.host && k.1 == typ && exists t: (Coord, bool) ::
        t in rest[k] && DemuxCoord(t.0.block, t.0.host, k.0.block) == d {
        prev := prev + {(k.0.block, k.0.host)};
        ghost var t: (Coord, bool) :| t in rest[k] && DemuxCoord(t.0.block, t.0.host, k.0.block) == d;
        ghost var c := Connection(k.0, t.0, k.1, t.1);
        assert NextCalls(next, c) && Passes(c, d, typ);
      }
      forall c | c in cs && Passes(c, d, typ) ensures (c.from, c.typ) in rest - {k} ||
        (c.from.block, c.from.host) in prev {
        assert NextCalls(next, c);
        if (c.from, c.typ) == k { assert (c.to, c.fragile) in rest[k]; }
      }
      rest := rest - {k};
    }
    assert prev == Expected(cs, d, typ);
    count := |prev|;
  }
}
