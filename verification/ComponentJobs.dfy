/**
  Connected components in every interleaving.
  The example as a job of the protocol.  Its blocks: the Iterate; the join with the edges, which ends with
  the local minima; the global minima with the filter; the block that feeds back; and that of the ends.
  The first two are followed by a shuffle by vertex.
 */
module ComponentJobs {
  import opened Streams
  import opened Graphs
  import opened IterationProtocol
  import opened Layers
  import opened ConnectedComponents
  import CC = ConnectedComponents
  import Runs = IterationRuns
  import SequentialLoop

  // The blocks -------------------------------------------------------------------------------------

  const BLOCKS: nat := 5

  function Shuffled(block: nat): bool { block == 1 || block == 2 }

  /** What the replicas hold together. */
  function All(got: map<Replica, set<Change>>): set<Change> { set r, d | r in got && d in got[r] :: d }

  /** The changes that are sent to a replica. */
  function Mine(n: nat, hash: nat -> nat, k: nat, changes: set<Change>): set<Change>
    requires n > 0
  {
    set d | d in changes && hash(d.0) % n == k
  }

  /** The join with the edges, which are sent by the hash of their beginning. */
  function Joined(edges: set<Edge>, changes: set<Change>): set<Change> {
    set d, e | d in changes && e in edges && d.0 == e.0 :: (e.1, d.1)
  }

  /** The least of each vertex. */
  function Least(changes: set<Change>): set<Change> {
    set d | d in changes && forall e :: e in changes && e.0 == d.0 ==> d.1 <= e.1
  }

  /** Only actual changes. */
  function Smaller(s: State, changes: set<Change>): set<Change> {
    set d | d in changes && d.0 < |s.component| && s.component[d.0] > d.1
  }

  function BodyOf(n: nat, hash: nat -> nat, edges: set<Edge>, r: Replica, s: State, got: map<Replica, set<Change>>)
    : set<Change>
    requires n > 0
  {
    var k := Number(n, r);
    if Block(n, r) == 1 then Least(Joined(edges, Mine(n, hash, k, All(got))))
    else if Block(n, r) == 2 then Smaller(s, Least(Mine(n, hash, k, All(got))))
    else All(got)
  }

  /** The changes one after the other, in any order. */
  ghost function AsSeq(changes: set<Change>): (q: seq<Change>)
    ensures forall d :: multiset(q)[d] == if d in changes then 1 else 0
  {
    if changes == {} then []
    else
      var d :| d in changes;
      AsSeq(changes - {d}) + [d]
  }

  /** What the theorems need to know of the job: its graph, its body and its closures. */
  ghost predicate IsComponents(job: Job<State, seq<Change>, set<Change>>, n: nat, host: nat -> nat, hash: nat -> nat,
      vertices: nat, edges: set<Edge>, max: nat) {
    && IsLayered(job, n, BLOCKS, host, Shuffled)
    && (forall q: Replica, s, d {:trigger job.head(q, s, d)} :: job.head(q, s, d) == d)
    && (forall q: Replica, s, got {:trigger job.body(q, s, got)} ::
      job.body(q, s, got) == BodyOf(n, hash, edges, q, s, got))
    && (forall q: Replica, d {:trigger job.localFold(q, d)} :: job.localFold(q, d) == AsSeq(d))
    && (forall s, d {:trigger job.globalFold(s, d)} :: job.globalFold(s, d) == CC.Apply(s, d))
    && (forall s {:trigger job.condition(s)} :: job.condition(s) == CC.Decide(s))
    && job.initial == Initial(vertices) && job.maxIterations == max
  }

  ghost function JobOf(n: nat, host: nat -> nat, hash: nat -> nat, vertices: nat, edges: set<Edge>, max: nat,
      parts: (nat, Replica) -> set<Change>): Job<State, seq<Change>, set<Change>>
    requires n > 0
  {
    Layered(n, BLOCKS, host, Shuffled,
      (r: Replica, s: State, data: set<Change>) => data,
      (r: Replica, s: State, got: map<Replica, set<Change>>) => BodyOf(n, hash, edges, r, s, got),
      (rounds: seq<set<Change>>) => {},
      (r: Replica, data: set<Change>) => AsSeq(data),
      (s: State, changes: seq<Change>) => CC.Apply(s, changes),
      (s: State) => CC.Decide(s),
      Initial(vertices), max, parts)
  }

  lemma JobIsComponents(n: nat, host: nat -> nat, hash: nat -> nat, vertices: nat, edges: set<Edge>, max: nat,
      parts: (nat, Replica) -> set<Change>)
    requires n > 0
    ensures var job := JobOf(n, host, hash, vertices, edges, max, parts);
            IsComponents(job, n, host, hash, vertices, edges, max) && ValidJob(job)
  {
    LayeredIsLayered(JobOf(n, host, hash, vertices, edges, max, parts), n, BLOCKS, host, Shuffled);
  }

  // One round --------------------------------------------------------------------------------------

  /** What the replicas of a block hold together. */
  function Union(n: nat, data: Replica -> set<Change>, b: nat): set<Change> {
    set k, d | k in Below(n) && d in data(At(n, b, k)) :: d
  }

  lemma InUnion(n: nat, data: Replica -> set<Change>, b: nat, p: Replica, d: Change)
    requires n > 0 && Block(n, p) == b && d in data(p)
    ensures d in Union(n, data, b)
  {
    IsAt(n, p);
    assert Number(n, p) in Below(n) && d in data(At(n, b, Number(n, p)));
  }

  /** With a shuffle, a replica gets its part of what all the replicas of the block before it emit. */
  lemma ReceivedIsUnion<S, D>(c: Job<S, D, set<Change>>, n: nat, host: nat -> nat, state: S,
      data: Replica -> set<Change>, b: nat, k: nat)
    requires IsLayered(c, n, BLOCKS, host, Shuffled) && k < n && b + 1 < BLOCKS && Shuffled(b + 1)
    ensures All(Received(c, state, data, At(n, b + 1, k))) == Union(n, AllEmit(c, state, data), b)
  {
    var r := At(n, b + 1, k);
    AtIs(n, b + 1, k);
    assert c.preds(r) == Senders(n, Shuffled, r) == Replicas(n, b);
    GotIsUnion(n, AllEmit(c, state, data), b, Received(c, state, data, r));
  }

  lemma GotIsUnion(n: nat, emits: Replica -> set<Change>, b: nat, got: map<Replica, set<Change>>)
    requires n > 0 && got.Keys == Replicas(n, b) && forall p :: p in got ==> got[p] == emits(p)
    ensures All(got) == Union(n, emits, b)
  {
    forall d ensures d in All(got) <==> d in Union(n, emits, b) {
      if d in All(got) {
        var p :| p in got && d in got[p];
        assert p in got.Keys;
        InUnion(n, emits, b, p, d);
      }
      if d in Union(n, emits, b) {
        var j :| j in Below(n) && d in emits(At(n, b, j));
        AtIs(n, b, j);
        assert At(n, b, j) in got.Keys;
      }
    }
  }

  /** Without one, it gets what the replica with its number emits. */
  lemma ReceivedIsSame<S, D>(c: Job<S, D, set<Change>>, n: nat, host: nat -> nat, state: S,
      data: Replica -> set<Change>, b: nat, k: nat)
    requires IsLayered(c, n, BLOCKS, host, Shuffled) && k < n && b + 1 < BLOCKS && !Shuffled(b + 1)
    ensures All(Received(c, state, data, At(n, b + 1, k))) == Emits(c, state, data, At(n, b, k))
  {
    var r := At(n, b + 1, k);
    AtIs(n, b + 1, k);
    assert c.preds(r) == Senders(n, Shuffled, r) == {At(n, b, k)};
    OnlyOne(Received(c, state, data, r), At(n, b, k));
  }

  lemma OnlyOne(got: map<Replica, set<Change>>, p: Replica)
    requires got.Keys == {p}
    ensures All(got) == got[p]
  {
    assert p in got.Keys;
    forall d ensures d in All(got) <==> d in got[p] {
      if d in All(got) {
        var r :| r in got && d in got[r];
        assert r in got.Keys;
      }
    }
  }

  ghost predicate IsLocal(n: nat, hash: nat -> nat, edges: set<Edge>, data: set<Change>, d: Change)
    requires n > 0
  {
    exists k: nat :: k < n && d in Least(Joined(edges, Mine(n, hash, k, data)))
  }

  /** The minima of all the replicas of the join. */
  ghost predicate AreLocals(n: nat, hash: nat -> nat, edges: set<Edge>, data: set<Change>, locals: set<Change>)
    requires n > 0
  {
    forall d {:trigger d in locals} {:trigger IsLocal(n, hash, edges, data, d)} ::
      d in locals <==> IsLocal(n, hash, edges, data, d)
  }

  lemma LocalIsOffer(n: nat, hash: nat -> nat, edges: set<Edge>, data: set<Change>, d: Change)
    requires n > 0 && IsLocal(n, hash, edges, data, d)
    ensures d.1 in Offers(edges, data, d.0)
  {
    var k: nat :| k < n && d in Least(Joined(edges, Mine(n, hash, k, data)));
  }

  /** The local minima, wherever they are, have the same minima as all the offers. */
  lemma LeastOfLeast(n: nat, hash: nat -> nat, edges: set<Edge>, data: set<Change>, locals: set<Change>, y: nat, c: nat)
    requires n > 0 && AreLocals(n, hash, edges, data, locals)
    ensures (y, c) in Least(locals) <==> IsLeast(Offers(edges, data, y), c)
  {
    if (y, c) in Least(locals) {
      LocalIsOffer(n, hash, edges, data, (y, c));
      forall x | x in Offers(edges, data, y) ensures c <= x {
        var m := LocalLeast(n, hash, edges, data, y, x);
        assert (y, m) in locals;
      }
    }
    if IsLeast(Offers(edges, data, y), c) { OfferIsLeast(n, hash, edges, data, locals, y, c); }
  }

  lemma OfferIsLeast(n: nat, hash: nat -> nat, edges: set<Edge>, data: set<Change>, locals: set<Change>, y: nat, c: nat)
    requires n > 0 && AreLocals(n, hash, edges, data, locals) && IsLeast(Offers(edges, data, y), c)
    ensures (y, c) in Least(locals)
  {
    var m := LocalLeast(n, hash, edges, data, y, c);
    LocalIsOffer(n, hash, edges, data, (y, m));
    assert m == c && (y, c) in locals;
    forall e | e in locals && e.0 == y ensures c <= e.1 { LocalIsOffer(n, hash, edges, data, e); }
  }

  /** Every offer is met by a local minimum. */
  lemma LocalLeast(n: nat, hash: nat -> nat, edges: set<Edge>, data: set<Change>, y: nat, x: nat) returns (m: nat)
    requires n > 0 && x in Offers(edges, data, y)
    ensures IsLocal(n, hash, edges, data, (y, m)) && m <= x
  {
    var d :| d in data && (d.0, y) in edges && d.1 == x;
    var k := hash(d.0) % n;
    var joined := Joined(edges, Mine(n, hash, k, data));
    assert d in Mine(n, hash, k, data) && (y, x) in joined;
    m := LeastOffer(joined, y, x);
    assert (y, m) in Least(joined);
  }

  lemma {:induction false} LeastOffer(changes: set<Change>, y: nat, x: nat) returns (m: nat)
    requires (y, x) in changes
    ensures (y, m) in Least(changes) && m <= x
    decreases x
  {
    if z: nat :| (y, z) in changes && z < x { m := LeastOffer(changes, y, z); } else { m := x; }
  }

  /** What the last three blocks emit. */
  lemma RoundEmits(job: Job<State, seq<Change>, set<Change>>, n: nat, host: nat -> nat, hash: nat -> nat, vertices: nat,
      edges: set<Edge>, max: nat, s: State, data: Replica -> set<Change>, k: nat, d: Change)
    requires IsComponents(job, n, host, hash, vertices, edges, max) && k < n
    ensures d in Emits(job, s, data, At(n, 2, k)) <==>
              hash(d.0) % n == k && IsChange(edges, s, Union(n, data, 0), d)
  {
    var locals := Union(n, AllEmit(job, s, data), 1);
    forall l ensures l in locals <==> IsLocal(n, hash, edges, Union(n, data, 0), l) {
      LocalsOf(job, n, host, hash, vertices, edges, max, s, data, l);
    }
    AtIs(n, 2, k);
    BodyEmits(job, n, BLOCKS, host, Shuffled, s, data, At(n, 2, k));
    ReceivedIsUnion(job, n, host, s, data, 1, k);
    LeastOfLeast(n, hash, edges, Union(n, data, 0), locals, d.0, d.1);
    LeastOfMine(n, hash, k, locals, d);
  }

  /** Each vertex has all its offers in one place. */
  lemma LeastOfMine(n: nat, hash: nat -> nat, k: nat, changes: set<Change>, d: Change)
    requires n > 0
    ensures d in Least(Mine(n, hash, k, changes)) <==> hash(d.0) % n == k && d in Least(changes)
  {
    if d in Least(Mine(n, hash, k, changes)) {
      forall e | e in changes && e.0 == d.0 ensures d.1 <= e.1 { assert e in Mine(n, hash, k, changes); }
    }
  }

  /** What the replicas of the join emit. */
  lemma LocalsOf(job: Job<State, seq<Change>, set<Change>>, n: nat, host: nat -> nat, hash: nat -> nat, vertices: nat,
      edges: set<Edge>, max: nat, s: State, data: Replica -> set<Change>, d: Change)
    requires IsComponents(job, n, host, hash, vertices, edges, max)
    ensures d in Union(n, AllEmit(job, s, data), 1) <==>
            IsLocal(n, hash, edges, Union(n, data, 0), d)
  {
    if d in Union(n, AllEmit(job, s, data), 1) {
      var j :| j in Below(n) && d in AllEmit(job, s, data)(At(n, 1, j));
      LocalEmits(job, n, host, hash, vertices, edges, max, s, data, j);
    }
    if IsLocal(n, hash, edges, Union(n, data, 0), d) {
      var j: nat :| j < n && d in Least(Joined(edges, Mine(n, hash, j, Union(n, data, 0))));
      LocalEmits(job, n, host, hash, vertices, edges, max, s, data, j);
      AtIs(n, 1, j);
      InUnion(n, AllEmit(job, s, data), 1, At(n, 1, j), d);
    }
  }

  lemma LocalEmits(job: Job<State, seq<Change>, set<Change>>, n: nat, host: nat -> nat, hash: nat -> nat, vertices: nat,
      edges: set<Edge>, max: nat, s: State, data: Replica -> set<Change>, k: nat)
    requires IsComponents(job, n, host, hash, vertices, edges, max) && k < n
    ensures Emits(job, s, data, At(n, 1, k)) == Least(Joined(edges, Mine(n, hash, k, Union(n, data, 0))))
  {
    AtIs(n, 1, k);
    BodyEmits(job, n, BLOCKS, host, Shuffled, s, data, At(n, 1, k));
    ReceivedIsUnion(job, n, host, s, data, 0, k);
    HeadsAre(job, n, host, hash, vertices, edges, max, s, data);
  }

  lemma HeadsAre(job: Job<State, seq<Change>, set<Change>>, n: nat, host: nat -> nat, hash: nat -> nat, vertices: nat,
      edges: set<Edge>, max: nat, s: State, data: Replica -> set<Change>)
    requires IsComponents(job, n, host, hash, vertices, edges, max)
    ensures Union(n, AllEmit(job, s, data), 0) == Union(n, data, 0)
  {
    forall k | k in Below(n) ensures AllEmit(job, s, data)(At(n, 0, k)) == data(At(n, 0, k)) {
      HeadEmits(job, n, BLOCKS, host, Shuffled, s, data, k);
      assert job.head(k, s, data(k)) == data(k);
    }
  }

  /** The changes that a replica is fed back, and gives to the leader. */
  lemma RoundFeeds(job: Job<State, seq<Change>, set<Change>>, n: nat, host: nat -> nat, hash: nat -> nat, vertices: nat,
      edges: set<Edge>, max: nat, s: State, data: Replica -> set<Change>, k: nat, d: Change)
    requires IsComponents(job, n, host, hash, vertices, edges, max) && k < n
    ensures d in AllFedBack(job, s, data)(k) <==> hash(d.0) % n == k && IsChange(edges, s, Union(n, data, 0), d)
    ensures d in AllEmit(job, s, data)(At(n, 4, k)) <==> hash(d.0) % n == k && IsChange(edges, s, Union(n, data, 0), d)
  {
    RoundEmits(job, n, host, hash, vertices, edges, max, s, data, k, d);
    PassEmits(job, n, host, hash, vertices, edges, max, s, data, 2, k);
    PassEmits(job, n, host, hash, vertices, edges, max, s, data, 3, k);
    FedBackIs(job, n, BLOCKS, host, Shuffled, s, data, k);
  }

  lemma PassEmits(job: Job<State, seq<Change>, set<Change>>, n: nat, host: nat -> nat, hash: nat -> nat, vertices: nat,
      edges: set<Edge>, max: nat, s: State, data: Replica -> set<Change>, b: nat, k: nat)
    requires IsComponents(job, n, host, hash, vertices, edges, max) && k < n && 2 <= b < 4
    ensures Emits(job, s, data, At(n, b + 1, k)) == Emits(job, s, data, At(n, b, k))
  {
    var r := At(n, b + 1, k);
    AtIs(n, b + 1, k);
    BodyEmits(job, n, BLOCKS, host, Shuffled, s, data, r);
    PassesAll(job, n, host, hash, vertices, edges, max, r, s, Received(job, s, data, r));
    ReceivedIsSame(job, n, host, s, data, b, k);
  }

  lemma PassesAll(job: Job<State, seq<Change>, set<Change>>, n: nat, host: nat -> nat, hash: nat -> nat, vertices: nat,
      edges: set<Edge>, max: nat, r: Replica, s: State, got: map<Replica, set<Change>>)
    requires IsComponents(job, n, host, hash, vertices, edges, max) && Block(n, r) >= 3
    ensures job.body(r, s, got) == All(got)
  {
  }

  /** How often a change is in the deltas: as often as the one replica that has it is taken. */
  lemma {:induction false} CountInDeltas(job: Job<State, seq<Change>, set<Change>>, n: nat, host: nat -> nat,
    hash: nat -> nat, vertices: nat,
      edges: set<Edge>, max: nat, emits: Replica -> set<Change>, order: seq<Replica>, r: Replica, d: Change)
    requires IsComponents(job, n, host, hash, vertices, edges, max)
    requires forall q :: q in order && d in emits(q) ==> q == r
    ensures multiset(Flatten(Runs.DeltasOf(job, emits, order)))[d] == if d in emits(r) then multiset(order)[r] else 0
  {
    if order != [] {
      var m := |order| - 1;
      var q := order[m];
      assert order == order[..m] + [q];
      CountInDeltas(job, n, host, hash, vertices, edges, max, emits, order[..m], r, d);
      var before := Runs.DeltasOf(job, emits, order[..m]);
      assert Runs.DeltasOf(job, emits, order) == before + [AsSeq(emits(q))];
      FlattenAppend(before, AsSeq(emits(q)));
    }
  }

  /** The deltas of a round are those the example's body should give. */
  lemma DeltasAreChanges(job: Job<State, seq<Change>, set<Change>>, n: nat, host: nat -> nat, hash: nat -> nat,
    vertices: nat,
      edges: set<Edge>, max: nat, s: State, data: Replica -> set<Change>, order: seq<Replica>)
    requires IsComponents(job, n, host, hash, vertices, edges, max) && EveryEndOnce(job, order)
    ensures AreDeltas(edges, s, Union(n, data, 0), Runs.DeltasOf(job, AllEmit(job, s, data), order))
  {
    var emits := AllEmit(job, s, data);
    var deltas := Runs.DeltasOf(job, emits, order);
    forall d ensures multiset(Flatten(deltas))[d] == if IsChange(edges, s, Union(n, data, 0), d) then 1 else 0 {
      CountOfChange(job, n, host, hash, vertices, edges, max, s, data, order, d);
    }
    forall d ensures d in Flatten(deltas) <==> IsChange(edges, s, Union(n, data, 0), d) {
      assert d in Flatten(deltas) <==> multiset(Flatten(deltas))[d] > 0;
    }
  }

  lemma CountOfChange(job: Job<State, seq<Change>, set<Change>>, n: nat, host: nat -> nat, hash: nat -> nat,
    vertices: nat,
      edges: set<Edge>, max: nat, s: State, data: Replica -> set<Change>, order: seq<Replica>, d: Change)
    requires IsComponents(job, n, host, hash, vertices, edges, max) && EveryEndOnce(job, order)
    ensures multiset(Flatten(Runs.DeltasOf(job, AllEmit(job, s, data), order)))[d] ==
            if IsChange(edges, s, Union(n, data, 0), d) then 1 else 0
  {
    var k := hash(d.0) % n;
    var r := At(n, 4, k);
    AtIs(n, 4, k);
    assert r in job.ends;
    forall q | q in order && d in AllEmit(job, s, data)(q) ensures q == r {
      assert q in multiset(order) && q in job.ends;
      IsAt(n, q);
      RoundFeeds(job, n, host, hash, vertices, edges, max, s, data, Number(n, q), d);
    }
    RoundFeeds(job, n, host, hash, vertices, edges, max, s, data, k, d);
    CountInDeltas(job, n, host, hash, vertices, edges, max, AllEmit(job, s, data), order, r, d);
  }

  lemma {:induction false} FoldsAgree(job: Job<State, seq<Change>, set<Change>>, n: nat, host: nat -> nat,
    hash: nat -> nat, vertices: nat,
      edges: set<Edge>, max: nat, s: State, emits: Replica -> set<Change>, order: seq<Replica>)
    requires IsComponents(job, n, host, hash, vertices, edges, max)
    ensures FoldDeltas(job, s, emits, order) == ApplyAll(s, Runs.DeltasOf(job, emits, order))
  {
    if order != [] {
      var m := |order| - 1;
      FoldsAgree(job, n, host, hash, vertices, edges, max, s, emits, order[..m]);
      var before := Runs.DeltasOf(job, emits, order[..m]);
      assert Runs.DeltasOf(job, emits, order) == before + [AsSeq(emits(order[m]))];
      assert (before + [AsSeq(emits(order[m]))])[..m] == before;
    }
  }

  // Whole runs -------------------------------------------------------------------------------------

  /** The deltas of all rounds of a run. */
  ghost function RoundsOf(job: Job<State, seq<Change>, set<Change>>, run: nat, orders: seq<seq<Replica>>)
      : (rounds: seq<seq<seq<Change>>>)
    ensures |rounds| == |orders|
  {
    if orders == [] then []
    else
      var m := |orders| - 1;
      var p := Runs.OneRun(job, run, orders[..m]);
      RoundsOf(job, run, orders[..m]) + [Runs.DeltasOf(job, AllEmit(job, p.state, p.data), orders[m])]
  }

  lemma {:induction false} RoundsOfPrefix(job: Job<State, seq<Change>, set<Change>>, run: nat,
    orders: seq<seq<Replica>>, j: nat)
    requires j <= |orders|
    ensures RoundsOf(job, run, orders)[..j] == RoundsOf(job, run, orders[..j])
  {
    if j < |orders| {
      var m := |orders| - 1;
      RoundsOfPrefix(job, run, orders[..m], j);
      assert orders[..m][..j] == orders[..j];
    } else {
      assert orders[..j] == orders;
    }
  }

  /** The protocol's loop of this job is the loop of the example. */
  ghost predicate Follows(p: Runs.Point<State, set<Change>>, q: SequentialLoop.Point<State, set<Change>>, n: nat)
  {
    p.state == q.state && p.condition == q.condition && Union(n, p.data, 0) == q.data
  }

  lemma NextFollows(job: Job<State, seq<Change>, set<Change>>, n: nat, host: nat -> nat, hash: nat -> nat,
    vertices: nat,
      edges: set<Edge>, max: nat, run: nat, orders: seq<seq<Replica>>, order: seq<Replica>, data: set<Change>)
    requires IsComponents(job, n, host, hash, vertices, edges, max) && EveryEndOnce(job, order)
    requires Follows(Runs.OneRun(job, run, orders),
      SequentialLoop.Run(CC.Loop(max), Initial(vertices), data, RoundsOf(job, run, orders)), n)
    ensures Follows(Runs.OneRun(job, run, orders + [order]),
      SequentialLoop.Run(CC.Loop(max), Initial(vertices), data, RoundsOf(job, run, orders + [order])), n)
  {
    var p := Runs.OneRun(job, run, orders);
    var deltas := Runs.DeltasOf(job, AllEmit(job, p.state, p.data), order);
    SequentialLoop.RunNext(Runs.LoopOf(job), job.initial, InputOf(job, run), orders, order);
    assert (orders + [order])[..|orders|] == orders;
    assert RoundsOf(job, run, orders + [order]) == RoundsOf(job, run, orders) + [deltas];
    SequentialLoop.RunNext(CC.Loop(max), Initial(vertices), data, RoundsOf(job, run, orders), deltas);
    FoldsAgree(job, n, host, hash, vertices, edges, max, p.state, AllEmit(job, p.state, p.data), order);
    FedBackUnion(job, n, host, hash, vertices, edges, max, p.state, p.data, order);
  }

  lemma FedBackUnion(job: Job<State, seq<Change>, set<Change>>, n: nat, host: nat -> nat, hash: nat -> nat,
    vertices: nat,
      edges: set<Edge>, max: nat, s: State, data: Replica -> set<Change>, order: seq<Replica>)
    requires IsComponents(job, n, host, hash, vertices, edges, max) && EveryEndOnce(job, order)
    ensures Union(n, AllFedBack(job, s, data), 0) == AsSet(Flatten(Runs.DeltasOf(job, AllEmit(job, s, data), order)))
  {
    var deltas := Runs.DeltasOf(job, AllEmit(job, s, data), order);
    DeltasAreChanges(job, n, host, hash, vertices, edges, max, s, data, order);
    forall d ensures d in Union(n, AllFedBack(job, s, data), 0) <==> d in Flatten(deltas) {
      if d in Union(n, AllFedBack(job, s, data), 0) {
        var k :| k in Below(n) && d in AllFedBack(job, s, data)(At(n, 0, k));
        RoundFeeds(job, n, host, hash, vertices, edges, max, s, data, k, d);
      }
      if d in Flatten(deltas) {
        var k := hash(d.0) % n;
        RoundFeeds(job, n, host, hash, vertices, edges, max, s, data, k, d);
        assert k in Below(n) && d in AllFedBack(job, s, data)(At(n, 0, k));
      }
    }
  }

  lemma {:induction false} RunFollows(job: Job<State, seq<Change>, set<Change>>, n: nat, host: nat -> nat,
    hash: nat -> nat, vertices: nat,
      edges: set<Edge>, max: nat, run: nat, orders: seq<seq<Replica>>)
    requires IsComponents(job, n, host, hash, vertices, edges, max) && Runs.AllOnce(job, orders)
    ensures var data := Union(n, InputOf(job, run), 0);
            && Follows(Runs.OneRun(job, run, orders),
                 SequentialLoop.Run(CC.Loop(max), Initial(vertices), data, RoundsOf(job, run, orders)), n)
            && AreRounds(vertices, max, edges, data, RoundsOf(job, run, orders))
  {
    var data := Union(n, InputOf(job, run), 0);
    if orders != [] {
      var m := |orders| - 1;
      assert orders == orders[..m] + [orders[m]];
      forall k | 0 <= k < m ensures EveryEndOnce(job, orders[..m][k]) { assert EveryEndOnce(job, orders[k]); }
      assert EveryEndOnce(job, orders[m]);
      RunFollows(job, n, host, hash, vertices, edges, max, run, orders[..m]);
      NextFollows(job, n, host, hash, vertices, edges, max, run, orders[..m], orders[m], data);
      var p := Runs.OneRun(job, run, orders[..m]);
      DeltasAreChanges(job, n, host, hash, vertices, edges, max, p.state, p.data, orders[m]);
      OneMoreRound(vertices, max, edges, data, RoundsOf(job, run, orders));
    }
  }

  lemma OneMoreRound(vertices: nat, max: nat, edges: set<Edge>, data: set<Change>, rounds: seq<seq<seq<Change>>>)
    requires rounds != [] && AreRounds(vertices, max, edges, data, rounds[..|rounds| - 1])
    requires var p := SequentialLoop.Run(CC.Loop(max), Initial(vertices), data, rounds[..|rounds| - 1]);
             AreDeltas(edges, p.state, p.data, rounds[|rounds| - 1])
    ensures AreRounds(vertices, max, edges, data, rounds)
  {
    var m := |rounds| - 1;
    forall k | 0 <= k < |rounds|
      ensures AreDeltas(edges, CC.After(vertices, max, data, rounds, k).state,
        CC.After(vertices, max, data, rounds, k).data,
        rounds[k])
    {
      if k < m {
        assert rounds[..m][..k] == rounds[..k];
        assert AreDeltas(edges, CC.After(vertices, max, data, rounds[..m], k).state,
            CC.After(vertices, max, data, rounds[..m], k).data, rounds[..m][k]);
      }
    }
  }

  /** The run of the protocol stops where that of the example does. */
  lemma SameLength(job: Job<State, seq<Change>, set<Change>>, n: nat, host: nat -> nat, hash: nat -> nat, vertices: nat,
      edges: set<Edge>, max: nat, run: nat, orders: seq<seq<Replica>>)
    requires IsComponents(job, n, host, hash, vertices, edges, max) && Runs.AllOnce(job, orders)
    requires orders != [] && Runs.LengthOf(job, run, orders) == |orders|
    ensures SequentialLoop.Length(CC.Loop(max), Initial(vertices), Union(n, InputOf(job, run), 0),
      RoundsOf(job, run, orders)) ==
            |orders|
  {
    var data, rounds := Union(n, InputOf(job, run), 0), RoundsOf(job, run, orders);
    forall j | 0 <= j <= |orders|
      ensures SequentialLoop.Stops(CC.Loop(max), Initial(vertices), data, rounds[..j]) <==>
              SequentialLoop.Stops(Runs.LoopOf(job), job.initial, InputOf(job, run), orders[..j])
    {
      RoundsOfPrefix(job, run, orders, j);
      forall k | 0 <= k < j ensures EveryEndOnce(job, orders[..j][k]) { assert EveryEndOnce(job, orders[k]); }
      RunFollows(job, n, host, hash, vertices, edges, max, run, orders[..j]);
    }
    assert orders[..|orders|] == orders;
    SequentialLoop.LengthIsFirst(CC.Loop(max), Initial(vertices), data, rounds, |orders|);
  }

  // Every interleaving -----------------------------------------------------------------------------

  /**
    On any number of replicas and hosts, with any hash function and in every interleaving of the steps:
    each state that the iteration gives as a result has for every vertex the least vertex that can be
    reached from it, so that two vertices have the same component if and only if they are connected.
   */
  lemma ComponentsInEveryRun(job: Job<State, seq<Change>, set<Change>>, n: nat, host: nat -> nat, hash: nat -> nat,
    vertices: nat,
      edges: set<Edge>, max: nat, run: seq<System<State, seq<Change>, set<Change>>>, i: nat, m: nat, v: nat, w: nat)
    requires ValidJob(job) && IsComponents(job, n, host, hash, vertices, edges, max)
    requires IsRun(job, run) && i < |run| && m < |run[i].leader.results|
    requires IsGraph(vertices, edges) && AreVertices(vertices, Union(n, InputOf(job, m), 0))
    requires 2 * max > vertices * vertices - vertices && v < vertices && w < vertices
    ensures var s := run[i].leader.results[m];
            && |s.component| == vertices && IsLeastReachable(edges, v, s.component[v])
            && (s.component[v] == s.component[w] <==> Reaches(edges, v, w))
  {
    var orders := Runs.ResultIsOneRun(job, run, i, m);
    var data, rounds := Union(n, InputOf(job, m), 0), RoundsOf(job, m, orders);
    RunFollows(job, n, host, hash, vertices, edges, max, m, orders);
    SameLength(job, n, host, hash, vertices, edges, max, m, orders);
    EnoughRounds(vertices, max, edges, data, rounds, v);
    EnoughRounds(vertices, max, edges, data, rounds, w);
    var s := run[i].leader.results[m];
    SameLeast(edges, v, s.component[v], w, s.component[w]);
  }
}
