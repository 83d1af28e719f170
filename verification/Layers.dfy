/**
  Jobs whose blocks follow each other.
  Every block has n replicas, and each host has replicas of the same numbers of all of them.  The first block
  is that of the Iterate, the last one but one feeds back, and the last one is that of the ends.  A block gets
  the messages of the one before it with a shuffle, or each replica those of the one with its number.
 */
module Layers {
  import opened IterationProtocol

  // Replicas by block and number -------------------------------------------------------------------

  function Block(n: nat, r: nat): nat
    requires n > 0
  {
    if r < n then 0 else Block(n, r - n) + 1
  }

  function Number(n: nat, r: nat): (k: nat)
    requires n > 0
    ensures k < n
  {
    if r < n then r else Number(n, r - n)
  }

  function At(n: nat, b: nat, k: nat): nat { if b == 0 then k else At(n, b - 1, k) + n }

  lemma {:induction false} AtIs(n: nat, b: nat, k: nat)
    requires k < n
    ensures Block(n, At(n, b, k)) == b && Number(n, At(n, b, k)) == k
  {
    if b > 0 { AtIs(n, b - 1, k); }
  }

  lemma {:induction false} IsAt(n: nat, r: nat)
    requires n > 0
    ensures At(n, Block(n, r), Number(n, r)) == r
  {
    if r >= n { IsAt(n, r - n); }
  }

  /** The replicas of a block. */
  function Replicas(n: nat, b: nat): (s: set<Replica>)
    requires n > 0
    ensures forall r: Replica {:trigger r in s} :: r in s <==> Block(n, r) == b
  {
    var s := set k | k in Below(n) :: At(n, b, k);
    assert forall r: Replica {:trigger r in s} :: r in s <==> Block(n, r) == b by {
      forall r: Replica ensures r in s <==> Block(n, r) == b {
        IsAt(n, r);
        if r in s {
          var k :| k in Below(n) && r == At(n, b, k);
          AtIs(n, b, k);
        }
      }
    }
    s
  }

  function Below(n: nat): (s: set<nat>)
    ensures forall k: nat :: k in s <==> k < n
  {
    if n == 0 then {} else Below(n - 1) + {n - 1}
  }

  // The execution graph ----------------------------------------------------------------------------

  /** The replicas of the blocks from a to b - 1. */
  function BlocksFrom(n: nat, a: nat, b: nat): (s: set<Replica>)
    requires n > 0
    ensures forall r: Replica {:trigger r in s} :: r in s <==> a <= Block(n, r) < b
    decreases b
  {
    if b <= a then {} else BlocksFrom(n, a, b - 1) + Replicas(n, b - 1)
  }

  function Senders(n: nat, shuffled: nat -> bool, r: Replica): set<Replica>
    requires n > 0
  {
    if r < n then {} else if shuffled(Block(n, r)) then Replicas(n, Block(n, r) - 1) else {r - n}
  }

  ghost predicate IsLayered<S, D, C>(c: Job<S, D, C>, n: nat, blocks: nat, host: nat -> nat, shuffled: nat -> bool) {
    && n > 0 && blocks >= 3
    && (forall r: Replica {:trigger r in c.iters} :: r in c.iters <==> Block(n, r) == 0)
    && (forall r: Replica {:trigger r in c.bodies} :: r in c.bodies <==> 0 < Block(n, r) < blocks)
    && (forall r: Replica {:trigger r in c.ends} :: r in c.ends <==> Block(n, r) == blocks - 1)
    && (forall r: Replica {:trigger c.preds(r)} :: c.preds(r) == Senders(n, shuffled, r))
    && (forall r: Replica {:trigger c.next(r)} :: c.next(r) == r + n)
    && (forall r: Replica {:trigger c.rank(r)} :: c.rank(r) == Block(n, r)) && c.depth == blocks
    && (forall h: Host {:trigger h in c.hosts} :: h in c.hosts <==>
      exists k: nat {:trigger host(k)} :: k < n && host(k) == h)
    && (forall r: Replica {:trigger HostOf(c, r)} :: HostOf(c, r) == host(Number(n, r)))
    && (forall r: Replica {:trigger FeedOf(c, r)} :: FeedOf(c, r) == At(n, blocks - 2, r)) && !c.replay
  }

  lemma BlocksOk<S, D, C>(c: Job<S, D, C>, n: nat, blocks: nat, host: nat -> nat, shuffled: nat -> bool)
    requires IsLayered(c, n, blocks, host, shuffled)
    ensures c.iters !! c.bodies && c.ends <= c.iters + c.bodies && c.ends != {}
    ensures forall r {:trigger c.rank(r)} :: r in c.bodies ==> c.rank(r) <= c.depth
  {
    AtIs(n, blocks - 1, 0);
    assert At(n, blocks - 1, 0) in c.ends;
  }

  lemma SendersOk<S, D, C>(c: Job<S, D, C>, n: nat, blocks: nat, host: nat -> nat, shuffled: nat -> bool, r: Replica)
    requires IsLayered(c, n, blocks, host, shuffled) && r in c.bodies
    ensures r - n in c.preds(r) && c.preds(r) <= c.iters + c.bodies
    ensures forall p :: p in c.preds(r) ==> Block(n, p) + 1 == Block(n, r)
  {
    assert Block(n, r) == Block(n, r - n) + 1;
    assert c.preds(r) == Senders(n, shuffled, r);
  }

  lemma RankRises<S, D, C>(c: Job<S, D, C>, n: nat, blocks: nat, host: nat -> nat, shuffled: nat -> bool, r: Replica,
      p: Replica)
    requires IsLayered(c, n, blocks, host, shuffled) && r in c.bodies && p in c.preds(r)
    ensures c.rank(p) < c.rank(r)
  {
    SendersOk(c, n, blocks, host, shuffled, r);
    assert c.rank(p) == Block(n, p) && c.rank(r) == Block(n, r);
  }

  lemma NextReceives<S, D, C>(c: Job<S, D, C>, n: nat, blocks: nat, host: nat -> nat, shuffled: nat -> bool, r: Replica)
    requires IsLayered(c, n, blocks, host, shuffled) && r in c.iters + c.bodies && r !in c.ends
    ensures c.next(r) in c.bodies && r in c.preds(c.next(r))
  {
    assert c.next(r) == r + n && Block(n, r + n) == Block(n, r) + 1;
    SendersOk(c, n, blocks, host, shuffled, r + n);
  }

  lemma EdgesOk<S, D, C>(c: Job<S, D, C>, n: nat, blocks: nat, host: nat -> nat, shuffled: nat -> bool)
    requires IsLayered(c, n, blocks, host, shuffled)
    ensures forall r {:trigger c.preds(r)} :: r in c.bodies ==>
      (exists p :: p in c.preds(r)) && c.preds(r) <= c.iters + c.bodies
    ensures forall r, p :: r in c.bodies && p in c.preds(r) && p in c.bodies ==> c.rank(p) < c.rank(r)
    ensures forall r {:trigger c.next(r)} ::
              r in c.iters + c.bodies && r !in c.ends ==> c.next(r) in c.bodies && r in c.preds(c.next(r))
  {
    forall r {:trigger c.preds(r)} | r in c.bodies
      ensures (exists p :: p in c.preds(r)) && c.preds(r) <= c.iters + c.bodies
    {
      SendersOk(c, n, blocks, host, shuffled, r);
    }
    forall r, p | r in c.bodies && p in c.preds(r) && p in c.bodies ensures c.rank(p) < c.rank(r) {
      RankRises(c, n, blocks, host, shuffled, r, p);
    }
    forall r {:trigger c.next(r)} | r in c.iters + c.bodies && r !in c.ends
      ensures c.next(r) in c.bodies && r in c.preds(c.next(r))
    {
      NextReceives(c, n, blocks, host, shuffled, r);
    }
  }

  lemma HostIsUsed<S, D, C>(c: Job<S, D, C>, n: nat, blocks: nat, host: nat -> nat, shuffled: nat -> bool, h: Host)
    requires IsLayered(c, n, blocks, host, shuffled) && h in c.hosts
    ensures exists r :: r in Local(c, h)
  {
    var k: nat :| k < n && host(k) == h;
    assert Number(n, k) == k && HostOf(c, k) == h && k in Local(c, h);
  }

  lemma HostsOk<S, D, C>(c: Job<S, D, C>, n: nat, blocks: nat, host: nat -> nat, shuffled: nat -> bool)
    requires IsLayered(c, n, blocks, host, shuffled)
    ensures forall r {:trigger HostOf(c, r)} :: r in c.iters + c.bodies ==> HostOf(c, r) in c.hosts
  {
    forall r {:trigger HostOf(c, r)} | r in c.iters + c.bodies ensures HostOf(c, r) in c.hosts {
      assert HostOf(c, r) == host(Number(n, r));
      assert host(Number(n, r)) in c.hosts;
    }
  }

  lemma FeedsOk<S, D, C>(c: Job<S, D, C>, n: nat, blocks: nat, host: nat -> nat, shuffled: nat -> bool)
    requires IsLayered(c, n, blocks, host, shuffled)
    ensures forall r {:trigger FeedOf(c, r)} ::
              r in c.iters && !c.replay ==> FeedOf(c, r) in c.bodies && HostOf(c, FeedOf(c, r)) == HostOf(c, r)
    ensures forall r, q {:trigger FeedOf(c, r), FeedOf(c, q)} ::
              r in c.iters && q in c.iters && !c.replay && FeedOf(c, r) == FeedOf(c, q) ==> r == q
  {
    forall r {:trigger FeedOf(c, r)} | r in c.iters
      ensures FeedOf(c, r) in c.bodies && HostOf(c, FeedOf(c, r)) == HostOf(c, r) && Number(n, FeedOf(c, r)) == r
    {
      assert Block(n, r) == 0 && r < n && Number(n, r) == r;
      AtIs(n, blocks - 2, r);
    }
  }

  lemma LayeredIsValid<S, D, C>(c: Job<S, D, C>, n: nat, blocks: nat, host: nat -> nat, shuffled: nat -> bool)
    requires IsLayered(c, n, blocks, host, shuffled)
    ensures ValidJob(c)
  {
    BlocksOk(c, n, blocks, host, shuffled);
    EdgesOk(c, n, blocks, host, shuffled);
    FeedsOk(c, n, blocks, host, shuffled);
    HostsOk(c, n, blocks, host, shuffled);
    forall h | h in c.hosts ensures exists r :: r in Local(c, h) { HostIsUsed(c, n, blocks, host, shuffled, h); }
  }

  /** Such a job. */
  function Layered<S, D, C>(n: nat, blocks: nat, host: nat -> nat, shuffled: nat -> bool, head: (Replica, S, C) -> C,
      body: (Replica, S, map<Replica, C>) -> C, jumble: seq<C> -> C, localFold: (Replica, C) -> D,
      globalFold: (S, D) -> S, condition: S -> (S, bool), initial: S, maxIterations: nat, input: (nat, Replica) -> C)
    : Job<S, D, C>
    requires n > 0
  {
    Job(Replicas(n, 0), BlocksFrom(n, 1, blocks), Replicas(n, if blocks == 0 then 0 else blocks - 1),
        (r: Replica) => Senders(n, shuffled, r), (r: Replica) => r + n, (r: Replica) => Block(n, r), blocks,
        set k | k in Below(n) :: host(k), (r: Replica) => host(Number(n, r)),
        (r: Replica) => At(n, if blocks < 2 then 0 else blocks - 2, r), false,
        head, body, jumble, localFold, globalFold, condition, initial, maxIterations, input)
  }

  lemma LayeredIsLayered<S, D, C>(c: Job<S, D, C>, n: nat, blocks: nat, host: nat -> nat, shuffled: nat -> bool)
    requires n > 0 && blocks >= 3
    requires c == Layered(n, blocks, host, shuffled, c.head, c.body, c.jumble, c.localFold, c.globalFold, c.condition,
      c.initial, c.maxIterations, c.input)
    ensures IsLayered(c, n, blocks, host, shuffled) && ValidJob(c)
  {
    LayeredIsValid(c, n, blocks, host, shuffled);
  }

  // What the replicas emit -------------------------------------------------------------------------

  /** A replica of the first block. */
  lemma HeadEmits<S, D, C>(c: Job<S, D, C>, n: nat, blocks: nat, host: nat -> nat, shuffled: nat -> bool, state: S,
      data: Replica -> C, k: nat)
    requires IsLayered(c, n, blocks, host, shuffled) && k < n
    ensures Emits(c, state, data, k) == c.head(k, state, data(k))
  {
    assert Block(n, k) == 0;
  }

  /** What a replica of another block receives. */
  ghost function Received<S, D, C>(c: Job<S, D, C>, state: S, data: Replica -> C, r: Replica): map<Replica, C> {
    map p | p in c.preds(r) :: Emits(c, state, data, p)
  }

  lemma BodyEmits<S, D, C>(c: Job<S, D, C>, n: nat, blocks: nat, host: nat -> nat, shuffled: nat -> bool, state: S,
      data: Replica -> C, r: Replica)
    requires IsLayered(c, n, blocks, host, shuffled) && 0 < Block(n, r) < blocks
    ensures Emits(c, state, data, r) == c.body(r, state, Received(c, state, data, r))
  {
    assert r in c.bodies;
    SendersOk(c, n, blocks, host, shuffled, r);
    assert (map p | p in c.preds(r) && Precedes(c, p, r) :: Emits(c, state, data, p)) == Received(c, state, data, r);
  }

  /** What an Iterate replica is fed back after a round, and what the end of the same number gives to the leader. */
  lemma FedBackIs<S, D, C>(c: Job<S, D, C>, n: nat, blocks: nat, host: nat -> nat, shuffled: nat -> bool, state: S,
      data: Replica -> C, k: nat)
    requires IsLayered(c, n, blocks, host, shuffled) && k < n
    ensures AllFedBack(c, state, data)(k) == Emits(c, state, data, At(n, blocks - 2, k))
    ensures AllEmit(c, state, data)(At(n, blocks - 1, k)) == Emits(c, state, data, At(n, blocks - 1, k))
  {
    assert FeedOf(c, k) == At(n, blocks - 2, k);
  }
}
