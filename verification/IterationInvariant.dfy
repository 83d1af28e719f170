/**
  The part of the invariant of the iteration protocol about control.
  Who is in which round, the locks, the barriers, the channels, the queue of the leader: how far the
  replicas may be apart, and what each phase of a replica says about those of the others on its host.
  Nothing here mentions the data. It holds at the beginning and is kept by every step.
 */
module IterationInvariant {
  import opened IterationProtocol

  // Counters that the phase of an Iterate replica determines, given the rounds it has finished -----

  /** How many times it has gone back to emitting elements. */
  function Resumed<S>(p: Phase<S>, rounds: nat): int {
    if p.Active? || p.Locked? then rounds else rounds - 1
  }

  /** How many answers of the leader it has taken out of its inbox. */
  function Received<S>(p: Phase<S>, rounds: nat): int {
    if p.Waiting? || p.Swapped? then rounds - 1 else rounds
  }

  /** How many times it has taken the feedback of a round out of its channel. */
  function Fetched<S>(p: Phase<S>, rounds: nat): int {
    if p.Waiting? then rounds - 1 else rounds
  }

  /** How many answers it has handled up to the write of the shared state. */
  function Written<S>(p: Phase<S>, rounds: nat): int {
    if p.Waiting? || p.Swapped? || p.Updated? then rounds - 1 else rounds
  }

  /** How many times it has reached the barrier. */
  function Arrived<S>(p: Phase<S>, rounds: nat): int {
    if p.Waiting? || p.Swapped? || p.Updated? || p.Ready? then rounds - 1 else rounds
  }

  predicate IsBlocked<S>(p: Phase<S>, h: Shared<S>) { p.AtBarrier? && p.ticket == h.barrier }

  /** How many answers have been put in r's inbox. */
  function Sent<S, D, C>(s: System<S, D, C>, r: Replica): int {
    if r in s.leader.toSend then |s.orders| - 1 else |s.orders|
  }

  function Senders<D>(q: seq<(Replica, D)>): (rs: seq<Replica>)
    ensures |rs| == |q| && forall i :: 0 <= i < |q| ==> rs[i] == q[i].0
  {
    seq(|q|, i requires 0 <= i < |q| => q[i].0)
  }

  /** The IterationEnd replicas that have sent their delta for the round the leader is collecting. */
  ghost function Done<S, D, C>(c: Job<S, D, C>, s: System<S, D, C>): set<Replica>
    requires ValidJob(c) && Shape(c, s)
  {
    set e | e in c.ends && |s.log[e]| == |s.orders| + 1
  }

  /** The replicas blocked at the barrier of a host. */
  ghost function Blocked<S, D, C>(c: Job<S, D, C>, s: System<S, D, C>, h: Host): set<Replica>
    requires Shape(c, s) && h in c.hosts
  {
    set r | r in Local(c, h) && IsBlocked(s.iter[r].phase, s.at[h])
  }

  // The invariant --------------------------------------------------------------------------------

  /**
    An Iterate replica against its inbox, the barrier and the lock of its host: the lock follows
    the local leader, with two generations per update.
   */
  predicate IterateOk<S>(p: Phase<S>, rounds: nat, inbox: nat, sent: int, h: Shared<S>, leader: bool) {
    && 0 <= Resumed(p, rounds)
    && Received(p, rounds) <= sent <= Received(p, rounds) + 1
    && inbox == sent - Received(p, rounds)
    && h.barrier <= Arrived(p, rounds) <= h.barrier + 1
    && (Arrived(p, rounds) == h.barrier + 1 <==> IsBlocked(p, h))
    && (p.AtBarrier? ==> Arrived(p, rounds) == p.ticket + 1)
    && (leader ==> 2 * Resumed(p, rounds) <= h.generation <= 2 * Resumed(p, rounds) + 1)
    && (leader && !p.Active? ==> h.generation == 2 * Resumed(p, rounds) + 1)
  }

  ghost predicate ReplicaOk<S, D, C>(c: Job<S, D, C>, s: System<S, D, C>, r: Replica)
    requires ValidJob(c) && Shape(c, s) && r in c.iters
  {
    IterateOk(s.iter[r].phase, |s.log[r]|, |s.iter[r].inbox|, Sent(s, r), s.at[HostOf(c, r)], IsLocalLeader(c, r))
  }

  /** No replica is more than one round away from any other. */
  ghost predicate RoundOk<S, D, C>(s: System<S, D, C>, n: Replica)
    requires n in s.log
  {
    |s.orders| <= |s.log[n]| <= |s.orders| + 1
  }

  ghost predicate EdgeOk<S, D, C>(s: System<S, D, C>, n: Replica, p: Replica)
    requires n in s.log && p in s.log
  {
    |s.log[n]| <= |s.log[p]|
  }

  ghost predicate HostOk<S, D, C>(c: Job<S, D, C>, s: System<S, D, C>, h: Host)
    requires Shape(c, s) && h in c.hosts
  {
    s.at[h].count == |Blocked(c, s, h)| && exists r :: r in Local(c, h) && r !in Blocked(c, s, h)
  }

  ghost predicate OpenOk<S, D, C>(c: Job<S, D, C>, s: System<S, D, C>, n: Replica)
    requires ValidJob(c) && Shape(c, s) && n in c.bodies
  {
    n in s.open ==> s.at[HostOf(c, n)].generation >= 2 * |s.log[n]|
  }

  /** Taken out of the queue or still in it: one delta per replica that finished the round. */
  ghost predicate QueueOk<S, D, C>(c: Job<S, D, C>, s: System<S, D, C>)
    requires ValidJob(c) && Shape(c, s)
  {
    && multiset(s.taken) + multiset(Senders(s.queue)) == multiset(Done(c, s))
    && s.leader.missing == |c.ends| - |s.taken|
    && (s.leader.toSend != {} ==> s.taken == [])
  }

  ghost predicate OrdersOk<S, D, C>(c: Job<S, D, C>, s: System<S, D, C>) {
    forall k :: 0 <= k < |s.orders| ==> EveryEndOnce(c, s.orders[k])
  }

  /**
    The feedback that r has not taken: at most one round, and no element of the next one can be behind
    it, or it would become part of the same content.
   */
  ghost predicate FedOk<S, D, C>(c: Job<S, D, C>, s: System<S, D, C>, r: Replica)
    requires ValidJob(c) && Shape(c, s) && r in c.iters && !c.replay
  {
    var f := FeedOf(c, r);
    && |s.fed[f].rounds| == |s.log[f]| - Fetched(s.iter[r].phase, |s.log[r]|) <= 1
    && (s.fed[f].more ==> f in s.open && s.fed[f].rounds == [])
  }

  ghost predicate Feds<S, D, C>(c: Job<S, D, C>, s: System<S, D, C>)
    requires ValidJob(c) && Shape(c, s)
  {
    forall r {:trigger FedOk(c, s, r)} :: r in c.iters && !c.replay ==> FedOk(c, s, r)
  }

  /** All but the queue of the leader and the feedback channels. */
  ghost predicate Core<S, D, C>(c: Job<S, D, C>, s: System<S, D, C>)
    requires ValidJob(c)
  {
    && Shape(c, s) && OrdersOk(c, s)
    && (forall n {:trigger RoundOk(s, n)} :: n in c.iters || n in c.bodies ==> RoundOk(s, n))
    && (forall n, p {:trigger EdgeOk(s, n, p)} :: n in c.bodies && p in c.preds(n) ==> EdgeOk(s, n, p))
    && (forall r {:trigger ReplicaOk(c, s, r)} :: r in c.iters ==> ReplicaOk(c, s, r))
    && (forall h {:trigger HostOk(c, s, h)} :: h in c.hosts ==> HostOk(c, s, h))
    && (forall n {:trigger OpenOk(c, s, n)} :: n in c.bodies ==> OpenOk(c, s, n))
  }

  ghost predicate Control<S, D, C>(c: Job<S, D, C>, s: System<S, D, C>)
    requires ValidJob(c)
  {
    Core(c, s) && QueueOk(c, s) && Feds(c, s)
  }

  // Consequences ---------------------------------------------------------------------------------

  /** The local leader of a host. */
  ghost function LeaderOf<S, D, C>(c: Job<S, D, C>, h: Host): (r: Replica)
    requires ValidJob(c) && h in c.hosts
    ensures r in c.iters && HostOf(c, r) == h && IsLocalLeader(c, r)
  {
    SelectLeader(Local(c, h))
  }

  /** Two local leaders of one host are the same replica. */
  lemma OneLeader<S, D, C>(c: Job<S, D, C>, r: Replica, r': Replica)
    requires r in c.iters && r' in c.iters && HostOf(c, r) == HostOf(c, r')
    requires IsLocalLeader(c, r) && IsLocalLeader(c, r')
    ensures r == r'
  {
  }

  /** A replica that may consume a round is in the round the leader is collecting. */
  lemma OpenRound<S, D, C>(c: Job<S, D, C>, s: System<S, D, C>, n: Replica)
    requires ValidJob(c) && Core(c, s) && n in s.open
    ensures |s.log[n]| == |s.orders|
    ensures var r := LeaderOf(c, HostOf(c, n));
            Written(s.iter[r].phase, |s.log[r]|) == |s.orders| && Resumed(s.iter[r].phase, |s.log[r]|) == |s.orders|
  {
    var r := LeaderOf(c, HostOf(c, n));
    assert OpenOk(c, s, n) && ReplicaOk(c, s, r) && RoundOk(s, n) && RoundOk(s, r);
  }

  /**
    While the replica that feeds r may emit a round, r has taken all its earlier feedback: they are on
    the same host, and r is one of the replicas that passed the barrier before the state was unlocked.
   */
  lemma FeederWaits<S, D, C>(c: Job<S, D, C>, s: System<S, D, C>, r: Replica)
    requires ValidJob(c) && Core(c, s) && r in c.iters && !c.replay && FeedOf(c, r) in s.open
    ensures Fetched(s.iter[r].phase, |s.log[r]|) >= |s.log[FeedOf(c, r)]|
  {
    OpenRound(c, s, FeedOf(c, r));
    var l := LeaderOf(c, HostOf(c, r));
    assert ReplicaOk(c, s, l) && ReplicaOk(c, s, r);
  }

  lemma SameSize(a: set<Replica>, b: set<Replica>)
    requires a <= b && |a| >= |b|
    ensures a == b
  {
    assert b == a + (b - a);
  }

  lemma SubsetSize(a: set<Replica>, b: set<Replica>)
    requires forall x :: x in a ==> x in b
    ensures |a| <= |b|
  {
    assert a <= b;
    assert b == a + (b - a);
  }

  lemma OneMissing(a: set<Replica>, b: set<Replica>) returns (q: Replica)
    requires a <= b && |a| < |b|
    ensures q in b && q !in a
  {
    if x :| x in b && x !in a { q := x; } else { SubsetSize(b, a); }
  }

  /** When every IterationEnd has finished the round, so has everything before it. */
  lemma {:induction false} UpstreamDone<S, D, C>(c: Job<S, D, C>, s: System<S, D, C>, n: Replica)
    requires ValidJob(c) && Core(c, s) && (n in c.iters || n in c.bodies)
    requires forall e :: e in c.ends ==> e in Done(c, s)
    ensures |s.log[n]| == |s.orders| + 1
    decreases if n in c.bodies then c.depth - c.rank(n) else c.depth + 1
  {
    assert RoundOk(s, n);
    if n in c.ends {
      assert n in Done(c, s);
    } else {
      var m := c.next(n);
      assert EdgeOk(s, m, n) && c.rank(m) <= c.depth;
      UpstreamDone(c, s, m);
    }
  }

  /** The leader decides only when it holds one delta of every IterationEnd and nothing else is queued. */
  lemma AllCollected<S, D, C>(c: Job<S, D, C>, s: System<S, D, C>)
    requires ValidJob(c) && Core(c, s) && QueueOk(c, s) && s.leader.missing == 0
    ensures EveryEndOnce(c, s.taken) && s.queue == []
    ensures forall e :: e in c.ends ==> e in Done(c, s)
  {
    var d := Done(c, s);
    assert |multiset(s.taken) + multiset(Senders(s.queue))| == |s.taken| + |s.queue|;
    assert |multiset(d)| == |d|;
    assert c.ends == d + (c.ends - d);
    SameSize(d, c.ends);
    assert s.queue == [];
    assert multiset(s.taken) == multiset(s.taken) + multiset(Senders(s.queue));
  }

  // Preservation ---------------------------------------------------------------------------------

  lemma InitControl<S, D, C>(c: Job<S, D, C>, s: System<S, D, C>)
    requires ValidJob(c) && Init(c, s)
    ensures Control(c, s)
  {
    assert QueueOk(c, s) by {
      forall e ensures e !in Done(c, s) { if e in c.ends { assert s.log[e] == []; } }
      assert Done(c, s) == {};
    }
    forall n | n in c.iters || n in c.bodies ensures RoundOk(s, n) { assert s.log[n] == []; }
    forall n, p | n in c.bodies && p in c.preds(n) ensures EdgeOk(s, n, p) { assert s.log[n] == []; }
    forall r | r in c.iters ensures ReplicaOk(c, s, r) {
      assert s.log[r] == [] && s.iter[r].phase == Active && s.at[HostOf(c, r)].generation == 0;
    }
    forall h | h in c.hosts ensures HostOk(c, s, h) { InitHost(c, s, h); }
    forall r | r in c.iters && !c.replay ensures FedOk(c, s, r) {
      assert s.log[r] == [] && s.log[FeedOf(c, r)] == [] && s.fed[FeedOf(c, r)] == Channel([], false);
      assert s.iter[r].phase == Active;
    }
  }

  lemma InitHost<S, D, C>(c: Job<S, D, C>, s: System<S, D, C>, h: Host)
    requires ValidJob(c) && Init(c, s) && h in c.hosts
    ensures HostOk(c, s, h)
  {
    forall r ensures r !in Blocked(c, s, h) { if r in Local(c, h) { assert s.iter[r].phase == Active; } }
    assert Blocked(c, s, h) == {};
    assert LeaderOf(c, h) in Local(c, h);
  }

  /** The barrier of a host is not affected. */
  lemma SameBarrier<S, D, C>(c: Job<S, D, C>, s: System<S, D, C>, s': System<S, D, C>, h: Host)
    requires ValidJob(c) && Core(c, s) && Shape(c, s') && h in c.hosts
    requires s'.at[h].barrier == s.at[h].barrier && s'.at[h].count == s.at[h].count
    requires forall r {:trigger s'.iter[r]} :: r in Local(c, h) ==>
               (IsBlocked(s'.iter[r].phase, s'.at[h]) <==> IsBlocked(s.iter[r].phase, s.at[h]))
    ensures HostOk(c, s', h)
  {
    assert HostOk(c, s, h);
    forall r ensures r in Blocked(c, s', h) <==> r in Blocked(c, s, h) {
      if r in Local(c, h) { var x := s'.iter[r]; }
    }
    assert Blocked(c, s', h) == Blocked(c, s, h);
  }

  /** Replica q does not notice that another replica of its host has changed the shared state to h. */
  ghost predicate PeerOk<S, D, C>(c: Job<S, D, C>, s: System<S, D, C>, q: Replica, h: Shared<S>)
    requires ValidJob(c) && Shape(c, s) && q in c.iters
  {
    IterateOk(s.iter[q].phase, |s.log[q]|, |s.iter[q].inbox|, Sent(s, q), h, IsLocalLeader(c, q))
  }

  lemma PutQueue<S, D, C>(c: Job<S, D, C>, s: System<S, D, C>, r: Replica, log: seq<C>, i: Iterate<S, C>, h: Shared<S>)
    requires ValidJob(c) && Shape(c, s) && QueueOk(c, s) && r in c.iters && |log| == |s.log[r]|
    ensures Shape(c, Put(c, s, r, log, i, h)) && QueueOk(c, Put(c, s, r, log, i, h))
  {
    var s' := Put(c, s, r, log, i, h);
    forall e ensures e in Done(c, s') <==> e in Done(c, s) { }
    assert Done(c, s') == Done(c, s);
  }

  lemma PutFeds<S, D, C>(c: Job<S, D, C>, s: System<S, D, C>, r: Replica, log: seq<C>, i: Iterate<S, C>, h: Shared<S>)
    requires ValidJob(c) && Shape(c, s) && Feds(c, s) && r in c.iters
    requires Fetched(i.phase, |log|) == Fetched(s.iter[r].phase, |s.log[r]|)
    ensures Shape(c, Put(c, s, r, log, i, h)) && Feds(c, Put(c, s, r, log, i, h))
  {
    forall q | q in c.iters && !c.replay ensures FedOk(c, Put(c, s, r, log, i, h), q) { assert FedOk(c, s, q); }
  }

  lemma PutReplica<S, D, C>(c: Job<S, D, C>, s: System<S, D, C>, r: Replica, log: seq<C>, i: Iterate<S, C>,
      h: Shared<S>, q: Replica)
    requires ValidJob(c) && Control(c, s) && r in c.iters && q in c.iters
    requires IterateOk(i.phase, |log|, |i.inbox|, Sent(s, r), h, IsLocalLeader(c, r))
    requires q != r && HostOf(c, q) == HostOf(c, r) ==> PeerOk(c, s, q, h)
    ensures ReplicaOk(c, Put(c, s, r, log, i, h), q)
  {
    assert ReplicaOk(c, s, q);
  }

  lemma PutRounds<S, D, C>(c: Job<S, D, C>, s: System<S, D, C>, r: Replica, log: seq<C>, i: Iterate<S, C>, h: Shared<S>)
    requires ValidJob(c) && Control(c, s) && r in c.iters
    requires |s.log[r]| <= |log| <= |s.orders| + 1
    ensures var s' := Put(c, s, r, log, i, h);
            && (forall n {:trigger RoundOk(s', n)} :: n in c.iters || n in c.bodies ==> RoundOk(s', n))
            && (forall n, p {:trigger EdgeOk(s', n, p)} :: n in c.bodies && p in c.preds(n) ==> EdgeOk(s', n, p))
  {
    var s' := Put(c, s, r, log, i, h);
    forall n | n in c.iters || n in c.bodies ensures RoundOk(s', n) { assert RoundOk(s, n) && RoundOk(s, r); }
    forall n, p | n in c.bodies && p in c.preds(n) ensures EdgeOk(s', n, p) { assert EdgeOk(s, n, p); }
  }

  lemma PutReplicas<S, D, C>(c: Job<S, D, C>, s: System<S, D, C>, r: Replica, log: seq<C>, i: Iterate<S, C>,
      h: Shared<S>)
    requires ValidJob(c) && Control(c, s) && r in c.iters
    requires IterateOk(i.phase, |log|, |i.inbox|, Sent(s, r), h, IsLocalLeader(c, r))
    requires forall q {:trigger PeerOk(c, s, q, h)} ::
               q in c.iters && q != r && HostOf(c, q) == HostOf(c, r) ==> PeerOk(c, s, q, h)
    ensures var s' := Put(c, s, r, log, i, h);
            forall q {:trigger ReplicaOk(c, s', q)} :: q in c.iters ==> ReplicaOk(c, s', q)
  {
    var s' := Put(c, s, r, log, i, h);
    forall q | q in c.iters ensures ReplicaOk(c, s', q) { PutReplica(c, s, r, log, i, h, q); }
  }

  lemma PutHost<S, D, C>(c: Job<S, D, C>, s: System<S, D, C>, r: Replica, log: seq<C>, i: Iterate<S, C>, h: Shared<S>,
      x: Host)
    requires ValidJob(c) && Control(c, s) && r in c.iters && x in c.hosts && x != HostOf(c, r)
    ensures HostOk(c, Put(c, s, r, log, i, h), x)
  {
    SameBarrier(c, s, Put(c, s, r, log, i, h), x);
  }

  lemma PutOpen<S, D, C>(c: Job<S, D, C>, s: System<S, D, C>, r: Replica, log: seq<C>, i: Iterate<S, C>, h: Shared<S>,
      n: Replica)
    requires ValidJob(c) && Control(c, s) && r in c.iters && n in c.bodies
    requires h.generation >= s.at[HostOf(c, r)].generation
    ensures OpenOk(c, Put(c, s, r, log, i, h), n)
  {
    assert OpenOk(c, s, n);
  }

  /** A step of the Iterate replica r. */
  lemma IterateStep<S, D, C>(c: Job<S, D, C>, s: System<S, D, C>, r: Replica, log: seq<C>, i: Iterate<S, C>,
      h: Shared<S>)
    requires ValidJob(c) && Control(c, s) && r in c.iters
    requires |s.log[r]| <= |log| <= |s.orders| + 1 && h.generation >= s.at[HostOf(c, r)].generation
    requires IterateOk(i.phase, |log|, |i.inbox|, Sent(s, r), h, IsLocalLeader(c, r))
    requires forall q {:trigger PeerOk(c, s, q, h)} ::
               q in c.iters && q != r && HostOf(c, q) == HostOf(c, r) ==> PeerOk(c, s, q, h)
    requires HostOk(c, Put(c, s, r, log, i, h), HostOf(c, r))
    ensures Core(c, Put(c, s, r, log, i, h))
  {
    var s' := Put(c, s, r, log, i, h);
    PutRounds(c, s, r, log, i, h);
    PutReplicas(c, s, r, log, i, h);
    forall x | x in c.hosts ensures HostOk(c, s', x) { if x != HostOf(c, r) { PutHost(c, s, r, log, i, h, x); } }
    forall n | n in c.bodies ensures OpenOk(c, s', n) { PutOpen(c, s, r, log, i, h, n); }
  }

  lemma QuietPeer<S, D, C>(c: Job<S, D, C>, s: System<S, D, C>, r: Replica, h: Shared<S>, q: Replica)
    requires ValidJob(c) && Control(c, s) && r in c.iters
    requires q in c.iters && q != r && HostOf(c, q) == HostOf(c, r)
    requires var g := s.at[HostOf(c, r)].generation;
             h.generation == g || h.generation == LockGeneration(g) || (h.generation == g + 1 && IsLocalLeader(c, r))
    requires h.barrier == s.at[HostOf(c, r)].barrier
    ensures PeerOk(c, s, q, h)
  {
    assert ReplicaOk(c, s, q);
    if IsLocalLeader(c, q) && IsLocalLeader(c, r) { OneLeader(c, q, r); }
  }

  /** A step of r that leaves the barrier alone, and the lock unless r is the local leader or locks it. */
  lemma QuietStep<S, D, C>(c: Job<S, D, C>, s: System<S, D, C>, r: Replica, log: seq<C>, i: Iterate<S, C>, h: Shared<S>)
    requires ValidJob(c) && Control(c, s) && r in c.iters
    requires |s.log[r]| <= |log| <= |s.orders| + 1
    requires IterateOk(i.phase, |log|, |i.inbox|, Sent(s, r), h, IsLocalLeader(c, r))
    requires var g := s.at[HostOf(c, r)].generation;
             h.generation == g || h.generation == LockGeneration(g) || (h.generation == g + 1 && IsLocalLeader(c, r))
    requires h.barrier == s.at[HostOf(c, r)].barrier && h.count == s.at[HostOf(c, r)].count
    requires IsBlocked(i.phase, h) <==> IsBlocked(s.iter[r].phase, s.at[HostOf(c, r)])
    ensures Core(c, Put(c, s, r, log, i, h))
    ensures |log| == |s.log[r]| ==> QueueOk(c, Put(c, s, r, log, i, h))
    ensures Fetched(i.phase, |log|) == Fetched(s.iter[r].phase, |s.log[r]|) ==> Feds(c, Put(c, s, r, log, i, h))
  {
    var s' := Put(c, s, r, log, i, h);
    forall q | q in c.iters && q != r && HostOf(c, q) == HostOf(c, r) ensures PeerOk(c, s, q, h) {
      QuietPeer(c, s, r, h, q);
    }
    SameBarrier(c, s, s', HostOf(c, r));
    IterateStep(c, s, r, log, i, h);
    if |log| == |s.log[r]| { PutQueue(c, s, r, log, i, h); }
    if Fetched(i.phase, |log|) == Fetched(s.iter[r].phase, |s.log[r]|) { PutFeds(c, s, r, log, i, h); }
  }

  lemma KeepHosts<S, D, C>(c: Job<S, D, C>, s: System<S, D, C>, s': System<S, D, C>)
    requires ValidJob(c) && Core(c, s) && Shape(c, s') && s'.at == s.at
    requires forall r {:trigger s'.iter[r]} :: r in c.iters ==> s'.iter[r].phase == s.iter[r].phase
    ensures forall h {:trigger HostOk(c, s', h)} :: h in c.hosts ==> HostOk(c, s', h)
  {
    forall h | h in c.hosts ensures HostOk(c, s', h) { SameBarrier(c, s, s', h); }
  }

  /** Nothing that concerns the Iterate replicas has changed. */
  lemma KeepIterates<S, D, C>(c: Job<S, D, C>, s: System<S, D, C>, s': System<S, D, C>)
    requires ValidJob(c) && Core(c, s) && Shape(c, s')
    requires s'.iter == s.iter && s'.at == s.at && s'.orders == s.orders && s'.leader.toSend == s.leader.toSend
    requires forall r {:trigger s'.log[r]} :: r in c.iters ==> s'.log[r] == s.log[r]
    ensures forall r {:trigger ReplicaOk(c, s', r)} :: r in c.iters ==> ReplicaOk(c, s', r)
    ensures forall h {:trigger HostOk(c, s', h)} :: h in c.hosts ==> HostOk(c, s', h)
  {
    forall r | r in c.iters ensures ReplicaOk(c, s', r) { assert ReplicaOk(c, s, r); var x := s'.log[r]; }
    KeepHosts(c, s, s');
  }

  lemma KeepRounds<S, D, C>(c: Job<S, D, C>, s: System<S, D, C>, s': System<S, D, C>)
    requires ValidJob(c) && Core(c, s) && Shape(c, s')
    requires s'.log == s.log && s'.orders == s.orders
    ensures Done(c, s') == Done(c, s)
    ensures forall n {:trigger RoundOk(s', n)} :: n in c.iters || n in c.bodies ==> RoundOk(s', n)
    ensures forall n, p {:trigger EdgeOk(s', n, p)} :: n in c.bodies && p in c.preds(n) ==> EdgeOk(s', n, p)
  {
    forall n | n in c.iters || n in c.bodies ensures RoundOk(s', n) { assert RoundOk(s, n); }
    forall n, p | n in c.bodies && p in c.preds(n) ensures EdgeOk(s', n, p) { assert EdgeOk(s, n, p); }
  }

  lemma KeepOpen<S, D, C>(c: Job<S, D, C>, s: System<S, D, C>, s': System<S, D, C>)
    requires ValidJob(c) && Core(c, s) && Shape(c, s')
    requires s'.open == s.open && s'.log == s.log && s'.at == s.at
    ensures forall n {:trigger OpenOk(c, s', n)} :: n in c.bodies ==> OpenOk(c, s', n)
  {
    forall n | n in c.bodies ensures OpenOk(c, s', n) { assert OpenOk(c, s, n); }
  }

  /** The core does not mention the channels. */
  lemma SameCore<S, D, C>(c: Job<S, D, C>, s: System<S, D, C>, s': System<S, D, C>)
    requires ValidJob(c) && Core(c, s) && Shape(c, s')
    requires s'.log == s.log && s'.open == s.open && s'.iter == s.iter && s'.at == s.at && s'.orders == s.orders
    requires s'.leader.toSend == s.leader.toSend
    ensures Core(c, s')
  {
    KeepRounds(c, s, s');
    KeepIterates(c, s, s');
    KeepOpen(c, s, s');
  }

  lemma LockControl<S, D, C>(c: Job<S, D, C>, s: System<S, D, C>, r: Replica)
    requires ValidJob(c) && Control(c, s) && CanLock(c, s, r)
    ensures Control(c, DoLock(c, s, r))
  {
    var s' := DoLock(c, s, r);
    assert ReplicaOk(c, s, r) && RoundOk(s, r);
    QuietStep(c, s, r, s'.log[r], s'.iter[r], s'.at[HostOf(c, r)]);
  }

  /** A replica that has not ended its round is in the round the leader is collecting. */
  lemma EmitterRound<S, D, C>(c: Job<S, D, C>, s: System<S, D, C>, r: Replica)
    requires ValidJob(c) && Core(c, s) && r in c.iters && (s.iter[r].phase.Active? || s.iter[r].phase.Locked?)
    ensures |s.log[r]| == |s.orders|
  {
    assert ReplicaOk(c, s, r) && RoundOk(s, r);
  }

  lemma EndRoundControl<S, D, C>(c: Job<S, D, C>, s: System<S, D, C>, r: Replica)
    requires ValidJob(c) && Control(c, s) && CanEndRound(c, s, r)
    ensures Control(c, DoEndRound(c, s, r))
  {
    var s', out := DoEndRound(c, s, r), Headed(c, s, r);
    var put := Put(c, s, r, s'.log[r], s'.iter[r], s'.at[HostOf(c, r)]);
    assert ReplicaOk(c, s, r);
    EmitterRound(c, s, r);
    QuietStep(c, s, r, s'.log[r], s'.iter[r], s'.at[HostOf(c, r)]);
    SameCore(c, put, s');
    EnqueueOk(c, s, s', r, out);
    SameFeds(c, put, s');
  }

  lemma SameFeds<S, D, C>(c: Job<S, D, C>, s: System<S, D, C>, s': System<S, D, C>)
    requires ValidJob(c) && Shape(c, s) && Feds(c, s) && Shape(c, s')
    requires s'.fed == s.fed && s'.open == s.open && s'.log == s.log
    requires forall r {:trigger s'.iter[r]} :: r in c.iters ==> s'.iter[r].phase == s.iter[r].phase
    ensures Feds(c, s')
  {
    forall r | r in c.iters && !c.replay ensures FedOk(c, s', r) { assert FedOk(c, s, r); var i := s'.iter[r]; }
  }

  lemma SameQueue<S, D, C>(c: Job<S, D, C>, s: System<S, D, C>, s': System<S, D, C>)
    requires ValidJob(c) && Shape(c, s) && Shape(c, s') && QueueOk(c, s)
    requires s'.log == s.log && s'.orders == s.orders && s'.queue == s.queue && s'.taken == s.taken &&
      s'.leader == s.leader
    ensures QueueOk(c, s')
  {
    assert Done(c, s') == Done(c, s);
  }

  lemma FetchControl<S, D, C>(c: Job<S, D, C>, s: System<S, D, C>, r: Replica)
    requires ValidJob(c) && Control(c, s) && CanFetch(c, s, r)
    ensures Control(c, DoFetch(c, s, r))
  {
    var s' := DoFetch(c, s, r);
    var put := Put(c, s, r, s'.log[r], s'.iter[r], s'.at[HostOf(c, r)]);
    assert ReplicaOk(c, s, r) && RoundOk(s, r);
    QuietStep(c, s, r, s'.log[r], s'.iter[r], s'.at[HostOf(c, r)]);
    SameCore(c, put, s');
    SameQueue(c, put, s');
    FetchFeds(c, s, r);
  }

  /** What is taken is one round. */
  lemma FetchFeds<S, D, C>(c: Job<S, D, C>, s: System<S, D, C>, r: Replica)
    requires ValidJob(c) && Shape(c, s) && Feds(c, s) && CanFetch(c, s, r) && Shape(c, DoFetch(c, s, r))
    ensures Feds(c, DoFetch(c, s, r))
  {
    forall q | q in c.iters && !c.replay ensures FedOk(c, DoFetch(c, s, r), q) { assert FedOk(c, s, q); }
  }

  lemma TakeControl<S, D, C>(c: Job<S, D, C>, s: System<S, D, C>, r: Replica)
    requires ValidJob(c) && Control(c, s) && CanTake(c, s, r)
    ensures Control(c, DoTake(c, s, r))
  {
    var s' := DoTake(c, s, r);
    assert ReplicaOk(c, s, r) && RoundOk(s, r);
    QuietStep(c, s, r, s'.log[r], s'.iter[r], s'.at[HostOf(c, r)]);
  }

  lemma SetControl<S, D, C>(c: Job<S, D, C>, s: System<S, D, C>, r: Replica)
    requires ValidJob(c) && Control(c, s) && CanSet(c, s, r)
    ensures Control(c, DoSet(c, s, r))
  {
    var s' := DoSet(c, s, r);
    assert ReplicaOk(c, s, r) && RoundOk(s, r);
    QuietStep(c, s, r, s'.log[r], s'.iter[r], s'.at[HostOf(c, r)]);
  }

  lemma LeaveControl<S, D, C>(c: Job<S, D, C>, s: System<S, D, C>, r: Replica)
    requires ValidJob(c) && Control(c, s) && CanLeave(c, s, r)
    ensures Control(c, DoLeave(c, s, r))
  {
    var s' := DoLeave(c, s, r);
    assert ReplicaOk(c, s, r) && RoundOk(s, r);
    QuietStep(c, s, r, s'.log[r], s'.iter[r], s'.at[HostOf(c, r)]);
  }

  lemma ResumeControl<S, D, C>(c: Job<S, D, C>, s: System<S, D, C>, r: Replica)
    requires ValidJob(c) && Control(c, s) && CanResume(c, s, r)
    ensures Control(c, DoResume(c, s, r))
  {
    var s' := DoResume(c, s, r);
    assert ReplicaOk(c, s, r) && RoundOk(s, r);
    QuietStep(c, s, r, s'.log[r], s'.iter[r], s'.at[HostOf(c, r)]);
  }

  lemma ArriveControl<S, D, C>(c: Job<S, D, C>, s: System<S, D, C>, r: Replica)
    requires ValidJob(c) && Control(c, s) && CanArrive(c, s, r)
    ensures Control(c, DoArrive(c, s, r))
  {
    var s', h := DoArrive(c, s, r), HostOf(c, r);
    var now := Blocked(c, s, h) + {r};
    ArriveCount(c, s, r, now);
    ArriveSelf(c, s, r);
    forall q | q in c.iters && q != r && HostOf(c, q) == h ensures PeerOk(c, s, q, s'.at[h]) {
      ArrivePeer(c, s, r, q, now);
    }
    ArriveHost(c, s, r, now);
    IterateStep(c, s, r, s'.log[r], s'.iter[r], s'.at[h]);
    PutQueue(c, s, r, s'.log[r], s'.iter[r], s'.at[h]);
    PutFeds(c, s, r, s'.log[r], s'.iter[r], s'.at[h]);
  }

  lemma ArriveCount<S, D, C>(c: Job<S, D, C>, s: System<S, D, C>, r: Replica, now: set<Replica>)
    requires ValidJob(c) && Control(c, s) && CanArrive(c, s, r)
    requires now == Blocked(c, s, HostOf(c, r)) + {r}
    ensures |now| == s.at[HostOf(c, r)].count + 1 && now <= Local(c, HostOf(c, r))
    ensures |now| >= |Local(c, HostOf(c, r))| ==> now == Local(c, HostOf(c, r))
  {
    assert HostOk(c, s, HostOf(c, r));
    if |now| >= |Local(c, HostOf(c, r))| { SameSize(now, Local(c, HostOf(c, r))); }
  }

  lemma ArriveSelf<S, D, C>(c: Job<S, D, C>, s: System<S, D, C>, r: Replica)
    requires ValidJob(c) && Control(c, s) && CanArrive(c, s, r)
    ensures var i, h := DoArrive(c, s, r).iter[r], DoArrive(c, s, r).at[HostOf(c, r)];
            IterateOk(i.phase, |s.log[r]|, |i.inbox|, Sent(s, r), h, IsLocalLeader(c, r))
    ensures |s.log[r]| <= |s.orders| + 1
  {
    assert ReplicaOk(c, s, r) && RoundOk(s, r);
  }

  lemma ArrivePeer<S, D, C>(c: Job<S, D, C>, s: System<S, D, C>, r: Replica, q: Replica, now: set<Replica>)
    requires ValidJob(c) && Control(c, s) && CanArrive(c, s, r)
    requires now == Blocked(c, s, HostOf(c, r)) + {r} && |now| == s.at[HostOf(c, r)].count + 1
    requires |now| >= |Local(c, HostOf(c, r))| ==> now == Local(c, HostOf(c, r))
    requires q in c.iters && q != r && HostOf(c, q) == HostOf(c, r)
    ensures PeerOk(c, s, q, DoArrive(c, s, r).at[HostOf(c, r)])
  {
    assert ReplicaOk(c, s, q);
    if |now| >= |Local(c, HostOf(c, r))| { assert q in Local(c, HostOf(c, r)); }
  }

  lemma ArriveHost<S, D, C>(c: Job<S, D, C>, s: System<S, D, C>, r: Replica, now: set<Replica>)
    requires ValidJob(c) && Control(c, s) && CanArrive(c, s, r)
    requires now == Blocked(c, s, HostOf(c, r)) + {r} && |now| == s.at[HostOf(c, r)].count + 1
    requires now <= Local(c, HostOf(c, r))
    ensures HostOk(c, DoArrive(c, s, r), HostOf(c, r))
  {
    var s', h := DoArrive(c, s, r), HostOf(c, r);
    if |now| >= |Local(c, h)| {
      forall q | q in Local(c, h) ensures !IsBlocked(s'.iter[q].phase, s'.at[h]) { assert ReplicaOk(c, s, q); }
      forall q ensures q !in Blocked(c, s', h) { }
      assert Blocked(c, s', h) == {};
      assert r in Local(c, h);
    } else {
      forall q ensures q in Blocked(c, s', h) <==> q in now { }
      assert Blocked(c, s', h) == now;
      var q := OneMissing(now, Local(c, h));
    }
  }

  lemma OpenControl<S, D, C>(c: Job<S, D, C>, s: System<S, D, C>, n: Replica)
    requires ValidJob(c) && Control(c, s) && CanOpen(c, s, n)
    ensures Control(c, DoOpen(c, s, n))
  {
    var s' := DoOpen(c, s, n);
    KeepRounds(c, s, s');
    KeepIterates(c, s, s');
    forall m | m in c.bodies ensures OpenOk(c, s', m) { assert OpenOk(c, s, m); }
    forall r | r in c.iters && !c.replay ensures FedOk(c, s', r) { assert FedOk(c, s, r); }
  }

  lemma PushControl<S, D, C>(c: Job<S, D, C>, s: System<S, D, C>, n: Replica)
    requires ValidJob(c) && Control(c, s) && CanPush(c, s, n)
    ensures Control(c, DoPush(c, s, n))
  {
    var s' := DoPush(c, s, n);
    SameCore(c, s, s');
    SameQueue(c, s, s');
    forall r | r in c.iters && !c.replay ensures FedOk(c, s', r) {
      assert FedOk(c, s, r);
      if FeedOf(c, r) == n { FeederWaits(c, s, r); }
    }
  }

  lemma FlushControl<S, D, C>(c: Job<S, D, C>, s: System<S, D, C>, n: Replica)
    requires ValidJob(c) && Control(c, s) && CanFlush(c, s, n)
    ensures Control(c, DoFlush(c, s, n))
  {
    var s' := DoFlush(c, s, n);
    OpenRound(c, s, n);
    EnqueueOk(c, s, s', n, Output(c, s, n));
    FlushCore(c, s, n);
    FlushFeds(c, s, n);
  }

  lemma FlushCore<S, D, C>(c: Job<S, D, C>, s: System<S, D, C>, n: Replica)
    requires ValidJob(c) && Control(c, s) && CanFlush(c, s, n) && |s.log[n]| == |s.orders|
    ensures Core(c, DoFlush(c, s, n))
  {
    var s' := DoFlush(c, s, n);
    KeepIterates(c, s, s');
    forall m | m in c.iters || m in c.bodies ensures RoundOk(s', m) { assert RoundOk(s, m); }
    forall m, p | m in c.bodies && p in c.preds(m) ensures EdgeOk(s', m, p) { assert EdgeOk(s, m, p); }
    forall m | m in c.bodies ensures OpenOk(c, s', m) { assert OpenOk(c, s, m); }
  }

  lemma FlushFeds<S, D, C>(c: Job<S, D, C>, s: System<S, D, C>, n: Replica)
    requires ValidJob(c) && Control(c, s) && CanFlush(c, s, n) && Shape(c, DoFlush(c, s, n))
    ensures Feds(c, DoFlush(c, s, n))
  {
    forall r | r in c.iters && !c.replay ensures FedOk(c, DoFlush(c, s, n), r) {
      assert FedOk(c, s, r);
      if FeedOf(c, r) == n { FeederWaits(c, s, r); }
    }
  }

  /** A replica that finishes the round sends its delta, if it is an IterationEnd. */
  lemma EnqueueOk<S, D, C>(c: Job<S, D, C>, s: System<S, D, C>, s': System<S, D, C>, n: Replica, out: C)
    requires ValidJob(c) && Control(c, s) && Shape(c, s') && n in s.log && |s.log[n]| == |s.orders|
    requires s'.log == s.log[n := s.log[n] + [out]] && s'.queue == Enqueue(c, s, n, out)
    requires s'.orders == s.orders && s'.taken == s.taken && s'.leader == s.leader
    ensures QueueOk(c, s')
  {
    var d, d' := Done(c, s), Done(c, s');
    if n in c.ends {
      forall e ensures e in d' <==> e in d + {n} { }
      assert d' == d + {n} && n !in d;
      assert multiset(d') == multiset(d) + multiset{n};
      assert Senders(s'.queue) == Senders(s.queue) + [n];
    } else {
      forall e ensures e in d' <==> e in d { }
      assert d' == d;
    }
  }

  lemma FoldControl<S, D, C>(c: Job<S, D, C>, s: System<S, D, C>)
    requires ValidJob(c) && Control(c, s) && CanFold(s)
    ensures Control(c, DoFold(c, s))
  {
    var s' := DoFold(c, s);
    KeepRounds(c, s, s');
    KeepIterates(c, s, s');
    assert Senders(s.queue) == [s.queue[0].0] + Senders(s'.queue);
    forall m | m in c.bodies ensures OpenOk(c, s', m) { assert OpenOk(c, s, m); }
    SameFeds(c, s, s');
  }

  lemma SendReplica<S, D, C>(c: Job<S, D, C>, s: System<S, D, C>, r: Replica, q: Replica)
    requires ValidJob(c) && Control(c, s) && CanSend(s, r) && q in c.iters
    ensures ReplicaOk(c, DoSend(c, s, r), q)
  {
    assert ReplicaOk(c, s, q) && RoundOk(s, q);
  }

  lemma SendControl<S, D, C>(c: Job<S, D, C>, s: System<S, D, C>, r: Replica)
    requires ValidJob(c) && Control(c, s) && CanSend(s, r)
    ensures Control(c, DoSend(c, s, r))
  {
    var s' := DoSend(c, s, r);
    KeepRounds(c, s, s');
    forall q | q in c.iters ensures ReplicaOk(c, s', q) { SendReplica(c, s, r, q); }
    SendRest(c, s, r);
  }

  lemma SendRest<S, D, C>(c: Job<S, D, C>, s: System<S, D, C>, r: Replica)
    requires ValidJob(c) && Control(c, s) && CanSend(s, r) && Shape(c, DoSend(c, s, r))
    ensures var s' := DoSend(c, s, r);
            && Feds(c, s')
            && (forall h {:trigger HostOk(c, s', h)} :: h in c.hosts ==> HostOk(c, s', h))
            && (forall n {:trigger OpenOk(c, s', n)} :: n in c.bodies ==> OpenOk(c, s', n))
  {
    var s' := DoSend(c, s, r);
    KeepHosts(c, s, s');
    KeepOpen(c, s, s');
    SameFeds(c, s, s');
  }

  lemma DecideControl<S, D, C>(c: Job<S, D, C>, s: System<S, D, C>)
    requires ValidJob(c) && Control(c, s) && CanDecide(s)
    ensures Control(c, DoDecide(c, s))
  {
    var s' := DoDecide(c, s);
    AllCollected(c, s);
    DecideQueue(c, s);
    DecideRounds(c, s);
    KeepHosts(c, s, s');
    KeepOpen(c, s, s');
    SameFeds(c, s, s');
  }

  lemma DecideQueue<S, D, C>(c: Job<S, D, C>, s: System<S, D, C>)
    requires ValidJob(c) && Shape(c, s) && CanDecide(s) && s.queue == []
    requires forall e :: e in c.ends ==> e in Done(c, s)
    ensures QueueOk(c, DoDecide(c, s))
  {
    var s' := DoDecide(c, s);
    forall e ensures e !in Done(c, s') { if e in c.ends { assert e in Done(c, s); } }
    assert Done(c, s') == {};
  }

  lemma DecideRounds<S, D, C>(c: Job<S, D, C>, s: System<S, D, C>)
    requires ValidJob(c) && Core(c, s) && CanDecide(s)
    requires forall e :: e in c.ends ==> e in Done(c, s)
    ensures var s' := DoDecide(c, s);
            && Shape(c, s')
            && (forall n {:trigger RoundOk(s', n)} :: n in c.iters || n in c.bodies ==> RoundOk(s', n))
            && (forall n, p {:trigger EdgeOk(s', n, p)} :: n in c.bodies && p in c.preds(n) ==> EdgeOk(s', n, p))
            && (forall r {:trigger ReplicaOk(c, s', r)} :: r in c.iters ==> ReplicaOk(c, s', r))
  {
    var s' := DoDecide(c, s);
    forall n | n in c.iters || n in c.bodies ensures RoundOk(s', n) { UpstreamDone(c, s, n); }
    forall m, p | m in c.bodies && p in c.preds(m) ensures EdgeOk(s', m, p) { assert EdgeOk(s, m, p); }
    forall q | q in c.iters ensures ReplicaOk(c, s', q) { UpstreamDone(c, s, q); assert ReplicaOk(c, s, q); }
  }
}
