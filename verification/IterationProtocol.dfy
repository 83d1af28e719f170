/** The distributed iteration protocol. */
module IterationProtocol {
  /*
    A step relation.  The replicas of the `Iterate` block, the replicas of the blocks of the loop body (each
    one begins with a `Start` that honours the state lock), the `IterationEnd` replicas and the single
    `IterationLeader` advance asynchronously.  Every round of every replica ends with a `FlushAndRestart`, so
    the number of rounds a replica has finished is the length of its log.  Nothing in a step looks at another
    replica's log except through a message that was sent: the end of a round on a channel, a delta in the
    leader's queue, the feedback of a round, or the leader's answer in an inbox.  The leader's queue, the
    inboxes and the feedback channels are explicit, since their receivers tell the rounds apart by counting
    or by the last element alone.
   */

  type Replica = nat       // a replica; the order is the order of coordinates
  type Host = nat

  /** The job: its execution graph, the user's closures and the data entering each run. */
  datatype Job<!S, !D, !C> = Job(
    iters: set<Replica>,                  // replicas of the block of the Iterate or Replay
    bodies: set<Replica>,                 // replicas of the other blocks inside the loop
    ends: set<Replica>,                   // replicas holding an IterationEnd
    preds: Replica -> set<Replica>,       // whose messages a body replica receives
    next: Replica -> Replica,             // a receiver of what a replica emits
    rank: Replica -> nat,                 // a topological order of the loop body
    depth: nat,
    hosts: set<Host>,
    host: Replica -> Host,
    feed: Replica -> Replica,             // the replica whose output is fed back to an Iterate
    replay: bool,                         // Replay: the loop re-emits its own input
    head: (Replica, S, C) -> C,           // the operators chained to the Iterate or Replay in its block
    body: (Replica, S, map<Replica, C>) -> C,
    jumble: seq<C> -> C,                  // several rounds of feedback taken for one
    localFold: (Replica, C) -> D,
    globalFold: (S, D) -> S,
    condition: S -> (S, bool),            // the loop condition may change the state
    initial: S,
    maxIterations: nat,
    input: (nat, Replica) -> C)           // what enters replica r in the n-th run

  ghost predicate ValidJob<S, D, C>(c: Job<S, D, C>) {
    && c.iters !! c.bodies
    && c.ends <= c.iters + c.bodies
    && c.ends != {}
    && (forall n {:trigger c.preds(n)} :: n in c.bodies ==>
      (exists p :: p in c.preds(n)) && c.preds(n) <= c.iters + c.bodies)
    && (forall n {:trigger c.rank(n)} :: n in c.bodies ==> c.rank(n) <= c.depth)
    && (forall n, p :: n in c.bodies && p in c.preds(n) && p in c.bodies ==> c.rank(p) < c.rank(n))
    // nothing is left dangling: what a replica emits is received by another one, up to an IterationEnd
    && (forall n {:trigger c.next(n)} ::
          n in c.iters + c.bodies && n !in c.ends ==> c.next(n) in c.bodies && n in c.preds(c.next(n)))
    && (forall n {:trigger HostOf(c, n)} :: n in c.iters + c.bodies ==> HostOf(c, n) in c.hosts)
    // the iteration block has unlimited replication, hence it is present on every host
    && (forall h {:trigger Local(c, h)} :: h in c.hosts ==> exists r :: r in Local(c, h))
    // the feedback goes without shuffle from each replica to the one with the same host and number
    && (forall r {:trigger FeedOf(c, r)} ::
          r in c.iters && !c.replay ==> FeedOf(c, r) in c.bodies && HostOf(c, FeedOf(c, r)) == HostOf(c, r))
    && (forall r, q {:trigger FeedOf(c, r), FeedOf(c, q)} ::
          r in c.iters && q in c.iters && !c.replay && FeedOf(c, r) == FeedOf(c, q) ==> r == q)
  }

  function HostOf<S, D, C>(c: Job<S, D, C>, n: Replica): Host { c.host(n) }

  function FeedOf<S, D, C>(c: Job<S, D, C>, r: Replica): Replica { c.feed(r) }

  /** The replicas of the Iterate block on a host: they share a state cell, a lock and a barrier. */
  function Local<S, D, C>(c: Job<S, D, C>, h: Host): set<Replica> {
    set r | r in c.iters && HostOf(c, r) == h
  }

  /** The least coordinate of a non-empty list of replicas. */
  function SelectLeader(replicas: set<Replica>): (l: Replica)
    requires exists r :: r in replicas
    ensures l in replicas && forall r <- replicas :: l <= r
  {
    LeastExists(replicas);
    var l :| l in replicas && forall r <- replicas :: l <= r;
    l
  }

  lemma LeastExists(replicas: set<Replica>)
    requires exists r :: r in replicas
    ensures exists l :: l in replicas && forall r <- replicas :: l <= r
  {
    var r0 :| r0 in replicas;
    var l := LeastBelow(replicas, r0);
  }

  lemma {:induction false} LeastBelow(replicas: set<Replica>, r: Replica) returns (l: Replica)
    requires r in replicas
    ensures l in replicas && forall q <- replicas :: l <= q
    decreases r
  {
    if q :| q in replicas && q < r { l := LeastBelow(replicas, q); } else { l := r; }
  }

  /** Whether r writes the state of its host. */
  predicate IsLocalLeader<S, D, C>(c: Job<S, D, C>, r: Replica)
    requires r in c.iters
  {
    assert r in Local(c, HostOf(c, r));
    SelectLeader(Local(c, HostOf(c, r))) == r
  }

  // ------------------------------------------------------------------------------------------
  // The sequential loop
  // ------------------------------------------------------------------------------------------

  /** Where the sequential loop stands before a round. */
  datatype Loop<!S, !C> = Loop(
    state: S,
    index: nat,                        // rounds already done in this run
    run: nat,                          // runs already finished
    data: Replica -> C,                // what enters the loop in the next round
    results: seq<S>,                   // final state of every finished run
    outputs: Replica -> seq<C>)        // what left the loop at the end of every finished run

  function Start<S, D, C>(c: Job<S, D, C>): Loop<S, C> {
    Loop(c.initial, 0, 0, InputOf(c, 0), [], (r: Replica) => [])
  }

  /** What replica n emits in a round, given the state and what enters the loop. */
  function Emits<S, D, C>(c: Job<S, D, C>, state: S, data: Replica -> C, n: Replica): C
    decreases if n in c.bodies then c.rank(n) + 1 else 0
  {
    if n in c.bodies then
      c.body(n, state, map p | p in c.preds(n) && Precedes(c, p, n) :: Emits(c, state, data, p))
    else c.head(n, state, data(n))
  }

  function AllEmit<S, D, C>(c: Job<S, D, C>, state: S, data: Replica -> C): Replica -> C {
    (n: Replica) => Emits(c, state, data, n)
  }

  predicate Precedes<S, D, C>(c: Job<S, D, C>, p: Replica, n: Replica) { p in c.bodies ==> c.rank(p) < c.rank(n) }

  /** The global fold over the deltas of one round, taken in the given order of replicas. */
  function FoldDeltas<S, D, C>(c: Job<S, D, C>, state: S, emits: Replica -> C, order: seq<Replica>): S {
    if order == [] then state
    else
      var e := order[|order| - 1];
      c.globalFold(FoldDeltas(c, state, emits, order[..|order| - 1]), c.localFold(e, emits(e)))
  }

  /** The state and the loop condition after a round. */
  function Folded<S, D, C>(c: Job<S, D, C>, state: S, data: Replica -> C, order: seq<Replica>): (S, bool) {
    c.condition(FoldDeltas(c, state, AllEmit(c, state, data), order))
  }

  /** Whether a new round starts, given the number of rounds done and the loop condition. */
  predicate Continues<S, D, C>(c: Job<S, D, C>, rounds: nat, condition: bool) {
    condition && rounds < c.maxIterations
  }

  /** What a round leaves for replica r: what it is fed back, or again its input. */
  function FedBack<S, D, C>(c: Job<S, D, C>, state: S, data: Replica -> C, r: Replica): C {
    if c.replay then data(r) else Emits(c, state, data, FeedOf(c, r))
  }

  function AllFedBack<S, D, C>(c: Job<S, D, C>, state: S, data: Replica -> C): Replica -> C {
    (r: Replica) => FedBack(c, state, data, r)
  }

  function InputOf<S, D, C>(c: Job<S, D, C>, run: nat): Replica -> C { (r: Replica) => c.input(run, r) }

  /** One round of the sequential loop: `data := body(data, state); state := fold(state, deltas)`. */
  function Round<S, D, C>(c: Job<S, D, C>, l: Loop<S, C>, order: seq<Replica>): Loop<S, C> {
    var (state, condition) := Folded(c, l.state, l.data, order);
    var data := AllFedBack(c, l.state, l.data);
    if Continues(c, l.index + 1, condition) then l.(state := state, index := l.index + 1, data := data)
    else
      Loop(c.initial, 0, l.run + 1, InputOf(c, l.run + 1), l.results + [state],
           (r: Replica) => l.outputs(r) + [data(r)])
  }

  /** The sequential loop after k rounds; orders[i] is the order in which round i's deltas are folded. */
  function After<S, D, C>(c: Job<S, D, C>, orders: seq<seq<Replica>>, k: nat): Loop<S, C>
    requires k <= |orders|
  {
    if k == 0 then Start(c) else Round(c, After(c, orders, k - 1), orders[k - 1])
  }

  /** Each IterationEnd replica exactly once. */
  ghost predicate EveryEndOnce<S, D, C>(c: Job<S, D, C>, order: seq<Replica>) {
    multiset(order) == multiset(c.ends)
  }

  // ------------------------------------------------------------------------------------------
  // The distributed system
  // ------------------------------------------------------------------------------------------

  /** The message of the leader: whether to go on, and the new state. */
  datatype Feedback<S> = Feedback(goOn: bool, state: S)

  /** Where an Iterate replica is between two rounds. */
  datatype Phase<S> =
    | Active                               // emitting the elements of a round
    | Locked                               // has locked the state, FlushAndRestart not yet emitted
    | Waiting                              // for all the feedback of the round
    | Swapped                              // the feedback is the new content; waits for the leader
    | Updated(msg: Feedback<S>)            // has its answer, the shared state is not yet written
    | Ready(goOn: bool)                    // about to reach the barrier
    | AtBarrier(goOn: bool, ticket: nat)   // blocked until the barrier's generation passes the ticket
    | Leaving(goOn: bool)                  // past the barrier; the local leader still has to unlock

  /** An Iterate replica: what it emits in the current round and what it sent to the output. */
  datatype Iterate<S, C> = Iterate(phase: Phase<S>, inbox: seq<Feedback<S>>, data: C, run: nat, outputs: seq<C>)

  /**
    The feedback on its way to an Iterate replica: the rounds that are complete, and whether elements
    of one more round are behind them.  It is taken out all at once, when its last element ends a round.
   */
  datatype Channel<C> = Channel(rounds: seq<C>, more: bool) {
    predicate Finished() { rounds != [] && !more }
  }

  /** The content when all the feedback is taken for one round. */
  function Merged<S, D, C>(c: Job<S, D, C>, rounds: seq<C>): C {
    if |rounds| == 1 then rounds[0] else c.jumble(rounds)
  }

  /** What the Iterate replicas of a host share: the lock, the state cell and the barrier. */
  datatype Shared<S> = Shared(generation: nat, cell: S, count: nat, barrier: nat)

  /** The IterationLeader. */
  datatype Leader<S> = Leader(
    missing: int, state: S, index: nat, results: seq<S>, toSend: set<Replica>, msg: Feedback<S>)

  datatype System<S, D, C> = System(
    log: map<Replica, seq<C>>,         // what each replica emitted, one entry per finished round
    open: set<Replica>,                // body replicas that may be consuming a round
    iter: map<Replica, Iterate<S, C>>,
    fed: map<Replica, Channel<C>>,     // the feedback each body replica has sent, if it is sent any
    at: map<Host, Shared<S>>,
    leader: Leader<S>,
    queue: seq<(Replica, D)>,          // deltas on their way to the leader, with their sender
    taken: seq<Replica>,               // history: whose deltas of this round the leader has folded
    orders: seq<seq<Replica>>)         // history: the same for the rounds it has decided

  ghost predicate Shape<S, D, C>(c: Job<S, D, C>, s: System<S, D, C>) {
    && (forall n {:trigger n in s.log} :: n in c.iters || n in c.bodies ==> n in s.log)
    && (forall n {:trigger n in s.open} :: n in s.open ==> n in c.bodies)
    && (forall r {:trigger r in s.iter} :: r in c.iters ==> r in s.iter)
    && (forall n {:trigger n in s.fed} :: n in c.bodies ==> n in s.fed)
    && (forall h {:trigger h in s.at} :: h in c.hosts ==> h in s.at)
    && (forall r {:trigger r in s.leader.toSend} :: r in s.leader.toSend ==> r in c.iters)
  }

  ghost predicate Init<S, D, C>(c: Job<S, D, C>, s: System<S, D, C>) {
    && Shape(c, s)
    && (forall n {:trigger s.log[n]} :: n in s.log ==> s.log[n] == [])
    && s.open == {}
    && (forall r {:trigger s.iter[r]} :: r in s.iter ==> s.iter[r] == Iterate(Active, [], c.input(0, r), 0, []))
    && (forall n {:trigger s.fed[n]} :: n in s.fed ==> s.fed[n] == Channel([], false))
    && (forall h {:trigger s.at[h]} :: h in s.at ==> s.at[h] == Shared(0, c.initial, 0, 0))
    && s.leader == Leader(|c.ends|, c.initial, 0, [], {}, s.leader.msg)
    && s.queue == [] && s.taken == [] && s.orders == []
  }

  // The steps of a body replica -------------------------------------------------------------------

  /** wait_for_update(2 * rounds finished) returns. */
  ghost predicate CanOpen<S, D, C>(c: Job<S, D, C>, s: System<S, D, C>, n: Replica)
    requires ValidJob(c) && Shape(c, s)
  {
    n in c.bodies && n !in s.open && s.at[HostOf(c, n)].generation >= 2 * |s.log[n]|
  }

  ghost function DoOpen<S, D, C>(c: Job<S, D, C>, s: System<S, D, C>, n: Replica): System<S, D, C> {
    s.(open := s.open + {n})
  }

  /** The end of this round has been received from every predecessor. */
  ghost predicate CanFlush<S, D, C>(c: Job<S, D, C>, s: System<S, D, C>, n: Replica)
    requires ValidJob(c) && Shape(c, s)
  {
    n in c.bodies && n in s.open && forall p :: p in c.preds(n) ==> |s.log[p]| > |s.log[n]|
  }

  ghost function Output<S, D, C>(c: Job<S, D, C>, s: System<S, D, C>, n: Replica): C
    requires ValidJob(c) && Shape(c, s) && CanFlush(c, s, n)
  {
    c.body(n, s.at[HostOf(c, n)].cell, map p | p in c.preds(n) :: s.log[p][|s.log[n]|])
  }

  /** The queue of the leader, when n has finished a round. */
  ghost function Enqueue<S, D, C>(c: Job<S, D, C>, s: System<S, D, C>, n: Replica, out: C): seq<(Replica, D)> {
    if n in c.ends then s.queue + [(n, c.localFold(n, out))] else s.queue
  }

  ghost function DoFlush<S, D, C>(c: Job<S, D, C>, s: System<S, D, C>, n: Replica): System<S, D, C>
    requires ValidJob(c) && Shape(c, s) && CanFlush(c, s, n)
  {
    var out := Output(c, s, n);
    s.(log := s.log[n := s.log[n] + [out]], open := s.open - {n}, queue := Enqueue(c, s, n, out),
       fed := s.fed[n := Channel(s.fed[n].rounds + [out], false)])
  }

  /** Some elements of a round are sent ahead of its end. */
  ghost predicate CanPush<S, D, C>(c: Job<S, D, C>, s: System<S, D, C>, n: Replica)
    requires ValidJob(c) && Shape(c, s)
  {
    n in c.bodies && n in s.open && !s.fed[n].more
  }

  ghost function DoPush<S, D, C>(c: Job<S, D, C>, s: System<S, D, C>, n: Replica): System<S, D, C>
    requires ValidJob(c) && Shape(c, s) && CanPush(c, s, n)
  {
    s.(fed := s.fed[n := s.fed[n].(more := true)])
  }

  // The steps of an Iterate replica ---------------------------------------------------------------

  /** A new log and a new state for r, and new shared state for its host. */
  ghost function Put<S, D, C>(c: Job<S, D, C>, s: System<S, D, C>, r: Replica, log: seq<C>, i: Iterate<S, C>,
      h: Shared<S>): System<S, D, C> {
    s.(log := s.log[r := log], iter := s.iter[r := i], at := s.at[HostOf(c, r) := h])
  }

  ghost predicate CanLock<S, D, C>(c: Job<S, D, C>, s: System<S, D, C>, r: Replica)
    requires ValidJob(c) && Shape(c, s)
  {
    r in c.iters && s.iter[r].phase.Active?
  }

  function LockGeneration(g: nat): nat { if g % 2 == 0 then g + 1 else g }

  ghost function DoLock<S, D, C>(c: Job<S, D, C>, s: System<S, D, C>, r: Replica): System<S, D, C>
    requires ValidJob(c) && Shape(c, s) && CanLock(c, s, r)
  {
    var h := s.at[HostOf(c, r)];
    Put(c, s, r, s.log[r], s.iter[r].(phase := Locked), h.(generation := LockGeneration(h.generation)))
  }

  ghost predicate CanEndRound<S, D, C>(c: Job<S, D, C>, s: System<S, D, C>, r: Replica)
    requires ValidJob(c) && Shape(c, s)
  {
    r in c.iters && s.iter[r].phase.Locked?
  }

  /** What the block of r emits for its content: the chained operators read the state too. */
  ghost function Headed<S, D, C>(c: Job<S, D, C>, s: System<S, D, C>, r: Replica): C
    requires ValidJob(c) && Shape(c, s) && r in c.iters
  {
    c.head(r, s.at[HostOf(c, r)].cell, s.iter[r].data)
  }

  ghost function DoEndRound<S, D, C>(c: Job<S, D, C>, s: System<S, D, C>, r: Replica): System<S, D, C>
    requires ValidJob(c) && Shape(c, s) && CanEndRound(c, s, r)
  {
    var out := Headed(c, s, r);
    Put(c, s, r, s.log[r] + [out], s.iter[r].(phase := Waiting), s.at[HostOf(c, r)]).(queue := Enqueue(c, s, r, out))
  }

  /** The last element of the feedback received is the end of a round; a Replay does not wait for any. */
  ghost predicate CanFetch<S, D, C>(c: Job<S, D, C>, s: System<S, D, C>, r: Replica)
    requires ValidJob(c) && Shape(c, s)
  {
    r in c.iters && s.iter[r].phase.Waiting? && (!c.replay ==> s.fed[FeedOf(c, r)].Finished())
  }

  /** All the feedback becomes the content; it is decided by its last element that this is one round. */
  ghost function FetchedContent<S, D, C>(c: Job<S, D, C>, s: System<S, D, C>, r: Replica): C
    requires ValidJob(c) && Shape(c, s) && CanFetch(c, s, r)
  {
    if c.replay then s.iter[r].data else Merged(c, s.fed[FeedOf(c, r)].rounds)
  }

  ghost function DoFetch<S, D, C>(c: Job<S, D, C>, s: System<S, D, C>, r: Replica): System<S, D, C>
    requires ValidJob(c) && Shape(c, s) && CanFetch(c, s, r)
  {
    Put(c, s, r, s.log[r], s.iter[r].(phase := Swapped, data := FetchedContent(c, s, r)), s.at[HostOf(c, r)]).
      (fed := if c.replay then s.fed else s.fed[FeedOf(c, r) := Channel([], false)])
  }

  /** The answer of the leader has arrived. */
  ghost predicate CanTake<S, D, C>(c: Job<S, D, C>, s: System<S, D, C>, r: Replica)
    requires ValidJob(c) && Shape(c, s)
  {
    r in c.iters && s.iter[r].phase.Swapped? && s.iter[r].inbox != []
  }

  ghost function DoTake<S, D, C>(c: Job<S, D, C>, s: System<S, D, C>, r: Replica): System<S, D, C>
    requires ValidJob(c) && Shape(c, s) && CanTake(c, s, r)
  {
    var i := s.iter[r];
    Put(c, s, r, s.log[r], i.(phase := Updated(i.inbox[0]), inbox := i.inbox[1..]), s.at[HostOf(c, r)])
  }

  ghost predicate CanSet<S, D, C>(c: Job<S, D, C>, s: System<S, D, C>, r: Replica)
    requires ValidJob(c) && Shape(c, s)
  {
    r in c.iters && s.iter[r].phase.Updated?
  }

  /** Only the local leader writes the cell. */
  ghost function DoSet<S, D, C>(c: Job<S, D, C>, s: System<S, D, C>, r: Replica): System<S, D, C>
    requires ValidJob(c) && Shape(c, s) && CanSet(c, s, r)
  {
    var i, h := s.iter[r], s.at[HostOf(c, r)];
    var m := i.phase.msg;
    Put(c, s, r, s.log[r], i.(phase := Ready(m.goOn)), if IsLocalLeader(c, r) then h.(cell := m.state) else h)
  }

  ghost predicate CanArrive<S, D, C>(c: Job<S, D, C>, s: System<S, D, C>, r: Replica)
    requires ValidJob(c) && Shape(c, s)
  {
    r in c.iters && s.iter[r].phase.Ready?
  }

  /** The last replica to arrive starts a new generation of the barrier. */
  ghost function OneMoreAt<S>(h: Shared<S>, size: nat): Shared<S> {
    if h.count + 1 >= size then h.(count := 0, barrier := h.barrier + 1) else h.(count := h.count + 1)
  }

  ghost function DoArrive<S, D, C>(c: Job<S, D, C>, s: System<S, D, C>, r: Replica): System<S, D, C>
    requires ValidJob(c) && Shape(c, s) && CanArrive(c, s, r)
  {
    var i, h := s.iter[r], s.at[HostOf(c, r)];
    Put(c, s, r, s.log[r], i.(phase := AtBarrier(i.phase.goOn, h.barrier)),
        OneMoreAt(h, |Local(c, HostOf(c, r))|))
  }

  ghost predicate CanLeave<S, D, C>(c: Job<S, D, C>, s: System<S, D, C>, r: Replica)
    requires ValidJob(c) && Shape(c, s)
  {
    r in c.iters && s.iter[r].phase.AtBarrier? && s.iter[r].phase.ticket != s.at[HostOf(c, r)].barrier
  }

  ghost function DoLeave<S, D, C>(c: Job<S, D, C>, s: System<S, D, C>, r: Replica): System<S, D, C>
    requires ValidJob(c) && Shape(c, s) && CanLeave(c, s, r)
  {
    var i := s.iter[r];
    Put(c, s, r, s.log[r], i.(phase := Leaving(i.phase.goOn)), s.at[HostOf(c, r)])
  }

  ghost predicate CanResume<S, D, C>(c: Job<S, D, C>, s: System<S, D, C>, r: Replica)
    requires ValidJob(c) && Shape(c, s)
  {
    r in c.iters && s.iter[r].phase.Leaving?
  }

  /** The content goes around again, or it is the output and the next run begins. */
  ghost function NextData<S, D, C>(c: Job<S, D, C>, r: Replica, i: Iterate<S, C>, goOn: bool): Iterate<S, C> {
    if goOn then i.(phase := Active)
    else Iterate(Active, i.inbox, c.input(i.run + 1, r), i.run + 1, i.outputs + [i.data])
  }

  ghost function DoResume<S, D, C>(c: Job<S, D, C>, s: System<S, D, C>, r: Replica): System<S, D, C>
    requires ValidJob(c) && Shape(c, s) && CanResume(c, s, r)
  {
    var i, h := s.iter[r], s.at[HostOf(c, r)];
    Put(c, s, r, s.log[r], NextData(c, r, i, i.phase.goOn),
        if IsLocalLeader(c, r) then h.(generation := h.generation + 1) else h)
  }

  // The steps of the leader -----------------------------------------------------------------------

  ghost predicate CanFold<S, D, C>(s: System<S, D, C>) {
    s.leader.toSend == {} && s.leader.missing > 0 && s.queue != []
  }

  ghost function DoFold<S, D, C>(c: Job<S, D, C>, s: System<S, D, C>): System<S, D, C>
    requires CanFold(s)
  {
    s.(leader := s.leader.(missing := s.leader.missing - 1, state := c.globalFold(s.leader.state, s.queue[0].1)),
       queue := s.queue[1..], taken := s.taken + [s.queue[0].0])
  }

  ghost predicate CanDecide<S, D, C>(s: System<S, D, C>) { s.leader.toSend == {} && s.leader.missing == 0 }

  ghost function Decided<S, D, C>(c: Job<S, D, C>, l: Leader<S>): Leader<S> {
    var (state, condition) := c.condition(l.state);
    if Continues(c, l.index + 1, condition) then
      Leader(|c.ends|, state, l.index + 1, l.results, c.iters, Feedback(true, state))
    else
      Leader(|c.ends|, c.initial, 0, l.results + [state], c.iters, Feedback(false, c.initial))
  }

  ghost function DoDecide<S, D, C>(c: Job<S, D, C>, s: System<S, D, C>): System<S, D, C> {
    s.(leader := Decided(c, s.leader), taken := [], orders := s.orders + [s.taken])
  }

  ghost predicate CanSend<S, D, C>(s: System<S, D, C>, r: Replica) { r in s.leader.toSend }

  ghost function DoSend<S, D, C>(c: Job<S, D, C>, s: System<S, D, C>, r: Replica): System<S, D, C>
    requires Shape(c, s) && CanSend(s, r)
  {
    var i := s.iter[r];
    s.(iter := s.iter[r := i.(inbox := i.inbox + [s.leader.msg])],
       leader := s.leader.(toSend := s.leader.toSend - {r}))
  }

  // Runs ------------------------------------------------------------------------------------------

  datatype Step =
    | Open(n: Replica) | Push(n: Replica) | Flush(n: Replica)
    | Lock(r: Replica) | EndRound(r: Replica) | Fetch(r: Replica) | Take(r: Replica) | Set(r: Replica)
    | Arrive(r: Replica) | Leave(r: Replica) | Resume(r: Replica)
    | Fold | Decide | Send(r: Replica)

  ghost predicate Enabled<S, D, C>(c: Job<S, D, C>, s: System<S, D, C>, a: Step)
    requires ValidJob(c) && Shape(c, s)
  {
    match a
    case Open(n) => CanOpen(c, s, n)
    case Push(n) => CanPush(c, s, n)
    case Flush(n) => CanFlush(c, s, n)
    case Lock(r) => CanLock(c, s, r)
    case EndRound(r) => CanEndRound(c, s, r)
    case Fetch(r) => CanFetch(c, s, r)
    case Take(r) => CanTake(c, s, r)
    case Set(r) => CanSet(c, s, r)
    case Arrive(r) => CanArrive(c, s, r)
    case Leave(r) => CanLeave(c, s, r)
    case Resume(r) => CanResume(c, s, r)
    case Fold => CanFold(s)
    case Decide => CanDecide(s)
    case Send(r) => CanSend(s, r)
  }

  ghost function Apply<S, D, C>(c: Job<S, D, C>, s: System<S, D, C>, a: Step): System<S, D, C>
    requires ValidJob(c) && Shape(c, s) && Enabled(c, s, a)
  {
    match a
    case Open(n) => DoOpen(c, s, n)
    case Push(n) => DoPush(c, s, n)
    case Flush(n) => DoFlush(c, s, n)
    case Lock(r) => DoLock(c, s, r)
    case EndRound(r) => DoEndRound(c, s, r)
    case Fetch(r) => DoFetch(c, s, r)
    case Take(r) => DoTake(c, s, r)
    case Set(r) => DoSet(c, s, r)
    case Arrive(r) => DoArrive(c, s, r)
    case Leave(r) => DoLeave(c, s, r)
    case Resume(r) => DoResume(c, s, r)
    case Fold => DoFold(c, s)
    case Decide => DoDecide(c, s)
    case Send(r) => DoSend(c, s, r)
  }

  ghost predicate Next<S, D, C>(c: Job<S, D, C>, s: System<S, D, C>, s': System<S, D, C>)
    requires ValidJob(c)
  {
    Shape(c, s) && exists a :: Enabled(c, s, a) && s' == Apply(c, s, a)
  }

  /** An interleaving of any length. */
  ghost predicate IsRun<S, D, C>(c: Job<S, D, C>, run: seq<System<S, D, C>>)
    requires ValidJob(c)
  {
    && run != [] && Init(c, run[0])
    && forall i :: 0 <= i < |run| - 1 ==> Next(c, run[i], run[i + 1])
  }
}
