/**
  Every interleaving of the distributed iteration computes what the sequential loop computes.
  The part of the invariant about data: what every replica has emitted, the states in the cells and in the
  messages, and what the channels hold are those of the sequential loop, for the orders in which the leader
  has folded. It is kept by every step.
 */
module IterationRefinement {
  import opened IterationProtocol
  import opened IterationInvariant

  // The sequential loop, recorded next to the run --------------------------------------------------

  /** The sequential loop before every round so far, and what each replica emits in that round. */
  datatype Trace<!S, !C> = Trace(loops: seq<Loop<S, C>>, emits: seq<Replica -> C>)

  ghost predicate EmitsOk<S, D, C>(c: Job<S, D, C>, t: Trace<S, C>, k: nat, n: Replica)
    requires k < |t.loops| && k < |t.emits|
  {
    t.emits[k](n) == Emits(c, t.loops[k].state, t.loops[k].data, n)
  }

  ghost predicate RoundDone<S, D, C>(c: Job<S, D, C>, orders: seq<seq<Replica>>, t: Trace<S, C>, k: nat)
    requires k < |orders| && k + 1 < |t.loops|
  {
    t.loops[k + 1] == Round(c, t.loops[k], orders[k])
  }

  ghost predicate IsTrace<S, D, C>(c: Job<S, D, C>, orders: seq<seq<Replica>>, t: Trace<S, C>) {
    && |t.loops| == |t.emits| == |orders| + 1
    && t.loops[0] == Start(c)
    && (forall k {:trigger RoundDone(c, orders, t, k)} :: 0 <= k < |orders| ==> RoundDone(c, orders, t, k))
    && (forall k, n {:trigger EmitsOk(c, t, k, n)} :: 0 <= k <= |orders| ==> EmitsOk(c, t, k, n))
  }

  /** A trace is the sequential loop. */
  lemma {:induction false} TraceIsLoop<S, D, C>(c: Job<S, D, C>, orders: seq<seq<Replica>>, t: Trace<S, C>, k: nat)
    requires IsTrace(c, orders, t) && k <= |orders|
    ensures t.loops[k] == After(c, orders, k)
  {
    if k > 0 {
      TraceIsLoop(c, orders, t, k - 1);
      assert RoundDone(c, orders, t, k - 1);
    }
  }

  /** What the leader sends after the k-th round. */
  function FeedbackAfter<S, C>(t: Trace<S, C>, k: nat): Feedback<S>
    requires 0 < k < |t.loops|
  {
    Feedback(t.loops[k].run == t.loops[k - 1].run, t.loops[k].state)
  }

  /** What the k-th round of the loop leaves for replica r. */
  function Back<S, D, C>(c: Job<S, D, C>, t: Trace<S, C>, k: nat, r: Replica): C
    requires k < |t.loops| && k < |t.emits|
  {
    if c.replay then t.loops[k].data(r) else t.emits[k](FeedOf(c, r))
  }

  // The invariant about the data -------------------------------------------------------------------

  /** What replica n emitted is what it emits in the sequential loop. */
  ghost predicate LogOk<S, C>(t: Trace<S, C>, n: Replica, log: seq<C>) {
    && |log| <= |t.emits|
    && forall k {:trigger log[k]} :: 0 <= k < |log| ==> log[k] == t.emits[k](n)
  }

  /** An Iterate replica emits, received, and sent to the output what the sequential loop says. */
  ghost predicate DataOk<S, D, C>(c: Job<S, D, C>, t: Trace<S, C>, r: Replica, i: Iterate<S, C>, rounds: nat,
      sent: int) {
    var resumed, p := Resumed(i.phase, rounds), i.phase;
    && 0 <= resumed < |t.loops| == |t.emits|
    && i.data == (if Fetched(p, rounds) == resumed then t.loops[resumed].data(r) else Back(c, t, resumed, r))
    && i.run == t.loops[resumed].run
    && i.outputs == t.loops[resumed].outputs(r)
    && (i.inbox != [] ==> 0 < sent < |t.loops| && i.inbox[0] == FeedbackAfter(t, sent))
    && (p.Updated? ==> 0 < rounds < |t.loops| && p.msg == FeedbackAfter(t, rounds))
    && (p.Ready? || p.AtBarrier? || p.Leaving? ==>
          0 < rounds < |t.loops| && p.goOn == FeedbackAfter(t, rounds).goOn)
  }

  /** The cell of a host holds the state after the updates its local leader has written. */
  ghost predicate CellOk<S, C>(t: Trace<S, C>, written: int, cell: S) {
    0 <= written < |t.loops| && cell == t.loops[written].state
  }

  ghost predicate LeaderOk<S, D, C>(c: Job<S, D, C>, s: System<S, D, C>, t: Trace<S, C>) {
    var k := |s.orders|;
    && |t.loops| == |t.emits| == k + 1
    && (forall i {:trigger s.queue[i]} :: 0 <= i < |s.queue| ==>
          s.queue[i].1 == c.localFold(s.queue[i].0, t.emits[k](s.queue[i].0)))
    && s.leader.state == FoldDeltas(c, t.loops[k].state, t.emits[k], s.taken)
    && s.leader.index == t.loops[k].index && s.leader.results == t.loops[k].results
    && (s.leader.toSend != {} ==> k > 0 && s.leader.msg == FeedbackAfter(t, k))
  }

  ghost predicate LogAt<S, D, C>(s: System<S, D, C>, t: Trace<S, C>, n: Replica)
    requires n in s.log
  {
    LogOk(t, n, s.log[n])
  }

  ghost predicate DataAt<S, D, C>(c: Job<S, D, C>, s: System<S, D, C>, t: Trace<S, C>, r: Replica)
    requires r in s.log && r in s.iter
  {
    DataOk(c, t, r, s.iter[r], |s.log[r]|, Sent(s, r))
  }

  ghost predicate CellAt<S, D, C>(c: Job<S, D, C>, s: System<S, D, C>, t: Trace<S, C>, r: Replica)
    requires ValidJob(c) && Shape(c, s) && r in c.iters
  {
    IsLocalLeader(c, r) ==> CellOk(t, Written(s.iter[r].phase, |s.log[r]|), s.at[HostOf(c, r)].cell)
  }

  /** What is in the feedback channel of r is what its feeder emitted in the round r has not fetched. */
  ghost predicate FedAt<S, D, C>(c: Job<S, D, C>, s: System<S, D, C>, t: Trace<S, C>, r: Replica)
    requires ValidJob(c) && Shape(c, s) && r in c.iters && !c.replay
  {
    var f, k := FeedOf(c, r), Fetched(s.iter[r].phase, |s.log[r]|);
    s.fed[f].rounds != [] ==> 0 <= k < |t.emits| && s.fed[f].rounds[0] == t.emits[k](f)
  }

  ghost predicate FedData<S, D, C>(c: Job<S, D, C>, s: System<S, D, C>, t: Trace<S, C>)
    requires ValidJob(c) && Shape(c, s)
  {
    forall r {:trigger FedAt(c, s, t, r)} :: r in c.iters && !c.replay ==> FedAt(c, s, t, r)
  }

  /** Logs, Iterate replicas and cells. */
  ghost predicate Replicas<S, D, C>(c: Job<S, D, C>, s: System<S, D, C>, t: Trace<S, C>)
    requires ValidJob(c) && Shape(c, s)
  {
    && (forall n {:trigger LogAt(s, t, n)} :: n in c.iters || n in c.bodies ==> LogAt(s, t, n))
    && (forall r {:trigger DataAt(c, s, t, r)} :: r in c.iters ==> DataAt(c, s, t, r))
    && CellAtEvery(c, s, t)
  }

  ghost predicate Data<S, D, C>(c: Job<S, D, C>, s: System<S, D, C>, t: Trace<S, C>)
    requires ValidJob(c) && Shape(c, s)
  {
    LeaderOk(c, s, t) && Replicas(c, s, t) && FedData(c, s, t)
  }

  ghost predicate CellAtEvery<S, D, C>(c: Job<S, D, C>, s: System<S, D, C>, t: Trace<S, C>)
    requires ValidJob(c) && Shape(c, s)
  {
    forall r {:trigger CellAt(c, s, t, r)} :: r in c.iters ==> CellAt(c, s, t, r)
  }

  ghost predicate Inv<S, D, C>(c: Job<S, D, C>, s: System<S, D, C>, t: Trace<S, C>)
    requires ValidJob(c)
  {
    Control(c, s) && Data(c, s, t) && IsTrace(c, s.orders, t)
  }

  // Preservation -----------------------------------------------------------------------------------

  lemma InitInv<S, D, C>(c: Job<S, D, C>, s: System<S, D, C>) returns (t: Trace<S, C>)
    requires ValidJob(c) && Init(c, s)
    ensures Inv(c, s, t)
  {
    InitControl(c, s);
    var l := Start(c);
    t := Trace([l], [AllEmit(c, l.state, l.data)]);
    forall n | n in c.iters || n in c.bodies ensures LogAt(s, t, n) { assert s.log[n] == []; }
    forall r | r in c.iters ensures DataAt(c, s, t, r) {
      assert s.log[r] == [] && s.iter[r] == Iterate(Active, [], c.input(0, r), 0, []);
    }
    forall r | r in c.iters ensures CellAt(c, s, t, r) {
      assert s.log[r] == [] && s.iter[r].phase == Active && s.at[HostOf(c, r)].cell == c.initial;
    }
    forall r | r in c.iters && !c.replay ensures FedAt(c, s, t, r) { assert s.fed[FeedOf(c, r)].rounds == []; }
  }

  /** While a body replica may consume round k, the cell of its host holds the state after k rounds. */
  lemma ReaderSees<S, D, C>(c: Job<S, D, C>, s: System<S, D, C>, t: Trace<S, C>, n: Replica)
    requires ValidJob(c) && Control(c, s) && Data(c, s, t) && n in s.open
    ensures |s.log[n]| == |s.orders| && s.at[HostOf(c, n)].cell == t.loops[|s.log[n]|].state
  {
    OpenRound(c, s, n);
    assert CellAt(c, s, t, LeaderOf(c, HostOf(c, n)));
  }

  /** While an Iterate replica emits round k, the cell of its host holds the state after k rounds. */
  lemma EmitterSees<S, D, C>(c: Job<S, D, C>, s: System<S, D, C>, t: Trace<S, C>, n: Replica)
    requires ValidJob(c) && Control(c, s) && Data(c, s, t)
    requires n in c.iters && (s.iter[n].phase.Active? || s.iter[n].phase.Locked?)
    ensures |s.log[n]| == |s.orders| && s.at[HostOf(c, n)].cell == t.loops[|s.log[n]|].state
  {
    EmitterRound(c, s, n);
    var r := LeaderOf(c, HostOf(c, n));
    assert ReplicaOk(c, s, n) && ReplicaOk(c, s, r) && RoundOk(s, r) && CellAt(c, s, t, r);
  }

  /** A step of the Iterate replica r. */
  lemma IterateData<S, D, C>(c: Job<S, D, C>, s: System<S, D, C>, t: Trace<S, C>, r: Replica, log: seq<C>,
      i: Iterate<S, C>, h: Shared<S>)
    requires ValidJob(c) && Shape(c, s) && Replicas(c, s, t) && r in c.iters
    requires LogOk(t, r, log)
    requires DataOk(c, t, r, i, |log|, Sent(s, r))
    requires IsLocalLeader(c, r) ==> CellOk(t, Written(i.phase, |log|), h.cell)
    requires !IsLocalLeader(c, r) ==> h.cell == s.at[HostOf(c, r)].cell
    ensures Shape(c, Put(c, s, r, log, i, h)) && Replicas(c, Put(c, s, r, log, i, h), t)
  {
    var s' := Put(c, s, r, log, i, h);
    forall n | n in c.iters || n in c.bodies ensures LogAt(s', t, n) { assert LogAt(s, t, n); }
    forall q | q in c.iters ensures DataAt(c, s', t, q) { assert DataAt(c, s, t, q); }
    PutCells(c, s, t, r, log, i, h);
  }

  lemma PutCells<S, D, C>(c: Job<S, D, C>, s: System<S, D, C>, t: Trace<S, C>, r: Replica, log: seq<C>,
      i: Iterate<S, C>, h: Shared<S>)
    requires ValidJob(c) && Shape(c, s) && CellAtEvery(c, s, t) && r in c.iters
    requires IsLocalLeader(c, r) ==> CellOk(t, Written(i.phase, |log|), h.cell)
    requires !IsLocalLeader(c, r) ==> h.cell == s.at[HostOf(c, r)].cell
    ensures Shape(c, Put(c, s, r, log, i, h)) && CellAtEvery(c, Put(c, s, r, log, i, h), t)
  {
    forall q | q in c.iters ensures CellAt(c, Put(c, s, r, log, i, h), t, q) { PutCell(c, s, t, r, log, i, h, q); }
  }

  /** A step that fetches no feedback leaves the channels alone. */
  lemma PutFed<S, D, C>(c: Job<S, D, C>, s: System<S, D, C>, t: Trace<S, C>, r: Replica, log: seq<C>,
      i: Iterate<S, C>, h: Shared<S>)
    requires ValidJob(c) && Shape(c, s) && FedData(c, s, t) && r in c.iters
    requires Fetched(i.phase, |log|) == Fetched(s.iter[r].phase, |s.log[r]|)
    ensures Shape(c, Put(c, s, r, log, i, h)) && FedData(c, Put(c, s, r, log, i, h), t)
  {
    forall q | q in c.iters && !c.replay ensures FedAt(c, Put(c, s, r, log, i, h), t, q) { assert FedAt(c, s, t, q); }
  }

  lemma QuietData<S, D, C>(c: Job<S, D, C>, s: System<S, D, C>, t: Trace<S, C>, r: Replica, log: seq<C>,
      i: Iterate<S, C>, h: Shared<S>)
    requires ValidJob(c) && Shape(c, s) && Data(c, s, t) && r in c.iters
    requires LogOk(t, r, log) && DataOk(c, t, r, i, |log|, Sent(s, r))
    requires IsLocalLeader(c, r) ==> CellOk(t, Written(i.phase, |log|), h.cell)
    requires !IsLocalLeader(c, r) ==> h.cell == s.at[HostOf(c, r)].cell
    requires Fetched(i.phase, |log|) == Fetched(s.iter[r].phase, |s.log[r]|)
    ensures Shape(c, Put(c, s, r, log, i, h)) && Data(c, Put(c, s, r, log, i, h), t)
  {
    IterateData(c, s, t, r, log, i, h);
    PutFed(c, s, t, r, log, i, h);
  }

  lemma PutCell<S, D, C>(c: Job<S, D, C>, s: System<S, D, C>, t: Trace<S, C>, r: Replica, log: seq<C>,
      i: Iterate<S, C>, h: Shared<S>, q: Replica)
    requires ValidJob(c) && Shape(c, s) && CellAtEvery(c, s, t) && r in c.iters && q in c.iters
    requires IsLocalLeader(c, r) ==> CellOk(t, Written(i.phase, |log|), h.cell)
    requires !IsLocalLeader(c, r) ==> h.cell == s.at[HostOf(c, r)].cell
    ensures Shape(c, Put(c, s, r, log, i, h)) && CellAt(c, Put(c, s, r, log, i, h), t, q)
  {
    assert CellAt(c, s, t, q);
    if q != r && IsLocalLeader(c, q) && HostOf(c, q) == HostOf(c, r) && IsLocalLeader(c, r) { OneLeader(c, q, r); }
  }

  lemma LockData<S, D, C>(c: Job<S, D, C>, s: System<S, D, C>, t: Trace<S, C>, r: Replica)
    requires ValidJob(c) && Shape(c, s) && Data(c, s, t) && CanLock(c, s, r)
    ensures Shape(c, DoLock(c, s, r)) && Data(c, DoLock(c, s, r), t)
  {
    var h := s.at[HostOf(c, r)];
    assert LogAt(s, t, r) && DataAt(c, s, t, r) && CellAt(c, s, t, r);
    QuietData(c, s, t, r, s.log[r], s.iter[r].(phase := Locked), h.(generation := LockGeneration(h.generation)));
  }

  lemma EndRoundOk<S, D, C>(c: Job<S, D, C>, t: Trace<S, C>, r: Replica, i: Iterate<S, C>, log: seq<C>, sent: int,
      out: C)
    requires i.phase.Locked? && LogOk(t, r, log) && DataOk(c, t, r, i, |log|, sent)
    requires |log| < |t.emits| && t.emits[|log|](r) == out
    ensures LogOk(t, r, log + [out]) && DataOk(c, t, r, i.(phase := Waiting), |log| + 1, sent)
  {
  }

  /** The block of an Iterate replica emits what it emits in the sequential loop. */
  lemma HeadedOk<S, D, C>(c: Job<S, D, C>, s: System<S, D, C>, t: Trace<S, C>, r: Replica)
    requires ValidJob(c) && Inv(c, s, t) && CanEndRound(c, s, r)
    ensures |s.log[r]| == |s.orders| && Headed(c, s, r) == t.emits[|s.orders|](r)
  {
    EmitterSees(c, s, t, r);
    assert DataAt(c, s, t, r) && EmitsOk(c, t, |s.log[r]|, r);
  }

  lemma EndRoundData<S, D, C>(c: Job<S, D, C>, s: System<S, D, C>, t: Trace<S, C>, r: Replica)
    requires ValidJob(c) && Inv(c, s, t) && CanEndRound(c, s, r)
    ensures Shape(c, DoEndRound(c, s, r)) && Data(c, DoEndRound(c, s, r), t)
  {
    var out := Headed(c, s, r);
    HeadedOk(c, s, t, r);
    EndRoundPut(c, s, t, r, out);
    EnqueueData(c, s, t, r, out);
    KeepData(c, Put(c, s, r, s.log[r] + [out], s.iter[r].(phase := Waiting), s.at[HostOf(c, r)]), DoEndRound(c, s, r),
      t);
  }

  lemma EndRoundPut<S, D, C>(c: Job<S, D, C>, s: System<S, D, C>, t: Trace<S, C>, r: Replica, out: C)
    requires ValidJob(c) && Shape(c, s) && Data(c, s, t) && CanEndRound(c, s, r)
    requires |s.log[r]| == |s.orders| && out == t.emits[|s.orders|](r)
    ensures var s' := Put(c, s, r, s.log[r] + [out], s.iter[r].(phase := Waiting), s.at[HostOf(c, r)]);
            Shape(c, s') && Data(c, s', t)
  {
    assert LogAt(s, t, r) && DataAt(c, s, t, r) && CellAt(c, s, t, r);
    EndRoundOk(c, t, r, s.iter[r], s.log[r], Sent(s, r), out);
    QuietData(c, s, t, r, s.log[r] + [out], s.iter[r].(phase := Waiting), s.at[HostOf(c, r)]);
  }

  /** A delta joins the queue. */
  lemma EnqueueData<S, D, C>(c: Job<S, D, C>, s: System<S, D, C>, t: Trace<S, C>, n: Replica, out: C)
    requires LeaderOk(c, s, t) && out == t.emits[|s.orders|](n)
    ensures LeaderOk(c, s.(queue := Enqueue(c, s, n, out)), t)
  {
  }

  lemma FetchData<S, D, C>(c: Job<S, D, C>, s: System<S, D, C>, t: Trace<S, C>, r: Replica)
    requires ValidJob(c) && Control(c, s) && Data(c, s, t) && CanFetch(c, s, r)
    ensures Shape(c, DoFetch(c, s, r)) && Data(c, DoFetch(c, s, r), t)
  {
    var s' := DoFetch(c, s, r);
    var i := s.iter[r].(phase := Swapped, data := FetchedContent(c, s, r));
    FetchPut(c, s, t, r, i);
    KeepReplicas(c, Put(c, s, r, s.log[r], i, s.at[HostOf(c, r)]), s', t);
    FetchFed(c, s, t, r);
  }

  lemma FetchFed<S, D, C>(c: Job<S, D, C>, s: System<S, D, C>, t: Trace<S, C>, r: Replica)
    requires ValidJob(c) && Shape(c, s) && FedData(c, s, t) && CanFetch(c, s, r)
    ensures Shape(c, DoFetch(c, s, r)) && FedData(c, DoFetch(c, s, r), t)
  {
    forall q | q in c.iters && !c.replay ensures FedAt(c, DoFetch(c, s, r), t, q) { assert FedAt(c, s, t, q); }
  }

  lemma FetchPut<S, D, C>(c: Job<S, D, C>, s: System<S, D, C>, t: Trace<S, C>, r: Replica, i: Iterate<S, C>)
    requires ValidJob(c) && Control(c, s) && Data(c, s, t) && CanFetch(c, s, r)
    requires i == s.iter[r].(phase := Swapped, data := FetchedContent(c, s, r))
    ensures var s' := Put(c, s, r, s.log[r], i, s.at[HostOf(c, r)]);
            Shape(c, s') && Replicas(c, s', t)
  {
    assert LogAt(s, t, r) && DataAt(c, s, t, r) && CellAt(c, s, t, r) && ReplicaOk(c, s, r);
    FetchedIsBack(c, s, t, r);
    SwapOk(c, t, r, s.iter[r], |s.log[r]|, Sent(s, r), i.data);
    IterateData(c, s, t, r, s.log[r], i, s.at[HostOf(c, r)]);
  }

  /** All the feedback that is there is that of one round: the last one of r. */
  lemma FetchedIsBack<S, D, C>(c: Job<S, D, C>, s: System<S, D, C>, t: Trace<S, C>, r: Replica)
    requires ValidJob(c) && Shape(c, s) && CanFetch(c, s, r) && Control(c, s) && FedData(c, s, t)
    requires ReplicaOk(c, s, r) && DataAt(c, s, t, r)
    ensures |s.log[r]| > 0 && |s.log[r]| - 1 < |t.loops| == |t.emits| &&
      FetchedContent(c, s, r) == Back(c, t, |s.log[r]| - 1, r)
  {
    if !c.replay { assert FedOk(c, s, r) && FedAt(c, s, t, r); }
  }

  lemma SwapOk<S, D, C>(c: Job<S, D, C>, t: Trace<S, C>, r: Replica, i: Iterate<S, C>, rounds: nat, sent: int, back: C)
    requires i.phase.Waiting? && rounds > 0 && DataOk(c, t, r, i, rounds, sent) && back == Back(c, t, rounds - 1, r)
    ensures DataOk(c, t, r, i.(phase := Swapped, data := back), rounds, sent)
  {
  }

  lemma TakeOk<S, D, C>(c: Job<S, D, C>, t: Trace<S, C>, r: Replica, i: Iterate<S, C>, rounds: nat, sent: int)
    requires i.phase.Swapped? && DataOk(c, t, r, i, rounds, sent) && |i.inbox| == 1 && sent == rounds
    ensures DataOk(c, t, r, i.(phase := Updated(i.inbox[0]), inbox := i.inbox[1..]), rounds, sent)
  {
  }

  lemma TakeData<S, D, C>(c: Job<S, D, C>, s: System<S, D, C>, t: Trace<S, C>, r: Replica)
    requires ValidJob(c) && Control(c, s) && Data(c, s, t) && CanTake(c, s, r)
    ensures Shape(c, DoTake(c, s, r)) && Data(c, DoTake(c, s, r), t)
  {
    var i := s.iter[r];
    assert ReplicaOk(c, s, r) && DataAt(c, s, t, r);
    TakeOk(c, t, r, i, |s.log[r]|, Sent(s, r));
    TakePut(c, s, t, r, i.(phase := Updated(i.inbox[0]), inbox := i.inbox[1..]));
  }

  lemma TakePut<S, D, C>(c: Job<S, D, C>, s: System<S, D, C>, t: Trace<S, C>, r: Replica, i: Iterate<S, C>)
    requires ValidJob(c) && Shape(c, s) && Data(c, s, t) && CanTake(c, s, r) && i.phase.Updated?
    requires DataOk(c, t, r, i, |s.log[r]|, Sent(s, r))
    ensures Shape(c, Put(c, s, r, s.log[r], i, s.at[HostOf(c, r)])) &&
      Data(c, Put(c, s, r, s.log[r], i, s.at[HostOf(c, r)]), t)
  {
    assert LogAt(s, t, r) && CellAt(c, s, t, r);
    QuietData(c, s, t, r, s.log[r], i, s.at[HostOf(c, r)]);
  }

  lemma SetData<S, D, C>(c: Job<S, D, C>, s: System<S, D, C>, t: Trace<S, C>, r: Replica)
    requires ValidJob(c) && Shape(c, s) && Data(c, s, t) && CanSet(c, s, r)
    ensures Shape(c, DoSet(c, s, r)) && Data(c, DoSet(c, s, r), t)
  {
    var i, h := s.iter[r], s.at[HostOf(c, r)];
    assert LogAt(s, t, r) && DataAt(c, s, t, r) && CellAt(c, s, t, r);
    QuietData(c, s, t, r, s.log[r], i.(phase := Ready(i.phase.msg.goOn)),
              if IsLocalLeader(c, r) then h.(cell := i.phase.msg.state) else h);
  }

  lemma ArriveData<S, D, C>(c: Job<S, D, C>, s: System<S, D, C>, t: Trace<S, C>, r: Replica)
    requires ValidJob(c) && Shape(c, s) && Data(c, s, t) && CanArrive(c, s, r)
    ensures Shape(c, DoArrive(c, s, r)) && Data(c, DoArrive(c, s, r), t)
  {
    var i, h := s.iter[r], s.at[HostOf(c, r)];
    assert LogAt(s, t, r) && DataAt(c, s, t, r) && CellAt(c, s, t, r);
    QuietData(c, s, t, r, s.log[r], i.(phase := AtBarrier(i.phase.goOn, h.barrier)),
      OneMoreAt(h, |Local(c, HostOf(c, r))|));
  }

  lemma LeaveData<S, D, C>(c: Job<S, D, C>, s: System<S, D, C>, t: Trace<S, C>, r: Replica)
    requires ValidJob(c) && Shape(c, s) && Data(c, s, t) && CanLeave(c, s, r)
    ensures Shape(c, DoLeave(c, s, r)) && Data(c, DoLeave(c, s, r), t)
  {
    var i := s.iter[r];
    assert LogAt(s, t, r) && DataAt(c, s, t, r) && CellAt(c, s, t, r);
    QuietData(c, s, t, r, s.log[r], i.(phase := Leaving(i.phase.goOn)), s.at[HostOf(c, r)]);
  }

  /** Going back to emit: the content is the feedback of the finished round, or the next run's input. */
  lemma NextDataOk<S, D, C>(c: Job<S, D, C>, orders: seq<seq<Replica>>, t: Trace<S, C>, r: Replica, i: Iterate<S, C>,
      rounds: nat, sent: int)
    requires IsTrace(c, orders, t) && i.phase.Leaving? && DataOk(c, t, r, i, rounds, sent)
    ensures DataOk(c, t, r, NextData(c, r, i, i.phase.goOn), rounds, sent)
  {
    var l := t.loops[rounds - 1];
    assert RoundDone(c, orders, t, rounds - 1) && EmitsOk(c, t, rounds - 1, FeedOf(c, r));
    assert i.data == AllFedBack(c, l.state, l.data)(r);
  }

  lemma ResumeData<S, D, C>(c: Job<S, D, C>, s: System<S, D, C>, t: Trace<S, C>, r: Replica)
    requires ValidJob(c) && Shape(c, s) && Data(c, s, t) && IsTrace(c, s.orders, t) && CanResume(c, s, r)
    ensures Shape(c, DoResume(c, s, r)) && Data(c, DoResume(c, s, r), t)
  {
    var i := s.iter[r];
    assert DataAt(c, s, t, r);
    NextDataOk(c, s.orders, t, r, i, |s.log[r]|, Sent(s, r));
    ResumePut(c, s, t, r, NextData(c, r, i, i.phase.goOn), DoResume(c, s, r).at[HostOf(c, r)]);
  }

  lemma ResumePut<S, D, C>(c: Job<S, D, C>, s: System<S, D, C>, t: Trace<S, C>, r: Replica, i: Iterate<S, C>,
      h: Shared<S>)
    requires ValidJob(c) && Shape(c, s) && Data(c, s, t) && CanResume(c, s, r) && i.phase.Active?
    requires DataOk(c, t, r, i, |s.log[r]|, Sent(s, r)) && h.cell == s.at[HostOf(c, r)].cell
    ensures Shape(c, Put(c, s, r, s.log[r], i, h)) && Data(c, Put(c, s, r, s.log[r], i, h), t)
  {
    assert LogAt(s, t, r) && CellAt(c, s, t, r);
    QuietData(c, s, t, r, s.log[r], i, h);
  }

  lemma KeepReplicas<S, D, C>(c: Job<S, D, C>, s: System<S, D, C>, s': System<S, D, C>, t: Trace<S, C>)
    requires ValidJob(c) && Shape(c, s) && Replicas(c, s, t) && Shape(c, s')
    requires s'.log == s.log && s'.iter == s.iter && s'.at == s.at && s'.orders == s.orders
    requires s'.leader.toSend == s.leader.toSend
    ensures Replicas(c, s', t)
  {
    forall m | m in c.iters || m in c.bodies ensures LogAt(s', t, m) { assert LogAt(s, t, m); }
    forall r | r in c.iters ensures DataAt(c, s', t, r) { assert DataAt(c, s, t, r); }
    forall r | r in c.iters ensures CellAt(c, s', t, r) { assert CellAt(c, s, t, r); }
  }

  /** Logs, Iterate replicas and hosts see no change. */
  lemma KeepData<S, D, C>(c: Job<S, D, C>, s: System<S, D, C>, s': System<S, D, C>, t: Trace<S, C>)
    requires ValidJob(c) && Shape(c, s) && Data(c, s, t) && Shape(c, s') && LeaderOk(c, s', t)
    requires s'.log == s.log && s'.iter == s.iter && s'.fed == s.fed && s'.at == s.at && s'.orders == s.orders
    requires s'.leader.toSend == s.leader.toSend
    ensures Data(c, s', t)
  {
    forall r | r in c.iters && !c.replay ensures FedAt(c, s', t, r) { assert FedAt(c, s, t, r); }
    KeepReplicas(c, s, s', t);
  }

  /** A body replica emits what it emits in the sequential loop. */
  lemma OutputOk<S, D, C>(c: Job<S, D, C>, s: System<S, D, C>, t: Trace<S, C>, n: Replica)
    requires ValidJob(c) && Inv(c, s, t) && CanFlush(c, s, n)
    ensures |s.log[n]| == |s.orders| && Output(c, s, n) == t.emits[|s.orders|](n)
  {
    ReaderSees(c, s, t, n);
    var k := |s.orders|;
    forall p | p in c.preds(n) ensures s.log[p][k] == Emits(c, t.loops[k].state, t.loops[k].data, p) {
      assert LogAt(s, t, p) && EmitsOk(c, t, k, p);
    }
    assert EmitsOk(c, t, k, n);
    BodyEmits(c, t.loops[k].state, t.loops[k].data, n, map p | p in c.preds(n) :: s.log[p][k]);
  }

  lemma BodyEmits<S, D, C>(c: Job<S, D, C>, state: S, data: Replica -> C, n: Replica, got: map<Replica, C>)
    requires ValidJob(c) && n in c.bodies
    requires forall p :: p in got <==> p in c.preds(n)
    requires forall p :: p in got ==> got[p] == Emits(c, state, data, p)
    ensures Emits(c, state, data, n) == c.body(n, state, got)
  {
    var want := map p | p in c.preds(n) && Precedes(c, p, n) :: Emits(c, state, data, p);
    forall p ensures p in got <==> p in want { }
    assert got == want;
  }

  lemma FlushData<S, D, C>(c: Job<S, D, C>, s: System<S, D, C>, t: Trace<S, C>, n: Replica)
    requires ValidJob(c) && Inv(c, s, t) && CanFlush(c, s, n)
    ensures Shape(c, DoFlush(c, s, n)) && Data(c, DoFlush(c, s, n), t)
  {
    OutputOk(c, s, t, n);
    EnqueueData(c, s, t, n, Output(c, s, n));
    FlushKeep(c, s, t, n);
    forall r | r in c.iters && !c.replay ensures FedAt(c, DoFlush(c, s, n), t, r) { FlushFedAt(c, s, t, n, r); }
  }

  lemma FlushFedAt<S, D, C>(c: Job<S, D, C>, s: System<S, D, C>, t: Trace<S, C>, n: Replica, r: Replica)
    requires ValidJob(c) && Control(c, s) && Data(c, s, t) && CanFlush(c, s, n) && r in c.iters && !c.replay
    requires |s.log[n]| == |s.orders| && Output(c, s, n) == t.emits[|s.orders|](n)
    ensures Shape(c, DoFlush(c, s, n)) && FedAt(c, DoFlush(c, s, n), t, r)
  {
    assert FedAt(c, s, t, r) && FedOk(c, s, r);
    if FeedOf(c, r) == n { FeederWaits(c, s, r); }
  }

  lemma FlushKeep<S, D, C>(c: Job<S, D, C>, s: System<S, D, C>, t: Trace<S, C>, n: Replica)
    requires ValidJob(c) && Shape(c, s) && Data(c, s, t) && CanFlush(c, s, n)
    requires |s.log[n]| == |s.orders| && Output(c, s, n) == t.emits[|s.orders|](n)
    ensures Shape(c, DoFlush(c, s, n)) && Replicas(c, DoFlush(c, s, n), t)
  {
    var s' := DoFlush(c, s, n);
    forall m | m in c.iters || m in c.bodies ensures LogAt(s', t, m) { assert LogAt(s, t, m); }
    forall r | r in c.iters ensures DataAt(c, s', t, r) { assert DataAt(c, s, t, r); }
    forall r | r in c.iters ensures CellAt(c, s', t, r) { assert CellAt(c, s, t, r); }
  }

  lemma PushData<S, D, C>(c: Job<S, D, C>, s: System<S, D, C>, t: Trace<S, C>, n: Replica)
    requires ValidJob(c) && Shape(c, s) && Data(c, s, t) && CanPush(c, s, n)
    ensures Shape(c, DoPush(c, s, n)) && Data(c, DoPush(c, s, n), t)
  {
    var s' := DoPush(c, s, n);
    KeepReplicas(c, s, s', t);
    forall r | r in c.iters && !c.replay ensures FedAt(c, s', t, r) { assert FedAt(c, s, t, r); }
  }

  lemma FoldData<S, D, C>(c: Job<S, D, C>, s: System<S, D, C>, t: Trace<S, C>)
    requires ValidJob(c) && Shape(c, s) && Data(c, s, t) && CanFold(s)
    ensures Shape(c, DoFold(c, s)) && Data(c, DoFold(c, s), t)
  {
    var s' := DoFold(c, s);
    assert s'.taken[..|s'.taken| - 1] == s.taken;
    KeepData(c, s, s', t);
  }

  lemma SendData<S, D, C>(c: Job<S, D, C>, s: System<S, D, C>, t: Trace<S, C>, r: Replica)
    requires ValidJob(c) && Control(c, s) && Data(c, s, t) && CanSend(s, r)
    ensures Shape(c, DoSend(c, s, r)) && Data(c, DoSend(c, s, r), t)
  {
    forall q | q in c.iters ensures DataAt(c, DoSend(c, s, r), t, q) { SendDataAt(c, s, t, r, q); }
    SendRest(c, s, t, r);
  }

  lemma SendRest<S, D, C>(c: Job<S, D, C>, s: System<S, D, C>, t: Trace<S, C>, r: Replica)
    requires ValidJob(c) && Shape(c, s) && Data(c, s, t) && CanSend(s, r)
    requires forall q :: q in c.iters ==> DataAt(c, DoSend(c, s, r), t, q)
    ensures Shape(c, DoSend(c, s, r)) && Data(c, DoSend(c, s, r), t)
  {
    var s' := DoSend(c, s, r);
    forall m | m in c.iters || m in c.bodies ensures LogAt(s', t, m) { assert LogAt(s, t, m); }
    forall q | q in c.iters ensures CellAt(c, s', t, q) { assert CellAt(c, s, t, q); }
    SendFed(c, s, t, r);
  }

  lemma SendFed<S, D, C>(c: Job<S, D, C>, s: System<S, D, C>, t: Trace<S, C>, r: Replica)
    requires ValidJob(c) && Shape(c, s) && FedData(c, s, t) && CanSend(s, r)
    ensures Shape(c, DoSend(c, s, r)) && FedData(c, DoSend(c, s, r), t)
  {
    forall q | q in c.iters && !c.replay ensures FedAt(c, DoSend(c, s, r), t, q) { assert FedAt(c, s, t, q); }
  }

  lemma SendDataAt<S, D, C>(c: Job<S, D, C>, s: System<S, D, C>, t: Trace<S, C>, r: Replica, q: Replica)
    requires ValidJob(c) && Control(c, s) && Data(c, s, t) && CanSend(s, r) && q in c.iters
    ensures DataAt(c, DoSend(c, s, r), t, q)
  {
    assert DataAt(c, s, t, q) && ReplicaOk(c, s, q) && RoundOk(s, q);
  }

  // The leader decides: the sequential loop makes one round ------------------------------------------

  /** Folding depends only on what the replicas in the order emit. */
  lemma {:induction false} FoldSame<S, D, C>(c: Job<S, D, C>, state: S, e: Replica -> C, e': Replica -> C,
      order: seq<Replica>)
    requires forall n {:trigger e(n)} :: e(n) == e'(n)
    ensures FoldDeltas(c, state, e, order) == FoldDeltas(c, state, e', order)
  {
    if order != [] {
      var x := e(order[|order| - 1]);
      FoldSame(c, state, e, e', order[..|order| - 1]);
    }
  }

  ghost function Extended<S, D, C>(c: Job<S, D, C>, t: Trace<S, C>, l: Loop<S, C>): Trace<S, C> {
    Trace(t.loops + [l], t.emits + [AllEmit(c, l.state, l.data)])
  }

  lemma ExtendTrace<S, D, C>(c: Job<S, D, C>, orders: seq<seq<Replica>>, order: seq<Replica>, t: Trace<S, C>)
    requires IsTrace(c, orders, t)
    ensures IsTrace(c, orders + [order], Extended(c, t, Round(c, t.loops[|orders|], order)))
  {
    var l := Round(c, t.loops[|orders|], order);
    var t', orders' := Extended(c, t, l), orders + [order];
    forall k | 0 <= k < |orders'| ensures RoundDone(c, orders', t', k) {
      if k < |orders| { assert RoundDone(c, orders, t, k); }
    }
    forall k, n | 0 <= k <= |orders'| ensures EmitsOk(c, t', k, n) {
      if k <= |orders| { assert EmitsOk(c, t, k, n); }
    }
  }

  lemma DecideData<S, D, C>(c: Job<S, D, C>, s: System<S, D, C>, t: Trace<S, C>) returns (t': Trace<S, C>)
    requires ValidJob(c) && Inv(c, s, t) && CanDecide(s)
    ensures Shape(c, DoDecide(c, s)) && Data(c, DoDecide(c, s), t') && IsTrace(c, DoDecide(c, s).orders, t')
  {
    var s', k := DoDecide(c, s), |s.orders|;
    var l := t.loops[k];
    t' := Extended(c, t, Round(c, l, s.taken));
    AllCollected(c, s);
    ExtendTrace(c, s.orders, s.taken, t);
    DecideLeader(c, s, t);
    DecideKeep(c, s, t, t');
  }

  lemma DecideKeep<S, D, C>(c: Job<S, D, C>, s: System<S, D, C>, t: Trace<S, C>, t': Trace<S, C>)
    requires ValidJob(c) && Control(c, s) && Data(c, s, t) && CanDecide(s)
    requires forall e :: e in c.ends ==> e in Done(c, s)
    requires Shape(c, DoDecide(c, s)) && LeaderOk(c, DoDecide(c, s), t')
    requires t.loops <= t'.loops && t.emits <= t'.emits && |t'.loops| == |t'.emits|
    ensures Data(c, DoDecide(c, s), t')
  {
    var s' := DoDecide(c, s);
    forall n | n in c.iters || n in c.bodies ensures LogAt(s', t', n) { assert LogAt(s, t, n); }
    forall r | r in c.iters ensures DataAt(c, s', t', r) { DecideDataAt(c, s, t, t', r); }
    forall r | r in c.iters ensures CellAt(c, s', t', r) { assert CellAt(c, s, t, r); }
    DecideFed(c, s, t, t');
  }

  lemma DecideFed<S, D, C>(c: Job<S, D, C>, s: System<S, D, C>, t: Trace<S, C>, t': Trace<S, C>)
    requires ValidJob(c) && Shape(c, s) && FedData(c, s, t) && Shape(c, DoDecide(c, s)) && t.emits <= t'.emits
    ensures FedData(c, DoDecide(c, s), t')
  {
    forall r | r in c.iters && !c.replay ensures FedAt(c, DoDecide(c, s), t', r) { assert FedAt(c, s, t, r); }
  }

  lemma DecideDataAt<S, D, C>(c: Job<S, D, C>, s: System<S, D, C>, t: Trace<S, C>, t': Trace<S, C>, r: Replica)
    requires ValidJob(c) && Control(c, s) && Data(c, s, t) && CanDecide(s) && r in c.iters
    requires forall e :: e in c.ends ==> e in Done(c, s)
    requires t.loops <= t'.loops && t.emits <= t'.emits && |t'.loops| == |t'.emits|
    ensures DataAt(c, DoDecide(c, s), t', r)
  {
    assert DataAt(c, s, t, r) && ReplicaOk(c, s, r);
    UpstreamDone(c, s, r);
    LongerTrace(c, t, t', r, s.iter[r], |s.log[r]|, |s.orders|);
  }

  /** A waiting replica has nothing in its inbox, so one more round of the loop does not matter. */
  lemma LongerTrace<S, D, C>(c: Job<S, D, C>, t: Trace<S, C>, t': Trace<S, C>, r: Replica, i: Iterate<S, C>,
      rounds: nat, sent: int)
    requires DataOk(c, t, r, i, rounds, sent)
    requires i.inbox == [] || 0 < sent < |t.loops|
    requires t.loops <= t'.loops && t.emits <= t'.emits && |t'.loops| == |t'.emits|
    ensures DataOk(c, t', r, i, rounds, sent)
  {
  }

  lemma DecideLeader<S, D, C>(c: Job<S, D, C>, s: System<S, D, C>, t: Trace<S, C>)
    requires ValidJob(c) && Shape(c, s) && Data(c, s, t) && IsTrace(c, s.orders, t) && CanDecide(s) && s.queue == []
    ensures LeaderOk(c, DoDecide(c, s), Extended(c, t, Round(c, t.loops[|s.orders|], s.taken)))
  {
    var k := |s.orders|;
    var l := t.loops[k];
    var e := AllEmit(c, l.state, l.data);
    forall n ensures t.emits[k](n) == e(n) { assert EmitsOk(c, t, k, n); }
    FoldSame(c, l.state, t.emits[k], e, s.taken);
  }

  // Every interleaving -------------------------------------------------------------------------------

  lemma StepControl<S, D, C>(c: Job<S, D, C>, s: System<S, D, C>, a: Step)
    requires ValidJob(c) && Control(c, s) && Enabled(c, s, a)
    ensures Control(c, Apply(c, s, a))
  {
    match a
    case Open(n) => OpenControl(c, s, n);
    case Push(n) => PushControl(c, s, n);
    case Flush(n) => FlushControl(c, s, n);
    case Lock(r) => LockControl(c, s, r);
    case EndRound(r) => EndRoundControl(c, s, r);
    case Fetch(r) => FetchControl(c, s, r);
    case Take(r) => TakeControl(c, s, r);
    case Set(r) => SetControl(c, s, r);
    case Arrive(r) => ArriveControl(c, s, r);
    case Leave(r) => LeaveControl(c, s, r);
    case Resume(r) => ResumeControl(c, s, r);
    case Fold => FoldControl(c, s);
    case Decide => DecideControl(c, s);
    case Send(r) => SendControl(c, s, r);
  }

  /** Whether an Iterate replica makes the step. */
  predicate IsIterateStep(a: Step) {
    a.Lock? || a.EndRound? || a.Fetch? || a.Take? || a.Set? || a.Arrive? || a.Leave? || a.Resume?
  }

  lemma IterateStepData<S, D, C>(c: Job<S, D, C>, s: System<S, D, C>, t: Trace<S, C>, a: Step)
    requires ValidJob(c) && Inv(c, s, t) && Enabled(c, s, a) && IsIterateStep(a)
    ensures Shape(c, Apply(c, s, a)) && Data(c, Apply(c, s, a), t) && Apply(c, s, a).orders == s.orders
  {
    match a
    case Lock(r) => LockData(c, s, t, r);
    case EndRound(r) => EndRoundData(c, s, t, r);
    case Fetch(r) => FetchData(c, s, t, r);
    case Take(r) => TakeData(c, s, t, r);
    case Set(r) => SetData(c, s, t, r);
    case Arrive(r) => ArriveData(c, s, t, r);
    case Leave(r) => LeaveData(c, s, t, r);
    case Resume(r) => ResumeData(c, s, t, r);
  }

  lemma OtherStepData<S, D, C>(c: Job<S, D, C>, s: System<S, D, C>, t: Trace<S, C>, a: Step)
    requires ValidJob(c) && Inv(c, s, t) && Enabled(c, s, a) && !IsIterateStep(a) && !a.Decide?
    ensures Shape(c, Apply(c, s, a)) && Data(c, Apply(c, s, a), t) && Apply(c, s, a).orders == s.orders
  {
    match a
    case Open(n) => KeepData(c, s, DoOpen(c, s, n), t);
    case Push(n) => PushData(c, s, t, n);
    case Flush(n) => FlushData(c, s, t, n);
    case Fold => FoldData(c, s, t);
    case Send(r) => SendData(c, s, t, r);
  }

  lemma StepData<S, D, C>(c: Job<S, D, C>, s: System<S, D, C>, t: Trace<S, C>, a: Step) returns (t': Trace<S, C>)
    requires ValidJob(c) && Inv(c, s, t) && Enabled(c, s, a)
    ensures Shape(c, Apply(c, s, a)) && Data(c, Apply(c, s, a), t') && IsTrace(c, Apply(c, s, a).orders, t')
  {
    if a.Decide? {
      t' := DecideData(c, s, t);
    } else {
      t' := t;
      if IsIterateStep(a) { IterateStepData(c, s, t, a); } else { OtherStepData(c, s, t, a); }
    }
  }

  lemma StepInv<S, D, C>(c: Job<S, D, C>, s: System<S, D, C>, t: Trace<S, C>, a: Step) returns (t': Trace<S, C>)
    requires ValidJob(c) && Inv(c, s, t) && Enabled(c, s, a)
    ensures Inv(c, Apply(c, s, a), t')
  {
    StepControl(c, s, a);
    t' := StepData(c, s, t, a);
  }

  /** The invariant holds in every state of every interleaving. */
  lemma {:induction false} RunInv<S, D, C>(c: Job<S, D, C>, run: seq<System<S, D, C>>, i: nat) returns (t: Trace<S, C>)
    requires ValidJob(c) && IsRun(c, run) && i < |run|
    ensures Inv(c, run[i], t)
  {
    if i == 0 {
      t := InitInv(c, run[0]);
    } else {
      t := RunInv(c, run, i - 1);
      assert Next(c, run[i - 1], run[i - 1 + 1]);
      var a :| Enabled(c, run[i - 1], a) && run[i] == Apply(c, run[i - 1], a);
      t := StepInv(c, run[i - 1], t, a);
    }
  }
}
