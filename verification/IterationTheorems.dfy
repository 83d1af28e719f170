/**
  What the iteration protocol guarantees in every state of every interleaving.
 */
module IterationTheorems {
  import opened IterationProtocol
  import opened IterationInvariant
  import opened IterationRefinement

  /**
    The leader only counts messages, yet its k-th global fold consumes exactly one delta of every
    IterationEnd replica, and the queue only ever holds deltas of the round it is collecting.
   */
  lemma OneDeltaPerReplicaPerRound<S, D, C>(c: Job<S, D, C>, run: seq<System<S, D, C>>, i: nat)
    requires ValidJob(c) && IsRun(c, run) && i < |run|
    ensures var s := run[i];
            && (forall k :: 0 <= k < |s.orders| ==> multiset(s.orders[k]) == multiset(c.ends))
            && (forall e <- c.ends :: e in s.log && |s.orders| <= |s.log[e]| <= |s.orders| + 1)
            && (forall e <- c.ends :: multiset(s.taken)[e] + multiset(Senders(s.queue))[e] == |s.log[e]| - |s.orders|)
            && (forall j :: 0 <= j < |s.queue| ==>
                  && s.queue[j].0 in c.ends && |s.log[s.queue[j].0]| == |s.orders| + 1
                  && s.queue[j].1 == c.localFold(s.queue[j].0, s.log[s.queue[j].0][|s.orders|]))
  {
    var s := run[i];
    var t := RunInv(c, run, i);
    forall k | 0 <= k < |s.orders| ensures multiset(s.orders[k]) == multiset(c.ends) {
      assert EveryEndOnce(c, s.orders[k]);
    }
    forall e | e in c.ends
      ensures |s.orders| <= |s.log[e]| <= |s.orders| + 1
      ensures multiset(s.taken)[e] + multiset(Senders(s.queue))[e] == |s.log[e]| - |s.orders|
    {
      assert RoundOk(s, e);
      assert (multiset(s.taken) + multiset(Senders(s.queue)))[e] == multiset(Done(c, s))[e];
    }
    forall j | 0 <= j < |s.queue|
      ensures s.queue[j].0 in Done(c, s)
      ensures s.queue[j].1 == c.localFold(s.queue[j].0, s.log[s.queue[j].0][|s.orders|])
    {
      var e := Senders(s.queue)[j];
      assert e in multiset(Senders(s.queue));
      assert e in multiset(s.taken) + multiset(Senders(s.queue));
      assert e in multiset(Done(c, s));
      assert LogAt(s, t, e);
    }
  }

  /** The unlock assertion never fails, and after k updates of a host its generation is 2k or 2k + 1. */
  lemma GenerationFollowsUpdates<S, D, C>(c: Job<S, D, C>, run: seq<System<S, D, C>>, i: nat, r: Replica)
    requires ValidJob(c) && IsRun(c, run) && i < |run| && r in c.iters && IsLocalLeader(c, r)
    ensures Shape(c, run[i])
    ensures var p, g := run[i].iter[r].phase, run[i].at[HostOf(c, r)].generation;
            && (p.Leaving? ==> g % 2 == 1)
            && g / 2 == Resumed(p, |run[i].log[r]|)
  {
    var t := RunInv(c, run, i);
    LockFollows(c, run[i], r);
  }

  lemma LockFollows<S, D, C>(c: Job<S, D, C>, s: System<S, D, C>, r: Replica)
    requires ValidJob(c) && Control(c, s) && r in c.iters && IsLocalLeader(c, r)
    ensures var p, g := s.iter[r].phase, s.at[HostOf(c, r)].generation;
            (p.Leaving? ==> g % 2 == 1) && g / 2 == Resumed(p, |s.log[r]|)
  {
    assert ReplicaOk(c, s, r);
  }

  /** When a local leader is about to write the cell, no replica of its host is inside a round. */
  lemma NoWriteDuringARound<S, D, C>(c: Job<S, D, C>, run: seq<System<S, D, C>>, i: nat, r: Replica)
    requires ValidJob(c) && IsRun(c, run) && i < |run|
    requires r in c.iters && IsLocalLeader(c, r) && Shape(c, run[i]) && CanSet(c, run[i], r)
    ensures forall q <- c.iters :: HostOf(c, q) == HostOf(c, r) ==>
              !run[i].iter[q].phase.Active? && !run[i].iter[q].phase.Locked?
    ensures forall n <- c.bodies :: HostOf(c, n) == HostOf(c, r) ==> n !in run[i].open
  {
    var s := run[i];
    var t := RunInv(c, run, i);
    forall q | q in c.iters && HostOf(c, q) == HostOf(c, r)
      ensures !s.iter[q].phase.Active? && !s.iter[q].phase.Locked?
    {
      NoEmitter(c, s, r, q);
    }
    forall n | n in c.bodies && HostOf(c, n) == HostOf(c, r) ensures n !in s.open { NoReader(c, s, r, n); }
  }

  lemma NoEmitter<S, D, C>(c: Job<S, D, C>, s: System<S, D, C>, r: Replica, q: Replica)
    requires ValidJob(c) && Control(c, s) && CanSet(c, s, r)
    requires q in c.iters && HostOf(c, q) == HostOf(c, r)
    ensures !s.iter[q].phase.Active? && !s.iter[q].phase.Locked?
  {
    assert ReplicaOk(c, s, r) && RoundOk(s, r) && ReplicaOk(c, s, q) && RoundOk(s, q);
  }

  lemma NoReader<S, D, C>(c: Job<S, D, C>, s: System<S, D, C>, r: Replica, n: Replica)
    requires ValidJob(c) && Control(c, s) && CanSet(c, s, r) && IsLocalLeader(c, r)
    requires n in c.bodies && HostOf(c, n) == HostOf(c, r)
    ensures n !in s.open
  {
    OneLeader(c, r, LeaderOf(c, HostOf(c, n)));
    assert ReplicaOk(c, s, r);
    if n in s.open { OpenRound(c, s, n); }
  }

  /** While a replica consumes or emits round k (counting from 0), the cell of its host holds the k-th state. */
  lemma ReadersSeeTheKthState<S, D, C>(c: Job<S, D, C>, run: seq<System<S, D, C>>, i: nat, n: Replica)
    requires ValidJob(c) && IsRun(c, run) && i < |run| && Shape(c, run[i])
    requires n in run[i].open || (n in c.iters && (run[i].iter[n].phase.Active? || run[i].iter[n].phase.Locked?))
    ensures |run[i].log[n]| <= |run[i].orders|
    ensures run[i].at[HostOf(c, n)].cell == After(c, run[i].orders, |run[i].log[n]|).state
  {
    var s := run[i];
    var t := RunInv(c, run, i);
    if n in s.open {
      ReaderSees(c, s, t, n);
    } else {
      EmitterSees(c, s, t, n);
    }
    TraceIsLoop(c, s.orders, t, |s.log[n]|);
  }

  /**
    No feedback is lost, duplicated or mixed, although an Iterate replica tells the end of a round by
    the last element it has received: while its feeder may emit a round, all the earlier feedback has
    been taken; so the channel never holds elements of two rounds, and what is taken is the last one.
   */
  lemma FeedbackIsOneRound<S, D, C>(c: Job<S, D, C>, run: seq<System<S, D, C>>, i: nat, r: Replica)
    requires ValidJob(c) && IsRun(c, run) && i < |run| && Shape(c, run[i]) && r in c.iters && !c.replay
    ensures var s, f := run[i], FeedOf(c, r);
            && (f in s.open ==> Fetched(s.iter[r].phase, |s.log[r]|) >= |s.log[f]|)
            && |s.fed[f].rounds| == |s.log[f]| - Fetched(s.iter[r].phase, |s.log[r]|) <= 1
            && (s.fed[f].more ==> f in s.open && s.fed[f].rounds == [])
            && (CanFetch(c, s, r) ==>
              |s.log[f]| == |s.log[r]| > 0 && DoFetch(c, s, r).iter[r].data == s.log[f][|s.log[r]| - 1])
  {
    var s := run[i];
    var t := RunInv(c, run, i);
    assert FedOk(c, s, r);
    if FeedOf(c, r) in s.open { FeederWaits(c, s, r); }
    if CanFetch(c, s, r) { FetchesTheLast(c, s, t, r); }
  }

  lemma FetchesTheLast<S, D, C>(c: Job<S, D, C>, s: System<S, D, C>, t: Trace<S, C>, r: Replica)
    requires ValidJob(c) && Control(c, s) && Data(c, s, t) && CanFetch(c, s, r) && !c.replay
    ensures var f := FeedOf(c, r);
            |s.log[f]| == |s.log[r]| > 0 && DoFetch(c, s, r).iter[r].data == s.log[f][|s.log[r]| - 1]
  {
    assert FedOk(c, s, r) && ReplicaOk(c, s, r) && FedAt(c, s, t, r) && LogAt(s, t, FeedOf(c, r));
  }

  /**
    A replica never begins a round before every replica it sends to has finished the round before:
    the input of a round cannot be mixed with that of another one.
   */
  lemma RoundsDoNotOverlap<S, D, C>(c: Job<S, D, C>, run: seq<System<S, D, C>>, i: nat, n: Replica, p: Replica)
    requires ValidJob(c) && IsRun(c, run) && i < |run| && Shape(c, run[i])
    requires n in c.bodies && p in c.preds(n)
    requires if p in c.bodies then p in run[i].open else run[i].iter[p].phase.Active? || run[i].iter[p].phase.Locked?
    ensures |run[i].log[p]| <= |run[i].log[n]| <= |run[i].log[p]| + 1
  {
    var s := run[i];
    var t := RunInv(c, run, i);
    assert RoundOk(s, n);
    if p in c.bodies { OpenRound(c, s, p); } else { EmitterRound(c, s, p); }
  }

  /**
    Refinement, the data: whatever the interleaving, every replica emits in round k exactly what it
    emits in the k-th round of the sequential loop, for the orders in which the leader folded.
   */
  lemma EmitsWhatTheLoopEmits<S, D, C>(c: Job<S, D, C>, run: seq<System<S, D, C>>, i: nat, n: Replica, k: nat)
    requires ValidJob(c) && IsRun(c, run) && i < |run| && Shape(c, run[i])
    requires n in c.iters || n in c.bodies
    requires k < |run[i].log[n]|
    ensures k <= |run[i].orders| && run[i].log[n][k] ==
      Emits(c, After(c, run[i].orders, k).state, After(c, run[i].orders, k).data, n)
  {
    var t := RunInv(c, run, i);
    assert LogAt(run[i], t, n) && EmitsOk(c, t, k, n);
    TraceIsLoop(c, run[i].orders, t, k);
  }

  /** Every round of a run of a Replay starts from the input of that run, whatever has been emitted since. */
  lemma {:induction false} ReplayStartsFromInput<S, D, C>(c: Job<S, D, C>, orders: seq<seq<Replica>>, k: nat,
    r: Replica)
    requires c.replay && k <= |orders|
    ensures After(c, orders, k).data(r) == c.input(After(c, orders, k).run, r)
  {
    if k > 0 { ReplayStartsFromInput(c, orders, k - 1, r); }
  }

  /**
    A Replay emits the input of the run again in every round, from where the operators chained to it make
    of it what they do in the state after the rounds so far.
   */
  lemma ReplayEmitsInput<S, D, C>(c: Job<S, D, C>, run: seq<System<S, D, C>>, i: nat, r: Replica, k: nat)
    requires ValidJob(c) && IsRun(c, run) && i < |run| && Shape(c, run[i])
    requires c.replay && r in c.iters && k < |run[i].log[r]|
    ensures k <= |run[i].orders|
    ensures var l := After(c, run[i].orders, k); run[i].log[r][k] == c.head(r, l.state, c.input(l.run, r))
  {
    EmitsWhatTheLoopEmits(c, run, i, r, k);
    ReplayStartsFromInput(c, run[i].orders, k, r);
  }

  /**
    An Iterate emits the input in the first round of a run, and in every other one exactly what its feeder
    has emitted in the round before.
   */
  lemma IterateEmitsFeedback<S, D, C>(c: Job<S, D, C>, run: seq<System<S, D, C>>, i: nat, r: Replica, k: nat)
    requires ValidJob(c) && IsRun(c, run) && i < |run| && Shape(c, run[i])
    requires !c.replay && r in c.iters && k < |run[i].log[r]|
    ensures k <= |run[i].orders| && (k > 0 ==> k <= |run[i].log[FeedOf(c, r)]|)
    ensures var l := After(c, run[i].orders, k);
            run[i].log[r][k] == c.head(r, l.state,
              if k > 0 && l.run == After(c, run[i].orders, k - 1).run then run[i].log[FeedOf(c, r)][k - 1]
              else c.input(l.run, r))
  {
    EmitsWhatTheLoopEmits(c, run, i, r, k);
    NextStartsFromFeedback(c, run[i].orders, k, r);
    if k > 0 {
      FeederHasEmitted(c, run, i, r, k);
      EmitsWhatTheLoopEmits(c, run, i, FeedOf(c, r), k - 1);
    }
  }

  lemma NextStartsFromFeedback<S, D, C>(c: Job<S, D, C>, orders: seq<seq<Replica>>, k: nat, r: Replica)
    requires !c.replay && k <= |orders|
    ensures var l := After(c, orders, k);
            l.data(r) ==
              if k > 0 && l.run == After(c, orders, k - 1).run
              then Emits(c, After(c, orders, k - 1).state, After(c, orders, k - 1).data, FeedOf(c, r))
              else c.input(l.run, r)
  {
  }

  lemma FeederHasEmitted<S, D, C>(c: Job<S, D, C>, run: seq<System<S, D, C>>, i: nat, r: Replica, k: nat)
    requires ValidJob(c) && IsRun(c, run) && i < |run| && Shape(c, run[i])
    requires !c.replay && r in c.iters && k < |run[i].log[r]|
    ensures FeedOf(c, r) in c.bodies && k <= |run[i].log[FeedOf(c, r)]|
  {
    var t := RunInv(c, run, i);
    assert RoundOk(run[i], FeedOf(c, r)) && RoundOk(run[i], r);
  }

  /** Refinement, the states: the leader produces the final states of the sequential loop. */
  lemma ProducesTheStatesOfTheLoop<S, D, C>(c: Job<S, D, C>, run: seq<System<S, D, C>>, i: nat)
    requires ValidJob(c) && IsRun(c, run) && i < |run|
    ensures run[i].leader.results == After(c, run[i].orders, |run[i].orders|).results
  {
    var t := RunInv(c, run, i);
    TraceIsLoop(c, run[i].orders, t, |run[i].orders|);
  }

  /**
    Refinement, the output: an Iterate replica that has gone back to emit k times has sent to the
    output the data of the last round of every run of the sequential loop that ended by then.
   */
  lemma OutputsWhatTheLoopOutputs<S, D, C>(c: Job<S, D, C>, run: seq<System<S, D, C>>, i: nat, r: Replica)
    requires ValidJob(c) && IsRun(c, run) && i < |run| && Shape(c, run[i]) && r in c.iters
    ensures var s := run[i];
            var k := Resumed(s.iter[r].phase, |s.log[r]|);
            0 <= k <= |s.orders| && s.iter[r].outputs == After(c, s.orders, k).outputs(r)
  {
    var s := run[i];
    var t := RunInv(c, run, i);
    assert DataAt(c, s, t, r);
    TraceIsLoop(c, s.orders, t, Resumed(s.iter[r].phase, |s.log[r]|));
  }

  // Progress ---------------------------------------------------------------------------------------

  /** Some body replica that has not finished the round only waits for replicas that have. */
  lemma {:induction false} FirstUnfinished<S, D, C>(c: Job<S, D, C>, s: System<S, D, C>,
      n: Replica) returns (m: Replica)
    requires ValidJob(c) && Control(c, s) && n in c.bodies && |s.log[n]| == |s.orders|
    requires forall r {:trigger s.log[r]} :: r in c.iters ==> |s.log[r]| == |s.orders| + 1
    ensures m in c.bodies && |s.log[m]| == |s.orders|
    ensures forall p :: p in c.preds(m) ==> |s.log[p]| == |s.orders| + 1
    decreases c.rank(n)
  {
    if p :| p in c.preds(n) && |s.log[p]| == |s.orders| {
      m := FirstUnfinished(c, s, p);
    } else {
      m := n;
      forall p | p in c.preds(m) ensures |s.log[p]| == |s.orders| + 1 { assert RoundOk(s, p); }
    }
  }

  /** A replica that can move on its own, or every Iterate replica waits for the leader. */
  ghost predicate CanMove<S, D, C>(c: Job<S, D, C>, s: System<S, D, C>, r: Replica)
    requires ValidJob(c) && Shape(c, s)
  {
    || CanLock(c, s, r) || CanEndRound(c, s, r) || CanFetch(c, s, r) || CanTake(c, s, r) || CanSet(c, s, r)
    || CanArrive(c, s, r) || CanLeave(c, s, r) || CanResume(c, s, r)
  }

  /** For the feedback of its feeder or the answer of the leader. */
  predicate IsIdle<S>(p: Phase<S>) { p.Waiting? || p.Swapped? }

  lemma StuckIterateWaits<S, D, C>(c: Job<S, D, C>, s: System<S, D, C>, r: Replica)
    requires ValidJob(c) && Control(c, s) && s.leader.toSend == {} && r in c.iters
    requires forall q :: q in c.iters ==> !CanMove(c, s, q)
    ensures IsIdle(s.iter[r].phase) && |s.log[r]| == |s.orders| + 1
  {
    StuckPhase(c, s, r);
    if s.iter[r].phase.AtBarrier? {
      assert HostOk(c, s, HostOf(c, r));
      var q :| q in Local(c, HostOf(c, r)) && q !in Blocked(c, s, HostOf(c, r));
      assert ReplicaOk(c, s, r) && ReplicaOk(c, s, q) && RoundOk(s, r) && RoundOk(s, q);
      StuckPhase(c, s, q);
    }
  }

  lemma StuckPhase<S, D, C>(c: Job<S, D, C>, s: System<S, D, C>, r: Replica)
    requires ValidJob(c) && Control(c, s) && s.leader.toSend == {} && r in c.iters
    requires !CanMove(c, s, r)
    ensures IsIdle(s.iter[r].phase) || s.iter[r].phase.AtBarrier?
    ensures IsIdle(s.iter[r].phase) ==> |s.log[r]| == |s.orders| + 1
    ensures s.iter[r].phase.AtBarrier? ==> s.iter[r].phase.ticket == s.at[HostOf(c, r)].barrier
  {
    assert ReplicaOk(c, s, r) && RoundOk(s, r);
    if !c.replay { assert FedOk(c, s, r) && RoundOk(s, FeedOf(c, r)); }
  }

  /** The protocol never deadlocks: in every reachable state some step is enabled, other than sending ahead. */
  lemma NoDeadlock<S, D, C>(c: Job<S, D, C>, run: seq<System<S, D, C>>, i: nat)
    requires ValidJob(c) && IsRun(c, run) && i < |run|
    ensures Shape(c, run[i]) && exists a :: Enabled(c, run[i], a) && !a.Push?
  {
    var t := RunInv(c, run, i);
    Progress(c, run[i]);
  }

  lemma Progress<S, D, C>(c: Job<S, D, C>, s: System<S, D, C>)
    requires ValidJob(c) && Control(c, s)
    ensures exists a :: Enabled(c, s, a) && !a.Push?
  {
    if r :| r in s.leader.toSend {
      assert Enabled(c, s, Send(r));
    } else if s.leader.missing == 0 {
      assert s.leader.toSend == {};
      assert Enabled(c, s, Decide);
    } else if s.queue != [] {
      assert s.leader.toSend == {};
      var e := MissingIsPositive(c, s);
      assert Enabled(c, s, Fold);
    } else if r :| r in c.iters && CanMove(c, s, r) {
      IterateMoves(c, s, r);
    } else {
      assert s.leader.toSend == {};
      var e := MissingIsPositive(c, s);
      BodyMoves(c, s, e);
    }
  }

  lemma MissingIsPositive<S, D, C>(c: Job<S, D, C>, s: System<S, D, C>) returns (e: Replica)
    requires ValidJob(c) && Control(c, s) && s.leader.missing != 0
    ensures s.leader.missing > 0
    ensures s.queue == [] ==> e in c.ends && |s.log[e]| == |s.orders|
  {
    var d := Done(c, s);
    assert |multiset(s.taken) + multiset(Senders(s.queue))| == |s.taken| + |s.queue|;
    assert |multiset(d)| == |d|;
    SubsetSize(d, c.ends);
    e := 0;
    if s.queue == [] {
      e := OneMissing(d, c.ends);
      assert RoundOk(s, e);
    }
  }

  lemma IterateMoves<S, D, C>(c: Job<S, D, C>, s: System<S, D, C>, r: Replica)
    requires ValidJob(c) && Shape(c, s) && CanMove(c, s, r)
    ensures exists a :: Enabled(c, s, a) && !a.Push?
  {
    if CanLock(c, s, r) { assert Enabled(c, s, Lock(r)); }
    else if CanEndRound(c, s, r) { assert Enabled(c, s, EndRound(r)); }
    else if CanFetch(c, s, r) { assert Enabled(c, s, Fetch(r)); }
    else if CanTake(c, s, r) { assert Enabled(c, s, Take(r)); }
    else if CanSet(c, s, r) { assert Enabled(c, s, Set(r)); }
    else if CanArrive(c, s, r) { assert Enabled(c, s, Arrive(r)); }
    else if CanLeave(c, s, r) { assert Enabled(c, s, Leave(r)); }
    else { assert Enabled(c, s, Resume(r)); }
  }

  lemma BodyMoves<S, D, C>(c: Job<S, D, C>, s: System<S, D, C>, e: Replica)
    requires ValidJob(c) && Control(c, s) && s.leader.toSend == {}
    requires forall q :: q in c.iters ==> !CanMove(c, s, q)
    requires e in c.ends && |s.log[e]| == |s.orders|
    ensures exists a :: Enabled(c, s, a) && !a.Push?
  {
    forall r | r in c.iters ensures |s.log[r]| == |s.orders| + 1 { StuckIterateWaits(c, s, r); }
    var m := FirstUnfinished(c, s, e);
    if m in s.open {
      assert Enabled(c, s, Flush(m));
    } else {
      var l := LeaderOf(c, HostOf(c, m));
      StuckIterateWaits(c, s, l);
      assert ReplicaOk(c, s, l);
      assert Enabled(c, s, Open(m));
    }
  }
}
