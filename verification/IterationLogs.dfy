/** What the replicas have emitted. */
module IterationLogs {
  /*
    The rounds of an iteration, in terms of what the replicas have emitted in the rounds before.
   */

  import opened IterationProtocol
  import opened IterationInvariant
  import opened IterationRefinement
  import opened IterationTheorems

  /** What is received, for a round, by a replica of the body. */
  function ReceivedAt<S, D, C>(c: Job<S, D, C>, s: System<S, D, C>, n: Replica, k: nat): map<Replica, C>
    requires forall p :: p in c.preds(n) ==> p in s.log && k < |s.log[p]|
  {
    map p | p in c.preds(n) :: s.log[p][k]
  }

  /**
    A replica of the body emits in a round what it makes, in the state after the rounds so far, of what
    those before it have emitted in that same round.
   */
  lemma BodyEmitsReceived<S, D, C>(c: Job<S, D, C>, run: seq<System<S, D, C>>, i: nat, n: Replica, k: nat)
    requires ValidJob(c) && IsRun(c, run) && i < |run| && Shape(c, run[i])
    requires n in c.bodies && k < |run[i].log[n]|
    ensures k <= |run[i].orders|
    ensures forall p :: p in c.preds(n) ==> p in run[i].log && k < |run[i].log[p]|
    ensures run[i].log[n][k] == c.body(n, After(c, run[i].orders, k).state, ReceivedAt(c, run[i], n, k))
  {
    EmitsWhatTheLoopEmits(c, run, i, n, k);
    var s, l := run[i], After(c, run[i].orders, k);
    forall p | p in c.preds(n)
      ensures p in s.log && k < |s.log[p]| && s.log[p][k] == Emits(c, l.state, l.data, p)
    {
      PredecessorHasEmitted(c, run, i, n, p);
      EmitsWhatTheLoopEmits(c, run, i, p, k);
    }
    BodyEmits(c, l.state, l.data, n, ReceivedAt(c, s, n, k));
  }

  lemma PredecessorHasEmitted<S, D, C>(c: Job<S, D, C>, run: seq<System<S, D, C>>, i: nat, n: Replica, p: Replica)
    requires ValidJob(c) && IsRun(c, run) && i < |run| && Shape(c, run[i])
    requires n in c.bodies && p in c.preds(n)
    ensures p in c.iters || p in c.bodies
    ensures p in run[i].log && |run[i].log[p]| >= |run[i].log[n]|
  {
    assert c.preds(n) <= c.iters + c.bodies;
    var t := RunInv(c, run, i);
    assert EdgeOk(run[i], n, p);
  }

  /** The leader folds the delta of a replica for its k-th round. */
  ghost predicate FoldsOne<S, D, C>(c: Job<S, D, C>, s: System<S, D, C>, k: nat, e: Replica, before: S, after: S) {
    e in s.log && k < |s.log[e]| && after == c.globalFold(before, c.localFold(e, s.log[e][k]))
  }

  /**
    The state after a round is what the condition makes of the state before it, with the deltas of what
    was emitted in this round folded in one after the other; the next round is one of the same run exactly
    if the condition is true and there are rounds left.
   */
  lemma StateIsOfLogs<S, D, C>(c: Job<S, D, C>, run: seq<System<S, D, C>>, i: nat, k: nat) returns (states: seq<S>)
    requires ValidJob(c) && IsRun(c, run) && i < |run| && k < |run[i].orders|
    ensures var l := After(c, run[i].orders, 0); l.state == c.initial && l.index == l.run == 0 && l.results == []
    ensures |states| == |run[i].orders[k]| + 1 && states[0] == After(c, run[i].orders, k).state
    ensures forall j :: 0 <= j < |run[i].orders[k]| ==>
      FoldsOne(c, run[i], k, run[i].orders[k][j], states[j], states[j + 1])
    ensures var l, l' := After(c, run[i].orders, k), After(c, run[i].orders, k + 1);
            var (state, condition) := c.condition(states[|states| - 1]);
            if condition && l.index + 1 < c.maxIterations
            then l'.state == state && l'.index == l.index + 1 && l'.run == l.run && l'.results == l.results
            else l'.state == c.initial && l'.index == 0 && l'.run == l.run + 1 && l'.results == l.results + [state]
  {
    var s := run[i];
    OneDeltaPerReplicaPerRound(c, run, i);
    forall j | 0 <= j < |s.orders[k]|
      ensures var e := s.orders[k][j];
              e in s.log && k < |s.log[e]| && s.log[e][k] == AllEmits(c, s, k)(e)
    {
      EndHasEmitted(c, run, i, k, j);
    }
    states := FoldStates(c, s, k, s.orders[k]);
  }

  function AllEmits<S, D, C>(c: Job<S, D, C>, s: System<S, D, C>, k: nat): Replica -> C
    requires k <= |s.orders|
  {
    AllEmit(c, After(c, s.orders, k).state, After(c, s.orders, k).data)
  }

  lemma EndHasEmitted<S, D, C>(c: Job<S, D, C>, run: seq<System<S, D, C>>, i: nat, k: nat, j: nat)
    requires ValidJob(c) && IsRun(c, run) && i < |run| && k < |run[i].orders| && j < |run[i].orders[k]|
    requires multiset(run[i].orders[k]) == multiset(c.ends)
    ensures var e := run[i].orders[k][j];
            e in run[i].log && k < |run[i].log[e]| && run[i].log[e][k] == AllEmits(c, run[i], k)(e)
  {
    var e := run[i].orders[k][j];
    assert e in multiset(run[i].orders[k]) && e in c.ends;
    var t := RunInv(c, run, i);
    assert RoundOk(run[i], e);
    EmitsWhatTheLoopEmits(c, run, i, e, k);
  }

  /** The states in between. */
  lemma {:induction false} FoldStates<S, D, C>(c: Job<S, D, C>, s: System<S, D, C>, k: nat, order: seq<Replica>)
    returns (states: seq<S>)
    requires k <= |s.orders|
    requires forall j :: 0 <= j < |order| ==>
      order[j] in s.log && k < |s.log[order[j]]| && s.log[order[j]][k] == AllEmits(c, s, k)(order[j])
    ensures |states| == |order| + 1 && states[0] == After(c, s.orders, k).state
    ensures forall j :: 0 <= j < |order| ==> FoldsOne(c, s, k, order[j], states[j], states[j + 1])
    ensures states[|order|] == FoldDeltas(c, After(c, s.orders, k).state, AllEmits(c, s, k), order)
  {
    if order == [] {
      states := [After(c, s.orders, k).state];
    } else {
      var n := |order| - 1;
      var before := FoldStates(c, s, k, order[..n]);
      states := before + [FoldDeltas(c, After(c, s.orders, k).state, AllEmits(c, s, k), order)];
      forall j | 0 <= j < |order| ensures FoldsOne(c, s, k, order[j], states[j], states[j + 1]) {
        if j < n { assert FoldsOne(c, s, k, order[..n][j], before[j], before[j + 1]); }
      }
    }
  }

  /** What leaves the loop at the end of a run is what the feeder of the replica has emitted in its last round. */
  lemma OutputIsOfLogs<S, D, C>(c: Job<S, D, C>, run: seq<System<S, D, C>>, i: nat, r: Replica, k: nat)
    requires ValidJob(c) && IsRun(c, run) && i < |run| && Shape(c, run[i])
    requires !c.replay && r in c.iters && k < |run[i].orders|
    ensures FeedOf(c, r) in c.bodies && k < |run[i].log[FeedOf(c, r)]|
    ensures var l, l' := After(c, run[i].orders, k), After(c, run[i].orders, k + 1);
            l'.outputs(r) ==
              if l'.run == l.run then l.outputs(r) else l.outputs(r) + [run[i].log[FeedOf(c, r)][k]]
  {
    var t := RunInv(c, run, i);
    assert RoundOk(run[i], FeedOf(c, r));
    EmitsWhatTheLoopEmits(c, run, i, FeedOf(c, r), k);
    RoundOutputs(c, After(c, run[i].orders, k), run[i].orders[k], r);
  }

  lemma RoundOutputs<S, D, C>(c: Job<S, D, C>, l: Loop<S, C>, order: seq<Replica>, r: Replica)
    requires !c.replay
    ensures var l' := Round(c, l, order);
            l'.outputs(r) ==
              if l'.run == l.run then l.outputs(r) else l.outputs(r) + [Emits(c, l.state, l.data, FeedOf(c, r))]
  {
  }
}
