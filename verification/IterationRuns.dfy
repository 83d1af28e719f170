/** The runs of an iteration, one by one. */
module IterationRuns {
  /*
    The loop of the protocol, which runs for ever and resets itself, against a loop that runs once; its
    independence of the interleaving; and its leader against the operator IterationLeader.
   */

  import opened IterationProtocol
  import opened IterationInvariant
  import opened IterationRefinement
  import opened Streams
  import SequentialLoop
  import Operator = IterationLeader

  type Point<S, C> = SequentialLoop.Point<S, Replica -> C>

  // Every run is a loop by itself ------------------------------------------------------------------

  /** The loop the user wrote, free of replicas, locks and resets. */
  function LoopOf<S, D, C>(c: Job<S, D, C>): SequentialLoop.Program<S, Replica -> C, seq<Replica>> {
    SequentialLoop.Program(
      (order, state: S, data) =>
        var (state', condition) := Folded(c, state, data, order); (state', condition, AllFedBack(c, state, data)),
      c.maxIterations)
  }

  function Inputs<S, D, C>(c: Job<S, D, C>): nat -> (Replica -> C) { (n: nat) => InputOf(c, n) }

  /** The ends of the finished runs, when the rounds so far were folded in these orders. */
  function RunsOf<S, D, C>(c: Job<S, D, C>, orders: seq<seq<Replica>>): seq<Point<S, C>> {
    RunsFrom(c, 0, orders)
  }

  function States<S, C>(ps: seq<Point<S, C>>): (s: seq<S>)
    ensures |s| == |ps| && forall i :: 0 <= i < |ps| ==> s[i] == ps[i].state
  {
    seq(|ps|, i requires 0 <= i < |ps| => ps[i].state)
  }

  function Outputs<S, C>(ps: seq<Point<S, C>>, r: Replica): (s: seq<C>)
    ensures |s| == |ps| && forall i :: 0 <= i < |ps| ==> s[i] == ps[i].data(r)
  {
    seq(|ps|, i requires 0 <= i < |ps| => ps[i].data(r))
  }

  function AfterFrom<S, D, C>(c: Job<S, D, C>, l: Loop<S, C>, orders: seq<seq<Replica>>): Loop<S, C> {
    if orders == [] then l else Round(c, AfterFrom(c, l, orders[..|orders| - 1]), orders[|orders| - 1])
  }

  lemma {:induction false} AfterIsFromStart<S, D, C>(c: Job<S, D, C>, orders: seq<seq<Replica>>, k: nat)
    requires k <= |orders|
    ensures After(c, orders, k) == AfterFrom(c, Start(c), orders[..k])
  {
    if k > 0 {
      AfterIsFromStart(c, orders, k - 1);
      assert orders[..k][..k - 1] == orders[..k - 1];
    }
  }

  lemma {:induction false} AfterBoth<S, D, C>(c: Job<S, D, C>, l: Loop<S, C>, a: seq<seq<Replica>>,
      b: seq<seq<Replica>>)
    ensures AfterFrom(c, l, a + b) == AfterFrom(c, AfterFrom(c, l, a), b)
  {
    if b == [] {
      assert a + b == a;
    } else {
      assert (a + b)[..|a + b| - 1] == a + b[..|b| - 1];
      AfterBoth(c, l, a, b[..|b| - 1]);
    }
  }

  ghost predicate IsFresh<S, D, C>(c: Job<S, D, C>, l: Loop<S, C>) {
    l.index == 0 && l.state == c.initial && l.data == InputOf(c, l.run)
  }

  function LengthOf<S, D, C>(c: Job<S, D, C>, run: nat, orders: seq<seq<Replica>>): nat {
    SequentialLoop.Length(LoopOf(c), c.initial, InputOf(c, run), orders)
  }

  function OneRun<S, D, C>(c: Job<S, D, C>, run: nat, orders: seq<seq<Replica>>): Point<S, C> {
    SequentialLoop.Run(LoopOf(c), c.initial, InputOf(c, run), orders)
  }

  /** Within a run. */
  lemma {:induction false} InsideRun<S, D, C>(c: Job<S, D, C>, l: Loop<S, C>, orders: seq<seq<Replica>>)
    requires IsFresh(c, l) && LengthOf(c, l.run, orders) == 0
    ensures var q := OneRun(c, l.run, orders);
            AfterFrom(c, l, orders) == l.(state := q.state, index := |orders|, data := q.data)
  {
    if orders != [] {
      var n := |orders| - 1;
      InsideRun(c, l, orders[..n]);
      assert orders[..|orders|] == orders;
    }
  }

  /** The last round of a run. */
  lemma EndOfRun<S, D, C>(c: Job<S, D, C>, l: Loop<S, C>, orders: seq<seq<Replica>>)
    requires IsFresh(c, l) && orders != [] && LengthOf(c, l.run, orders) == |orders|
    ensures var q, l' := OneRun(c, l.run, orders), AfterFrom(c, l, orders);
            && IsFresh(c, l') && l'.run == l.run + 1 && l'.results == l.results + [q.state]
            && forall r :: l'.outputs(r) == l.outputs(r) + [q.data(r)]
  {
    InsideRun(c, l, orders[..|orders| - 1]);
    assert orders[..|orders|] == orders;
  }

  /** A run is what it is, whatever rounds come after it. */
  lemma PrefixIsRun<S, D, C>(c: Job<S, D, C>, run: nat, orders: seq<seq<Replica>>)
    requires LengthOf(c, run, orders) > 0
    ensures var k := LengthOf(c, run, orders);
            LengthOf(c, run, orders[..k]) == k
  {
    SequentialLoop.LengthOfPrefix(LoopOf(c), c.initial, InputOf(c, run), orders);
  }

  function RunsFrom<S, D, C>(c: Job<S, D, C>, n: nat, orders: seq<seq<Replica>>): seq<Point<S, C>> {
    SequentialLoop.Runs(LoopOf(c), c.initial, Inputs(c), n, orders)
  }

  function RestFrom<S, D, C>(c: Job<S, D, C>, n: nat, orders: seq<seq<Replica>>): seq<seq<Replica>> {
    SequentialLoop.Rest(LoopOf(c), c.initial, Inputs(c), n, orders)
  }

  /** From the fresh loop l to l', the runs ps have come to their end, and one more has done the rounds of `rest`. */
  ghost predicate Follows<S, D, C>(c: Job<S, D, C>, l: Loop<S, C>, l': Loop<S, C>, ps: seq<Point<S, C>>,
      rest: seq<seq<Replica>>) {
    && l'.run == l.run + |ps| && l'.results == l.results + States(ps)
    && (forall r :: l'.outputs(r) == l.outputs(r) + Outputs(ps, r))
    && l'.index == |rest| && l'.state == OneRun(c, l'.run, rest).state && l'.data == OneRun(c, l'.run, rest).data
  }

  lemma FollowsOneMore<S, D, C>(c: Job<S, D, C>, l: Loop<S, C>, m: Loop<S, C>, l': Loop<S, C>, p: Point<S, C>,
      ps: seq<Point<S, C>>, rest: seq<seq<Replica>>)
    requires m.run == l.run + 1 && m.results == l.results + [p.state] &&
      forall r :: m.outputs(r) == l.outputs(r) + [p.data(r)]
    requires Follows(c, m, l', ps, rest)
    ensures Follows(c, l, l', [p] + ps, rest)
  {
    assert [p.state] + States(ps) == States([p] + ps);
    forall r ensures l'.outputs(r) == l.outputs(r) + Outputs([p] + ps, r) {
      assert [p.data(r)] + Outputs(ps, r) == Outputs([p] + ps, r);
    }
  }

  lemma RunsUnfold<S, D, C>(c: Job<S, D, C>, n: nat, orders: seq<seq<Replica>>)
    ensures var k := LengthOf(c, n, orders);
            if k == 0 then RunsFrom(c, n, orders) == [] && RestFrom(c, n, orders) == orders
            else
              && RunsFrom(c, n, orders) == [OneRun(c, n, orders[..k])] + RunsFrom(c, n + 1, orders[k..])
              && RestFrom(c, n, orders) == RestFrom(c, n + 1, orders[k..])
  {
  }

  lemma NoRunYet<S, D, C>(c: Job<S, D, C>, l: Loop<S, C>, orders: seq<seq<Replica>>)
    requires IsFresh(c, l) && LengthOf(c, l.run, orders) == 0
    ensures Follows(c, l, AfterFrom(c, l, orders), [], orders)
  {
    InsideRun(c, l, orders);
    assert l.results + States<S, C>([]) == l.results && forall r :: l.outputs(r) + Outputs<S, C>([], r) == l.outputs(r);
  }

  /** The loop of the protocol is one run after the other. */
  lemma {:induction false} FollowsRuns<S, D, C>(c: Job<S, D, C>, l: Loop<S, C>, orders: seq<seq<Replica>>)
    requires IsFresh(c, l)
    ensures Follows(c, l, AfterFrom(c, l, orders), RunsFrom(c, l.run, orders), RestFrom(c, l.run, orders))
    decreases |orders|
  {
    var k := LengthOf(c, l.run, orders);
    RunsUnfold(c, l.run, orders);
    if k == 0 {
      NoRunYet(c, l, orders);
    } else {
      var some, others := orders[..k], orders[k..];
      var m := AfterFrom(c, l, some);
      PrefixIsRun(c, l.run, orders);
      EndOfRun(c, l, some);
      FollowsRuns(c, m, others);
      FollowsOneMore(c, l, m, AfterFrom(c, m, others), OneRun(c, l.run, some), RunsFrom(c, m.run, others),
        RestFrom(c, m.run, others));
      assert orders == some + others;
      AfterBoth(c, l, some, others);
    }
  }

  /**
    What comes out of an iteration: for every finished run the state, and the data of the last round,
    of a loop that starts from the initial state and the input of that run, and stops at its first
    round after which the condition is false or the maximum is reached.
   */
  lemma ResultsAreRuns<S, D, C>(c: Job<S, D, C>, run: seq<System<S, D, C>>, i: nat)
    requires ValidJob(c) && IsRun(c, run) && i < |run|
    ensures run[i].leader.results == States(RunsOf(c, run[i].orders))
  {
    var t := RunInv(c, run, i);
    var k := |run[i].orders|;
    TraceIsLoop(c, run[i].orders, t, k);
    AfterIsFromStart(c, run[i].orders, k);
    assert run[i].orders[..k] == run[i].orders;
    FollowsRuns(c, Start(c), run[i].orders);
  }

  lemma OutputsAreRuns<S, D, C>(c: Job<S, D, C>, run: seq<System<S, D, C>>, i: nat, r: Replica)
    requires ValidJob(c) && IsRun(c, run) && i < |run| && Shape(c, run[i]) && r in c.iters
    ensures var s := run[i];
            var k := Resumed(s.iter[r].phase, |s.log[r]|);
            && 0 <= k <= |s.orders|
            && s.iter[r].outputs == Outputs(RunsOf(c, s.orders[..k]), r)
            && s.iter[r].run == |RunsOf(c, s.orders[..k])|
  {
    var s := run[i];
    var t := RunInv(c, run, i);
    assert DataAt(c, s, t, r);
    var k := Resumed(s.iter[r].phase, |s.log[r]|);
    TraceIsLoop(c, s.orders, t, k);
    AfterIsFromStart(c, s.orders, k);
    FollowsRuns(c, Start(c), s.orders[..k]);
  }

  /** One result: the rounds of its run, in each of which the leader has folded one delta of every replica. */
  lemma ResultIsOneRun<S, D, C>(c: Job<S, D, C>, run: seq<System<S, D, C>>, i: nat, m: nat)
    returns (orders: seq<seq<Replica>>)
    requires ValidJob(c) && IsRun(c, run) && i < |run| && m < |run[i].leader.results|
    ensures orders != [] && AllOnce(c, orders) && LengthOf(c, m, orders) == |orders|
    ensures run[i].leader.results[m] == OneRun(c, m, orders).state
  {
    var t := RunInv(c, run, i);
    ResultsAreRuns(c, run, i);
    orders := OrdersOfRun(c, run[i].orders, m);
  }

  /** One output of a replica. */
  lemma OutputIsOneRun<S, D, C>(c: Job<S, D, C>, run: seq<System<S, D, C>>, i: nat, r: Replica, m: nat)
    returns (orders: seq<seq<Replica>>)
    requires ValidJob(c) && IsRun(c, run) && i < |run| && Shape(c, run[i]) && r in c.iters
    requires m < |run[i].iter[r].outputs|
    ensures orders != [] && AllOnce(c, orders) && LengthOf(c, m, orders) == |orders|
    ensures run[i].iter[r].outputs[m] == OneRun(c, m, orders).data(r)
  {
    var t := RunInv(c, run, i);
    OutputsAreRuns(c, run, i, r);
    var k := Resumed(run[i].iter[r].phase, |run[i].log[r]|);
    orders := OrdersOfRun(c, run[i].orders[..k], m);
  }

  lemma OrdersOfRun<S, D, C>(c: Job<S, D, C>, all: seq<seq<Replica>>, m: nat) returns (orders: seq<seq<Replica>>)
    requires AllOnce(c, all) && m < |RunsOf(c, all)|
    ensures orders != [] && AllOnce(c, orders) && LengthOf(c, m, orders) == |orders|
    ensures RunsOf(c, all)[m] == OneRun(c, m, orders)
  {
    var lo;
    lo, orders := SequentialLoop.RunsAt(LoopOf(c), c.initial, Inputs(c), 0, all, m);
    forall k | 0 <= k < |orders| ensures EveryEndOnce(c, orders[k]) { assert orders[k] == all[lo..][k] == all[lo + k]; }
  }

  // Every interleaving computes the same -----------------------------------------------------------

  ghost predicate Swaps<S, D, C>(c: Job<S, D, C>, s: S, d: D, e: D) {
    c.globalFold(c.globalFold(s, d), e) == c.globalFold(c.globalFold(s, e), d)
  }

  /** The order of the deltas does not matter to the global fold. */
  ghost predicate Commutes<S(!new), D(!new), C>(c: Job<S, D, C>) { forall s, d, e :: Swaps(c, s, d, e) }

  /** A delta may be folded last. */
  lemma {:induction false} FoldLast<S(!new), D(!new), C>(c: Job<S, D, C>, state: S, emits: Replica -> C,
      a: seq<Replica>, x: Replica,
      b: seq<Replica>)
    requires Commutes(c)
    ensures FoldDeltas(c, state, emits, a + [x] + b) == FoldDeltas(c, state, emits, a + b + [x])
  {
    if b == [] {
      assert a + [x] + b == a + b + [x];
    } else {
      var n := |b| - 1;
      var y := b[n];
      FoldLast(c, state, emits, a, x, b[..n]);
      assert (a + [x] + b)[..|a| + 1 + n] == a + [x] + b[..n];
      assert (a + b + [x])[..|a| + |b|] == a + b && (a + b)[..|a| + n] == a + b[..n];
      assert (a + b[..n] + [x])[..|a| + n] == a + b[..n];
      var s := FoldDeltas(c, state, emits, a + b[..n]);
      assert Swaps(c, s, c.localFold(x, emits(x)), c.localFold(y, emits(y)));
    }
  }

  lemma {:induction false} FoldPermuted<S(!new), D(!new), C>(c: Job<S, D, C>, state: S, emits: Replica -> C,
      a: seq<Replica>,
      b: seq<Replica>)
    requires Commutes(c) && multiset(a) == multiset(b)
    ensures FoldDeltas(c, state, emits, a) == FoldDeltas(c, state, emits, b)
  {
    assert |multiset(a)| == |a| && |multiset(b)| == |b|;
    if a != [] {
      var n := |a| - 1;
      assert a == a[..n] + [a[n]];
      var b1, b2 := TakeOut(a[..n], a[n], b);
      FoldPermuted(c, state, emits, a[..n], b1 + b2);
      FoldLast(c, state, emits, b1, a[n], b2);
      FoldAppend(c, state, emits, b1 + b2, a[n]);
    }
  }

  lemma FoldAppend<S, D, C>(c: Job<S, D, C>, state: S, emits: Replica -> C, order: seq<Replica>, e: Replica)
    ensures FoldDeltas(c, state, emits, order + [e]) ==
            c.globalFold(FoldDeltas(c, state, emits, order), c.localFold(e, emits(e)))
  {
    assert (order + [e])[..|order|] == order;
  }

  ghost predicate AllOnce<S, D, C>(c: Job<S, D, C>, orders: seq<seq<Replica>>) {
    forall k :: 0 <= k < |orders| ==> EveryEndOnce(c, orders[k])
  }

  lemma {:induction false} SameLoop<S(!new), D(!new), C>(c: Job<S, D, C>, orders: seq<seq<Replica>>,
      orders': seq<seq<Replica>>, k: nat)
    requires Commutes(c) && AllOnce(c, orders) && AllOnce(c, orders') && k <= |orders| && k <= |orders'|
    ensures After(c, orders, k) == After(c, orders', k)
  {
    if k > 0 {
      SameLoop(c, orders, orders', k - 1);
      assert EveryEndOnce(c, orders[k - 1]) && EveryEndOnce(c, orders'[k - 1]);
      SameRound(c, After(c, orders, k - 1), orders[k - 1], orders'[k - 1]);
    }
  }

  lemma SameRound<S(!new), D(!new), C>(c: Job<S, D, C>, l: Loop<S, C>, order: seq<Replica>, order': seq<Replica>)
    requires Commutes(c) && multiset(order) == multiset(order')
    ensures Round(c, l, order) == Round(c, l, order')
  {
    FoldPermuted(c, l.state, AllEmit(c, l.state, l.data), order, order');
  }

  lemma {:induction false} ResultsGrow<S, D, C>(c: Job<S, D, C>, orders: seq<seq<Replica>>, k: nat, k': nat)
    requires k <= k' <= |orders|
    ensures After(c, orders, k).results <= After(c, orders, k').results
  {
    if k < k' { ResultsGrow(c, orders, k, k' - 1); }
  }

  /**
    If the order of the deltas does not matter to the global fold, the results of a job do not depend
    on the interleaving: of two executions, one has only got further than the other.
   */
  lemma InterleavingsAgree<S(!new), D(!new), C>(c: Job<S, D, C>, run: seq<System<S, D, C>>, i: nat,
      run': seq<System<S, D, C>>, i': nat)
    requires ValidJob(c) && Commutes(c) && IsRun(c, run) && i < |run| && IsRun(c, run') && i' < |run'|
    requires |run[i].orders| <= |run'[i'].orders|
    ensures run[i].leader.results <= run'[i'].leader.results
    ensures forall n, k :: (
              (n in c.iters || n in c.bodies) && n in run[i].log && n in run'[i'].log &&
              0 <= k < |run[i].log[n]| && k < |run'[i'].log[n]|
            ) ==> run[i].log[n][k] == run'[i'].log[n][k]
  {
    var s, s' := run[i], run'[i'];
    var t := RunInv(c, run, i);
    var t' := RunInv(c, run', i');
    TraceIsLoop(c, s.orders, t, |s.orders|);
    TraceIsLoop(c, s'.orders, t', |s'.orders|);
    SameLoop(c, s.orders, s'.orders, |s.orders|);
    ResultsGrow(c, s'.orders, |s.orders|, |s'.orders|);
    forall n, k | (n in c.iters || n in c.bodies) && n in s.log && n in s'.log && 0 <= k < |s.log[n]| && k < |s'.log[n]|
      ensures s.log[n][k] == s'.log[n][k]
    {
      SameEntry(c, s, t, s', t', n, k);
    }
  }

  lemma SameEntry<S(!new), D(!new), C>(c: Job<S, D, C>, s: System<S, D, C>, t: Trace<S, C>, s': System<S, D, C>,
      t': Trace<S, C>, n: Replica, k: nat)
    requires ValidJob(c) && Commutes(c) && Inv(c, s, t) && Inv(c, s', t') && (n in c.iters || n in c.bodies)
    requires k < |s.log[n]| && k < |s'.log[n]|
    ensures s.log[n][k] == s'.log[n][k]
  {
    assert LogAt(s, t, n) && EmitsOk(c, t, k, n) && LogAt(s', t', n) && EmitsOk(c, t', k, n);
    TraceIsLoop(c, s.orders, t, k);
    TraceIsLoop(c, s'.orders, t', k);
    SameLoop(c, s.orders, s'.orders, k);
  }

  // The leader of the protocol is the operator -----------------------------------------------------

  function LeaderLoop<S, D, C>(c: Job<S, D, C>): Operator.Loop<S, D> {
    Operator.Loop(|c.ends|, c.maxIterations, c.initial, c.globalFold, c.condition)
  }

  /** The deltas of these replicas, in this order. */
  function DeltasOf<S, D, C>(c: Job<S, D, C>, emits: Replica -> C, order: seq<Replica>): (ds: seq<D>)
    ensures |ds| == |order|
  {
    if order == [] then []
    else
      var e := order[|order| - 1];
      DeltasOf(c, emits, order[..|order| - 1]) + [c.localFold(e, emits(e))]
  }

  /** The deltas of the rounds from the k-th on, as they arrive at the leader. */
  function DeltasFrom<S, D, C>(c: Job<S, D, C>, orders: seq<seq<Replica>>, k: nat): seq<D>
    requires k <= |orders|
    decreases |orders| - k
  {
    if k == |orders| then []
    else
      var l := After(c, orders, k);
      DeltasOf(c, AllEmit(c, l.state, l.data), orders[k]) + DeltasFrom(c, orders, k + 1)
  }

  lemma {:induction false} FoldsAgree<S, D, C>(c: Job<S, D, C>, state: S, emits: Replica -> C, order: seq<Replica>)
    ensures Operator.FoldAll(LeaderLoop(c), state, DeltasOf(c, emits, order)) == FoldDeltas(c, state, emits, order)
  {
    if order != [] {
      var n := |order| - 1;
      var ds := DeltasOf(c, emits, order);
      FoldsAgree(c, state, emits, order[..n]);
      Operator.FoldOneMore(LeaderLoop(c), state, ds, n);
      assert ds[..n] == DeltasOf(c, emits, order[..n]) && ds[..n + 1] == ds;
    }
  }

  /** The k-th round of the loop ends as the operator decides. */
  ghost predicate DecidesRound<S, D, C>(c: Job<S, D, C>, orders: seq<seq<Replica>>, k: nat, d: Operator.Decision<S>)
    requires k < |orders|
  {
    var l, l' := After(c, orders, k), After(c, orders, k + 1);
    && d.GoOn? == (l'.run == l.run)
    && Operator.Feedback(LeaderLoop(c), d) == (d.GoOn?, l'.state)
    && l'.results == l.results + if d.GoOn? then [] else [d.result]
  }

  function DecisionsFrom<S, D, C>(c: Job<S, D, C>, orders: seq<seq<Replica>>, k: nat): seq<Operator.Decision<S>>
    requires c.ends != {} && k <= |orders|
  {
    var l := After(c, orders, k);
    Operator.Decisions(LeaderLoop(c), l.state, l.index, DeltasFrom(c, orders, k))
  }

  ghost predicate DecidesAll<S, D, C>(c: Job<S, D, C>, orders: seq<seq<Replica>>, k: nat, ds: seq<Operator.Decision<S>>)
    requires k <= |orders|
  {
    |ds| == |orders| - k && forall j :: 0 <= j < |ds| ==> DecidesRound(c, orders, k + j, ds[j])
  }

  lemma DecidesOneMore<S, D, C>(c: Job<S, D, C>, orders: seq<seq<Replica>>, k: nat, ds: seq<Operator.Decision<S>>)
    requires k < |orders| && ds != [] && DecidesRound(c, orders, k, ds[0]) && DecidesAll(c, orders, k + 1, ds[1..])
    ensures DecidesAll(c, orders, k, ds)
  {
    forall j | 0 <= j < |ds| ensures DecidesRound(c, orders, k + j, ds[j]) {
      if j > 0 { assert DecidesRound(c, orders, k + 1 + (j - 1), ds[1..][j - 1]); }
    }
  }

  /** What the operator decides from the k-th round on is what the loop does. */
  lemma {:induction false} DecisionsFollow<S, D, C>(c: Job<S, D, C>, orders: seq<seq<Replica>>, k: nat)
    requires c.ends != {} && AllOnce(c, orders) && k <= |orders|
    ensures DecidesAll(c, orders, k, DecisionsFrom(c, orders, k))
    decreases |orders| - k
  {
    if k == |orders| {
      NothingToDecide(c, orders);
    } else {
      DecisionsFollow(c, orders, k + 1);
      assert EveryEndOnce(c, orders[k]);
      DecisionFollows(c, orders, k);
    }
  }

  lemma DecisionFollows<S, D, C>(c: Job<S, D, C>, orders: seq<seq<Replica>>, k: nat)
    requires c.ends != {} && k < |orders| && EveryEndOnce(c, orders[k]) &&
      DecidesAll(c, orders, k + 1, DecisionsFrom(c, orders, k + 1))
    ensures DecidesAll(c, orders, k, DecisionsFrom(c, orders, k))
  {
    DecisionStep(c, orders, k);
    DecidesOneMore(c, orders, k, DecisionsFrom(c, orders, k));
  }

  lemma NothingToDecide<S, D, C>(c: Job<S, D, C>, orders: seq<seq<Replica>>)
    requires c.ends != {}
    ensures DecisionsFrom(c, orders, |orders|) == []
  {
    var l := After(c, orders, |orders|);
    assert DeltasFrom(c, orders, |orders|) == [] && |c.ends| > 0;
    Operator.DecisionsUnfold(LeaderLoop(c), l.state, l.index, []);
  }

  lemma DecisionStep<S, D, C>(c: Job<S, D, C>, orders: seq<seq<Replica>>, k: nat)
    requires c.ends != {} && k < |orders| && EveryEndOnce(c, orders[k])
    ensures var ds := DecisionsFrom(c, orders, k);
            ds != [] && DecidesRound(c, orders, k, ds[0]) && ds[1..] == DecisionsFrom(c, orders, k + 1)
  {
    var l := After(c, orders, k);
    FirstDecision(c, l, orders[k], DeltasFrom(c, orders, k + 1));
    assert DeltasFrom(c, orders, k) == DeltasOf(c, AllEmit(c, l.state, l.data), orders[k]) +
      DeltasFrom(c, orders, k + 1);
    assert After(c, orders, k + 1) == Round(c, l, orders[k]);
  }

  lemma FirstDecision<S, D, C>(c: Job<S, D, C>, l: Loop<S, C>, order: seq<Replica>, rest: seq<D>)
    requires c.ends != {} && EveryEndOnce(c, order)
    ensures var ds := Operator.Decisions(LeaderLoop(c), l.state, l.index,
      DeltasOf(c, AllEmit(c, l.state, l.data), order) + rest);
            var l' := Round(c, l, order);
            && ds != [] && ds[1..] == Operator.Decisions(LeaderLoop(c), l'.state, l'.index, rest)
            && ds[0].GoOn? == (l'.run == l.run)
            && Operator.Feedback(LeaderLoop(c), ds[0]) == (ds[0].GoOn?, l'.state)
            && l'.results == l.results + if ds[0].GoOn? then [] else [ds[0].result]
  {
    var first := DeltasOf(c, AllEmit(c, l.state, l.data), order);
    assert |multiset(order)| == |order| && |multiset(c.ends)| == |c.ends|;
    assert (first + rest)[..|c.ends|] == first && (first + rest)[|c.ends|..] == rest;
    FoldsAgree(c, l.state, AllEmit(c, l.state, l.data), order);
    Operator.DecisionsUnfold(LeaderLoop(c), l.state, l.index, first + rest);
  }

  /** The decisions of the operator on the deltas that have arrived, in the order of their arrival. */
  function DecisionsOf<S, D, C>(c: Job<S, D, C>, orders: seq<seq<Replica>>): seq<Operator.Decision<S>>
    requires c.ends != {}
  {
    DecisionsFrom(c, orders, 0)
  }

  lemma {:induction false} ResultsFollow<S, D, C>(c: Job<S, D, C>, orders: seq<seq<Replica>>, k: nat)
    requires c.ends != {} && DecidesAll(c, orders, 0, DecisionsOf(c, orders)) && k <= |orders|
    ensures After(c, orders, k).results == Finals(DecisionsOf(c, orders)[..k])
  {
    if k > 0 {
      ResultsFollow(c, orders, k - 1);
      var ds := DecisionsOf(c, orders);
      assert ds[..k][..k - 1] == ds[..k - 1] && DecidesRound(c, orders, 0 + (k - 1), ds[k - 1]);
    }
  }

  function Finals<S>(ds: seq<Operator.Decision<S>>): seq<S> {
    if ds == [] then []
    else
      var d := ds[|ds| - 1];
      Finals(ds[..|ds| - 1]) + if d.GoOn? then [] else [d.result]
  }

  /** An answer is the one the operator broadcasts for a decision. */
  ghost predicate IsAnswer<S, D, C>(c: Job<S, D, C>, ds: seq<Operator.Decision<S>>, k: int, m: Feedback<S>) {
    0 < k <= |ds| && Operator.Feedback(LeaderLoop(c), ds[k - 1]) == (m.goOn, m.state)
  }

  /**
    The leader of the protocol is the operator: one decision for each round it has decided, the final
    states are its results, the replicas get the answers it broadcasts, and its state in between is the
    operator's fold.
   */
  lemma LeaderIsTheOperator<S, D, C>(c: Job<S, D, C>, run: seq<System<S, D, C>>, i: nat)
    requires ValidJob(c) && IsRun(c, run) && i < |run| && Shape(c, run[i])
    ensures var s, ds := run[i], DecisionsOf(c, run[i].orders);
            && |ds| == |s.orders|
            && s.leader.results == Finals(ds)
            && (s.leader.toSend != {} ==> IsAnswer(c, ds, |ds|, s.leader.msg))
            && (forall r <- c.iters :: s.iter[r].inbox != [] ==> IsAnswer(c, ds, Sent(s, r), s.iter[r].inbox[0]))
            && s.leader.state == FoldedSoFar(c, s)
  {
    var s := run[i];
    var t := RunInv(c, run, i);
    DecisionsFollow(c, s.orders, 0);
    ResultsAreFinals(c, s, t);
    AnswersFollow(c, s, t);
    LeaderFolds(c, s, t);
  }

  lemma ResultsAreFinals<S, D, C>(c: Job<S, D, C>, s: System<S, D, C>, t: Trace<S, C>)
    requires ValidJob(c) && Inv(c, s, t) && DecidesAll(c, s.orders, 0, DecisionsOf(c, s.orders))
    ensures s.leader.results == Finals(DecisionsOf(c, s.orders))
  {
    var k := |s.orders|;
    ResultsFollow(c, s.orders, k);
    assert DecisionsOf(c, s.orders)[..k] == DecisionsOf(c, s.orders);
    TraceIsLoop(c, s.orders, t, k);
  }

  lemma AnswersFollow<S, D, C>(c: Job<S, D, C>, s: System<S, D, C>, t: Trace<S, C>)
    requires ValidJob(c) && Inv(c, s, t) && DecidesAll(c, s.orders, 0, DecisionsOf(c, s.orders))
    ensures s.leader.toSend != {} ==> IsAnswer(c, DecisionsOf(c, s.orders), |s.orders|, s.leader.msg)
    ensures forall r <- c.iters :: s.iter[r].inbox != [] ==>
      IsAnswer(c, DecisionsOf(c, s.orders), Sent(s, r), s.iter[r].inbox[0])
  {
    if s.leader.toSend != {} { AnswerFollows(c, s.orders, t, |s.orders|); }
    forall r | r in c.iters && s.iter[r].inbox != []
      ensures IsAnswer(c, DecisionsOf(c, s.orders), Sent(s, r), s.iter[r].inbox[0])
    {
      assert DataAt(c, s, t, r);
      AnswerFollows(c, s.orders, t, Sent(s, r));
    }
  }

  /** The operator's fold of the deltas the leader has taken for the round. */
  function FoldedSoFar<S, D, C>(c: Job<S, D, C>, s: System<S, D, C>): S {
    var l := After(c, s.orders, |s.orders|);
    Operator.FoldAll(LeaderLoop(c), l.state, DeltasOf(c, AllEmit(c, l.state, l.data), s.taken))
  }

  lemma AnswerFollows<S, D, C>(c: Job<S, D, C>, orders: seq<seq<Replica>>, t: Trace<S, C>, k: nat)
    requires c.ends != {} && IsTrace(c, orders, t) && DecidesAll(c, orders, 0, DecisionsOf(c, orders)) &&
      0 < k <= |orders|
    ensures IsAnswer(c, DecisionsOf(c, orders), k, FeedbackAfter(t, k))
  {
    assert DecidesRound(c, orders, 0 + (k - 1), DecisionsOf(c, orders)[k - 1]);
    TraceAnswers(c, orders, t, k);
  }

  lemma TraceAnswers<S, D, C>(c: Job<S, D, C>, orders: seq<seq<Replica>>, t: Trace<S, C>, k: nat)
    requires IsTrace(c, orders, t) && 0 < k <= |orders|
    ensures FeedbackAfter(t, k) == Feedback(After(c, orders, k).run == After(c, orders, k - 1).run,
      After(c, orders, k).state)
  {
    TraceIsLoop(c, orders, t, k - 1);
    TraceIsLoop(c, orders, t, k);
  }

  lemma LeaderFolds<S, D, C>(c: Job<S, D, C>, s: System<S, D, C>, t: Trace<S, C>)
    requires ValidJob(c) && Inv(c, s, t)
    ensures s.leader.state == FoldedSoFar(c, s)
  {
    var k := |s.orders|;
    var l := t.loops[k];
    TraceIsLoop(c, s.orders, t, k);
    forall n ensures t.emits[k](n) == AllEmit(c, l.state, l.data)(n) { assert EmitsOk(c, t, k, n); }
    FoldSame(c, l.state, t.emits[k], AllEmit(c, l.state, l.data), s.taken);
    FoldsAgree(c, l.state, AllEmit(c, l.state, l.data), s.taken);
  }
}
