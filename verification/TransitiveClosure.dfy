/** Paths made longer edge by edge on top of an iteration: the example transitive_closure. */
module TransitiveClosure {
  import opened Streams
  import opened Graphs
  import opened SequentialLoop

  // The program ------------------------------------------------------------------------------------

  /** The number of paths after the last round, and in this one. */
  datatype State = State(before: nat, now: nat, iterations: nat)

  /** Paths from z to x and edges from x to y. */
  function Longer(edges: set<Edge>, paths: set<Edge>): set<Edge> {
    set p, e | p in paths && e in edges && p.1 == e.0 :: (p.0, e.1)
  }

  /** The body of the loop: longer paths join those there are; double ones and those that go back are dropped. */
  function Body(edges: set<Edge>, paths: set<Edge>): set<Edge> {
    set p | p in Longer(edges, paths) + paths && p.0 != p.1
  }

  function Sum(counts: seq<nat>): nat {
    if counts == [] then 0 else Sum(counts[..|counts| - 1]) + counts[|counts| - 1]
  }

  function Decide(s: State): (State, bool) { (State(s.now, 0, s.iterations + 1), s.before != s.now) }

  /** The deltas are how many paths each replica has. */
  function Loop(edges: set<Edge>, max: nat): Program<State, set<Edge>, seq<nat>> {
    Program((counts, s: State, paths) => Round(edges, counts, s, paths), max)
  }

  function Round(edges: set<Edge>, counts: seq<nat>, s: State, paths: set<Edge>): (State, bool, set<Edge>) {
    var (s', go) := Decide(s.(now := s.now + Sum(counts)));
    (s', go, Body(edges, paths))
  }

  const INITIAL: State := State(0, 0, 0)

  function After(edges: set<Edge>, max: nat, rounds: seq<seq<nat>>, k: nat): Point<State, set<Edge>>
    requires k <= |rounds|
  {
    Run(Loop(edges, max), INITIAL, edges, rounds[..k])
  }

  /** The replicas count the paths of the round. */
  predicate AreCounts(edges: set<Edge>, max: nat, rounds: seq<seq<nat>>) {
    forall k :: 0 <= k < |rounds| ==> Sum(rounds[k]) == |Body(edges, After(edges, max, rounds, k).data)|
  }

  lemma AfterNext(edges: set<Edge>, max: nat, rounds: seq<seq<nat>>, k: nat)
    requires k < |rounds|
    ensures var p, p' := After(edges, max, rounds, k), After(edges, max, rounds, k + 1);
            Round(edges, rounds[k], p.state, p.data) == (p'.state, p'.condition, p'.data)
  {
    assert rounds[..k + 1][..k] == rounds[..k];
  }

  // The invariant ----------------------------------------------------------------------------------

  ghost predicate IsReached(edges: set<Edge>, p: Edge) { p.0 != p.1 && Reaches(edges, p.0, p.1) }

  /** After at least one round: some of the pairs to be found, and all those of an edge. */
  ghost predicate Inv(edges: set<Edge>, paths: set<Edge>) {
    && (forall p :: p in paths ==> IsReached(edges, p))
    && forall e :: e in edges && e.0 != e.1 ==> e in paths
  }

  lemma EdgeReaches(edges: set<Edge>, e: Edge)
    requires e in edges
    ensures Reaches(edges, e.0, e.1)
  {
    ReachesItself(edges, e.0);
    ReachesFurther(edges, e.0, e.0, e.1);
  }

  lemma BodyInv(edges: set<Edge>, paths: set<Edge>)
    requires forall p :: p in paths ==> Reaches(edges, p.0, p.1)
    requires forall e :: e in edges && e.0 != e.1 ==> e in paths
    ensures Inv(edges, Body(edges, paths))
  {
    forall p | p in Body(edges, paths) ensures IsReached(edges, p) {
      if p in Longer(edges, paths) {
        var q, e :| q in paths && e in edges && q.1 == e.0 && p == (q.0, e.1);
        ReachesFurther(edges, q.0, q.1, e.1);
      }
    }
  }

  lemma {:induction false} RunInv(edges: set<Edge>, max: nat, rounds: seq<seq<nat>>, k: nat)
    requires 0 < k <= |rounds| && AreCounts(edges, max, rounds)
    ensures var p := After(edges, max, rounds, k);
            && Inv(edges, p.data) && p.state.before == |p.data| && p.state.now == 0
            && (p.condition <==> After(edges, max, rounds, k - 1).state.before != |p.data|)
  {
    AfterNext(edges, max, rounds, k - 1);
    if k == 1 {
      assert rounds[..0] == [];
      forall e | e in edges ensures Reaches(edges, e.0, e.1) { EdgeReaches(edges, e); }
      BodyInv(edges, edges);
    } else {
      RunInv(edges, max, rounds, k - 1);
      BodyInv(edges, After(edges, max, rounds, k - 1).data);
    }
  }

  /** Nothing is lost from the second round on. */
  lemma BodyGrows(edges: set<Edge>, paths: set<Edge>)
    requires Inv(edges, paths)
    ensures paths <= Body(edges, paths)
  {
    forall p | p in paths ensures p in Body(edges, paths) { assert IsReached(edges, p); }
  }

  lemma SameSize(a: set<Edge>, b: set<Edge>)
    requires a <= b && |a| == |b|
    ensures a == b
  {
    if x :| x in b && x !in a { assert a <= b - {x} && |b - {x}| == |b| - 1; Smaller(a, b - {x}); }
  }

  lemma Smaller(a: set<Edge>, b: set<Edge>)
    requires a <= b
    ensures |a| <= |b|
  {
    assert b == a + (b - a);
  }

  /** A path that leaves its beginning for good is found, if no path can be made longer. */
  lemma {:induction false} PathIsFound(edges: set<Edge>, paths: set<Edge>, path: seq<nat>, a: nat, b: nat)
    requires Inv(edges, paths) && Body(edges, paths) == paths && IsPath(edges, path, a, b) && a != b
    ensures (a, b) in paths
    decreases |path|
  {
    var n := |path| - 1;
    var c := path[n - 1];
    assert IsStep(edges, path, n - 1);
    if c != a {
      forall i | 0 <= i < n - 1 ensures IsStep(edges, path[..n], i) { assert IsStep(edges, path, i); }
      assert IsPath(edges, path[..n], a, c);
      PathIsFound(edges, paths, path[..n], a, c);
      var p, e := (a, c), (c, b);
      assert p in paths && e in edges && p.1 == e.0;
      assert (p.0, e.1) in Longer(edges, paths);
    }
  }

  ghost predicate IsClosure(edges: set<Edge>, paths: set<Edge>) {
    forall p :: p in paths <==> IsReached(edges, p)
  }

  lemma FixpointIsClosure(edges: set<Edge>, paths: set<Edge>)
    requires Inv(edges, paths) && Body(edges, paths) == paths
    ensures IsClosure(edges, paths)
  {
    forall p ensures p in paths <==> IsReached(edges, p) {
      if IsReached(edges, p) {
        var path :| IsPath(edges, path, p.0, p.1);
        PathIsFound(edges, paths, path, p.0, p.1);
      }
    }
  }

  /**
    If the loop stops because two counts agree, the paths are exactly the pairs of different vertices of
    which the first reaches the second, although only the numbers of paths are compared.
   */
  lemma ClosureIsFound(edges: set<Edge>, max: nat, rounds: seq<seq<nat>>)
    requires AreCounts(edges, max, rounds) && rounds != [] && !Run(Loop(edges, max), INITIAL, edges, rounds).condition
    ensures IsClosure(edges, Run(Loop(edges, max), INITIAL, edges, rounds).data)
  {
    var k := |rounds|;
    assert rounds[..k] == rounds;
    RunInv(edges, max, rounds, k);
    var paths := After(edges, max, rounds, k).data;
    if k == 1 {
      assert paths == {};
      NoEdges(edges, paths);
    } else {
      RunInv(edges, max, rounds, k - 1);
      AfterNext(edges, max, rounds, k - 1);
      var shorter := After(edges, max, rounds, k - 1).data;
      BodyGrows(edges, shorter);
      SameSize(shorter, paths);
    }
    FixpointIsClosure(edges, paths);
  }

  lemma NoEdges(edges: set<Edge>, paths: set<Edge>)
    requires paths == {}
    ensures Body(edges, paths) == paths
  {
  }

  // Enough rounds ----------------------------------------------------------------------------------

  function Vertices(edges: set<Edge>): set<nat> { (set e | e in edges :: e.0) + set e | e in edges :: e.1 }

  function Pairs(a: set<nat>, b: set<nat>): set<Edge> { set x, y | x in a && y in b :: (x, y) }

  lemma {:induction false} PairsCount(a: set<nat>, b: set<nat>)
    ensures |Pairs(a, b)| == |a| * |b|
  {
    if a == {} {
      assert Pairs(a, b) == {};
    } else {
      var x :| x in a;
      var rest := a - {x};
      PairsCount(rest, b);
      OneRow(rest, x, b);
      RowCount(x, b);
      assert a == rest + {x};
      Times(|rest|, |b|);
    }
  }

  lemma Times(m: nat, n: nat)
    ensures (m + 1) * n == m * n + n
  {
  }

  lemma OneRow(rest: set<nat>, x: nat, b: set<nat>)
    requires x !in rest
    ensures |Pairs(rest + {x}, b)| == |Pairs(rest, b)| + |Pairs({x}, b)|
  {
    assert Pairs(rest + {x}, b) == Pairs(rest, b) + Pairs({x}, b);
    assert Pairs(rest, b) !! Pairs({x}, b);
  }

  lemma {:induction false} RowCount(x: nat, b: set<nat>)
    ensures |Pairs({x}, b)| == |b|
  {
    if b == {} {
      assert Pairs({x}, b) == {};
    } else {
      var y :| y in b;
      RowCount(x, b - {y});
      assert Pairs({x}, b) == Pairs({x}, b - {y}) + {(x, y)};
    }
  }

  lemma ReachedAreVertices(edges: set<Edge>, a: nat, b: nat)
    requires a != b && Reaches(edges, a, b)
    ensures a in Vertices(edges) && b in Vertices(edges)
  {
    var path :| IsPath(edges, path, a, b);
    assert IsStep(edges, path, 0) && IsStep(edges, path, |path| - 2);
  }

  lemma FewPaths(edges: set<Edge>, paths: set<Edge>)
    requires Inv(edges, paths)
    ensures |paths| <= |Vertices(edges)| * |Vertices(edges)|
  {
    var vs := Vertices(edges);
    forall p | p in paths ensures p in Pairs(vs, vs) {
      assert IsReached(edges, p);
      ReachedAreVertices(edges, p.0, p.1);
    }
    Smaller(paths, Pairs(vs, vs));
    PairsCount(vs, vs);
  }

  /** Every round that continues finds a path. */
  lemma {:induction false} RoundsAreBounded(edges: set<Edge>, max: nat, rounds: seq<seq<nat>>, k: nat)
    requires AreCounts(edges, max, rounds) && 0 < k <= |rounds|
    requires forall j :: 0 < j <= k ==> After(edges, max, rounds, j).condition
    ensures k <= |After(edges, max, rounds, k).data|
  {
    RunInv(edges, max, rounds, k);
    if k > 1 {
      RoundsAreBounded(edges, max, rounds, k - 1);
      RunInv(edges, max, rounds, k - 1);
      AfterNext(edges, max, rounds, k - 1);
      var shorter := After(edges, max, rounds, k - 1).data;
      BodyGrows(edges, shorter);
      Smaller(shorter, After(edges, max, rounds, k).data);
    }
  }

  lemma NotForEver(edges: set<Edge>, max: nat, rounds: seq<seq<nat>>)
    requires AreCounts(edges, max, rounds) && rounds != []
    requires forall j :: 0 < j <= |rounds| ==> After(edges, max, rounds, j).condition
    ensures |rounds| <= |Vertices(edges)| * |Vertices(edges)|
  {
    RoundsAreBounded(edges, max, rounds, |rounds|);
    RunInv(edges, max, rounds, |rounds|);
    FewPaths(edges, After(edges, max, rounds, |rounds|).data);
  }

  /** With more rounds allowed than there are pairs of vertices, every run ends with the closure. */
  lemma EnoughRounds(edges: set<Edge>, max: nat, rounds: seq<seq<nat>>)
    requires AreCounts(edges, max, rounds) && rounds != [] &&
      Length(Loop(edges, max), INITIAL, edges, rounds) == |rounds|
    requires max > |Vertices(edges)| * |Vertices(edges)|
    ensures IsClosure(edges, Run(Loop(edges, max), INITIAL, edges, rounds).data)
  {
    if Run(Loop(edges, max), INITIAL, edges, rounds).condition {
      LastsToTheMaximum(Loop(edges, max), INITIAL, edges, rounds);
      NotForEver(edges, max, rounds);
      assert false;
    }
    ClosureIsFound(edges, max, rounds);
  }
}
