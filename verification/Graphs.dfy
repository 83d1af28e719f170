/**
  Paths in directed graphs.
  They are sequences of vertices; what the graph algorithms use is that paths can be put together, made longer
  at both ends, and, when every edge goes both ways, reversed.
 */
module Graphs {
  type Edge = (nat, nat)

  predicate IsStep(edges: set<Edge>, path: seq<nat>, i: int)
    requires 0 <= i < |path| - 1
  {
    (path[i], path[i + 1]) in edges
  }

  ghost predicate IsPath(edges: set<Edge>, path: seq<nat>, a: nat, b: nat) {
    path != [] && path[0] == a && path[|path| - 1] == b && forall i :: 0 <= i < |path| - 1 ==> IsStep(edges, path, i)
  }

  /** By any number of edges, or none. */
  ghost predicate Reaches(edges: set<Edge>, a: nat, b: nat) { exists path :: IsPath(edges, path, a, b) }

  lemma ReachesItself(edges: set<Edge>, a: nat)
    ensures Reaches(edges, a, a)
  {
    assert IsPath(edges, [a], a, a);
  }

  lemma ReachesFurther(edges: set<Edge>, a: nat, b: nat, c: nat)
    requires Reaches(edges, a, b) && (b, c) in edges
    ensures Reaches(edges, a, c)
  {
    var path :| IsPath(edges, path, a, b);
    var longer := path + [c];
    forall i | 0 <= i < |longer| - 1 ensures IsStep(edges, longer, i) {
      if i < |path| - 1 { assert IsStep(edges, path, i); }
    }
    assert IsPath(edges, longer, a, c);
  }

  lemma ReachesEarlier(edges: set<Edge>, a: nat, b: nat, c: nat)
    requires (a, b) in edges && Reaches(edges, b, c)
    ensures Reaches(edges, a, c)
  {
    var path :| IsPath(edges, path, b, c);
    var longer := [a] + path;
    forall i | 0 <= i < |longer| - 1 ensures IsStep(edges, longer, i) {
      if i > 0 { assert IsStep(edges, path, i - 1); }
    }
    assert IsPath(edges, longer, a, c);
  }

  lemma {:induction false} ReachesAlong(edges: set<Edge>, a: nat, path: seq<nat>, b: nat, c: nat)
    requires Reaches(edges, a, b) && IsPath(edges, path, b, c)
    ensures Reaches(edges, a, c)
  {
    if |path| > 1 {
      var n := |path| - 1;
      forall i | 0 <= i < n - 1 ensures IsStep(edges, path[..n], i) { assert IsStep(edges, path, i); }
      assert IsStep(edges, path, n - 1);
      ReachesAlong(edges, a, path[..n], b, path[n - 1]);
      ReachesFurther(edges, a, path[n - 1], c);
    }
  }

  lemma ReachesThrough(edges: set<Edge>, a: nat, b: nat, c: nat)
    requires Reaches(edges, a, b) && Reaches(edges, b, c)
    ensures Reaches(edges, a, c)
  {
    var path :| IsPath(edges, path, b, c);
    ReachesAlong(edges, a, path, b, c);
  }

  predicate IsSymmetric(edges: set<Edge>) { forall e :: e in edges ==> (e.1, e.0) in edges }

  lemma {:induction false} BackAlong(edges: set<Edge>, path: seq<nat>, a: nat, b: nat)
    requires IsSymmetric(edges) && IsPath(edges, path, a, b)
    ensures Reaches(edges, b, a)
  {
    if |path| == 1 {
      ReachesItself(edges, a);
    } else {
      var rest := path[1..];
      assert IsStep(edges, path, 0);
      forall i | 0 <= i < |rest| - 1 ensures IsStep(edges, rest, i) { assert IsStep(edges, path, i + 1); }
      BackAlong(edges, rest, rest[0], b);
      assert (a, rest[0]) in edges;
      ReachesFurther(edges, b, rest[0], a);
    }
  }

  lemma ReachesBack(edges: set<Edge>, a: nat, b: nat)
    requires IsSymmetric(edges) && Reaches(edges, a, b)
    ensures Reaches(edges, b, a)
  {
    var path :| IsPath(edges, path, a, b);
    BackAlong(edges, path, a, b);
  }
}
