/** Label propagation on top of an iteration: the example connected_components. */
module ConnectedComponents {
  import opened Streams
  import opened Graphs
  import opened SequentialLoop

  // The program ------------------------------------------------------------------------------------

  /** A vertex and its new component. */
  type Change = (nat, nat)

  datatype State = State(component: seq<nat>, updated: bool, iterations: nat)

  function Initial(n: nat): State { State(seq(n, i => i), false, 0) }

  /** The edges are undirected. */
  function BothWays(pairs: set<Edge>): set<Edge> { pairs + set p | p in pairs :: (p.1, p.0) }

  /** The components that reach vertex y along an edge. */
  function Offers(edges: set<Edge>, data: set<Change>, y: nat): set<nat> {
    set d | d in data && (d.0, y) in edges :: d.1
  }

  ghost predicate IsLeast(s: set<nat>, m: nat) { m in s && forall x :: x in s ==> m <= x }

  /** The vertex gets its least offer, if it is smaller than its component. */
  ghost predicate IsChange(edges: set<Edge>, s: State, data: set<Change>, d: Change) {
    d.0 < |s.component| && IsLeast(Offers(edges, data, d.0), d.1) && s.component[d.0] > d.1
  }

  /** The deltas of a round: every change is made once, by one of the replicas. */
  ghost predicate AreDeltas(edges: set<Edge>, s: State, data: set<Change>, deltas: seq<seq<Change>>) {
    && (forall d :: d in Flatten(deltas) <==> IsChange(edges, s, data, d))
    && forall d :: multiset(Flatten(deltas))[d] <= 1
  }

  function Assign(component: seq<nat>, changes: seq<Change>): (c: seq<nat>)
    ensures |c| == |component|
  {
    if changes == [] then component
    else
      var c, d := Assign(component, changes[..|changes| - 1]), changes[|changes| - 1];
      if d.0 < |c| then c[d.0 := d.1] else c
  }

  /** The global fold. */
  function Apply(s: State, changes: seq<Change>): State {
    State(Assign(s.component, changes), s.updated || changes != [], s.iterations)
  }

  function ApplyAll(s: State, deltas: seq<seq<Change>>): (s': State)
    ensures |s'.component| == |s.component|
  {
    if deltas == [] then s else Apply(ApplyAll(s, deltas[..|deltas| - 1]), deltas[|deltas| - 1])
  }

  /** The loop condition. */
  function Decide(s: State): (State, bool) { (State(s.component, false, s.iterations + 1), s.updated) }

  function AsSet(changes: seq<Change>): set<Change> { set d | d in changes }

  function Loop(maxIterations: nat): Program<State, set<Change>, seq<seq<Change>>> {
    Program((deltas, s: State, data) => var (s', go) := Decide(ApplyAll(s, deltas)); (s', go, AsSet(Flatten(deltas))),
      maxIterations)
  }

  // One round --------------------------------------------------------------------------------------

  /** No vertex is assigned twice, in whatever order. */
  lemma {:induction false} AssignAt(component: seq<nat>, changes: seq<Change>, v: nat)
    requires v < |component|
    requires forall i, j :: 0 <= i < j < |changes| ==> changes[i].0 != changes[j].0
    ensures (exists c :: (v, c) in changes && Assign(component, changes)[v] == c) ||
            ((forall c :: (v, c) !in changes) && Assign(component, changes)[v] == component[v])
  {
    if changes != [] {
      var n := |changes| - 1;
      AssignAt(component, changes[..n], v);
      assert changes == changes[..n] + [changes[n]];
      if changes[n].0 == v {
        assert (v, changes[n].1) in changes;
      } else if c :| (v, c) in changes[..n] && Assign(component, changes[..n])[v] == c {
        assert (v, c) in changes;
      }
    }
  }

  lemma {:induction false} AssignConcat(component: seq<nat>, a: seq<Change>, b: seq<Change>)
    ensures Assign(Assign(component, a), b) == Assign(component, a + b)
  {
    if b == [] {
      assert a + b == a;
    } else {
      assert (a + b)[..|a + b| - 1] == a + b[..|b| - 1];
      AssignConcat(component, a, b[..|b| - 1]);
    }
  }

  lemma {:induction false} ApplyIsAssign(s: State, deltas: seq<seq<Change>>)
    ensures ApplyAll(s, deltas) ==
      State(Assign(s.component, Flatten(deltas)), s.updated || Flatten(deltas) != [], s.iterations)
  {
    if deltas != [] {
      var n := |deltas| - 1;
      ApplyIsAssign(s, deltas[..n]);
      AssignConcat(s.component, Flatten(deltas[..n]), deltas[n]);
    }
  }

  lemma ChangesAreDistinct(edges: set<Edge>, s: State, data: set<Change>, deltas: seq<seq<Change>>)
    requires AreDeltas(edges, s, data, deltas)
    ensures var changes := Flatten(deltas); forall i, j :: 0 <= i < j < |changes| ==> changes[i].0 != changes[j].0
  {
    var changes := Flatten(deltas);
    forall i, j | 0 <= i < j < |changes| ensures changes[i].0 != changes[j].0 {
      assert IsChange(edges, s, data, changes[i]) && IsChange(edges, s, data, changes[j]);
      if changes[i].0 == changes[j].0 {
        assert changes[i] == changes[j];
        Twice(changes, i, j);
      }
    }
  }

  lemma Twice<T>(s: seq<T>, i: nat, j: nat)
    requires i < j < |s| && s[i] == s[j]
    ensures multiset(s)[s[i]] >= 2
  {
    assert s == s[..j] + [s[j]] + s[j + 1..];
    assert s[i] in s[..j];
  }

  /** What a round does to the component of a vertex. */
  lemma RoundAt(edges: set<Edge>, s: State, data: set<Change>, deltas: seq<seq<Change>>, v: nat)
    requires AreDeltas(edges, s, data, deltas) && v < |s.component|
    ensures var c := ApplyAll(s, deltas).component[v];
            if exists d :: d in Flatten(deltas) && d.0 == v
            then IsChange(edges, s, data, (v, c)) && (v, c) in Flatten(deltas)
            else c == s.component[v]
  {
    ApplyIsAssign(s, deltas);
    ChangesAreDistinct(edges, s, data, deltas);
    AssignAt(s.component, Flatten(deltas), v);
    if d :| d in Flatten(deltas) && d.0 == v { assert (v, d.1) in Flatten(deltas); }
  }

  // The invariant ----------------------------------------------------------------------------------

  ghost predicate LabelOk(edges: set<Edge>, s: State, v: nat)
    requires v < |s.component|
  {
    s.component[v] <= v && Reaches(edges, v, s.component[v])
  }

  /** The end of an edge has no greater component than its beginning, or the latter is still on its way. */
  predicate EdgeOk(s: State, data: set<Change>, e: Edge) {
    e.0 < |s.component| && e.1 < |s.component| &&
    (s.component[e.1] <= s.component[e.0] || (e.0, s.component[e.0]) in data)
  }

  ghost predicate Inv(n: nat, edges: set<Edge>, s: State, data: set<Change>) {
    && |s.component| == n && !s.updated
    && (forall v :: 0 <= v < n ==> LabelOk(edges, s, v))
    && (forall e :: e in edges ==> EdgeOk(s, data, e))
    && forall d :: d in data ==> d.0 < n && d.1 == s.component[d.0]
  }

  predicate AreVertices(n: nat, data: set<Change>) {
    && (forall v :: 0 <= v < n ==> (v, v) in data)
    && forall d :: d in data ==> d.0 < n && d.1 == d.0
  }

  predicate IsGraph(n: nat, edges: set<Edge>) {
    IsSymmetric(edges) && forall e :: e in edges ==> e.0 < n && e.1 < n
  }

  lemma BothWaysIsGraph(n: nat, pairs: set<Edge>)
    ensures IsGraph(n, BothWays(pairs)) <==> forall p :: p in pairs ==> p.0 < n && p.1 < n
  {
    forall p | p in pairs ensures p in BothWays(pairs) {}
  }

  lemma InitInv(n: nat, edges: set<Edge>, data: set<Change>)
    requires IsGraph(n, edges) && AreVertices(n, data)
    ensures Inv(n, edges, Initial(n), data)
  {
    forall v | 0 <= v < n ensures LabelOk(edges, Initial(n), v) { ReachesItself(edges, v); }
  }

  lemma RoundInv(n: nat, edges: set<Edge>, s: State, data: set<Change>, deltas: seq<seq<Change>>)
    requires IsGraph(n, edges) && Inv(n, edges, s, data) && AreDeltas(edges, s, data, deltas)
    ensures Inv(n, edges, Decide(ApplyAll(s, deltas)).0, AsSet(Flatten(deltas)))
  {
    var s', changes := ApplyAll(s, deltas), Flatten(deltas);
    ApplyIsAssign(s, deltas);
    forall v | 0 <= v < n ensures LabelOk(edges, Decide(s').0, v) { RoundLabel(n, edges, s, data, deltas, v); }
    forall e | e in edges ensures EdgeOk(Decide(s').0, AsSet(changes), e) { RoundEdge(n, edges, s, data, deltas, e); }
    forall d | d in changes ensures d.0 < n && d.1 == s'.component[d.0] {
      assert IsChange(edges, s, data, d);
      RoundAt(edges, s, data, deltas, d.0);
      assert IsChange(edges, s, data, (d.0, s'.component[d.0]));
    }
  }

  lemma RoundLabel(n: nat, edges: set<Edge>, s: State, data: set<Change>, deltas: seq<seq<Change>>, v: nat)
    requires IsGraph(n, edges) && Inv(n, edges, s, data) && AreDeltas(edges, s, data, deltas) && v < n
    ensures v < |ApplyAll(s, deltas).component| && LabelOk(edges, ApplyAll(s, deltas), v)
  {
    ApplyIsAssign(s, deltas);
    RoundAt(edges, s, data, deltas, v);
    assert LabelOk(edges, s, v);
    var c := ApplyAll(s, deltas).component[v];
    if c != s.component[v] {
      assert c in Offers(edges, data, v);
      var d :| d in data && (d.0, v) in edges && d.1 == c;
      assert LabelOk(edges, s, d.0) && (v, d.0) in edges;
      ReachesEarlier(edges, v, d.0, c);
    }
  }

  lemma RoundEdge(n: nat, edges: set<Edge>, s: State, data: set<Change>, deltas: seq<seq<Change>>, e: Edge)
    requires IsGraph(n, edges) && Inv(n, edges, s, data) && AreDeltas(edges, s, data, deltas) && e in edges
    ensures EdgeOk(ApplyAll(s, deltas), AsSet(Flatten(deltas)), e)
  {
    ApplyIsAssign(s, deltas);
    var (x, y) := e;
    assert EdgeOk(s, data, e);
    RoundAt(edges, s, data, deltas, x);
    RoundAt(edges, s, data, deltas, y);
    var c := s.component[x];
    if c < s.component[y] && ApplyAll(s, deltas).component[x] == c {
      assert c in Offers(edges, data, y);
      var m := LeastOf(Offers(edges, data, y), c);
      assert IsChange(edges, s, data, (y, m));
    }
  }

  lemma {:induction false} LeastOf(s: set<nat>, x: nat) returns (m: nat)
    requires x in s
    ensures IsLeast(s, m) && m <= x
    decreases x
  {
    if y :| y in s && y < x { m := LeastOf(s, y); } else { m := x; }
  }

  // The result -------------------------------------------------------------------------------------

  ghost predicate IsLeastReachable(edges: set<Edge>, v: nat, c: nat) {
    Reaches(edges, v, c) && forall w :: Reaches(edges, v, w) ==> c <= w
  }

  /** Without changes on the way, the component is the same all along a path. */
  lemma {:induction false} SameComponent(n: nat, edges: set<Edge>, s: State, path: seq<nat>, a: nat, b: nat)
    requires IsGraph(n, edges) && Inv(n, edges, s, {}) && IsPath(edges, path, a, b) && a < n
    ensures b < n && s.component[a] == s.component[b]
  {
    if |path| > 1 {
      var rest := path[1..];
      assert IsStep(edges, path, 0);
      assert EdgeOk(s, {}, (a, rest[0])) && EdgeOk(s, {}, (rest[0], a));
      forall i | 0 <= i < |rest| - 1 ensures IsStep(edges, rest, i) { assert IsStep(edges, path, i + 1); }
      SameComponent(n, edges, s, rest, rest[0], b);
    }
  }

  lemma NoChangeIsDone(n: nat, edges: set<Edge>, s: State, v: nat)
    requires IsGraph(n, edges) && Inv(n, edges, s, {}) && v < n
    ensures IsLeastReachable(edges, v, s.component[v])
  {
    assert LabelOk(edges, s, v);
    forall w | Reaches(edges, v, w) ensures s.component[v] <= w {
      var path :| IsPath(edges, path, v, w);
      SameComponent(n, edges, s, path, v, w);
      assert LabelOk(edges, s, w);
    }
  }

  function Sum(component: seq<nat>): nat {
    if component == [] then 0 else Sum(component[..|component| - 1]) + component[|component| - 1]
  }

  lemma {:induction false} SumFalls(a: seq<nat>, b: seq<nat>, v: nat)
    requires |a| == |b| && v < |a| && a[v] < b[v] && forall i :: 0 <= i < |a| ==> a[i] <= b[i]
    ensures Sum(a) < Sum(b)
  {
    var n := |a| - 1;
    if v < n { SumFalls(a[..n], b[..n], v); } else { SumLess(a[..n], b[..n]); }
  }

  lemma {:induction false} SumLess(a: seq<nat>, b: seq<nat>)
    requires |a| == |b| && forall i :: 0 <= i < |a| ==> a[i] <= b[i]
    ensures Sum(a) <= Sum(b)
  {
    if a != [] { SumLess(a[..|a| - 1], b[..|b| - 1]); }
  }

  /** A round that continues lowers the sum of the components. */
  lemma RoundLowers(edges: set<Edge>, s: State, data: set<Change>, deltas: seq<seq<Change>>)
    requires AreDeltas(edges, s, data, deltas) && Flatten(deltas) != []
    ensures Sum(ApplyAll(s, deltas).component) < Sum(s.component)
  {
    ApplyIsAssign(s, deltas);
    var s', d := ApplyAll(s, deltas), Flatten(deltas)[0];
    forall v | 0 <= v < |s.component| ensures s'.component[v] <= s.component[v] { RoundAt(edges, s, data, deltas, v); }
    assert IsChange(edges, s, data, d);
    RoundAt(edges, s, data, deltas, d.0);
    SumFalls(s'.component, s.component, d.0);
  }

  // Whole runs -------------------------------------------------------------------------------------

  function After(n: nat, max: nat, data: set<Change>, rounds: seq<seq<seq<Change>>>, k: nat): Point<State, set<Change>>
    requires k <= |rounds|
  {
    Run(Loop(max), Initial(n), data, rounds[..k])
  }

  /** The deltas of every round are those of the example's body. */
  ghost predicate AreRounds(n: nat, max: nat, edges: set<Edge>, data: set<Change>, rounds: seq<seq<seq<Change>>>) {
    forall k ::
      0 <= k < |rounds| ==> AreDeltas(edges, After(n, max, data, rounds, k).state,
        After(n, max, data, rounds, k).data, rounds[k])
  }

  lemma AfterNext(n: nat, max: nat, data: set<Change>, rounds: seq<seq<seq<Change>>>, k: nat)
    requires k < |rounds|
    ensures var p := After(n, max, data, rounds, k);
            var (s, go) := Decide(ApplyAll(p.state, rounds[k]));
            After(n, max, data, rounds, k + 1) == Point(s, go, AsSet(Flatten(rounds[k])))
  {
    assert rounds[..k + 1][..k] == rounds[..k];
  }

  lemma {:induction false} RunKeeps(n: nat, max: nat, edges: set<Edge>, data: set<Change>,
      rounds: seq<seq<seq<Change>>>, k: nat)
    requires IsGraph(n, edges) && AreVertices(n, data) && AreRounds(n, max, edges, data, rounds) && k <= |rounds|
    ensures Inv(n, edges, After(n, max, data, rounds, k).state, After(n, max, data, rounds, k).data)
    ensures k > 0 ==> (After(n, max, data, rounds, k).condition <==>
      rounds[k - 1] != [] && Flatten(rounds[k - 1]) != [])
  {
    if k == 0 {
      InitInv(n, edges, data);
    } else {
      RunKeeps(n, max, edges, data, rounds, k - 1);
      AfterNext(n, max, data, rounds, k - 1);
      var p := After(n, max, data, rounds, k - 1);
      RoundInv(n, edges, p.state, p.data, rounds[k - 1]);
      ApplyIsAssign(p.state, rounds[k - 1]);
    }
  }

  /**
    If the loop stops because a round changes nothing, the component of every vertex is the least vertex
    that can be reached from it.
   */
  lemma ComponentsAreFound(n: nat, max: nat, edges: set<Edge>, data: set<Change>, rounds: seq<seq<seq<Change>>>, v: nat)
    requires IsGraph(n, edges) && AreVertices(n, data) && AreRounds(n, max, edges, data, rounds) && v < n
    requires rounds != [] && !Run(Loop(max), Initial(n), data, rounds).condition
    ensures var s := Run(Loop(max), Initial(n), data, rounds).state;
            |s.component| == n && IsLeastReachable(edges, v, s.component[v])
  {
    var k := |rounds|;
    assert rounds[..k] == rounds;
    RunKeeps(n, max, edges, data, rounds, k);
    AfterNext(n, max, data, rounds, k - 1);
    assert AsSet(Flatten(rounds[k - 1])) == {};
    NoChangeIsDone(n, edges, After(n, max, data, rounds, k).state, v);
  }

  /** The rounds that continue are bounded, so that the loop stops by itself if it is allowed enough of them. */
  lemma {:induction false} RoundsAreBounded(n: nat, max: nat, edges: set<Edge>, data: set<Change>,
      rounds: seq<seq<seq<Change>>>, k: nat)
    requires IsGraph(n, edges) && AreVertices(n, data) && AreRounds(n, max, edges, data, rounds) && k <= |rounds|
    requires forall j :: 0 < j <= k ==> After(n, max, data, rounds, j).condition
    ensures Sum(After(n, max, data, rounds, k).state.component) + k <= Sum(Initial(n).component)
  {
    if k > 0 {
      RoundsAreBounded(n, max, edges, data, rounds, k - 1);
      AfterNext(n, max, data, rounds, k - 1);
      RunKeeps(n, max, edges, data, rounds, k);
      var p := After(n, max, data, rounds, k - 1);
      RoundLowers(edges, p.state, p.data, rounds[k - 1]);
    }
  }

  lemma {:induction false} SumOfInitial(n: nat)
    ensures 2 * Sum(Initial(n).component) == n * n - n
  {
    if n > 0 {
      SumOfInitial(n - 1);
      assert Initial(n).component[..n - 1] == Initial(n - 1).component;
    }
  }

  /** With more rounds allowed than there are pairs of vertices, every run ends with the right components. */
  lemma EnoughRounds(n: nat, max: nat, edges: set<Edge>, data: set<Change>, rounds: seq<seq<seq<Change>>>, v: nat)
    requires IsGraph(n, edges) && AreVertices(n, data) && AreRounds(n, max, edges, data, rounds) && v < n
    requires rounds != [] && Length(Loop(max), Initial(n), data, rounds) == |rounds|
    requires 2 * max > n * n - n
    ensures var s := Run(Loop(max), Initial(n), data, rounds).state;
            |s.component| == n && IsLeastReachable(edges, v, s.component[v])
  {
    if Run(Loop(max), Initial(n), data, rounds).condition {
      LastsToTheMaximum(Loop(max), Initial(n), data, rounds);
      RoundsAreBounded(n, max, edges, data, rounds, |rounds|);
      SumOfInitial(n);
      assert false;
    }
    ComponentsAreFound(n, max, edges, data, rounds, v);
  }

  /** The pairs of the file are the edges: two vertices end in the same component if and only if they are connected. */
  lemma ComponentsAreClasses(n: nat, max: nat, pairs: set<Edge>, data: set<Change>, rounds: seq<seq<seq<Change>>>,
      v: nat, w: nat)
    requires AreVertices(n, data) && AreRounds(n, max, BothWays(pairs), data, rounds) && v < n && w < n
    requires forall p :: p in pairs ==> p.0 < n && p.1 < n
    requires rounds != [] && Length(Loop(max), Initial(n), data, rounds) == |rounds|
    requires 2 * max > n * n - n
    ensures var s := Run(Loop(max), Initial(n), data, rounds).state;
            |s.component| == n && (s.component[v] == s.component[w] <==> Reaches(BothWays(pairs), v, w))
  {
    var edges := BothWays(pairs);
    BothWaysIsGraph(n, pairs);
    EnoughRounds(n, max, edges, data, rounds, v);
    EnoughRounds(n, max, edges, data, rounds, w);
    var s := Run(Loop(max), Initial(n), data, rounds).state;
    SameLeast(edges, v, s.component[v], w, s.component[w]);
  }

  lemma SameLeast(edges: set<Edge>, v: nat, c: nat, w: nat, d: nat)
    requires IsSymmetric(edges) && IsLeastReachable(edges, v, c) && IsLeastReachable(edges, w, d)
    ensures c == d <==> Reaches(edges, v, w)
  {
    if c == d {
      ReachesBack(edges, w, d);
      ReachesThrough(edges, v, c, w);
    }
    if Reaches(edges, v, w) {
      ReachesThrough(edges, v, w, d);
      ReachesBack(edges, v, w);
      ReachesThrough(edges, w, v, c);
    }
  }
}
