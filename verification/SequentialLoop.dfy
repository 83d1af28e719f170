/** A loop that runs by itself. */
module SequentialLoop {
  /*
    What an iteration is for: a loop that runs once, and the sequence of such runs. There is no reset here,
    and no counter of runs: every run begins with the initial state and its own input.
   */

  /** One round, given the order in which the deltas are folded: the new state, the loop condition, the new data. */
  datatype Program<!S, !C, !X> = Program(round: (X, S, C) -> (S, bool, C), maxIterations: nat)

  datatype Point<+S, +C> = Point(state: S, condition: bool, data: C)

  /** As many rounds as there are orders. */
  function Run<S, C, X>(p: Program<S, C, X>, initial: S, input: C, orders: seq<X>): Point<S, C> {
    if orders == [] then Point(initial, true, input)
    else
      var n := |orders| - 1;
      var before := Run(p, initial, input, orders[..n]);
      var (state, condition, data) := p.round(orders[n], before.state, before.data);
      Point(state, condition, data)
  }

  lemma RunNext<S, C, X>(p: Program<S, C, X>, initial: S, input: C, orders: seq<X>, order: X)
    ensures var before, after := Run(p, initial, input, orders), Run(p, initial, input, orders + [order]);
            p.round(order, before.state, before.data) == (after.state, after.condition, after.data)
  {
    assert (orders + [order])[..|orders|] == orders;
  }

  /** A run stops after its first round at the earliest: when the condition is false or the rounds are used up. */
  predicate Stops<S, C, X>(p: Program<S, C, X>, initial: S, input: C, orders: seq<X>) {
    orders != [] && (!Run(p, initial, input, orders).condition || |orders| >= p.maxIterations)
  }

  /** The number of rounds of the first run, or 0 if it has not stopped yet. */
  function Length<S, C, X>(p: Program<S, C, X>, initial: S, input: C, orders: seq<X>): (k: nat)
    ensures k <= |orders|
    ensures k > 0 ==> Stops(p, initial, input, orders[..k]) && forall j :: 0 <= j < k ==>
      !Stops(p, initial, input, orders[..j])
    ensures k == 0 ==> forall j :: 0 <= j <= |orders| ==> !Stops(p, initial, input, orders[..j])
  {
    if orders == [] then 0
    else
      var n := |orders| - 1;
      var k := Length(p, initial, input, orders[..n]);
      assert forall j :: 0 <= j <= n ==> orders[..n][..j] == orders[..j];
      assert orders[..|orders|] == orders;
      if k > 0 then k else if Stops(p, initial, input, orders) then |orders| else 0
  }

  /** The ends of the n-th run and of all the runs after it, as far as the orders go. */
  function Runs<S, C, X>(p: Program<S, C, X>, initial: S, input: nat -> C, n: nat, orders: seq<X>): seq<Point<S, C>>
    decreases |orders|
  {
    var k := Length(p, initial, input(n), orders);
    if k == 0 then []
    else [Run(p, initial, input(n), orders[..k])] + Runs(p, initial, input, n + 1, orders[k..])
  }

  /** The rounds of the run that is not over. */
  function Rest<S, C, X>(p: Program<S, C, X>, initial: S, input: nat -> C, n: nat, orders: seq<X>): seq<X>
    decreases |orders|
  {
    var k := Length(p, initial, input(n), orders);
    if k == 0 then orders else Rest(p, initial, input, n + 1, orders[k..])
  }

  /** The first stop is where the run ends, whatever comes after. */
  lemma LengthIsFirst<S, C, X>(p: Program<S, C, X>, initial: S, input: C, orders: seq<X>, k: nat)
    requires 0 < k <= |orders| && Stops(p, initial, input, orders[..k])
    requires forall j :: 0 <= j < k ==> !Stops(p, initial, input, orders[..j])
    ensures Length(p, initial, input, orders) == k
  {
  }

  /** A run is what it is, whatever rounds come after it. */
  lemma LengthOfPrefix<S, C, X>(p: Program<S, C, X>, initial: S, input: C, orders: seq<X>)
    requires Length(p, initial, input, orders) > 0
    ensures var k := Length(p, initial, input, orders); Length(p, initial, input, orders[..k]) == k
  {
    var k := Length(p, initial, input, orders);
    var some := orders[..k];
    assert some[..k] == some;
    assert forall j :: 0 <= j < k ==> some[..j] == orders[..j];
    LengthIsFirst(p, initial, input, some, k);
  }

  lemma RunsUnfold<S, C, X>(p: Program<S, C, X>, initial: S, input: nat -> C, n: nat, orders: seq<X>, m: nat)
    returns (k: nat)
    requires m < |Runs(p, initial, input, n, orders)|
    ensures 0 < k <= |orders| && k == Length(p, initial, input(n), orders)
    ensures Runs(p, initial, input, n, orders)[0] == Run(p, initial, input(n), orders[..k])
    ensures m > 0 ==>
      var rest := Runs(p, initial, input, n + 1, orders[k..]);
      m - 1 < |rest| && Runs(p, initial, input, n, orders)[m] == rest[m - 1]
  {
    k := Length(p, initial, input(n), orders);
  }

  /** The rounds of a run by itself. */
  ghost predicate IsRunOf<S, C, X>(p: Program<S, C, X>, initial: S, input: C, orders: seq<X>, end: Point<S, C>) {
    orders != [] && Length(p, initial, input, orders) == |orders| && end == Run(p, initial, input, orders)
  }

  lemma FirstRun<S, C, X>(p: Program<S, C, X>, initial: S, input: nat -> C, n: nat, orders: seq<X>)
    returns (some: seq<X>)
    requires 0 < |Runs(p, initial, input, n, orders)|
    ensures some <= orders && IsRunOf(p, initial, input(n), some, Runs(p, initial, input, n, orders)[0])
  {
    var k := RunsUnfold(p, initial, input, n, orders, 0);
    some := orders[..k];
    LengthOfPrefix(p, initial, input(n), orders);
  }

  /** The m-th of these runs is one whole run by itself, on its own input. */
  lemma {:induction false} RunsAt<S, C, X>(p: Program<S, C, X>, initial: S, input: nat -> C, n: nat, orders: seq<X>,
      m: nat)
    returns (lo: nat, some: seq<X>)
    requires m < |Runs(p, initial, input, n, orders)|
    ensures lo <= |orders| && some <= orders[lo..]
    ensures IsRunOf(p, initial, input(n + m), some, Runs(p, initial, input, n, orders)[m])
    decreases m
  {
    if m == 0 {
      lo := 0;
      some := FirstRun(p, initial, input, n, orders);
    } else {
      var k := RunsUnfold(p, initial, input, n, orders, m);
      lo, some := RunsAt(p, initial, input, n + 1, orders[k..], m - 1);
      assert orders[k..][lo..] == orders[k + lo..];
      lo := k + lo;
    }
  }

  /** A run whose last condition is true has gone on until the rounds were used up. */
  lemma LastsToTheMaximum<S, C, X>(p: Program<S, C, X>, initial: S, input: C, orders: seq<X>)
    requires orders != [] && Length(p, initial, input, orders) == |orders| && Run(p, initial, input, orders).condition
    ensures |orders| >= p.maxIterations
    ensures forall j :: 0 < j <= |orders| ==> Run(p, initial, input, orders[..j]).condition
  {
    var k := |orders|;
    assert orders[..k] == orders && Stops(p, initial, input, orders[..k]);
    forall j | 0 < j <= k ensures Run(p, initial, input, orders[..j]).condition {
      if j < k { assert !Stops(p, initial, input, orders[..j]); }
    }
  }
}
