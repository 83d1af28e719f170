/** fold_scan and reduce_scan in every interleaving. */
module ScanJobs {
  /*
    The iteration of fold_scan as a job of the protocol: the block that begins with the Iterate and maps its
    elements, the block that feeds them back, and the block that folds them, without a shuffle between them.
   */

  import opened Streams
  import opened GroupBy
  import opened IterationProtocol
  import opened Layers
  import Runs = IterationRuns
  import Scans = TwoPasses
  import SequentialLoop

  // Without a shuffle ------------------------------------------------------------------------------

  function Forwards(block: nat): bool { false }

  function Pass<C>(n: nat, r: Replica, got: map<Replica, C>, nothing: C): C {
    if r >= n && r - n in got then got[r - n] else nothing
  }

  /** The replicas of the other blocks emit what they receive. */
  ghost predicate PassesOn<S(!new), D, C(!new)>(c: Job<S, D, C>, n: nat, nothing: C) {
    forall q: Replica, s, got {:trigger c.body(q, s, got)} :: c.body(q, s, got) == Pass(n, q, got, nothing)
  }

  lemma PassEmits<S(!new), D, C(!new)>(c: Job<S, D, C>, n: nat, host: nat -> nat, shuffled: nat -> bool, nothing: C,
      state: S, data: Replica -> C, b: nat, k: nat)
    requires IsLayered(c, n, 3, host, shuffled) && PassesOn(c, n, nothing) && k < n && b < 2 && !shuffled(b + 1)
    ensures Emits(c, state, data, At(n, b + 1, k)) == Emits(c, state, data, At(n, b, k))
  {
    var r := At(n, b + 1, k);
    AtIs(n, b + 1, k);
    BodyEmits(c, n, 3, host, shuffled, state, data, r);
    assert c.preds(r) == Senders(n, shuffled, r) == {At(n, b, k)};
  }

  /** What a replica is fed back after a round, and what it gives to the leader: what its first block emits. */
  lemma HeadPasses<S(!new), D, C(!new)>(c: Job<S, D, C>, n: nat, host: nat -> nat, nothing: C, state: S,
      data: Replica -> C, k: nat)
    requires IsLayered(c, n, 3, host, Forwards) && PassesOn(c, n, nothing) && k < n
    ensures AllFedBack(c, state, data)(k) == c.head(k, state, data(k))
    ensures AllEmit(c, state, data)(At(n, 2, k)) == c.head(k, state, data(k))
  {
    HeadEmits(c, n, 3, host, Forwards, state, data, k);
    PassEmits(c, n, host, Forwards, nothing, state, data, 0, k);
    PassEmits(c, n, host, Forwards, nothing, state, data, 1, k);
    FedBackIs(c, n, 3, host, Forwards, state, data, k);
  }

  // The job ----------------------------------------------------------------------------------------

  /** What a replica emits in a round; there is nothing where the code would panic. */
  type Data<I, O> = Option<seq<Scans.TwoPass<I, O>>>

  type ScanSystem<I, !L, G, O> = System<Option<G>, L, Data<I, O>>

  /** With n replicas, of which each has its part of the input of every run. */
  function JobOf<I, L, G, O>(c: Scans.Scan<I, L, G, O>, n: nat, host: nat -> nat, parts: nat -> seq<seq<I>>)
    : Job<Option<G>, L, Data<I, O>>
    requires n > 0
  {
    Layered(n, 3, host, Forwards,
      (r: Replica, state: Option<G>, data: Data<I, O>) => BodyOf(c, state, data),
      (r: Replica, state: Option<G>, got: map<Replica, Data<I, O>>) => Pass(n, r, got, None),
      (rounds: seq<Data<I, O>>) => None,
      (r: Replica, data: Data<I, O>) => DeltaOf(c, data),
      (state: Option<G>, delta: L) => FoldOne(c, state, delta),
      (state: Option<G>) => (state, true),
      None, 2, (run: nat, r: Replica) => InputFor(parts(run), r))
  }

  function BodyOf<I, L, G, O>(c: Scans.Scan<I, L, G, O>, state: Option<G>, data: Data<I, O>): Data<I, O> {
    if data.None? then None else Scans.BodyAll(c, state, data.value)
  }

  function DeltaOf<I, L, G, O>(c: Scans.Scan<I, L, G, O>, data: Data<I, O>): L {
    if data.None? then c.local.init else Scans.Delta(c, data.value)
  }

  function FoldOne<I, L, G, O>(c: Scans.Scan<I, L, G, O>, state: Option<G>, delta: L): Option<G> {
    Some(c.global.fold(if state.None? then c.global.init else state.value, delta))
  }

  function InputFor<I, O>(parts: seq<seq<I>>, r: nat): Data<I, O> {
    Some(if r < |parts| then Scans.Firsts(parts[r]) else [])
  }

  /** What the theorems need to know of the job. */
  ghost predicate IsScan<I(!new), L(!new), G(!new), O(!new)>(job: Job<Option<G>, L, Data<I, O>>,
      c: Scans.Scan<I, L, G, O>, n: nat, host: nat -> nat, parts: nat -> seq<seq<I>>) {
    && IsLayered(job, n, 3, host, Forwards)
    && PassesOn(job, n, None)
    && (forall q: nat, s, d {:trigger job.head(q, s, d)} :: job.head(q, s, d) == BodyOf(c, s, d))
    && (forall q: nat, d {:trigger job.localFold(q, d)} :: job.localFold(q, d) == DeltaOf(c, d))
    && (forall s, d {:trigger job.globalFold(s, d)} :: job.globalFold(s, d) == FoldOne(c, s, d))
    && (forall s {:trigger job.condition(s)} :: job.condition(s) == (s, true))
    && (forall m: nat, q: nat {:trigger job.input(m, q)} :: job.input(m, q) == InputFor(parts(m), q))
    && job.initial == None && job.maxIterations == 2
  }

  lemma JobIsScan<I(!new), L(!new), G(!new), O(!new)>(c: Scans.Scan<I, L, G, O>, n: nat, host: nat -> nat,
      parts: nat -> seq<seq<I>>)
    requires n > 0
    ensures IsScan(JobOf(c, n, host, parts), c, n, host, parts) && ValidJob(JobOf(c, n, host, parts))
  {
    LayeredIsLayered(JobOf(c, n, host, parts), n, 3, host, Forwards);
  }

  /** The replicas whose deltas are folded, by their numbers. */
  function Numbers(n: nat, order: seq<Replica>): (ks: seq<nat>)
    requires n > 0
    ensures |ks| == |order| && forall i :: 0 <= i < |ks| ==> ks[i] == Number(n, order[i])
  {
    seq(|order|, i requires 0 <= i < |order| => Number(n, order[i]))
  }

  lemma NumbersAreOrder<S, D, C>(c: Job<S, D, C>, n: nat, host: nat -> nat, order: seq<Replica>)
    requires IsLayered(c, n, 3, host, Forwards) && EveryEndOnce(c, order)
    ensures Scans.IsOrder(Numbers(n, order), n) && order != []
    ensures forall i :: 0 <= i < |order| ==> Block(n, order[i]) == 2
  {
    forall i | 0 <= i < |order| ensures Block(n, order[i]) == 2 { assert order[i] in multiset(order); }
    var ks: seq<nat>, all: seq<nat> := Numbers(n, order), seq(n, u => u);
    forall k: nat ensures multiset(ks)[k] == multiset(all)[k] { SameCount(c, n, host, order, k); }
    assert multiset(ks) == multiset(all);
    EndOnce(c, n, host, order, 0);
  }

  lemma SameCount<S, D, C>(c: Job<S, D, C>, n: nat, host: nat -> nat, order: seq<Replica>, k: nat)
    requires IsLayered(c, n, 3, host, Forwards) && EveryEndOnce(c, order)
    ensures multiset(Numbers(n, order))[k] == multiset(seq(n, u => u))[k]
  {
    forall i | 0 <= i < |order| ensures Block(n, order[i]) == 2 { assert order[i] in multiset(order); }
    NumbersCount(n, order, k);
    CountInAll(n, k);
    if k < n { EndOnce(c, n, host, order, k); }
  }

  lemma EndOnce<S, D, C>(c: Job<S, D, C>, n: nat, host: nat -> nat, order: seq<Replica>, k: nat)
    requires IsLayered(c, n, 3, host, Forwards) && EveryEndOnce(c, order) && k < n
    ensures multiset(order)[At(n, 2, k)] == 1
  {
    AtIs(n, 2, k);
    assert At(n, 2, k) in c.ends;
  }

  lemma {:induction false} NumbersCount(n: nat, order: seq<Replica>, k: nat)
    requires n > 0 && forall i :: 0 <= i < |order| ==> Block(n, order[i]) == 2
    ensures multiset(Numbers(n, order))[k] == if k < n then multiset(order)[At(n, 2, k)] else 0
  {
    if order != [] {
      var m := |order| - 1;
      var r := order[m];
      NumbersCount(n, order[..m], k);
      assert order == order[..m] + [r];
      assert Numbers(n, order) == Numbers(n, order[..m]) + [Number(n, r)];
      CountAppend(order[..m], r, At(n, 2, k));
      CountAppend(Numbers(n, order[..m]), Number(n, r), k);
      IsAt(n, r);
      if k < n { AtIs(n, 2, k); }
    }
  }

  lemma CountAppend(s: seq<nat>, x: nat, y: nat)
    ensures multiset(s + [x])[y] == multiset(s)[y] + if x == y then 1 else 0
  {
  }

  lemma {:induction false} CountInAll(n: nat, k: nat)
    ensures multiset(seq(n, u => u))[k] == if k < n then 1 else 0
  {
    if n > 0 {
      CountInAll(n - 1, k);
      assert seq(n, u => u) == seq(n - 1, u => u) + [n - 1];
    }
  }

  // Two rounds -------------------------------------------------------------------------------------

  /** The global fold of a round in which the replicas emit items of the second kind. */
  lemma {:induction false} FoldsSeconds<I(!new), L(!new), G(!new), O(!new)>(job: Job<Option<G>, L, Data<I, O>>,
      c: Scans.Scan<I, L, G, O>, n: nat, host: nat -> nat,
      parts: nat -> seq<seq<I>>, mine: seq<seq<I>>, emits: Replica -> Data<I, O>, order: seq<Replica>)
    requires IsScan(job, c, n, host, parts) && |mine| == n && forall i :: 0 <= i < |order| ==> Block(n, order[i]) == 2
    requires forall r: nat :: r < n ==> emits(At(n, 2, r)) == Some(Scans.Seconds(mine[r]))
    ensures FoldDeltas(job, None, emits, order) ==
            if order == [] then None else Some(Scans.Total(c, mine, Numbers(n, order)))
  {
    if order != [] {
      var m := |order| - 1;
      var r := Number(n, order[m]);
      FoldsSeconds(job, c, n, host, parts, mine, emits, order[..m]);
      assert Numbers(n, order)[..m] == Numbers(n, order[..m]);
      IsAt(n, order[m]);
      assert emits(order[m]) == Some(Scans.Seconds(mine[r]));
      FoldsOneMore(c, mine, Numbers(n, order));
    }
  }

  lemma FoldsOneMore<I, L, G, O>(c: Scans.Scan<I, L, G, O>, mine: seq<seq<I>>, ks: seq<nat>)
    requires ks != [] && forall i :: 0 <= i < |ks| ==> ks[i] < |mine|
    ensures var m := |ks| - 1;
            var before := if m == 0 then None else Some(Scans.Total(c, mine, ks[..m]));
            FoldOne(c, before, DeltaOf(c, Some(Scans.Seconds<I, O>(mine[ks[m]])))) == Some(Scans.Total(c, mine, ks))
  {
    var m := |ks| - 1;
    Scans.SecondDelta(c, mine[ks[m]]);
    Scans.TotalMore(c, mine, ks);
    if m == 0 { assert Scans.InOrder(mine, ks[..0]) == []; }
  }

  /** What a replica is fed back after a round, and what it gives to the leader. */
  lemma Passes<I(!new), L(!new), G(!new), O(!new)>(job: Job<Option<G>, L, Data<I, O>>,
      c: Scans.Scan<I, L, G, O>, n: nat, host: nat -> nat, parts: nat -> seq<seq<I>>,
      state: Option<G>, data: Replica -> Data<I, O>, r: nat)
    requires IsScan(job, c, n, host, parts) && r < n
    ensures AllFedBack(job, state, data)(r) == BodyOf(c, state, data(r))
    ensures AllEmit(job, state, data)(At(n, 2, r)) == BodyOf(c, state, data(r))
  {
    HeadPasses(job, n, host, None, state, data, r);
    assert job.head(r, state, data(r)) == BodyOf(c, state, data(r));
  }

  lemma NextRound<S, D, C>(c: Job<S, D, C>, run: nat, orders: seq<seq<Replica>>, order: seq<Replica>)
    ensures var p, p' := Runs.OneRun(c, run, orders), Runs.OneRun(c, run, orders + [order]);
            (p'.state, p'.condition) == Folded(c, p.state, p.data, order) &&
              p'.data == AllFedBack(c, p.state, p.data)
  {
    SequentialLoop.RunNext(Runs.LoopOf(c), c.initial, InputOf(c, run), orders, order);
  }

  /** The first round folds the items, and makes them items of the second kind. */
  lemma FirstRound<I(!new), L(!new), G(!new), O(!new)>(job: Job<Option<G>, L, Data<I, O>>,
      c: Scans.Scan<I, L, G, O>, n: nat, host: nat -> nat, parts: nat -> seq<seq<I>>, run: nat,
      order: seq<Replica>, r: nat)
    requires IsScan(job, c, n, host, parts) && r < n && |parts(run)| == n && EveryEndOnce(job, order)
    ensures Scans.IsOrder(Numbers(n, order), n)
    ensures var p := Runs.OneRun(job, run, [order]);
            && p.state == Some(Scans.Total(c, parts(run), Numbers(n, order))) && p.condition
            && p.data(r) == Some(Scans.Seconds(parts(run)[r]))
  {
    var input := InputOf(job, run);
    NumbersAreOrder(job, n, host, order);
    NextRound(job, run, [], order);
    assert [] + [order] == [order];
    forall q: nat | q < n
      ensures AllFedBack(job, None, input)(q) == Some(Scans.Seconds(parts(run)[q]))
      ensures AllEmit(job, None, input)(At(n, 2, q)) == Some(Scans.Seconds(parts(run)[q]))
    {
      Passes(job, c, n, host, parts, None, input, q);
      Scans.FirstPass(c, None, parts(run)[q]);
    }
    FoldsSeconds(job, c, n, host, parts, parts(run), AllEmit(job, None, input), order);
  }

  /** In the second round every replica maps its own items with the total. */
  lemma BothRounds<I(!new), L(!new), G(!new), O(!new)>(job: Job<Option<G>, L, Data<I, O>>,
      c: Scans.Scan<I, L, G, O>, n: nat, host: nat -> nat, parts: nat -> seq<seq<I>>, run: nat,
      order: seq<Replica>, order': seq<Replica>, r: nat)
    requires IsScan(job, c, n, host, parts) && r < n && |parts(run)| == n && EveryEndOnce(job, order)
    ensures Scans.IsOrder(Numbers(n, order), n)
    ensures Runs.OneRun(job, run, [order, order']).data(r) ==
            ResultOf(Scans.Mapped(c, Scans.Total(c, parts(run), Numbers(n, order)), parts(run)[r]))
  {
    FirstRound(job, c, n, host, parts, run, order, r);
    NextRound(job, run, [order], order');
    assert [order] + [order'] == [order, order'];
    var p := Runs.OneRun(job, run, [order]);
    Passes(job, c, n, host, parts, p.state, p.data, r);
    Scans.SecondPass(c, p.state.value, parts(run)[r]);
  }

  function ResultOf<I, O>(mapped: Option<seq<O>>): Data<I, O> {
    if mapped.None? then None else Some(Scans.Outputs(mapped.value))
  }

  /** Every run has exactly two rounds. */
  lemma RunHasTwoRounds<I(!new), L(!new), G(!new), O(!new)>(job: Job<Option<G>, L, Data<I, O>>,
      c: Scans.Scan<I, L, G, O>, n: nat, host: nat -> nat, parts: nat -> seq<seq<I>>,
      run: nat, orders: seq<seq<Replica>>)
    requires IsScan(job, c, n, host, parts)
    requires orders != [] && Runs.LengthOf(job, run, orders) == |orders|
    ensures |orders| == 2
  {
    var loop, input := Runs.LoopOf(job), InputOf(job, run);
    assert orders[..|orders|] == orders && SequentialLoop.Stops(loop, job.initial, input, orders);
    assert [] + [orders[0]] == orders[..1];
    NextRound(job, run, [], orders[0]);
    assert !SequentialLoop.Stops(loop, job.initial, input, orders[..1]);
    if |orders| >= 2 {
      assert SequentialLoop.Stops(loop, job.initial, input, orders[..2]);
      SequentialLoop.LengthIsFirst(loop, job.initial, input, orders, 2);
    }
  }

  // Every interleaving -----------------------------------------------------------------------------

  /**
    fold_scan, on any number of replicas and hosts and in every interleaving of their steps: the output
    of a replica for its m-th run are its own items of that run, mapped with the fold of the local folds
    of all the replicas, each of which was taken once.
   */
  lemma FoldScanOutputs<I(!new), L(!new), G(!new), O(!new)>(job: Job<Option<G>, L, Data<I, O>>,
      c: Scans.Scan<I, L, G, O>, n: nat, host: nat -> nat, parts: nat -> seq<seq<I>>,
      run: seq<ScanSystem<I, L, G, O>>, i: nat, r: nat, m: nat)
    returns (order: seq<nat>)
    requires ValidJob(job) && IsRun(job, run) && i < |run| && Shape(job, run[i])
    requires r in job.iters && m < |run[i].iter[r].outputs|
    requires IsScan(job, c, n, host, parts) && |parts(m)| == n && r < n
    ensures Scans.IsOrder(order, n)
    ensures run[i].iter[r].outputs[m] ==
            ResultOf(Scans.Mapped(c, Scans.Total(c, parts(m), order), parts(m)[r]))
  {
    var orders := Runs.OutputIsOneRun(job, run, i, r, m);
    order := OrderOfRun(job, c, n, host, parts, m, orders, r);
  }

  lemma OrderOfRun<I(!new), L(!new), G(!new), O(!new)>(job: Job<Option<G>, L, Data<I, O>>,
      c: Scans.Scan<I, L, G, O>, n: nat, host: nat -> nat, parts: nat -> seq<seq<I>>, m: nat,
      orders: seq<seq<Replica>>, r: nat)
    returns (order: seq<nat>)
    requires IsScan(job, c, n, host, parts) && |parts(m)| == n && r < n
    requires orders != [] && Runs.AllOnce(job, orders) && Runs.LengthOf(job, m, orders) == |orders|
    ensures Scans.IsOrder(order, n)
    ensures Runs.OneRun(job, m, orders).data(r) ==
            ResultOf(Scans.Mapped(c, Scans.Total(c, parts(m), order), parts(m)[r]))
  {
    RunHasTwoRounds(job, c, n, host, parts, m, orders);
    var first, last := orders[0], orders[1];
    assert orders == [first, last];
    BothRounds(job, c, n, host, parts, m, first, last, r);
    order := Numbers(n, orders[0]);
  }

  /**
    reduce_scan, for an associative and commutative reduction, on any number of replicas and hosts and in
    every interleaving: nothing panics, and the output of a replica for its m-th run are its own items of
    that run, mapped with the reduction of the items of all the replicas.
   */
  lemma ReduceScanOutputs<I(!new), V(!new), O(!new)>(job: Job<Option<Option<V>>, Option<V>, Data<I, O>>,
      first: I -> V, reduce: (V, V) -> V, second: (I, V) -> O, n: nat, host: nat -> nat, parts: nat -> seq<seq<I>>,
      run: seq<ScanSystem<I, Option<V>, Option<V>, O>>, i: nat, r: nat, m: nat)
    requires ValidJob(job) && IsRun(job, run) && i < |run| && Shape(job, run[i])
    requires r in job.iters && m < |run[i].iter[r].outputs|
    requires IsScan(job, Scans.ReduceScanOf(first, reduce, second), n, host, parts) && |parts(m)| == n && r < n
    requires Associates(reduce) && Commutes(reduce)
    ensures var vs := Scans.MapItems(first, Flatten(parts(m)));
            && (parts(m)[r] != [] ==> vs != [])
            && run[i].iter[r].outputs[m] ==
              Some(if parts(m)[r] == [] then [] else Scans.Outputs(Scans.Results(second, Reduce(reduce, vs),
                parts(m)[r])))
  {
    var c := Scans.ReduceScanOf(first, reduce, second);
    var order := FoldScanOutputs(job, c, n, host, parts, run, i, r, m);
    Scans.TotalIsReduction(first, reduce, second, parts(m), order);
    if parts(m)[r] != [] { Scans.PartIsIn(parts(m), r); }
    Scans.MappedAll(first, reduce, second, Scans.Total(c, parts(m), order), parts(m)[r]);
  }
}
