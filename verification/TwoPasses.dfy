/**
  fold_scan and reduce_scan: two rounds of an iteration, the first to fold all the items and the second to
  apply the result to each of them.
 */
module TwoPasses {
  import opened Streams
  import opened KeyedFold
  import opened GroupBy
  import opened SequentialLoop

  // The program ------------------------------------------------------------------------------------

  datatype TwoPass<+I, +O> = First(item: I) | Second(item: I) | Output(result: O)

  /** The user's closures; `apply` has no result where the code would panic. */
  datatype Scan<!I, !L, !G, !O> = Scan(local: Folding<L, I>, global: Folding<G, L>, apply: (I, G) -> Option<O>)

  /** The body of the loop; there is no result where the code would panic. */
  function Body<I, L, G, O>(c: Scan<I, L, G, O>, state: Option<G>, e: TwoPass<I, O>): Option<TwoPass<I, O>> {
    match e
    case First(x) => Some(Second(x))
    case Second(x) =>
      if state.None? then None
      else
        var o := c.apply(x, state.value);
        if o.None? then None else Some(Output(o.value))
    case Output(_) => None
  }

  function BodyAll<I, L, G, O>(c: Scan<I, L, G, O>, state: Option<G>,
      es: seq<TwoPass<I, O>>): Option<seq<TwoPass<I, O>>> {
    if es == [] then Some([])
    else
      var before, e := BodyAll(c, state, es[..|es| - 1]), Body(c, state, es[|es| - 1]);
      if before.None? || e.None? then None else Some(before.value + [e.value])
  }

  /** Every replica of the body works on its own items. */
  function BodyEach<I, L, G, O>(c: Scan<I, L, G, O>, state: Option<G>,
      data: seq<seq<TwoPass<I, O>>>): Option<seq<seq<TwoPass<I, O>>>> {
    if data == [] then Some([])
    else
      var before, es := BodyEach(c, state, data[..|data| - 1]), BodyAll(c, state, data[|data| - 1]);
      if before.None? || es.None? then None else Some(before.value + [es.value])
  }

  /** The delta of a replica: only the items of the second kind are folded. */
  function Delta<I, L, G, O>(c: Scan<I, L, G, O>, es: seq<TwoPass<I, O>>): L {
    if es == [] then c.local.init
    else
      var before, e := Delta(c, es[..|es| - 1]), es[|es| - 1];
      if e.Second? then c.local.fold(before, e.item) else before
  }

  /** The global fold: the deltas of the replicas, in this order. */
  function FoldDeltas<I, L, G, O>(c: Scan<I, L, G, O>, state: Option<G>, data: seq<seq<TwoPass<I, O>>>,
      order: seq<nat>): Option<G> {
    if order == [] then state
    else
      var before, u := FoldDeltas(c, state, data, order[..|order| - 1]), order[|order| - 1];
      Some(c.global.fold(if before.None? then c.global.init else before.value,
        Delta(c, if u < |data| then data[u] else [])))
  }

  function Round<I, L, G, O>(c: Scan<I, L, G, O>, order: seq<nat>, state: Option<G>,
      data: Option<seq<seq<TwoPass<I, O>>>>)
    : (Option<G>, bool, Option<seq<seq<TwoPass<I, O>>>>)
  {
    if data.None? then (state, true, None)
    else
      var out := BodyEach(c, state, data.value);
      (if out.None? then state else FoldDeltas(c, state, out.value, order), true, out)
  }

  /** The iteration has two rounds, and no other condition. */
  function Loop<I, L, G, O>(c: Scan<I, L, G, O>): Program<Option<G>, Option<seq<seq<TwoPass<I, O>>>>, seq<nat>> {
    Program((order, state, data) => Round(c, order, state, data), 2)
  }

  // The rounds -------------------------------------------------------------------------------------

  function Firsts<I, O>(items: seq<I>): seq<TwoPass<I, O>> {
    if items == [] then [] else Firsts(items[..|items| - 1]) + [First(items[|items| - 1])]
  }

  function Seconds<I, O>(items: seq<I>): seq<TwoPass<I, O>> {
    if items == [] then [] else Seconds(items[..|items| - 1]) + [Second(items[|items| - 1])]
  }

  function Outputs<I, O>(results: seq<O>): seq<TwoPass<I, O>> {
    if results == [] then [] else Outputs(results[..|results| - 1]) + [Output(results[|results| - 1])]
  }

  function FirstsOf<I, O>(parts: seq<seq<I>>): seq<seq<TwoPass<I, O>>> {
    if parts == [] then [] else FirstsOf(parts[..|parts| - 1]) + [Firsts(parts[|parts| - 1])]
  }

  function SecondsOf<I, O>(parts: seq<seq<I>>): (s: seq<seq<TwoPass<I, O>>>)
    ensures |s| == |parts| && forall u :: 0 <= u < |s| ==> s[u] == Seconds(parts[u])
  {
    if parts == [] then [] else SecondsOf(parts[..|parts| - 1]) + [Seconds(parts[|parts| - 1])]
  }

  lemma {:induction false} FirstPass<I, L, G, O>(c: Scan<I, L, G, O>, state: Option<G>, items: seq<I>)
    ensures BodyAll(c, state, Firsts(items)) == Some(Seconds(items))
  {
    if items != [] {
      FirstPass(c, state, items[..|items| - 1]);
      var es: seq<TwoPass<I, O>> := Firsts(items);
      assert es[..|es| - 1] == Firsts(items[..|items| - 1]);
    }
  }

  lemma {:induction false} FirstPassEach<I, L, G, O>(c: Scan<I, L, G, O>, state: Option<G>, parts: seq<seq<I>>)
    ensures BodyEach(c, state, FirstsOf(parts)) == Some(SecondsOf(parts))
  {
    if parts != [] {
      FirstPassEach(c, state, parts[..|parts| - 1]);
      FirstPass(c, state, parts[|parts| - 1]);
      var data: seq<seq<TwoPass<I, O>>> := FirstsOf(parts);
      assert data[..|data| - 1] == FirstsOf(parts[..|parts| - 1]);
    }
  }

  lemma {:induction false} SecondDelta<I, L, G, O>(c: Scan<I, L, G, O>, items: seq<I>)
    ensures Delta(c, Seconds(items)) == FoldAll(c.local, items)
  {
    if items != [] {
      SecondDelta(c, items[..|items| - 1]);
      var es: seq<TwoPass<I, O>> := Seconds(items);
      assert es[..|es| - 1] == Seconds(items[..|items| - 1]);
    }
  }

  /** The local folds, in the order in which the leader takes them. */
  function InOrder<I>(parts: seq<seq<I>>, order: seq<nat>): (taken: seq<seq<I>>)
    requires forall i :: 0 <= i < |order| ==> order[i] < |parts|
    ensures |taken| == |order| && forall i :: 0 <= i < |taken| ==> taken[i] == parts[order[i]]
  {
    seq(|order|, i requires 0 <= i < |order| => parts[order[i]])
  }

  /** What the first round makes of all the items. */
  function Total<I, L, G, O>(c: Scan<I, L, G, O>, parts: seq<seq<I>>, order: seq<nat>): G
    requires forall i :: 0 <= i < |order| ==> order[i] < |parts|
  {
    FoldAll(c.global, Folds(c.local, InOrder(parts, order)))
  }

  lemma {:induction false} FirstFold<I, L, G, O>(c: Scan<I, L, G, O>, parts: seq<seq<I>>, order: seq<nat>)
    requires forall i :: 0 <= i < |order| ==> order[i] < |parts|
    ensures FoldDeltas(c, None, SecondsOf(parts), order) == if order == [] then None else Some(Total(c, parts, order))
  {
    if order != [] {
      var n := |order| - 1;
      FirstFold(c, parts, order[..n]);
      SecondDelta(c, parts[order[n]]);
      TotalMore(c, parts, order);
    }
  }

  lemma TotalMore<I, L, G, O>(c: Scan<I, L, G, O>, parts: seq<seq<I>>, order: seq<nat>)
    requires order != [] && forall i :: 0 <= i < |order| ==> order[i] < |parts|
    ensures var n := |order| - 1;
            Total(c, parts, order) == c.global.fold(Total(c, parts, order[..n]), FoldAll(c.local, parts[order[n]]))
  {
    var n := |order| - 1;
    var before := InOrder(parts, order[..n]);
    assert InOrder(parts, order) == before + [parts[order[n]]];
    MoreFolds(c.local, before, parts[order[n]]);
    FoldAppend(c.global, Folds(c.local, before), FoldAll(c.local, parts[order[n]]));
  }

  /** The items mapped with the total, if no map panics. */
  function Mapped<I, L, G, O>(c: Scan<I, L, G, O>, total: G, items: seq<I>): Option<seq<O>> {
    if items == [] then Some([])
    else
      var before, o := Mapped(c, total, items[..|items| - 1]), c.apply(items[|items| - 1], total);
      if before.None? || o.None? then None else Some(before.value + [o.value])
  }

  lemma {:induction false} SecondPass<I, L, G, O>(c: Scan<I, L, G, O>, total: G, items: seq<I>)
    ensures BodyAll(c, Some(total), Seconds(items)) ==
            if Mapped(c, total, items).None? then None else Some(Outputs(Mapped(c, total, items).value))
  {
    if items != [] {
      SecondPass(c, total, items[..|items| - 1]);
      var es: seq<TwoPass<I, O>> := Seconds(items);
      assert es[..|es| - 1] == Seconds(items[..|items| - 1]);
      var os := Mapped(c, total, items);
      if os.Some? { assert os.value[..|os.value| - 1] == Mapped(c, total, items[..|items| - 1]).value; }
    }
  }

  predicate IsMapped<I, L, G, O>(c: Scan<I, L, G, O>, total: G, parts: seq<seq<I>>, u: int) {
    0 <= u < |parts| && Mapped(c, total, parts[u]).Some?
  }

  ghost predicate IsResult<I, L, G, O>(c: Scan<I, L, G, O>, total: G, parts: seq<seq<I>>,
      data: seq<seq<TwoPass<I, O>>>, u: int) {
    0 <= u < |parts| && u < |data| && IsMapped(c, total, parts, u) &&
      data[u] == Outputs(Mapped(c, total, parts[u]).value)
  }

  /** Every replica emits exactly the results of its own items, and all of them are outputs. */
  ghost predicate AreResults<I, L, G, O>(c: Scan<I, L, G, O>, total: G, parts: seq<seq<I>>,
      data: Option<seq<seq<TwoPass<I, O>>>>) {
    if data.None? then exists u {:trigger IsMapped(c, total, parts, u)} ::
      0 <= u < |parts| && !IsMapped(c, total, parts, u)
    else
      && |data.value| == |parts|
      && forall u {:trigger IsResult(c, total, parts, data.value, u)} :: 0 <= u < |parts| ==>
        IsResult(c, total, parts, data.value, u)
  }

  lemma {:induction false} SecondPassEach<I, L, G, O>(c: Scan<I, L, G, O>, total: G, parts: seq<seq<I>>)
    ensures AreResults(c, total, parts, BodyEach(c, Some(total), SecondsOf(parts)))
  {
    if parts != [] {
      var n := |parts| - 1;
      SecondPassEach(c, total, parts[..n]);
      SecondPass(c, total, parts[n]);
      var data: seq<seq<TwoPass<I, O>>> := SecondsOf(parts);
      assert data[..n] == SecondsOf(parts[..n]);
      MoreResults(c, total, parts, BodyEach(c, Some(total), data[..n]));
    }
  }

  lemma MoreResults<I, L, G, O>(c: Scan<I, L, G, O>, total: G, parts: seq<seq<I>>,
      before: Option<seq<seq<TwoPass<I, O>>>>)
    requires parts != [] && AreResults(c, total, parts[..|parts| - 1], before)
    ensures var mapped := Mapped(c, total, parts[|parts| - 1]);
            AreResults(c, total, parts, if before.None? || mapped.None? then None
              else Some(before.value + [Outputs(mapped.value)]))
  {
    var n := |parts| - 1;
    var mapped := Mapped(c, total, parts[n]);
    if before.None? {
      var u :| 0 <= u < n && !IsMapped(c, total, parts[..n], u);
      assert !IsMapped(c, total, parts, u);
    } else if mapped.None? {
      assert !IsMapped(c, total, parts, n);
    } else {
      var data := before.value + [Outputs<I, O>(mapped.value)];
      forall u | 0 <= u < |parts| ensures IsResult(c, total, parts, data, u) {
        if u < n { assert IsResult(c, total, parts[..n], before.value, u); }
      }
    }
  }

  /**
    fold_scan: the run has two rounds; the first one folds the items of all replicas, and in the second
    every replica maps its own items with the total. It panics only where `apply` does.
   */
  lemma FoldScan<I, L, G, O>(c: Scan<I, L, G, O>, parts: seq<seq<I>>, order: seq<nat>, order': seq<nat>)
    requires order != [] && forall i :: 0 <= i < |order| ==> order[i] < |parts|
    ensures var input := Some(FirstsOf<I, O>(parts));
            && Length(Loop(c), None, input, [order, order']) == 2
            && AreResults(c, Total(c, parts, order), parts, Run(Loop(c), None, input, [order, order']).data)
  {
    var input := Some(FirstsOf<I, O>(parts));
    OneRound(c, parts, order);
    SecondRound(c, parts, order, order');
    SecondPassEach(c, Total(c, parts, order), parts);
    TwoRounds(c, input, order, order');
  }

  lemma SecondRound<I, L, G, O>(c: Scan<I, L, G, O>, parts: seq<seq<I>>, order: seq<nat>, order': seq<nat>)
    requires order != [] && forall i :: 0 <= i < |order| ==> order[i] < |parts|
    ensures Run(Loop(c), None, Some(FirstsOf<I, O>(parts)), [order, order']).data ==
            BodyEach(c, Some(Total(c, parts, order)), SecondsOf(parts))
  {
    OneRound(c, parts, order);
    RunNext(Loop(c), None, Some(FirstsOf<I, O>(parts)), [order], order');
    assert [order] + [order'] == [order, order'];
  }

  lemma TwoRounds<I, L, G, O>(c: Scan<I, L, G, O>, input: Option<seq<seq<TwoPass<I, O>>>>, order: seq<nat>,
      order': seq<nat>)
    requires Run(Loop(c), None, input, [order]).condition
    ensures Length(Loop(c), None, input, [order, order']) == 2
  {
    var orders := [order, order'];
    assert orders[..1] == [order] && orders[..0] == [] && orders[..2] == orders;
    LengthIsFirst(Loop(c), None, input, orders, 2);
  }

  lemma OneRound<I, L, G, O>(c: Scan<I, L, G, O>, parts: seq<seq<I>>, order: seq<nat>)
    requires order != [] && forall i :: 0 <= i < |order| ==> order[i] < |parts|
    ensures Run(Loop(c), None, Some(FirstsOf<I, O>(parts)), [order]) ==
            Point(Some(Total(c, parts, order)), true, Some(SecondsOf(parts)))
  {
    FirstPassEach(c, None, parts);
    FirstFold(c, parts, order);
    RunNext(Loop(c), None, Some(FirstsOf<I, O>(parts)), [], order);
    assert [] + [order] == [order];
  }

  // reduce_scan ------------------------------------------------------------------------------------

  /** The state is unwrapped, which panics if no replica has any item. */
  function ReduceScanOf<I, V, O>(first: I -> V, reduce: (V, V) -> V,
      second: (I, V) -> O): Scan<I, Option<V>, Option<V>, O> {
    Scan(Folding(None, (acc: Option<V>, x: I) =>
           match acc { case None => Some(first(x)) case Some(a) => Some(reduce(a, first(x))) }),
         Folding(None, GlobalReduce(reduce)),
         (x: I, state: Option<V>) => if state.None? then None else Some(second(x, state.value)))
  }

  function MapItems<I, V>(first: I -> V, items: seq<I>): (vs: seq<V>)
    ensures |vs| == |items|
  {
    if items == [] then [] else MapItems(first, items[..|items| - 1]) + [first(items[|items| - 1])]
  }

  lemma {:induction false} LocalScan<I, V, O>(first: I -> V, reduce: (V, V) -> V, second: (I, V) -> O, items: seq<I>)
    ensures FoldAll(ReduceScanOf(first, reduce, second).local, items) ==
            FoldAll(LocalReduce(reduce), MapItems(first, items))
  {
    if items != [] {
      LocalScan(first, reduce, second, items[..|items| - 1]);
      FoldAppend(LocalReduce(reduce), MapItems(first, items[..|items| - 1]), first(items[|items| - 1]));
    }
  }

  function MapParts<I, V>(first: I -> V, parts: seq<seq<I>>): (ms: seq<seq<V>>)
    ensures |ms| == |parts| && forall u :: 0 <= u < |ms| ==> ms[u] == MapItems(first, parts[u])
  {
    if parts == [] then [] else MapParts(first, parts[..|parts| - 1]) + [MapItems(first, parts[|parts| - 1])]
  }

  lemma SameFolds<I, V, O>(first: I -> V, reduce: (V, V) -> V, second: (I, V) -> O, parts: seq<seq<I>>)
    ensures Folds(ReduceScanOf(first, reduce, second).local, parts) ==
            Folds(LocalReduce(reduce), MapParts(first, parts))
  {
    forall u | 0 <= u < |parts|
      ensures Folds(ReduceScanOf(first, reduce, second).local, parts)[u] ==
              Folds(LocalReduce(reduce), MapParts(first, parts))[u]
    {
      LocalScan(first, reduce, second, parts[u]);
    }
  }

  lemma {:induction false} MapFlatten<I, V>(first: I -> V, parts: seq<seq<I>>)
    ensures Flatten(MapParts(first, parts)) == MapItems(first, Flatten(parts))
  {
    if parts != [] {
      var n := |parts| - 1;
      MapFlatten(first, parts[..n]);
      MapConcat(first, Flatten(parts[..n]), parts[n]);
    }
  }

  lemma {:induction false} MapConcat<I, V>(first: I -> V, a: seq<I>, b: seq<I>)
    ensures MapItems(first, a + b) == MapItems(first, a) + MapItems(first, b)
  {
    if b == [] {
      assert a + b == a;
    } else {
      assert (a + b)[..|a + b| - 1] == a + b[..|b| - 1];
      MapConcat(first, a, b[..|b| - 1]);
    }
  }

  /** Each replica once. */
  ghost predicate IsOrder(order: seq<nat>, n: nat) {
    (forall i :: 0 <= i < |order| ==> order[i] < n) && multiset(order) == multiset(seq(n, u => u))
  }

  /** Whatever the order of the deltas, the total is the reduction of all the items. */
  lemma TotalIsReduction<I, V(!new), O>(first: I -> V, reduce: (V, V) -> V, second: (I, V) -> O, parts: seq<seq<I>>,
      order: seq<nat>)
    requires Associates(reduce) && Commutes(reduce) && IsOrder(order, |parts|)
    ensures Total(ReduceScanOf(first, reduce, second), parts, order) ==
            var vs := MapItems(first, Flatten(parts)); if vs == [] then None else Some(Reduce(reduce, vs))
  {
    var c, taken := ReduceScanOf(first, reduce, second), InOrder(parts, order);
    ReduceMerges(reduce);
    ReduceSwaps(reduce);
    SameFolds(first, reduce, second, taken);
    FoldOfFolds(LocalReduce(reduce), GlobalReduce(reduce), MapParts(first, taken));
    MapFlatten(first, taken);
    MapFlatten(first, parts);
    OrderPermutes(MapParts(first, parts), order);
    assert MapParts(first, taken) == InOrder(MapParts(first, parts), order);
    FoldPermuted(LocalReduce(reduce), MapItems(first, Flatten(taken)), MapItems(first, Flatten(parts)));
    LocalReduces(reduce, MapItems(first, Flatten(parts)));
  }

  lemma {:induction false} OrderPermutes<V>(parts: seq<seq<V>>, order: seq<nat>)
    requires IsOrder(order, |parts|)
    ensures multiset(Flatten(InOrder(parts, order))) == multiset(Flatten(parts))
  {
    var all := seq(|parts|, u => u);
    SameOrder(parts, order, all);
    assert InOrder(parts, all) == parts;
  }

  lemma {:induction false} SameOrder<V>(parts: seq<seq<V>>, a: seq<nat>, b: seq<nat>)
    requires forall i :: 0 <= i < |a| ==> a[i] < |parts|
    requires forall i :: 0 <= i < |b| ==> b[i] < |parts|
    requires multiset(a) == multiset(b)
    ensures multiset(Flatten(InOrder(parts, a))) == multiset(Flatten(InOrder(parts, b)))
  {
    assert |multiset(a)| == |a| && |multiset(b)| == |b|;
    if a != [] {
      var n := |a| - 1;
      assert a == a[..n] + [a[n]];
      var b1, b2 := TakeOut(a[..n], a[n], b);
      InOrderWithout(parts, b, b1, a[n], b2);
      SameOrder(parts, a[..n], b1 + b2);
      assert InOrder(parts, a) == InOrder(parts, a[..n]) + [parts[a[n]]];
      FlattenAppend(InOrder(parts, a[..n]), parts[a[n]]);
    }
  }

  lemma InOrderWithout<V>(parts: seq<seq<V>>, b: seq<nat>, b1: seq<nat>, x: nat, b2: seq<nat>)
    requires b == b1 + [x] + b2 && forall i :: 0 <= i < |b| ==> b[i] < |parts|
    ensures x < |parts| && forall i :: 0 <= i < |b1 + b2| ==> (b1 + b2)[i] < |parts|
    ensures multiset(Flatten(InOrder(parts, b))) == multiset(Flatten(InOrder(parts, b1 + b2))) + multiset(parts[x])
  {
    var m := |b1|;
    assert b[m] == x;
    forall i | 0 <= i < |b1 + b2| ensures (b1 + b2)[i] < |parts| {
      assert (b1 + b2)[i] == if i < m then b[i] else b[i + 1];
    }
    var taken := InOrder(parts, b);
    assert InOrder(parts, b1 + b2) == taken[..m] + taken[m + 1..];
    FlattenWithout(taken, m);
  }

  /** The results of all the items of a replica. */
  function Results<I, V, O>(second: (I, V) -> O, total: V, items: seq<I>): seq<O> {
    if items == [] then [] else Results(second, total, items[..|items| - 1]) + [second(items[|items| - 1], total)]
  }

  lemma {:induction false} MappedAll<I, V, O>(first: I -> V, reduce: (V, V) -> V, second: (I, V) -> O,
      total: Option<V>, items: seq<I>)
    requires items != [] ==> total.Some?
    ensures Mapped(ReduceScanOf(first, reduce, second), total, items) ==
            Some(if items == [] then [] else Results(second, total.value, items))
  {
    if items != [] { MappedAll(first, reduce, second, total, items[..|items| - 1]); }
  }

  /**
    reduce_scan, for an associative and commutative reduction: nothing panics, even if some or all
    replicas are empty, and every replica emits its items mapped with the reduction of those of all.
   */
  lemma ReduceScan<I, V(!new), O>(first: I -> V, reduce: (V, V) -> V, second: (I, V) -> O, parts: seq<seq<I>>,
      order: seq<nat>, order': seq<nat>)
    requires Associates(reduce) && Commutes(reduce) && parts != [] && IsOrder(order, |parts|)
    ensures var input := Some(FirstsOf<I, O>(parts));
            var c, vs := ReduceScanOf(first, reduce, second), MapItems(first, Flatten(parts));
            var end := Run(Loop(c), None, input, [order, order']);
            && Length(Loop(c), None, input, [order, order']) == 2
            && end.data.Some? && |end.data.value| == |parts|
            && forall u :: 0 <= u < |parts| ==>
              if parts[u] == [] then end.data.value[u] == []
              else vs != [] && end.data.value[u] == Outputs(Results(second, Reduce(reduce, vs), parts[u]))
  {
    var c, vs := ReduceScanOf(first, reduce, second), MapItems(first, Flatten(parts));
    assert |multiset(order)| == |order| && |multiset(seq(|parts|, u => u))| == |parts|;
    FoldScan(c, parts, order, order');
    TotalIsReduction(first, reduce, second, parts, order);
    var data := Run(Loop(c), None, Some(FirstsOf<I, O>(parts)), [order, order']).data;
    forall u | 0 <= u < |parts| ensures ReplicaMaps(first, reduce, second, parts, Total(c, parts, order), u) {
      if parts[u] != [] { PartIsIn(parts, u); }
      MappedAll(first, reduce, second, Total(c, parts, order), parts[u]);
    }
    forall u | 0 <= u < |parts| ensures IsMapped(c, Total(c, parts, order), parts, u) {
      assert ReplicaMaps(first, reduce, second, parts, Total(c, parts, order), u);
    }
    if data.None? { assert false; }
    forall u | 0 <= u < |parts|
      ensures if parts[u] == [] then data.value[u] == []
        else vs != [] && data.value[u] == Outputs(Results(second, Reduce(reduce, vs), parts[u]))
    {
      assert ReplicaMaps(first, reduce, second, parts, Total(c, parts, order), u) &&
        IsResult(c, Total(c, parts, order), parts, data.value, u);
    }
  }

  /** No map of the replica's items panics. */
  predicate ReplicaMaps<I, V, O(==)>(first: I -> V, reduce: (V, V) -> V, second: (I, V) -> O, parts: seq<seq<I>>,
      total: Option<V>, u: int) {
    0 <= u < |parts| &&
    (parts[u] != [] ==> total.Some?) &&
    Mapped(ReduceScanOf(first, reduce, second), total, parts[u]) == Some(if parts[u] == [] then []
      else Results(second, total.value, parts[u]))
  }

  lemma {:induction false} PartIsIn<V>(parts: seq<seq<V>>, u: nat)
    requires u < |parts| && parts[u] != []
    ensures Flatten(parts) != []
  {
    if u < |parts| - 1 { PartIsIn(parts[..|parts| - 1], u); }
  }
}
