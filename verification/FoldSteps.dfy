/** What the folds and maps of the operators are, one value after the other. */
module FoldSteps {
  import opened Streams
  import opened KeyedFold
  import opened GroupBy
  import Scans = TwoPasses

  /** The accumulators on the way from the initial one to the last. */
  ghost predicate AreSteps<O, V>(f: Folding<O, V>, values: seq<V>, states: seq<O>) {
    && |states| == |values| + 1 && states[0] == f.init
    && forall i {:trigger states[i]} :: 0 <= i < |values| ==> states[i + 1] == f.fold(states[i], values[i])
  }

  lemma MoreSteps<O, V>(f: Folding<O, V>, values: seq<V>, states: seq<O>, v: V)
    requires AreSteps(f, values, states)
    ensures AreSteps(f, values + [v], states + [f.fold(states[|values|], v)])
  {
    var values', states' := values + [v], states + [f.fold(states[|values|], v)];
    forall i | 0 <= i < |values'| ensures states'[i + 1] == f.fold(states'[i], values'[i]) {
      if i < |values| { assert states[i + 1] == f.fold(states[i], values[i]); }
    }
  }

  /** The fold of all values is the last of the accumulators. */
  lemma {:induction false} FoldAllSteps<O, V>(f: Folding<O, V>, values: seq<V>) returns (states: seq<O>)
    ensures AreSteps(f, values, states) && FoldAll(f, values) == states[|values|]
  {
    if values == [] {
      states := [f.init];
    } else {
      var n := |values| - 1;
      states := FoldAllSteps(f, values[..n]);
      assert values == values[..n] + [values[n]];
      MoreSteps(f, values[..n], states, values[n]);
      states := states + [FoldAll(f, values)];
    }
  }

  function WithoutTimes<V>(values: seq<Arrival<V>>): (vs: seq<V>)
    ensures |vs| == |values| && forall i :: 0 <= i < |vs| ==> vs[i] == values[i].0
  {
    seq(|values|, i requires 0 <= i < |values| => values[i].0)
  }

  /** Folding by key is the same fold, whatever the times. */
  lemma {:induction false} FoldOfSteps<O, V>(f: Folding<O, V>, values: seq<Arrival<V>>)
    ensures FoldOf(f, values) == FoldAll(f, WithoutTimes(values))
  {
    if values != [] {
      var n := |values| - 1;
      FoldOfSteps(f, values[..n]);
      assert WithoutTimes(values)[..n] == WithoutTimes(values[..n]);
    }
  }

  // fold_scan and reduce_scan ----------------------------------------------------------------------

  /** Every item is mapped with the total, unless one of them panics. */
  lemma {:induction false} MappedAt<I, L, G, O>(c: Scans.Scan<I, L, G, O>, total: G, items: seq<I>)
    ensures var mapped := Scans.Mapped(c, total, items);
            && (mapped.Some? <==> forall i :: 0 <= i < |items| ==> c.apply(items[i], total).Some?)
            && (mapped.Some? ==> |mapped.value| == |items|)
            && (mapped.Some? ==> forall i :: 0 <= i < |items| ==> c.apply(items[i], total) == Some(mapped.value[i]))
  {
    if items != [] {
      var n := |items| - 1;
      MappedAt(c, total, items[..n]);
      assert items == items[..n] + [items[n]];
    }
  }

  lemma {:induction false} OutputsAt<I, O>(results: seq<O>)
    ensures var outputs: seq<Scans.TwoPass<I, O>> := Scans.Outputs(results);
            |outputs| == |results| && forall i :: 0 <= i < |results| ==> outputs[i] == Scans.Output(results[i])
  {
    if results != [] { OutputsAt<I, O>(results[..|results| - 1]); }
  }

  lemma {:induction false} FirstsAt<I, O>(items: seq<I>)
    ensures var firsts: seq<Scans.TwoPass<I, O>> := Scans.Firsts(items);
            |firsts| == |items| && forall i :: 0 <= i < |items| ==> firsts[i] == Scans.First(items[i])
  {
    if items != [] { FirstsAt<I, O>(items[..|items| - 1]); }
  }

  lemma {:induction false} ResultsAt<I, V, O>(second: (I, V) -> O, total: V, items: seq<I>)
    ensures var results := Scans.Results(second, total, items);
            |results| == |items| && forall i :: 0 <= i < |items| ==> results[i] == second(items[i], total)
  {
    if items != [] { ResultsAt(second, total, items[..|items| - 1]); }
  }

  lemma {:induction false} MapItemsAt<I, V>(first: I -> V, items: seq<I>)
    ensures forall i :: 0 <= i < |items| ==> Scans.MapItems(first, items)[i] == first(items[i])
  {
    if items != [] { MapItemsAt(first, items[..|items| - 1]); }
  }
}
