/**
  Folding by key in two phases.
  Every replica folds its own items before they are sent to the replica of their key.
 */
module GroupBy {
  import opened Streams
  import opened Keyed
  import opened Routing
  import opened EndOfBlock
  import opened Delivery
  import opened KeyedFold
  import opened TimedStreams

  // Folds that do not depend on the order ----------------------------------------------------------

  function FoldAll<O, V>(f: Folding<O, V>, vs: seq<V>): O {
    if vs == [] then f.init else f.fold(FoldAll(f, vs[..|vs| - 1]), vs[|vs| - 1])
  }

  lemma FoldAppend<O, V>(f: Folding<O, V>, vs: seq<V>, v: V)
    ensures FoldAll(f, vs + [v]) == f.fold(FoldAll(f, vs), v)
  {
    assert (vs + [v])[..|vs|] == vs;
  }

  predicate SwapsAt<O(==), V>(f: Folding<O, V>, o: O, v: V, w: V) { f.fold(f.fold(o, v), w) == f.fold(f.fold(o, w), v) }

  /** Two values may be folded in either order. */
  ghost predicate Swaps<O(!new), V(!new)>(f: Folding<O, V>) {
    forall o, v, w {:trigger SwapsAt(f, o, v, w)} :: SwapsAt(f, o, v, w)
  }

  lemma {:induction false} FoldLast<O(!new), V(!new)>(f: Folding<O, V>, a: seq<V>, v: V, b: seq<V>)
    requires Swaps(f)
    ensures FoldAll(f, a + [v] + b) == FoldAll(f, a + b + [v])
  {
    if b == [] {
      assert a + [v] + b == a + b + [v];
    } else {
      var n := |b| - 1;
      FoldLast(f, a, v, b[..n]);
      assert a + [v] + b == (a + [v] + b[..n]) + [b[n]] && a + b == (a + b[..n]) + [b[n]];
      FoldAppend(f, a + [v] + b[..n], b[n]);
      FoldAppend(f, a + b[..n], b[n]);
      FoldAppend(f, a + b[..n], v);
      FoldAppend(f, a + b, v);
      assert SwapsAt(f, FoldAll(f, a + b[..n]), v, b[n]);
    }
  }

  lemma {:induction false} FoldPermuted<O(!new), V(!new)>(f: Folding<O, V>, a: seq<V>, b: seq<V>)
    requires Swaps(f) && multiset(a) == multiset(b)
    ensures FoldAll(f, a) == FoldAll(f, b)
  {
    assert |multiset(a)| == |a| && |multiset(b)| == |b|;
    if a != [] {
      var n := |a| - 1;
      assert a == a[..n] + [a[n]];
      var b1, b2 := TakeOut(a[..n], a[n], b);
      FoldPermuted(f, a[..n], b1 + b2);
      FoldLast(f, b1, a[n], b2);
      FoldAppend(f, b1 + b2, a[n]);
    }
  }

  // Folds of parts ---------------------------------------------------------------------------------

  predicate MergesAt<O(==), V>(local: Folding<O, V>, global: (O, O) -> O, xs: seq<V>, ys: seq<V>) {
    global(FoldAll(local, xs), FoldAll(local, ys)) == FoldAll(local, xs + ys)
  }

  /** The global fold merges local folds; the initial value is that of no items at all. */
  ghost predicate Merges<O, V(!new)>(local: Folding<O, V>, global: (O, O) -> O) {
    forall xs, ys {:trigger MergesAt(local, global, xs, ys)} :: MergesAt(local, global, xs, ys)
  }

  function Folds<O, V>(local: Folding<O, V>, parts: seq<seq<V>>): (folds: seq<O>)
    ensures |folds| == |parts| && forall i :: 0 <= i < |folds| ==> folds[i] == FoldAll(local, parts[i])
  {
    if parts == [] then [] else Folds(local, parts[..|parts| - 1]) + [FoldAll(local, parts[|parts| - 1])]
  }

  lemma {:induction false} FoldOfFolds<O, V(!new)>(local: Folding<O, V>, global: (O, O) -> O, parts: seq<seq<V>>)
    requires Merges(local, global)
    ensures FoldAll(Folding(local.init, global), Folds(local, parts)) == FoldAll(local, Flatten(parts))
  {
    if parts != [] {
      var n := |parts| - 1;
      FoldOfFolds(local, global, parts[..n]);
      FoldAppend(Folding(local.init, global), Folds(local, parts[..n]), FoldAll(local, parts[n]));
      assert MergesAt(local, global, Flatten(parts[..n]), parts[n]);
    }
  }

  /** The folds of some parts, in another order, are the folds of these parts in another order. */
  lemma {:induction false} PartsPermuted<O, V>(local: Folding<O, V>, folds: seq<O>,
      parts: seq<seq<V>>) returns (parts': seq<seq<V>>)
    requires multiset(folds) == multiset(Folds(local, parts))
    ensures folds == Folds(local, parts') && multiset(Flatten(parts')) == multiset(Flatten(parts))
  {
    assert |multiset(folds)| == |folds| && |multiset(Folds(local, parts))| == |parts|;
    if folds == [] {
      parts' := [];
    } else {
      var n := |folds| - 1;
      var m := TakePart(local, folds, parts);
      var rest := PartsPermuted(local, folds[..n], parts[..m] + parts[m + 1..]);
      parts' := rest + [parts[m]];
      PutPart(local, folds, rest, parts, m);
    }
  }

  lemma PutPart<O, V>(local: Folding<O, V>, folds: seq<O>, rest: seq<seq<V>>, parts: seq<seq<V>>, m: nat)
    requires folds != [] && folds[..|folds| - 1] == Folds(local, rest) && m < |parts| &&
      folds[|folds| - 1] == FoldAll(local, parts[m])
    requires multiset(Flatten(rest)) == multiset(Flatten(parts[..m] + parts[m + 1..]))
    ensures folds == Folds(local, rest + [parts[m]]) && multiset(Flatten(rest + [parts[m]])) == multiset(Flatten(parts))
  {
    var n := |folds| - 1;
    MoreFolds(local, rest, parts[m]);
    assert folds == folds[..n] + [folds[n]];
    FlattenAppend(rest, parts[m]);
    FlattenWithout(parts, m);
  }

  lemma MoreFolds<O, V>(local: Folding<O, V>, parts: seq<seq<V>>, values: seq<V>)
    ensures Folds(local, parts + [values]) == Folds(local, parts) + [FoldAll(local, values)]
  {
    assert (parts + [values])[..|parts|] == parts;
  }

  lemma TakePart<O, V>(local: Folding<O, V>, folds: seq<O>, parts: seq<seq<V>>) returns (m: nat)
    requires folds != [] && multiset(folds) == multiset(Folds(local, parts))
    ensures m < |parts| && folds[|folds| - 1] == FoldAll(local, parts[m])
    ensures multiset(folds[..|folds| - 1]) == multiset(Folds(local, parts[..m] + parts[m + 1..]))
  {
    var n := |folds| - 1;
    assert folds == folds[..n] + [folds[n]];
    var a, b := TakeOut(folds[..n], folds[n], Folds(local, parts));
    m := |a|;
    assert Folds(local, parts)[m] == folds[n];
    FoldsWithout(local, parts, m);
    assert Folds(local, parts)[..m] == a && Folds(local, parts)[m + 1..] == b;
  }

  lemma FoldsWithout<O, V>(local: Folding<O, V>, parts: seq<seq<V>>, m: nat)
    requires m < |parts|
    ensures Folds(local, parts[..m] + parts[m + 1..]) == Folds(local, parts)[..m] + Folds(local, parts)[m + 1..]
  {
  }

  lemma {:induction false} FlattenWithout<V>(parts: seq<seq<V>>, m: nat)
    requires m < |parts|
    ensures multiset(Flatten(parts)) == multiset(Flatten(parts[..m] + parts[m + 1..])) + multiset(parts[m])
  {
    var n := |parts| - 1;
    if m < n {
      FlattenWithout(parts[..n], m);
      var before := parts[..n][..m] + parts[..n][m + 1..];
      WithoutOneMore(parts, m);
      FlattenAppend(before, parts[n]);
    } else {
      assert parts[..m] + parts[m + 1..] == parts[..n];
    }
  }

  lemma WithoutOneMore<V>(parts: seq<V>, m: nat)
    requires m < |parts| - 1
    ensures var n := |parts| - 1;
            parts[..m] + parts[m + 1..] == (parts[..n][..m] + parts[..n][m + 1..]) + [parts[n]]
  {
  }

  // Folding by key ---------------------------------------------------------------------------------

  /** Exactly one element for each key, with the fold of its values. */
  ghost predicate FoldsByKey<K(!new), O(!new), V>(f: Folding<O, V>, items: seq<(K, V)>, out: seq<(K, O)>) {
    forall k, o :: multiset(out)[(k, o)] ==
      if ItemsOf(items, k) != [] && o == FoldAll(f, ItemsOf(items, k)) then 1 else 0
  }

  lemma OneFold<K(!new), O(!new), V>(f: Folding<O, V>, items: seq<(K, V)>, out: seq<(K, O)>, k: K)
    requires FoldsByKey(f, items, out)
    ensures ItemsOf(out, k) == if ItemsOf(items, k) == [] then [] else [FoldAll(f, ItemsOf(items, k))]
  {
    var some := if ItemsOf(items, k) == [] then [] else [FoldAll(f, ItemsOf(items, k))];
    forall o ensures multiset(ItemsOf(out, k))[o] == multiset(some)[o] {
      TimesIsCount(out, k, o);
      assert multiset(out)[(k, o)] == if ItemsOf(items, k) != [] && o == FoldAll(f, ItemsOf(items, k)) then 1 else 0;
    }
    assert multiset(ItemsOf(out, k)) == multiset(some);
    OnePermutation(ItemsOf(out, k), some);
  }

  lemma OnePermutation<T>(a: seq<T>, b: seq<T>)
    requires multiset(a) == multiset(b) && |b| <= 1
    ensures a == b
  {
    assert |multiset(a)| == |a| && |multiset(b)| == |b|;
    if |b| == 1 { assert a[0] in multiset(a); }
  }

  /** The values of a key at each replica that has any. */
  function PartsOf<K(==), V>(parts: seq<seq<(K, V)>>, k: K): seq<seq<V>> {
    if parts == [] then []
    else
      var before, values := PartsOf(parts[..|parts| - 1], k), ItemsOf(parts[|parts| - 1], k);
      if values == [] then before else before + [values]
  }

  lemma {:induction false} PartsOfAll<K, V>(parts: seq<seq<(K, V)>>, k: K)
    ensures Flatten(PartsOf(parts, k)) == ItemsOf(Flatten(parts), k)
    ensures PartsOf(parts, k) == [] <==> ItemsOf(Flatten(parts), k) == []
  {
    if parts != [] {
      var n := |parts| - 1;
      PartsOfAll(parts[..n], k);
      ItemsOfConcat(Flatten(parts[..n]), parts[n], k);
      var before, values := PartsOf(parts[..n], k), ItemsOf(parts[n], k);
      assert (before + [values])[..|before|] == before;
    }
  }

  /** Every replica folded its own items. */
  ghost predicate AreLocal<K(!new), O(!new), V, S>(local: Folding<O, V>, parts: seq<seq<(K, V)>>,
      ups: seq<Upstream<(K, O), S>>, i: nat) {
    |parts| == |ups| && forall u :: 0 <= u < |ups| ==>
      FoldsByKey(local, parts[u], Delivery.RoundOf(Elements(ups[u].stream), i))
  }

  lemma {:induction false} LocalFolds<K(!new), O(!new), V, S>(local: Folding<O, V>, parts: seq<seq<(K, V)>>,
      ups: seq<Upstream<(K, O), S>>, i: nat, k: K)
    requires AreLocal(local, parts, ups, i)
    ensures ItemsOf(ItemsFrom(ups, i), k) == Folds(local, PartsOf(parts, k))
    decreases |ups|
  {
    if ups != [] {
      var n := |ups| - 1;
      LocalFolds(local, parts[..n], ups[..n], i, k);
      var out := Delivery.RoundOf(Elements(ups[n].stream), i);
      OneFold(local, parts[n], out, k);
      ItemsOfConcat(ItemsFrom(ups[..n], i), out, k);
      MoreFolds(local, PartsOf(parts[..n], k), ItemsOf(parts[n], k));
    }
  }

  /** What the replica of the key makes of the local folds. */
  lemma GlobalFold<K(!new), O(!new), V(!new), S>(
      local: Folding<O, V>, global: (O, O) -> O, hash: K -> nat, block: nat, replicas: seq<Coord>,
      parts: seq<seq<(K, V)>>, ups: seq<Upstream<(K, O), S>>, i: nat, received: seq<seq<(K, O)>>, items: seq<(K, V)>,
      k: K, j: nat)
    requires Merges(local, global) && Swaps(local)
    requires IsReplicas(block, replicas) && replicas != [] && AreConnected(false, ups, block, replicas)
    requires AreLocal(local, parts, ups, i) && Delivered(ByKey(hash), ups, replicas, i, received)
    requires multiset(items) == multiset(Flatten(parts)) && j < |received|
    ensures j != hash(k) % |replicas| ==> ItemsOf(received[j], k) == []
    ensures j == hash(k) % |replicas| ==> (ItemsOf(received[j], k) == [] <==> ItemsOf(items, k) == [])
    ensures j == hash(k) % |replicas| ==>
      FoldAll(Folding(local.init, global), ItemsOf(received[j], k)) == FoldAll(local, ItemsOf(items, k))
  {
    DeliveredByKey(hash, ups, block, replicas, i, received, j, k);
    if j != hash(k) % |replicas| {
      EmptyAlike(ItemsOf(received[j], k), []);
    } else {
      LocalFolds(local, parts, ups, i, k);
      FoldsOfKey(local, global, parts, ItemsOf(received[j], k), items, k);
    }
  }

  lemma FoldsOfKey<K(!new), O(!new), V(!new)>(local: Folding<O, V>, global: (O, O) -> O, parts: seq<seq<(K, V)>>,
      folds: seq<O>, items: seq<(K, V)>, k: K)
    requires Merges(local, global) && Swaps(local) && multiset(items) == multiset(Flatten(parts))
    requires multiset(folds) == multiset(Folds(local, PartsOf(parts, k)))
    ensures folds == [] <==> ItemsOf(items, k) == []
    ensures FoldAll(Folding(local.init, global), folds) == FoldAll(local, ItemsOf(items, k))
  {
    EmptyAlike(folds, Folds(local, PartsOf(parts, k)));
    PartsOfAll(parts, k);
    SameKeyItems(items, Flatten(parts), k);
    var parts' := PartsPermuted(local, folds, PartsOf(parts, k));
    FoldOfFolds(local, global, parts');
    FoldPermuted(local, Flatten(parts'), ItemsOf(items, k));
  }

  /**
    group_by_fold: whatever the partition of the items over the replicas and the order in which the local
    folds arrive, every key comes out exactly once, with the fold of all its values in any order.
   */
  lemma GroupByFold<K(!new), O(!new), V(!new), S>(
      local: Folding<O, V>, global: (O, O) -> O, hash: K -> nat, block: nat, replicas: seq<Coord>,
      parts: seq<seq<(K, V)>>, ups: seq<Upstream<(K, O), S>>, i: nat, received: seq<seq<(K, O)>>,
      outs: seq<seq<(K, O)>>, items: seq<(K, V)>)
    requires Merges(local, global) && Swaps(local)
    requires IsReplicas(block, replicas) && replicas != [] && AreConnected(false, ups, block, replicas)
    requires AreLocal(local, parts, ups, i) && Delivered(ByKey(hash), ups, replicas, i, received)
    requires |outs| == |received| && forall j :: 0 <= j < |outs| ==>
      FoldsByKey(Folding(local.init, global), received[j], outs[j])
    requires multiset(items) == multiset(Flatten(parts))
    ensures FoldsByKey(local, items, Flatten(outs))
  {
    forall k, o ensures multiset(Flatten(outs))[(k, o)] ==
      if ItemsOf(items, k) != [] && o == FoldAll(local, ItemsOf(items, k)) then 1 else 0 {
      var d := hash(k) % |replicas|;
      var c := if ItemsOf(items, k) != [] && o == FoldAll(local, ItemsOf(items, k)) then 1 else 0;
      forall j | 0 <= j < |outs| ensures multiset(outs[j])[(k, o)] == if j == d then c else 0 {
        assert FoldsByKey(Folding(local.init, global), received[j], outs[j]);
        GlobalFold(local, global, hash, block, replicas, parts, ups, i, received, items, k, j);
      }
      CountInOnePart(outs, d, (k, o), c);
    }
  }

  // The operator on items without timestamps -------------------------------------------------------

  /** The plain items. */
  function Plain<T>(chunk: seq<StreamElement<T>>): seq<T> {
    if chunk == [] then []
    else
      var before, e := Plain(chunk[..|chunk| - 1]), chunk[|chunk| - 1];
      if e.Item? then before + [e.value] else before
  }

  function PlainEach<T>(rounds: seq<seq<StreamElement<T>>>): (plain: seq<seq<T>>)
    ensures |plain| == |rounds| && forall i :: 0 <= i < |plain| ==> plain[i] == Plain(rounds[i])
  {
    if rounds == [] then [] else PlainEach(rounds[..|rounds| - 1]) + [Plain(rounds[|rounds| - 1])]
  }

  lemma PlainAppend<T>(chunk: seq<StreamElement<T>>, e: StreamElement<T>)
    ensures Plain(chunk + [e]) == if e.Item? then Plain(chunk) + [e.value] else Plain(chunk)
  {
    assert (chunk + [e])[..|chunk|] == chunk;
  }

  lemma {:induction false} RoundsOfChunks<T>(s: seq<StreamElement<T>>, rest: seq<StreamElement<T>>)
    requires NoneTerminates(s)
    ensures Rounds(s + rest, []) == PlainEach(ChunksOf(s).rounds) + Rounds(rest, Plain(ChunksOf(s).current))
  {
    if s == [] {
      assert s + rest == rest;
    } else {
      var n := |s| - 1;
      assert s + rest == s[..n] + ([s[n]] + rest);
      RoundsOfChunks(s[..n], [s[n]] + rest);
      RoundsStep(ChunksOf(s[..n]), s[n], rest);
    }
  }

  lemma RoundsStep<T>(c: Chunks<T>, e: StreamElement<T>, rest: seq<StreamElement<T>>)
    requires !e.Terminate?
    ensures PlainEach(c.rounds) + Rounds([e] + rest, Plain(c.current)) ==
            PlainEach(Cut(c, e).rounds) + Rounds(rest, Plain(Cut(c, e).current))
  {
    assert ([e] + rest)[1..] == rest;
    PlainAppend(c.current, e);
    if e.FlushAndRestart? {
      var more := c.rounds + [c.current];
      assert more[..|c.rounds|] == c.rounds;
      assert (PlainEach(c.rounds) + [Plain(c.current)]) + Rounds(rest, []) ==
              PlainEach(c.rounds) + ([Plain(c.current)] + Rounds(rest, []));
    }
  }

  lemma RoundsArePlain<T>(s: seq<StreamElement<T>>)
    requires EndsWithTerminate(s)
    ensures Rounds(s, []) == PlainEach(ChunksOf(s).rounds)
  {
    var n := |s| - 1;
    assert s == s[..n] + [Terminate];
    ChunksAppend(s[..n], Terminate);
    RoundsOfChunks(s[..n], [Terminate]);
  }

  predicate Untimed<T>(chunk: seq<StreamElement<T>>) {
    chunk == [] || (!chunk[|chunk| - 1].Timestamped? && Untimed(chunk[..|chunk| - 1]))
  }

  lemma {:induction false} UntimedArrivals<K, O, V>(f: Folding<O, V>, chunk: seq<StreamElement<(K, V)>>, k: K)
    requires Untimed(chunk)
    ensures var values := ItemsOf(Arrivals(chunk), k);
            && TimeOf(values) == None && FoldOf(f, values) == FoldAll(f, ItemsOf(Plain(chunk), k))
            && (values == [] <==> ItemsOf(Plain(chunk), k) == [])
  {
    if chunk != [] {
      var n := |chunk| - 1;
      UntimedArrivals(f, chunk[..n], k);
      match chunk[n]
      case Item((k', v)) =>
        ItemsOfAppend(Arrivals(chunk[..n]), k', (v, None), k);
        ItemsOfAppend(Plain(chunk[..n]), k', v, k);
        ValuesAppend(f, ItemsOf(Arrivals(chunk[..n]), k), (v, None));
        FoldAppend(f, ItemsOf(Plain(chunk[..n]), k), v);
      case _ =>
    }
  }

  lemma {:induction false} PlainCount<T>(chunk: seq<StreamElement<T>>, x: T)
    ensures multiset(Plain(chunk))[x] == multiset(chunk)[Item(x)]
  {
    if chunk != [] {
      var n := |chunk| - 1;
      PlainCount(chunk[..n], x);
      assert chunk == chunk[..n] + [chunk[n]];
    }
  }

  lemma FoldedIsByKey<K(!new), O(!new), V>(f: Folding<O, V>, chunk: seq<StreamElement<(K, V)>>,
      out: seq<StreamElement<(K, O)>>)
    requires Untimed(chunk) && IsFolded(f, chunk, out)
    ensures FoldsByKey(f, Plain(chunk), Plain(out))
  {
    var elements := if MaxMark(chunk).None? then out else out[..|out| - 1];
    assert Plain(out) == Plain(elements);
    forall k, o
      ensures multiset(Plain(out))[(k, o)] ==
        if ItemsOf(Plain(chunk), k) != [] && o == FoldAll(f, ItemsOf(Plain(chunk), k)) then 1 else 0
    {
      PlainCount(elements, (k, o));
      UntimedArrivals(f, chunk, k);
      assert IsElement(f, Arrivals(chunk), Item((k, o))) <==>
        ItemsOf(Plain(chunk), k) != [] && o == FoldAll(f, ItemsOf(Plain(chunk), k));
    }
  }

  lemma {:induction false} UntimedRound<T>(s: seq<StreamElement<T>>, i: nat)
    requires Untimed(s)
    ensures Untimed(ChunksOf(s).current) && (i < |ChunksOf(s).rounds| ==> Untimed(ChunksOf(s).rounds[i]))
  {
    if s != [] {
      var before := ChunksOf(s[..|s| - 1]);
      UntimedRound(s[..|s| - 1], i);
      assert (before.current + [s[|s| - 1]])[..|before.current|] == before.current;
    }
  }

  lemma {:induction false} CleanChunks<T>(s: seq<StreamElement<T>>, rest: seq<StreamElement<T>>)
    requires NoneTerminates(s)
    ensures EndsCleanly(s + rest, []) <==> EndsCleanly(rest, Plain(ChunksOf(s).current))
  {
    if s == [] {
      assert s + rest == rest;
    } else {
      var n := |s| - 1;
      assert s + rest == s[..n] + ([s[n]] + rest) && ([s[n]] + rest)[1..] == rest;
      CleanChunks(s[..n], [s[n]] + rest);
      PlainAppend(ChunksOf(s[..n]).current, s[n]);
    }
  }

  lemma EndsCleanlyAfterRound<T>(s: seq<StreamElement<T>>)
    requires EndsWithTerminate(s)
    ensures EndsCleanly(s, []) <==> Plain(ChunksOf(s).current) == []
  {
    var n := |s| - 1;
    assert s == s[..n] + [Terminate];
    ChunksAppend(s[..n], Terminate);
    CleanChunks(s[..n], [Terminate]);
  }

  lemma NothingFolded<K(!new), O(!new), V>(f: Folding<O, V>, out: seq<(K, O)>)
    requires FoldsByKey(f, [], out)
    ensures out == []
  {
    forall x ensures multiset(out)[x] == 0 {
      var (k, o) := x;
      assert multiset(out)[(k, o)] == 0;
    }
    assert multiset(out) == multiset{};
    assert |out| == |multiset(out)|;
  }

  /** Without times and watermarks, there are items only. */
  lemma ItemsFolded<K(!new), O(!new), V>(f: Folding<O, V>, chunk: seq<StreamElement<(K, V)>>,
      out: seq<StreamElement<(K, O)>>, e: StreamElement<(K, O)>)
    requires Untimed(chunk) && MaxMark(chunk) == None && IsFolded(f, chunk, out) && e in out
    ensures e.Item?
  {
    assert multiset(out)[e] > 0 && IsElement(f, Arrivals(chunk), e);
    UntimedArrivals(f, chunk, e.value.0);
  }

  lemma {:induction false} UnmarkedRound<T>(s: seq<StreamElement<T>>, i: nat)
    requires MaxMark(s) == None
    ensures MaxMark(ChunksOf(s).current) == None &&
      (i < |ChunksOf(s).rounds| ==> MaxMark(ChunksOf(s).rounds[i]) == None)
  {
    if s != [] {
      var before := ChunksOf(s[..|s| - 1]);
      UnmarkedRound(s[..|s| - 1], i);
      assert (before.current + [s[|s| - 1]])[..|before.current|] == before.current;
    }
  }

  predicate IsInRound<T(==)>(rounds: seq<seq<StreamElement<T>>>, i: int, e: StreamElement<T>) {
    0 <= i < |rounds| && e in rounds[i]
  }

  lemma {:induction false} ChunksHave<T>(s: seq<StreamElement<T>>, e: StreamElement<T>)
    requires e in s && !e.FlushAndRestart? && !e.Terminate?
    ensures e in ChunksOf(s).current || exists i :: IsInRound(ChunksOf(s).rounds, i, e)
  {
    var n := |s| - 1;
    var before := ChunksOf(s[..n]);
    assert s == s[..n] + [s[n]];
    if e in s[..n] {
      ChunksHave(s[..n], e);
      if i :| IsInRound(before.rounds, i, e) {
        assert IsInRound(ChunksOf(s).rounds, i, e);
      } else if s[n].FlushAndRestart? {
        assert IsInRound(ChunksOf(s).rounds, |before.rounds|, e);
      }
    }
  }

  /** Neither timestamps nor watermarks: the operators of an iteration accept nothing else. */
  predicate IsTimeless<T>(s: seq<StreamElement<T>>) { forall i :: 0 <= i < |s| ==>
    !s[i].Timestamped? && !s[i].Watermark? }

  lemma {:induction false} TimelessIsUnmarked<T>(s: seq<StreamElement<T>>)
    requires IsTimeless(s)
    ensures Untimed(s) && MaxMark(s) == None
  {
    if s != [] { TimelessIsUnmarked(s[..|s| - 1]); }
  }

  lemma FoldedIsTimeless<K(!new), O(!new), V>(f: Folding<O, V>, input: seq<StreamElement<(K, V)>>,
      output: seq<StreamElement<(K, O)>>)
    requires IsTimeless(input)
    requires RoundsFolded(f, ChunksOf(input).rounds, ChunksOf(output).rounds, 0)
    requires IsFolded(f, ChunksOf(input).current, ChunksOf(output).current)
    ensures IsTimeless(output)
  {
    TimelessIsUnmarked(input);
    forall i | 0 <= i < |output| ensures !output[i].Timestamped? && !output[i].Watermark? {
      var e := output[i];
      if !e.FlushAndRestart? && !e.Terminate? {
        ChunksHave(output, e);
        UntimedRound(input, 0);
        UnmarkedRound(input, 0);
        if j :| IsInRound(ChunksOf(output).rounds, j, e) {
          UntimedRound(input, j);
          UnmarkedRound(input, j);
          assert RoundFolded(f, ChunksOf(input).rounds, ChunksOf(output).rounds, j);
          ItemsFolded(f, ChunksOf(input).rounds[j], ChunksOf(output).rounds[j], e);
        } else {
          ItemsFolded(f, ChunksOf(input).current, ChunksOf(output).current, e);
        }
      }
    }
  }

  /** Without timestamps: in every round, one item for each key. */
  method RunUntimedFold<K(==, !new), O(==, !new), V(!new)>(f: Folding<O, V>, input: seq<StreamElement<(K, V)>>)
    returns (output: seq<StreamElement<(K, O)>>)
    requires EndsWithTerminate(input) && Untimed(input)
    ensures EndsWithTerminate(output) && |Rounds(output, [])| == |Rounds(input, [])|
    ensures forall i :: 0 <= i < |Rounds(input, [])| ==> FoldsByKey(f, Rounds(input, [])[i], Rounds(output, [])[i])
    ensures EndsCleanly(input, []) ==> EndsCleanly(output, [])
    ensures IsTimeless(input) ==> IsTimeless(output)
  {
    output := RunKeyedFold(f, input);
    if EndsCleanly(input, []) { KeepsClean(f, input, output); }
    if IsTimeless(input) { FoldedIsTimeless(f, input, output); }
    RoundsArePlain(input);
    RoundsArePlain(output);
    forall i | 0 <= i < |Rounds(input, [])| ensures FoldsByKey(f, Rounds(input, [])[i], Rounds(output, [])[i]) {
      assert RoundFolded(f, ChunksOf(input).rounds, ChunksOf(output).rounds, i);
      UntimedRound(input, i);
      FoldedIsByKey(f, ChunksOf(input).rounds[i], ChunksOf(output).rounds[i]);
    }
  }

  lemma KeepsClean<K(!new), O(!new), V>(f: Folding<O, V>, input: seq<StreamElement<(K, V)>>,
      output: seq<StreamElement<(K, O)>>)
    requires EndsWithTerminate(input) && Untimed(input) && EndsWithTerminate(output) && EndsCleanly(input, [])
    requires IsFolded(f, ChunksOf(input).current, ChunksOf(output).current)
    ensures EndsCleanly(output, [])
  {
    EndsCleanlyAfterRound(input);
    EndsCleanlyAfterRound(output);
    UntimedRound(input, 0);
    FoldedIsByKey(f, ChunksOf(input).current, ChunksOf(output).current);
    NothingFolded(f, Plain(ChunksOf(output).current));
  }

  // group_by_reduce --------------------------------------------------------------------------------

  function LocalReduce<I>(f: (I, I) -> I): Folding<Option<I>, I> {
    Folding(None, (acc: Option<I>, v: I) => match acc { case None => Some(v) case Some(a) => Some(f(a, v)) })
  }

  function GlobalReduce<I>(f: (I, I) -> I): (Option<I>, Option<I>) -> Option<I> {
    (a: Option<I>, b: Option<I>) => if a.None? then b else if b.None? then a else Some(f(a.value, b.value))
  }

  predicate AssociatesAt<I(==)>(f: (I, I) -> I, x: I, y: I, z: I) { f(f(x, y), z) == f(x, f(y, z)) }

  predicate CommutesAt<I(==)>(f: (I, I) -> I, x: I, y: I) { f(x, y) == f(y, x) }

  ghost predicate Associates<I(!new)>(f: (I, I) -> I) {
    forall x, y, z {:trigger AssociatesAt(f, x, y, z)} :: AssociatesAt(f, x, y, z)
  }

  ghost predicate Commutes<I(!new)>(f: (I, I) -> I) {
    forall x, y {:trigger CommutesAt(f, x, y)} :: CommutesAt(f, x, y)
  }

  /** The values one after the other. */
  function Reduce<I>(f: (I, I) -> I, vs: seq<I>): I
    requires vs != []
  {
    if |vs| == 1 then vs[0] else f(Reduce(f, vs[..|vs| - 1]), vs[|vs| - 1])
  }

  lemma {:induction false} LocalReduces<I>(f: (I, I) -> I, vs: seq<I>)
    ensures FoldAll(LocalReduce(f), vs) == if vs == [] then None else Some(Reduce(f, vs))
  {
    if vs != [] { LocalReduces(f, vs[..|vs| - 1]); }
  }

  lemma {:induction false} ReduceConcat<I(!new)>(f: (I, I) -> I, xs: seq<I>, ys: seq<I>)
    requires Associates(f) && xs != [] && ys != []
    ensures Reduce(f, xs + ys) == f(Reduce(f, xs), Reduce(f, ys))
  {
    var n := |ys| - 1;
    assert (xs + ys)[..|xs + ys| - 1] == xs + ys[..n];
    if n == 0 {
      assert xs + ys[..n] == xs;
    } else {
      ReduceConcat(f, xs, ys[..n]);
      assert AssociatesAt(f, Reduce(f, xs), Reduce(f, ys[..n]), ys[n]);
    }
  }

  lemma ReduceMerges<I(!new)>(f: (I, I) -> I)
    requires Associates(f)
    ensures Merges(LocalReduce(f), GlobalReduce(f))
  {
    forall xs, ys ensures MergesAt(LocalReduce(f), GlobalReduce(f), xs, ys) {
      LocalReduces(f, xs);
      LocalReduces(f, ys);
      LocalReduces(f, xs + ys);
      if xs == [] { assert xs + ys == ys; } else if ys == [] { assert xs + ys == xs; } else { ReduceConcat(f, xs, ys); }
    }
  }

  lemma ReduceSwaps<I(!new)>(f: (I, I) -> I)
    requires Associates(f) && Commutes(f)
    ensures Swaps(LocalReduce(f))
  {
    forall o, v, w ensures SwapsAt(LocalReduce(f), o, v, w) {
      assert CommutesAt(f, v, w);
      if o.Some? { assert AssociatesAt(f, o.value, v, w) && AssociatesAt(f, o.value, w, v); }
    }
  }

  /** Exactly one element for each key, with the reduction of its values. */
  ghost predicate ReducesByKey<K(!new), I(!new)>(f: (I, I) -> I, items: seq<(K, I)>, out: seq<(K, I)>) {
    forall k, v :: multiset(out)[(k, v)] ==
      if ItemsOf(items, k) != [] && v == Reduce(f, ItemsOf(items, k)) then 1 else 0
  }

  function Unwrapped<K, I>(out: seq<(K, Option<I>)>): seq<(K, I)>
    requires forall i :: 0 <= i < |out| ==> out[i].1.Some?
  {
    if out == [] then [] else Unwrapped(out[..|out| - 1]) + [(out[|out| - 1].0, out[|out| - 1].1.value)]
  }

  lemma {:induction false} UnwrappedCount<K, I>(out: seq<(K, Option<I>)>, k: K, v: I)
    requires forall i :: 0 <= i < |out| ==> out[i].1.Some?
    ensures multiset(Unwrapped(out))[(k, v)] == multiset(out)[(k, Some(v))]
  {
    if out != [] {
      var n := |out| - 1;
      UnwrappedCount(out[..n], k, v);
      assert out == out[..n] + [out[n]];
    }
  }

  /**
    group_by_reduce, for an associative and commutative operation: no key comes out without a value, and
    every key comes out once, with the reduction of all its values.
   */
  lemma GroupByReduce<K(!new), I(!new), S>(
      f: (I, I) -> I, hash: K -> nat, block: nat, replicas: seq<Coord>, parts: seq<seq<(K, I)>>,
      ups: seq<Upstream<(K, Option<I>), S>>, i: nat,
      received: seq<seq<(K, Option<I>)>>, outs: seq<seq<(K, Option<I>)>>, items: seq<(K, I)>)
    requires Associates(f) && Commutes(f)
    requires IsReplicas(block, replicas) && replicas != [] && AreConnected(false, ups, block, replicas)
    requires AreLocal(LocalReduce(f), parts, ups, i) && Delivered(ByKey(hash), ups, replicas, i, received)
    requires |outs| == |received| && forall j :: 0 <= j < |outs| ==>
      FoldsByKey(Folding(None, GlobalReduce(f)), received[j], outs[j])
    requires multiset(items) == multiset(Flatten(parts))
    ensures forall m :: 0 <= m < |Flatten(outs)| ==> Flatten(outs)[m].1.Some?
    ensures ReducesByKey(f, items, Unwrapped(Flatten(outs)))
  {
    ReduceMerges(f);
    ReduceSwaps(f);
    GroupByFold(LocalReduce(f), GlobalReduce(f), hash, block, replicas, parts, ups, i, received, outs, items);
    var out := Flatten(outs);
    forall m | 0 <= m < |out| ensures out[m].1.Some? {
      assert out[m] in multiset(out) && multiset(out)[(out[m].0, out[m].1)] > 0;
      LocalReduces(f, ItemsOf(items, out[m].0));
    }
    forall k, v ensures multiset(Unwrapped(out))[(k, v)] ==
      if ItemsOf(items, k) != [] && v == Reduce(f, ItemsOf(items, k)) then 1 else 0 {
      UnwrappedCount(out, k, v);
      LocalReduces(f, ItemsOf(items, k));
      assert multiset(out)[(k, Some(v))] ==
        if ItemsOf(items, k) != [] && Some(v) == FoldAll(LocalReduce(f), ItemsOf(items, k)) then 1 else 0;
    }
  }
}
