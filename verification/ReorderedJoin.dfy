/** Reorder and IntervalJoin together: the join of a stream whose items arrive in any order. */
module ReorderedJoin {
  import opened Streams
  import opened Keyed
  import opened TimedStreams
  import opened IntervalJoin
  import Sorting = Reorder

  // How often a tuple is in the join ---------------------------------------------------------------

  /** A left and a right item match, and make this tuple. */
  predicate Makes<K(==), A(==), B(==)>(b: Bounds, x: Timed<(K, A)>, y: (K, Timed<B>), z: Timed<(K, (A, B))>) {
    && x.1.0 == y.0 && x.0 - b.lower <= y.1.0 <= x.0 + b.upper
    && z == (if y.1.0 >= x.0 then y.1.0 else x.0, (x.1.0, (x.1.1, y.1.1)))
  }

  function Hits<K(==), A(==), B(==)>(b: Bounds, x: Timed<(K, A)>, r: seq<(K, Timed<B>)>, z: Timed<(K, (A, B))>): nat {
    if r == [] then 0 else Hits(b, x, r[..|r| - 1], z) + if Makes(b, x, r[|r| - 1], z) then 1 else 0
  }

  /** The number of pairs of a left and a right item that make the tuple. */
  function PairCount<K(==), A(==), B(==)>(b: Bounds, l: seq<Timed<(K, A)>>, r: seq<(K, Timed<B>)>,
      z: Timed<(K, (A, B))>): nat {
    if l == [] then 0 else PairCount(b, l[..|l| - 1], r, z) + Hits(b, l[|l| - 1], r, z)
  }

  lemma TuplesAppend<K, A, B>(ts: int, k: K, a: A, matches: seq<Timed<B>>, y: Timed<B>)
    ensures Tuples(ts, k, a, matches + [y]) ==
            Tuples(ts, k, a, matches) + [(if y.0 >= ts then y.0 else ts, (k, (a, y.1)))]
  {
    assert (matches + [y])[..|matches|] == matches;
  }

  lemma {:induction false} PairsOfCount<K, A, B>(b: Bounds, x: Timed<(K, A)>, r: seq<(K, Timed<B>)>,
      z: Timed<(K, (A, B))>)
    ensures multiset(PairsOf(b, x, r))[z] == Hits(b, x, r, z)
  {
    if r != [] {
      var n := |r| - 1;
      PairsOfCount(b, x, r[..n], z);
      TuplesAppend(x.0, x.1.0, x.1.1, MatchesOf(r[..n], x.1.0, x.0 - b.lower, x.0 + b.upper), r[n].1);
    }
  }

  lemma {:induction false} PairsCount<K, A, B>(b: Bounds, l: seq<Timed<(K, A)>>, r: seq<(K, Timed<B>)>,
      z: Timed<(K, (A, B))>)
    ensures multiset(Pairs(b, l, r))[z] == PairCount(b, l, r, z)
  {
    if l != [] {
      PairsCount(b, l[..|l| - 1], r, z);
      PairsOfCount(b, l[|l| - 1], r, z);
    }
  }

  lemma {:induction false} HitsConcat<K, A, B>(b: Bounds, x: Timed<(K, A)>, r: seq<(K, Timed<B>)>,
      r': seq<(K, Timed<B>)>, z: Timed<(K, (A, B))>)
    ensures Hits(b, x, r + r', z) == Hits(b, x, r, z) + Hits(b, x, r', z)
  {
    if r' == [] {
      assert r + r' == r;
    } else {
      assert (r + r')[..|r + r'| - 1] == r + r'[..|r'| - 1];
      HitsConcat(b, x, r, r'[..|r'| - 1], z);
    }
  }

  lemma {:induction false} HitsPermute<K, A, B>(b: Bounds, x: Timed<(K, A)>, r: seq<(K, Timed<B>)>,
      r': seq<(K, Timed<B>)>, z: Timed<(K, (A, B))>)
    requires multiset(r) == multiset(r')
    ensures Hits(b, x, r, z) == Hits(b, x, r', z)
  {
    assert |multiset(r)| == |r| && |multiset(r')| == |r'|;
    if r != [] {
      var n := |r| - 1;
      assert r == r[..n] + [r[n]];
      var r1, r2 := TakeOut(r[..n], r[n], r');
      HitsPermute(b, x, r[..n], r1 + r2, z);
      HitsMiddle(b, x, r1, r[n], r2, z);
    }
  }

  lemma HitsMiddle<K, A, B>(b: Bounds, x: Timed<(K, A)>, r1: seq<(K, Timed<B>)>, y: (K, Timed<B>),
      r2: seq<(K, Timed<B>)>, z: Timed<(K, (A, B))>)
    ensures Hits(b, x, r1 + [y] + r2, z) == Hits(b, x, r1 + r2, z) + if Makes(b, x, y, z) then 1 else 0
  {
    HitsConcat(b, x, r1 + [y], r2, z);
    HitsConcat(b, x, r1, [y], z);
    HitsConcat(b, x, r1, r2, z);
    assert [y][..0] == [];
  }

  lemma {:induction false} CountConcat<K, A, B>(b: Bounds, l: seq<Timed<(K, A)>>, l': seq<Timed<(K, A)>>,
      r: seq<(K, Timed<B>)>, z: Timed<(K, (A, B))>)
    ensures PairCount(b, l + l', r, z) == PairCount(b, l, r, z) + PairCount(b, l', r, z)
  {
    if l' == [] {
      assert l + l' == l;
    } else {
      assert (l + l')[..|l + l'| - 1] == l + l'[..|l'| - 1];
      CountConcat(b, l, l'[..|l'| - 1], r, z);
    }
  }

  lemma CountMiddle<K, A, B>(b: Bounds, l1: seq<Timed<(K, A)>>, x: Timed<(K, A)>, l2: seq<Timed<(K, A)>>,
      r: seq<(K, Timed<B>)>, z: Timed<(K, (A, B))>)
    ensures PairCount(b, l1 + [x] + l2, r, z) == PairCount(b, l1 + l2, r, z) + Hits(b, x, r, z)
  {
    CountConcat(b, l1 + [x], l2, r, z);
    CountConcat(b, l1, [x], r, z);
    CountConcat(b, l1, l2, r, z);
    assert [x][..0] == [];
  }

  /** The order of the items does not matter. */
  lemma {:induction false} CountPermutes<K, A, B>(b: Bounds, l: seq<Timed<(K, A)>>, l': seq<Timed<(K, A)>>,
      r: seq<(K, Timed<B>)>, r': seq<(K, Timed<B>)>,
      z: Timed<(K, (A, B))>)
    requires multiset(l) == multiset(l') && multiset(r) == multiset(r')
    ensures PairCount(b, l, r, z) == PairCount(b, l', r', z)
  {
    assert |multiset(l)| == |l| && |multiset(l')| == |l'|;
    if l != [] {
      var n := |l| - 1;
      assert l == l[..n] + [l[n]];
      var l1, l2 := TakeOut(l[..n], l[n], l');
      CountPermutes(b, l[..n], l1 + l2, r, r', z);
      CountMiddle(b, l1, l[n], l2, r', z);
      HitsPermute(b, l[n], r, r', z);
    }
  }

  // The sides of a sorted round --------------------------------------------------------------------

  ghost function LeftPart<K, A, B>(x: Timed<(K, Merged<A, B>)>): multiset<Timed<(K, A)>> {
    if x.1.1.LeftItem? then multiset{(x.0, (x.1.0, x.1.1.left))} else multiset{}
  }

  ghost function RightPart<K, A, B>(x: Timed<(K, Merged<A, B>)>): multiset<(K, Timed<B>)> {
    if x.1.1.RightItem? then multiset{(x.1.0, (x.0, x.1.1.right))} else multiset{}
  }

  lemma LeftsGrow<K, A, B>(s: Round<K, A, B>, x: Timed<(K, Merged<A, B>)>)
    ensures multiset(LeftsOf(s + [x])) == multiset(LeftsOf(s)) + LeftPart(x)
  {
    SidesAppend(s, x.0, x.1.0, x.1.1);
  }

  lemma {:induction false} InsertKeepsLefts<K, A, B>(s: Round<K, A, B>, x: Timed<(K, Merged<A, B>)>)
    ensures multiset(LeftsOf(Insert(ByTime(), s, x))) == multiset(LeftsOf(s)) + LeftPart(x)
  {
    if s == [] || ByTime().Le(s[|s| - 1].0, x.0) {
      LeftsGrow(s, x);
    } else {
      var n := |s| - 1;
      InsertKeepsLefts(s[..n], x);
      LeftsGrow(Insert(ByTime(), s[..n], x), s[n]);
      assert Insert(ByTime(), s, x) == Insert(ByTime(), s[..n], x) + [s[n]];
      assert s == s[..n] + [s[n]];
      LeftsGrow(s[..n], s[n]);
    }
  }

  lemma {:induction false} SortKeepsLefts<K, A, B>(s: Round<K, A, B>)
    ensures multiset(LeftsOf(Sort(ByTime(), s))) == multiset(LeftsOf(s))
  {
    if s != [] {
      var n := |s| - 1;
      SortKeepsLefts(s[..n]);
      InsertKeepsLefts(Sort(ByTime(), s[..n]), s[n]);
      assert s == s[..n] + [s[n]];
      LeftsGrow(s[..n], s[n]);
    }
  }

  lemma RightsGrow<K, A, B>(s: Round<K, A, B>, x: Timed<(K, Merged<A, B>)>)
    ensures multiset(RightsOf(s + [x])) == multiset(RightsOf(s)) + RightPart(x)
  {
    SidesAppend(s, x.0, x.1.0, x.1.1);
  }

  lemma {:induction false} InsertKeepsRights<K, A, B>(s: Round<K, A, B>, x: Timed<(K, Merged<A, B>)>)
    ensures multiset(RightsOf(Insert(ByTime(), s, x))) == multiset(RightsOf(s)) + RightPart(x)
  {
    if s == [] || ByTime().Le(s[|s| - 1].0, x.0) {
      RightsGrow(s, x);
    } else {
      var n := |s| - 1;
      InsertKeepsRights(s[..n], x);
      RightsGrow(Insert(ByTime(), s[..n], x), s[n]);
      assert Insert(ByTime(), s, x) == Insert(ByTime(), s[..n], x) + [s[n]];
      assert s == s[..n] + [s[n]];
      RightsGrow(s[..n], s[n]);
    }
  }

  lemma {:induction false} SortKeepsRights<K, A, B>(s: Round<K, A, B>)
    ensures multiset(RightsOf(Sort(ByTime(), s))) == multiset(RightsOf(s))
  {
    if s != [] {
      var n := |s| - 1;
      SortKeepsRights(s[..n]);
      InsertKeepsRights(Sort(ByTime(), s[..n]), s[n]);
      assert s == s[..n] + [s[n]];
      RightsGrow(s[..n], s[n]);
    }
  }

  lemma {:induction false} OthersHas<T>(s: seq<StreamElement<T>>, e: StreamElement<T>)
    requires e in s && !e.Timestamped?
    ensures e in Others(s)
  {
    if e != s[|s| - 1] { OthersHas(s[..|s| - 1], e); }
  }

  lemma {:induction false} OthersAreOf<T>(s: seq<StreamElement<T>>, e: StreamElement<T>)
    requires e in Others(s)
    ensures e in s
  {
    if e != s[|s| - 1] { OthersAreOf(s[..|s| - 1], e); }
  }

  /** The timestamped items are those of the rounds. */
  lemma {:induction false} TimedAreOf<T>(s: seq<StreamElement<T>>, x: Timed<T>)
    ensures Timestamped(x.1, x.0) in s <==> HasTimed(FlowOf(s), x)
  {
    if s != [] {
      var n := |s| - 1;
      assert s == s[..n] + [s[n]];
      TimedAreOf(s[..n], x);
      OneMoreTimed(FlowOf(s[..n]), s[n], x);
    }
  }

  ghost predicate HasTimed<T>(f: Flow<T>, x: Timed<T>) { x in f.current || exists i :: IsIn(f.rounds, i, x) }

  lemma OneMoreTimed<T>(f: Flow<T>, e: StreamElement<T>, x: Timed<T>)
    ensures HasTimed(Then(f, e), x) <==> HasTimed(f, x) || e == Timestamped(x.1, x.0)
  {
    if e.FlushAndRestart? { MoreRounds(f.rounds, f.current, x); }
  }

  predicate IsIn<T(==)>(rounds: seq<seq<Timed<T>>>, i: int, x: Timed<T>) { 0 <= i < |rounds| && x in rounds[i] }

  lemma MoreRounds<T>(rounds: seq<seq<Timed<T>>>, round: seq<Timed<T>>, x: Timed<T>)
    ensures (exists i :: IsIn(rounds + [round], i, x)) <==> (exists i :: IsIn(rounds, i, x)) || x in round
  {
    if i :| IsIn(rounds, i, x) { assert IsIn(rounds + [round], i, x); }
    if x in round { assert IsIn(rounds + [round], |rounds|, x); }
    if i :| IsIn(rounds + [round], i, x) {
      if i < |rounds| { assert IsIn(rounds, i, x); }
    }
  }

  lemma SortHas<T>(s: seq<Timed<T>>, x: Timed<T>)
    ensures x in Sort(ByTime(), s) <==> x in s
  {
    SortPermutes(ByTime(), s);
    assert x in multiset(Sort(ByTime(), s)) <==> x in multiset(s);
  }

  /** What Reorder emits with a timestamp it has received. */
  lemma SortedAreOf<T>(input: seq<StreamElement<T>>, sorted: seq<StreamElement<T>>, x: Timed<T>)
    requires |TimedRounds(sorted)| == |TimedRounds(input)| && forall i :: 0 <= i < |TimedRounds(input)| ==>
      TimedRounds(sorted)[i] == Sort(ByTime(), TimedRounds(input)[i])
    requires FlowOf(sorted).current <= Sort(ByTime(), FlowOf(input).current)
    requires Timestamped(x.1, x.0) in sorted
    ensures Timestamped(x.1, x.0) in input
  {
    TimedAreOf(sorted, x);
    TimedAreOf(input, x);
    if i :| IsIn(TimedRounds(sorted), i, x) {
      SortHas(TimedRounds(input)[i], x);
      assert IsIn(TimedRounds(input), i, x);
    } else {
      SortHas(FlowOf(input).current, x);
    }
  }

  /** What Reorder emits can be joined if its input could. */
  lemma SortedIsAccepted<K, A, B>(b: Bounds, input: seq<StreamElement<(K, Merged<A, B>)>>,
      sorted: seq<StreamElement<(K, Merged<A, B>)>>)
    requires Others(sorted) == Others(input)
    requires |TimedRounds(sorted)| == |TimedRounds(input)| && forall i :: 0 <= i < |TimedRounds(input)| ==>
      TimedRounds(sorted)[i] == Sort(ByTime(), TimedRounds(input)[i])
    requires FlowOf(sorted).current <= Sort(ByTime(), FlowOf(input).current)
    requires forall e :: e in input ==> Accepts(b, e)
    ensures forall e :: e in sorted ==> Accepts(b, e)
  {
    forall e | e in sorted ensures Accepts(b, e) {
      if e.Timestamped? {
        SortedAreOf(input, sorted, (e.ts, e.value));
      } else {
        OthersHas(sorted, e);
        OthersAreOf(input, e);
      }
    }
  }

  /**
    The items may arrive in any order that honours the watermarks: in every round, each tuple comes out
    exactly as often as there are pairs of items of the same key, the right one in the interval of the
    left one, that make it.
   */
  method RunReorderedJoin<K(==, !new), A(!new), B(!new)>(bounds: Bounds, input: seq<StreamElement<(K, Merged<A, B>)>>)
    returns (output: seq<StreamElement<(K, (A, B))>>)
    requires bounds.Valid() && EndsWithTerminate(input) && IsTimed(input)
    requires forall e :: e in input ==> Accepts(bounds, e)
    ensures |TimedRounds(output)| == |TimedRounds(input)|
    ensures forall i, z :: 0 <= i < |TimedRounds(input)| ==>
      multiset(TimedRounds(output)[i])[z] == PairCount(bounds, LeftsOf(TimedRounds(input)[i]),
        RightsOf(TimedRounds(input)[i]), z)
    ensures Signals(Others(output)) == Signals(Others(input)) && EndsWithTerminate(output)
  {
    var sorted := Sorting.RunReorder(input);
    SortedIsAccepted(bounds, input, sorted);
    output := RunIntervalJoin(bounds, sorted);
    forall i, z | 0 <= i < |TimedRounds(input)|
      ensures multiset(TimedRounds(output)[i])[z] ==
              PairCount(bounds, LeftsOf(TimedRounds(input)[i]), RightsOf(TimedRounds(input)[i]), z)
    {
      assert IsJoined(bounds, TimedRounds(sorted), TimedRounds(output), i);
      SortedPairsCount(bounds, TimedRounds(input)[i], TimedRounds(output)[i], z);
    }
  }

  lemma SortedPairsCount<K, A, B>(b: Bounds, round: Round<K, A, B>, out: seq<Timed<(K, (A, B))>>, z: Timed<(K, (A, B))>)
    requires out == Pairs(b, LeftsOf(Sort(ByTime(), round)), RightsOf(Sort(ByTime(), round)))
    ensures multiset(out)[z] == PairCount(b, LeftsOf(round), RightsOf(round), z)
  {
    var sorted := Sort(ByTime(), round);
    PairsCount(b, LeftsOf(sorted), RightsOf(sorted), z);
    SortKeepsLefts(round);
    SortKeepsRights(round);
    CountPermutes(b, LeftsOf(sorted), LeftsOf(round), RightsOf(sorted), RightsOf(round), z);
  }
}
