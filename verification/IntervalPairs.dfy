/** Which pairs of items an interval join makes, by their places in the round. */
module IntervalPairs {
  import opened Streams
  import opened Keyed
  import opened TimedStreams
  import opened IntervalJoin
  import opened ReorderedJoin

  /** A left item, and a right one of its key in its interval. */
  predicate Meets<K(==), A, B>(b: Bounds, x: Timed<(K, Merged<A, B>)>, y: Timed<(K, Merged<A, B>)>) {
    x.1.1.LeftItem? && y.1.1.RightItem? && x.1.0 == y.1.0 && -b.lower <= y.0 - x.0 <= b.upper
  }

  /** A tuple of these two, with the later of their times. */
  predicate IsTupleOf<K(==), A(==), B(==)>(x: Timed<(K, Merged<A, B>)>, y: Timed<(K, Merged<A, B>)>,
      z: Timed<(K, (A, B))>) {
    && x.1.1.LeftItem? && y.1.1.RightItem? && z.1 == (x.1.0, (x.1.1.left, y.1.1.right))
    && x.0 <= z.0 && y.0 <= z.0 && (z.0 == x.0 || z.0 == y.0)
  }

  // The pairs of one left item ---------------------------------------------------------------------

  predicate IsMade<K(==), A(==), B(==)>(b: Bounds, x: Timed<(K, Merged<A, B>)>, round: Round<K, A, B>, j: nat,
      z: Timed<(K, (A, B))>) {
    j < |round| && Meets(b, x, round[j]) && IsTupleOf(x, round[j], z)
  }

  /** Each right item that meets x makes a tuple, in their order. */
  ghost predicate AreMade<K(!new), A(!new), B(!new)>(b: Bounds, x: Timed<(K, Merged<A, B>)>, round: Round<K, A, B>,
      out: seq<Timed<(K, (A, B))>>, at: seq<nat>) {
    && |out| == |at|
    && (forall m {:trigger at[m]} :: 0 <= m < |at| ==> IsMade(b, x, round, at[m], out[m]))
    && (forall m, m' {:trigger at[m], at[m']} :: 0 <= m < m' < |at| ==> at[m] < at[m'])
    && forall j: nat {:trigger round[j]} :: j < |round| && Meets(b, x, round[j]) ==> j in at
  }

  lemma NotMade<K(!new), A(!new), B(!new)>(b: Bounds, x: Timed<(K, Merged<A, B>)>, round: Round<K, A, B>,
      out: seq<Timed<(K, (A, B))>>, at: seq<nat>, y: Timed<(K, Merged<A, B>)>)
    requires AreMade(b, x, round, out, at) && !Meets(b, x, y)
    ensures AreMade(b, x, round + [y], out, at)
  {
    var round' := round + [y];
    forall m | 0 <= m < |at| ensures IsMade(b, x, round', at[m], out[m]) {
      assert IsMade(b, x, round, at[m], out[m]) && round'[at[m]] == round[at[m]];
    }
    forall j: nat | j < |round'| && Meets(b, x, round'[j]) ensures j in at {
      if j < |round| { assert round'[j] == round[j]; }
    }
  }

  lemma MoreMade<K(!new), A(!new), B(!new)>(b: Bounds, x: Timed<(K, Merged<A, B>)>, round: Round<K, A, B>,
      out: seq<Timed<(K, (A, B))>>, at: seq<nat>, y: Timed<(K, Merged<A, B>)>, z: Timed<(K, (A, B))>)
    requires AreMade(b, x, round, out, at) && Meets(b, x, y) && IsTupleOf(x, y, z)
    ensures AreMade(b, x, round + [y], out + [z], at + [|round|])
  {
    var round', out', at' := round + [y], out + [z], at + [|round|];
    forall m | 0 <= m < |at'| ensures at'[m] <= |round| && IsMade(b, x, round', at'[m], out'[m]) {
      if m < |at| { assert IsMade(b, x, round, at[m], out[m]) && round'[at[m]] == round[at[m]]; }
    }
    forall m, m' | 0 <= m < m' < |at'| ensures at'[m] < at'[m'] { assert IsMade(b, x, round, at[m], out[m]); }
    forall j: nat | j < |round'| && Meets(b, x, round'[j]) ensures j in at' {
      if j < |round| { assert round'[j] == round[j] && j in at; } else { assert at'[|at|] == j; }
    }
  }

  /** A right item more. */
  lemma OneMoreRight<K, A, B>(b: Bounds, x: Timed<(K, Merged<A, B>)>, round: Round<K, A, B>,
      y: Timed<(K, Merged<A, B>)>)
    requires x.1.1.LeftItem?
    ensures var l := (x.0, (x.1.0, x.1.1.left));
            var before, after := PairsOf(b, l, RightsOf(round)), PairsOf(b, l, RightsOf(round + [y]));
            if Meets(b, x, y) then after == before + [Later(x, y)] else after == before
  {
    SidesAppend(round, y.0, y.1.0, y.1.1);
    if y.1.1.RightItem? {
      PairsOfAppend(b, (x.0, (x.1.0, x.1.1.left)), RightsOf(round), (y.1.0, (y.0, y.1.1.right)));
    }
  }

  lemma PairsOfAppend<K, A, B>(b: Bounds, l: Timed<(K, A)>, r: seq<(K, Timed<B>)>, w: (K, Timed<B>))
    ensures PairsOf(b, l, r + [w]) ==
            if w.0 == l.1.0 && l.0 - b.lower <= w.1.0 <= l.0 + b.upper
            then PairsOf(b, l, r) + [(if w.1.0 >= l.0 then w.1.0 else l.0, (l.1.0, (l.1.1, w.1.1)))]
            else PairsOf(b, l, r)
  {
    var before := MatchesOf(r, l.1.0, l.0 - b.lower, l.0 + b.upper);
    MatchAppend(r, w, l.1.0, l.0 - b.lower, l.0 + b.upper);
    TuplesAppend(l.0, l.1.0, l.1.1, before, w.1);
  }

  lemma MatchAppend<K, B>(r: seq<(K, Timed<B>)>, y: (K, Timed<B>), k: K, lo: int, hi: int)
    ensures MatchesOf(r + [y], k, lo, hi) ==
            if y.0 == k && lo <= y.1.0 <= hi then MatchesOf(r, k, lo, hi) + [y.1] else MatchesOf(r, k, lo, hi)
  {
    assert (r + [y])[..|r|] == r;
  }

  function Later<K, A, B>(x: Timed<(K, Merged<A, B>)>, y: Timed<(K, Merged<A, B>)>): (z: Timed<(K, (A, B))>)
    requires x.1.1.LeftItem? && y.1.1.RightItem?
    ensures z.1 == (x.1.0, (x.1.1.left, y.1.1.right))
    ensures x.0 <= z.0 && y.0 <= z.0 && (z.0 == x.0 || z.0 == y.0)
  {
    (if x.0 < y.0 then y.0 else x.0, (x.1.0, (x.1.1.left, y.1.1.right)))
  }

  lemma NextMade<K(!new), A(!new), B(!new)>(b: Bounds, x: Timed<(K, Merged<A, B>)>, round: Round<K, A, B>,
      y: Timed<(K, Merged<A, B>)>, out: seq<Timed<(K, (A, B))>>, at: seq<nat>, after: seq<Timed<(K, (A, B))>>)
    returns (at': seq<nat>)
    requires x.1.1.LeftItem? && AreMade(b, x, round, out, at)
    requires if Meets(b, x, y) then after == out + [Later(x, y)] else after == out
    ensures AreMade(b, x, round + [y], after, at')
  {
    if Meets(b, x, y) {
      MoreMade(b, x, round, out, at, y, Later(x, y));
      at' := at + [|round|];
    } else {
      NotMade(b, x, round, out, at, y);
      at' := at;
    }
  }

  lemma {:induction false} PairsOfAreMade<K(!new), A(!new), B(!new)>(b: Bounds, x: Timed<(K, Merged<A, B>)>,
      round: Round<K, A, B>, out: seq<Timed<(K, (A, B))>>)
    returns (at: seq<nat>)
    requires x.1.1.LeftItem? && out == PairsOf(b, (x.0, (x.1.0, x.1.1.left)), RightsOf(round))
    ensures AreMade(b, x, round, out, at)
  {
    if round == [] {
      at := [];
    } else {
      var earlier, y := round[..|round| - 1], round[|round| - 1];
      assert round == earlier + [y];
      var before := PairsOf(b, (x.0, (x.1.0, x.1.1.left)), RightsOf(earlier));
      at := PairsOfAreMade(b, x, earlier, before);
      OneMoreRight(b, x, earlier, y);
      at := NextMade(b, x, earlier, y, before, at, out);
    }
  }

  // All the pairs ----------------------------------------------------------------------------------

  predicate IsBefore(p: (nat, nat), q: (nat, nat)) { p.0 < q.0 || (p.0 == q.0 && p.1 < q.1) }

  predicate IsMadeAt<K(==), A(==), B(==)>(b: Bounds, lefts: Round<K, A, B>, round: Round<K, A, B>, p: (nat, nat),
      z: Timed<(K, (A, B))>) {
    p.0 < |lefts| && IsMade(b, lefts[p.0], round, p.1, z)
  }

  /** Each pair that meets makes a tuple, those of earlier left items and then of earlier right ones first. */
  ghost predicate ArePairs<K(!new), A(!new), B(!new)>(b: Bounds, lefts: Round<K, A, B>, round: Round<K, A, B>,
      out: seq<Timed<(K, (A, B))>>, at: seq<(nat, nat)>) {
    && |out| == |at|
    && (forall m {:trigger at[m]} :: 0 <= m < |at| ==> IsMadeAt(b, lefts, round, at[m], out[m]))
    && (forall m, m' {:trigger at[m], at[m']} :: 0 <= m < m' < |at| ==> IsBefore(at[m], at[m']))
    && forall i: nat, j: nat {:trigger lefts[i], round[j]} ::
      i < |lefts| && j < |round| && Meets(b, lefts[i], round[j]) ==> (i, j) in at
  }

  function Paired(i: nat, js: seq<nat>): (at: seq<(nat, nat)>)
    ensures |at| == |js| && forall m :: 0 <= m < |at| ==> at[m] == (i, js[m])
  {
    seq(|js|, m requires 0 <= m < |js| => (i, js[m]))
  }

  lemma MorePairs<K(!new), A(!new), B(!new)>(b: Bounds, lefts: Round<K, A, B>, x: Timed<(K, Merged<A, B>)>,
      round: Round<K, A, B>, out: seq<Timed<(K, (A, B))>>, at: seq<(nat, nat)>, outs: seq<Timed<(K, (A, B))>>,
      js: seq<nat>)
    requires ArePairs(b, lefts, round, out, at) && AreMade(b, x, round, outs, js)
    ensures ArePairs(b, lefts + [x], round, out + outs, at + Paired(|lefts|, js))
  {
    var lefts', out', at' := lefts + [x], out + outs, at + Paired(|lefts|, js);
    forall m | 0 <= m < |at'|
      ensures m < |at| ==> at'[m] == at[m] && at[m].0 < |lefts|
      ensures m >= |at| ==> at'[m] == (|lefts|, js[m - |at|])
      ensures IsMadeAt(b, lefts', round, at'[m], out'[m])
    {
      if m < |at| {
        assert IsMadeAt(b, lefts, round, at[m], out[m]) && lefts'[at[m].0] == lefts[at[m].0];
      } else {
        assert IsMade(b, x, round, js[m - |at|], outs[m - |at|]) && out'[m] == outs[m - |at|];
      }
    }
    forall m, m' | 0 <= m < m' < |at'| ensures IsBefore(at'[m], at'[m']) {
      if m' < |at| { assert IsBefore(at[m], at[m']); } else if m >= |at| { assert js[m - |at|] < js[m' - |at|]; }
    }
    forall i: nat, j: nat | i < |lefts'| && j < |round| && Meets(b, lefts'[i], round[j]) ensures (i, j) in at' {
      if i < |lefts| {
        assert lefts'[i] == lefts[i] && (i, j) in at;
      } else {
        assert j in js;
        var m :| 0 <= m < |js| && js[m] == j;
        assert at'[|at| + m] == (i, j);
      }
    }
  }

  lemma NoPairs<K(!new), A(!new), B(!new)>(b: Bounds, lefts: Round<K, A, B>, x: Timed<(K, Merged<A, B>)>,
      round: Round<K, A, B>, out: seq<Timed<(K, (A, B))>>, at: seq<(nat, nat)>)
    requires ArePairs(b, lefts, round, out, at) && !x.1.1.LeftItem?
    ensures ArePairs(b, lefts + [x], round, out, at)
  {
    assert AreMade(b, x, round, [], []);
    MorePairs(b, lefts, x, round, out, at, [], []);
    assert out + [] == out && at + Paired(|lefts|, []) == at;
  }

  /** The join of a round, as the operator puts it out. */
  lemma {:induction false} PairsAreMade<K(!new), A(!new), B(!new)>(b: Bounds, lefts: Round<K, A, B>,
      round: Round<K, A, B>)
    returns (at: seq<(nat, nat)>)
    ensures ArePairs(b, lefts, round, Pairs(b, LeftsOf(lefts), RightsOf(round)), at)
  {
    if lefts == [] {
      at := [];
    } else {
      var n := |lefts| - 1;
      var x := lefts[n];
      at := PairsAreMade(b, lefts[..n], round);
      assert lefts == lefts[..n] + [x];
      if x.1.1.LeftItem? {
        var outs := PairsOf(b, (x.0, (x.1.0, x.1.1.left)), RightsOf(round));
        var js := PairsOfAreMade(b, x, round, outs);
        MorePairs(b, lefts[..n], x, round, Pairs(b, LeftsOf(lefts[..n]), RightsOf(round)), at, outs, js);
        at := at + Paired(n, js);
      } else {
        NoPairs(b, lefts[..n], x, round, Pairs(b, LeftsOf(lefts[..n]), RightsOf(round)), at);
      }
    }
  }

  /** The number of pairs that make a tuple is how often it is made, in any order of arrival. */
  lemma CountIsOfPairs<K(!new), A(!new), B(!new)>(b: Bounds, round: Round<K, A, B>, z: Timed<(K, (A, B))>)
    returns (out: seq<Timed<(K, (A, B))>>, at: seq<(nat, nat)>)
    ensures ArePairs(b, round, round, out, at)
    ensures PairCount(b, LeftsOf(round), RightsOf(round), z) == multiset(out)[z]
  {
    out := Pairs(b, LeftsOf(round), RightsOf(round));
    at := PairsAreMade(b, round, round);
    PairsCount(b, LeftsOf(round), RightsOf(round), z);
  }
}
