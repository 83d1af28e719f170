/** What a join computes, and the streams it reads. */
module JoinSpec {
  import opened Streams
  import opened Keyed

  datatype Variant = Inner | Left | Outer {
    predicate LeftOuter() { Left? || Outer? }
    predicate RightOuter() { Outer? }
  }

  datatype BinaryElement<+A, +B> = LeftItem(left: A) | RightItem(right: B) | LeftEnd | RightEnd

  type BinaryStream<K, A, B> = seq<StreamElement<BinaryElement<(K, A), (K, B)>>>

  type Round<K, A, B> = seq<BinaryElement<(K, A), (K, B)>>

  datatype Joined<+K, +A, +B> = Joined(key: K, left: Option<A>, right: Option<B>)

  // The relational join ----------------------------------------------------------------------------

  /** How often a tuple occurs in the join. */
  function JoinCount<K(==), A(==), B(==)>(v: Variant, l: seq<(K, A)>, r: seq<(K, B)>, x: Joined<K, A, B>): nat {
    match x
    case Joined(k, Some(a), Some(b)) => Times(l, k, a) * Times(r, k, b)
    case Joined(k, Some(a), None) => if v.LeftOuter() && ItemsOf(r, k) == [] then Times(l, k, a) else 0
    case Joined(k, None, Some(b)) => if v.RightOuter() && ItemsOf(l, k) == [] then Times(r, k, b) else 0
    case _ => 0
  }

  ghost predicate IsJoin<K(!new), A(!new), B(!new)>(v: Variant, l: seq<(K, A)>, r: seq<(K, B)>,
      out: seq<Joined<K, A, B>>) {
    forall x :: multiset(out)[x] == JoinCount(v, l, r, x)
  }

  predicate HasKey<K(==), V>(items: seq<(K, V)>, k: K) { exists m :: 0 <= m < |items| && items[m].0 == k }

  /**
    The tuples of the join, by their form: the pairs; in left and outer joins, the left items whose key is
    not on the right; in outer joins, also the right items whose key is not on the left.
   */
  ghost predicate HasTuples<K(!new), A(!new), B(!new)>(v: Variant, l: seq<(K, A)>, r: seq<(K, B)>,
      out: seq<Joined<K, A, B>>) {
    && (forall k, a, b :: multiset(out)[Joined(k, Some(a), Some(b))] == multiset(l)[(k, a)] * multiset(r)[(k, b)])
    && (forall k, a {:trigger multiset(out)[Joined(k, Some(a), None)]} ::
        multiset(out)[Joined(k, Some(a), None)] == if v == Inner || HasKey(r, k) then 0 else multiset(l)[(k, a)])
    && (forall k, b {:trigger multiset(out)[Joined(k, None, Some(b))]} ::
        multiset(out)[Joined(k, None, Some(b))] == if v != Outer || HasKey(l, k) then 0 else multiset(r)[(k, b)])
    && (forall k :: multiset(out)[Joined(k, None, None)] == 0)
  }

  /** A join has these tuples, as often, and no others. */
  lemma JoinHas<K(!new), A(!new), B(!new)>(v: Variant, l: seq<(K, A)>, r: seq<(K, B)>, out: seq<Joined<K, A, B>>)
    ensures IsJoin(v, l, r, out) <==> HasTuples(v, l, r, out)
  {
    if IsJoin(v, l, r, out) { JoinHasTuples(v, l, r, out); }
    if HasTuples(v, l, r, out) {
      forall x ensures multiset(out)[x] == JoinCount(v, l, r, x) { TuplesAreJoin(v, l, r, out, x); }
    }
  }

  lemma JoinHasTuples<K(!new), A(!new), B(!new)>(v: Variant, l: seq<(K, A)>, r: seq<(K, B)>, out: seq<Joined<K, A, B>>)
    requires IsJoin(v, l, r, out)
    ensures HasTuples(v, l, r, out)
  {
    forall k, a, b ensures multiset(out)[Joined(k, Some(a), Some(b))] == multiset(l)[(k, a)] * multiset(r)[(k, b)] {
      CountOfTuple(v, l, r, Joined(k, Some(a), Some(b)));
    }
    forall k, a ensures multiset(out)[Joined(k, Some(a), None)] ==
      (if v == Inner || HasKey(r, k) then 0 else multiset(l)[(k, a)]) {
      CountOfTuple(v, l, r, Joined(k, Some(a), None));
    }
    forall k, b ensures multiset(out)[Joined(k, None, Some(b))] ==
      (if v != Outer || HasKey(l, k) then 0 else multiset(r)[(k, b)]) {
      CountOfTuple(v, l, r, Joined(k, None, Some(b)));
    }
  }

  lemma TuplesAreJoin<K(!new), A(!new), B(!new)>(v: Variant, l: seq<(K, A)>, r: seq<(K, B)>, out: seq<Joined<K, A, B>>,
      x: Joined<K, A, B>)
    requires HasTuples(v, l, r, out)
    ensures multiset(out)[x] == JoinCount(v, l, r, x)
  {
    CountOfTuple(v, l, r, x);
    match x
    case Joined(k, Some(a), Some(b)) =>
      assert multiset(out)[Joined(k, Some(a), Some(b))] == multiset(l)[(k, a)] * multiset(r)[(k, b)];
    case Joined(k, Some(a), None) =>
      assert multiset(out)[Joined(k, Some(a), None)] == if v == Inner || HasKey(r, k) then 0 else multiset(l)[(k, a)];
    case Joined(k, None, Some(b)) =>
      assert multiset(out)[Joined(k, None, Some(b))] == if v != Outer || HasKey(l, k) then 0 else multiset(r)[(k, b)];
    case Joined(k, None, None) => assert x == Joined(k, None, None);
  }

  lemma CountOfTuple<K, A, B>(v: Variant, l: seq<(K, A)>, r: seq<(K, B)>, x: Joined<K, A, B>)
    ensures JoinCount(v, l, r, x) ==
            match x
            case Joined(k, Some(a), Some(b)) => multiset(l)[(k, a)] * multiset(r)[(k, b)]
            case Joined(k, Some(a), None) => (if v == Inner || HasKey(r, k) then 0 else multiset(l)[(k, a)])
            case Joined(k, None, Some(b)) => (if v != Outer || HasKey(l, k) then 0 else multiset(r)[(k, b)])
            case Joined(_, None, None) => 0
  {
    HasItem(l, x.key);
    HasItem(r, x.key);
    if x.left.Some? { TimesIsCount(l, x.key, x.left.value); }
    if x.right.Some? { TimesIsCount(r, x.key, x.right.value); }
  }

  /** The join only depends on the multisets of the two sides: not on the order of arrival. */
  lemma JoinOfPermutations<K(!new), A(!new), B(!new)>(v: Variant, l: seq<(K, A)>, r: seq<(K, B)>, l': seq<(K, A)>,
      r': seq<(K, B)>,
      x: Joined<K, A, B>)
    requires multiset(l) == multiset(l') && multiset(r) == multiset(r')
    ensures JoinCount(v, l, r, x) == JoinCount(v, l', r', x)
  {
    SameKeyItems(l, l', x.key);
    SameKeyItems(r, r', x.key);
  }

  /** Two joins of the same sides are permutations of each other, however they were computed. */
  lemma JoinIsUnique<K(!new), A(!new), B(!new)>(v: Variant, l: seq<(K, A)>, r: seq<(K, B)>, out: seq<Joined<K, A, B>>,
      out': seq<Joined<K, A, B>>)
    requires IsJoin(v, l, r, out) && IsJoin(v, l, r, out')
    ensures multiset(out) == multiset(out')
  {
    forall x ensures multiset(out)[x] == multiset(out')[x] {
      assert multiset(out)[x] == JoinCount(v, l, r, x);
    }
  }

  /** The tuples made by one left item. */
  function Pairs<K, A, B>(k: K, a: A, bs: seq<B>): seq<Joined<K, A, B>> {
    if bs == [] then [] else Pairs(k, a, bs[..|bs| - 1]) + [Joined(k, Some(a), Some(bs[|bs| - 1]))]
  }

  lemma PairsCount<K, A, B>(k: K, a: A, bs: seq<B>, x: Joined<K, A, B>)
    ensures multiset(Pairs(k, a, bs))[x] ==
            if x.key == k && x.left == Some(a) && x.right.Some? then multiset(bs)[x.right.value] else 0
  {
    if bs != [] {
      var n := |bs| - 1;
      PairsCount(k, a, bs[..n], x);
      assert bs == bs[..n] + [bs[n]];
    }
  }

  method MakePairs<K, A, B>(k: K, item: A, matching: seq<B>) returns (tuples: seq<Joined<K, A, B>>)
    ensures tuples == Pairs(k, item, matching)
  {
    tuples := [];
    for i := 0 to |matching|
      invariant tuples == Pairs(k, item, matching[..i])
    {
      tuples := tuples + [Joined(k, Some(item), Some(matching[i]))];
      assert matching[..i + 1][..i] == matching[..i];
    }
    assert matching[..|matching|] == matching;
  }

  lemma Distribute(t: nat, t1: nat, t2: nat, u: nat)
    requires t == t1 + t2
    ensures t * u == t1 * u + t2 * u
  {
  }

  // The two sides of a round -----------------------------------------------------------------------

  /** What one side of a round has delivered so far. */
  datatype Received<+K, +V> = Received(items: seq<(K, V)>, ended: bool)

  function LeftOf<K, A, B>(round: Round<K, A, B>): Received<K, A> {
    if round == [] then Received([], false)
    else
      var before := LeftOf(round[..|round| - 1]);
      match round[|round| - 1]
      case LeftItem(a) => before.(items := before.items + [a])
      case LeftEnd => before.(ended := true)
      case _ => before
  }

  function RightOf<K, A, B>(round: Round<K, A, B>): Received<K, B> {
    if round == [] then Received([], false)
    else
      var before := RightOf(round[..|round| - 1]);
      match round[|round| - 1]
      case RightItem(b) => before.(items := before.items + [b])
      case RightEnd => before.(ended := true)
      case _ => before
  }

  lemma SidesAfter<K, A, B>(round: Round<K, A, B>, e: BinaryElement<(K, A), (K, B)>)
    ensures LeftOf(round + [e]) ==
            match e { case LeftItem(a) => Received(LeftOf(round).items + [a], LeftOf(round).ended)
                      case LeftEnd => Received(LeftOf(round).items, true)
                      case _ => LeftOf(round) }
    ensures RightOf(round + [e]) ==
            match e { case RightItem(b) => Received(RightOf(round).items + [b], RightOf(round).ended)
                      case RightEnd => Received(RightOf(round).items, true)
                      case _ => RightOf(round) }
  {
    assert (round + [e])[..|round|] == round;
  }

  /** A side can deliver nothing after its end. */
  predicate CanFollow<K, A, B>(round: Round<K, A, B>, e: BinaryElement<(K, A), (K, B)>) {
    if e.LeftItem? || e.LeftEnd? then !LeftOf(round).ended else !RightOf(round).ended
  }

  /** The streams a join reads: in each round both sides end, each after all its items; `round` has gone by already. */
  predicate IsBinaryStream<K, A, B>(s: BinaryStream<K, A, B>, round: Round<K, A, B>) {
    s != [] &&
    match s[0]
    case Item(e) => CanFollow(round, e) && IsBinaryStream(s[1..], round + [e])
    case FlushAndRestart => LeftOf(round).ended && RightOf(round).ended && IsBinaryStream(s[1..], [])
    case FlushBatch => IsBinaryStream(s[1..], round)
    case Terminate => round == []
    case _ => false
  }

  ghost predicate JoinsRound<K(!new), A(!new), B(!new)>(v: Variant, input: Round<K, A, B>,
      output: seq<Joined<K, A, B>>) {
    IsJoin(v, LeftOf(input).items, RightOf(input).items, output)
  }

  /** Each round of the output is the join of the two sides of the round of the input. */
  ghost predicate JoinsRounds<K(!new), A(!new), B(!new)>(v: Variant, input: seq<Round<K, A, B>>,
      output: seq<seq<Joined<K, A, B>>>) {
    |output| == |input| && forall i :: 0 <= i < |input| ==> JoinsRound(v, input[i], output[i])
  }

  lemma JoinsOneMore<K(!new), A(!new), B(!new)>(v: Variant, input: seq<Round<K, A, B>>,
      output: seq<seq<Joined<K, A, B>>>,
      round: seq<Joined<K, A, B>>)
    requires |output| < |input| && JoinsRounds(v, input[..|output|], output)
    requires JoinsRound(v, input[|output|], round)
    ensures JoinsRounds(v, input[..|output| + 1], output + [round])
  {
  }

  /** The same items arrive on both sides of every round, in any order and with any interleaving. */
  ghost predicate SameRounds<K(!new), A(!new), B(!new)>(input: seq<Round<K, A, B>>, input': seq<Round<K, A, B>>) {
    && |input| == |input'|
    && forall i :: 0 <= i < |input| ==>
      && multiset(LeftOf(input[i]).items) == multiset(LeftOf(input'[i]).items)
      && multiset(RightOf(input[i]).items) == multiset(RightOf(input'[i]).items)
  }

  /** Whatever computes the joins of such rounds, its outputs are the same but for their order. */
  lemma RoundsAreUnique<K(!new), A(!new), B(!new)>(v: Variant, input: seq<Round<K, A, B>>, input': seq<Round<K, A, B>>,
      output: seq<seq<Joined<K, A, B>>>, output': seq<seq<Joined<K, A, B>>>)
    requires SameRounds(input, input') && JoinsRounds(v, input, output) && JoinsRounds(v, input', output')
    ensures |output| == |output'| && forall i :: 0 <= i < |output| ==> multiset(output[i]) == multiset(output'[i])
  {
    forall i | 0 <= i < |output| ensures multiset(output[i]) == multiset(output'[i]) {
      var l, r, l', r' := LeftOf(input[i]).items, RightOf(input[i]).items, LeftOf(input'[i]).items,
        RightOf(input'[i]).items;
      assert JoinsRound(v, input[i], output[i]) && JoinsRound(v, input'[i], output'[i]);
      forall x ensures multiset(output'[i])[x] == JoinCount(v, l, r, x) { JoinOfPermutations(v, l, r, l', r', x); }
      JoinIsUnique(v, l, r, output[i], output'[i]);
    }
  }
}
