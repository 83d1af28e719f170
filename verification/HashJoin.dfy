/** The symmetric hash join. */
module HashJoin {
  /*
    In three forms: JoinLocalHash, whose elements come with the key its keyers extract, and JoinKeyedOuter
    on keyed streams, both as HashJoin; and JoinKeyedInner as KeyedInnerJoin.
   */

  import opened Streams
  import opened Keyed
  import opened JoinSpec

  // The tuples that must be out already ------------------------------------------------------------

  /**
    How often a tuple is to be emitted before the round ends: pairs as soon as both items are there,
    single items as soon as the other side has ended.
   */
  function DueCount<K(==), A(==), B(==)>(lo: bool, ro: bool, l: Received<K, A>, r: Received<K, B>,
      x: Joined<K, A, B>): nat {
    match x
    case Joined(k, Some(a), Some(b)) => JoinCount(Inner, l.items, r.items, x)
    case Joined(k, Some(a), None) => if lo && r.ended && ItemsOf(r.items, k) == [] then Times(l.items, k, a) else 0
    case Joined(k, None, Some(b)) => if ro && l.ended && ItemsOf(l.items, k) == [] then Times(r.items, k, b) else 0
    case _ => 0
  }

  function Flip<K, A, B>(x: Joined<K, A, B>): Joined<K, B, A> { Joined(x.key, x.right, x.left) }

  function FlipAll<K, A, B>(xs: seq<Joined<K, A, B>>): seq<Joined<K, B, A>> {
    if xs == [] then [] else FlipAll(xs[..|xs| - 1]) + [Flip(xs[|xs| - 1])]
  }

  lemma FlipCount<K, A, B>(xs: seq<Joined<K, A, B>>, x: Joined<K, A, B>)
    ensures multiset(FlipAll(xs))[Flip(x)] == multiset(xs)[x]
  {
    if xs != [] {
      var n := |xs| - 1;
      assert xs == xs[..n] + [xs[n]];
      assert Flip(xs[n]) == Flip(x) <==> xs[n] == x;
    }
  }

  function Singles<K, A, B>(k: K, bs: seq<B>): seq<Joined<K, A, B>> {
    if bs == [] then [] else Singles(k, bs[..|bs| - 1]) + [Joined(k, None, Some(bs[|bs| - 1]))]
  }

  lemma SinglesCount<K, A, B>(k: K, bs: seq<B>, x: Joined<K, A, B>)
    ensures multiset(Singles<K, A, B>(k, bs))[x] ==
            if x.key == k && x.left.None? && x.right.Some? then multiset(bs)[x.right.value] else 0
  {
    if bs != [] {
      var n := |bs| - 1;
      SinglesCount<K, A, B>(k, bs[..n], x);
      assert bs == bs[..n] + [bs[n]];
    }
  }

  function TuplesOfItem<K(==), A, B>(lo: bool, k: K, a: A, r: Received<K, B>): seq<Joined<K, A, B>> {
    if ItemsOf(r.items, k) != [] then Pairs(k, a, ItemsOf(r.items, k))
    else if r.ended && lo then [Joined(k, Some(a), None)]
    else []
  }

  function AddTo<K, V>(l: Received<K, V>, k: K, v: V): Received<K, V> { l.(items := l.items + [(k, v)]) }

  /** A left item makes exactly the tuples that become due by it. */
  lemma ItemMakesDue<K, A, B>(lo: bool, ro: bool, l: Received<K, A>, r: Received<K, B>, k: K, a: A, x: Joined<K, A, B>)
    requires !l.ended
    ensures DueCount(lo, ro, AddTo(l, k, a), r, x) == DueCount(lo, ro, l, r, x) + multiset(TuplesOfItem(lo, k, a, r))[x]
  {
    ItemsOfAppend(l.items, k, a, x.key);
    TuplesOfItemCount(lo, k, a, r, x);
    if x.left.Some? {
      TimesAppend(l.items, k, a, x.key, x.left.value);
      if x.right.Some? {
        Distribute(Times(AddTo(l, k, a).items, x.key, x.left.value), Times(l.items, x.key, x.left.value),
          if k == x.key && x.left == Some(a) then 1 else 0,
                   Times(r.items, x.key, x.right.value));
      }
    }
  }

  lemma TuplesOfItemCount<K, A, B>(lo: bool, k: K, a: A, r: Received<K, B>, x: Joined<K, A, B>)
    ensures multiset(TuplesOfItem(lo, k, a, r))[x] ==
            if x.key != k || x.left != Some(a) then 0
            else if x.right.Some? then Times(r.items, k, x.right.value)
            else if lo && r.ended && ItemsOf(r.items, k) == [] then 1 else 0
  {
    PairsCount(k, a, ItemsOf(r.items, k), x);
  }

  /** How often a tuple is made when the left side ends. */
  function CountAtEnd<K(==), A, B(==)>(ro: bool, l: Received<K, A>, r: Received<K, B>, x: Joined<K, A, B>): nat {
    if ro && x.left.None? && x.right.Some? && ItemsOf(l.items, x.key) == []
      then Times(r.items, x.key, x.right.value) else 0
  }

  lemma EndMakesDue<K, A, B>(lo: bool, ro: bool, l: Received<K, A>, r: Received<K, B>, x: Joined<K, A, B>)
    requires !l.ended
    ensures DueCount(lo, ro, l.(ended := true), r, x) == DueCount(lo, ro, l, r, x) + CountAtEnd(ro, l, r, x)
  {
  }

  // One side ---------------------------------------------------------------------------------------

  datatype Side<K, V> = Side(data: map<K, seq<V>>, keys: set<K>, ended: bool, count: nat)

  /** The data is kept until the other side ends, and the keys until this one does. */
  ghost predicate Holds<K(!new), V>(side: Side<K, V>, got: Received<K, V>, otherEnded: bool, otherOuter: bool) {
    && side.ended == got.ended
    && (if otherEnded then side.data == map[] else Groups(side.data, got.items))
    && forall k :: k in side.keys <==> otherOuter && !got.ended && ItemsOf(got.items, k) != []
  }

  /** An item arrives on the left side (on the right one, with the sides exchanged). */
  method AddItem<K(==, !new), A, B>(key: K, item: A, left: Side<K, A>, right: Side<K, B>, leftOuter: bool,
      rightOuter: bool,
      ghost l: Received<K, A>, ghost r: Received<K, B>)
    returns (left': Side<K, A>, tuples: seq<Joined<K, A, B>>)
    requires !l.ended && Holds(left, l, r.ended, rightOuter) && Holds(right, r, l.ended, leftOuter)
    ensures Holds(left', AddTo(l, key, item), r.ended, rightOuter)
    ensures tuples == TuplesOfItem(leftOuter, key, item, r)
  {
    assert Bucket(right.data, key) == ItemsOf(r.items, key);
    left', tuples := left.(count := left.count + 1), [];
    if key in right.data {
      tuples := MakePairs(key, item, right.data[key]);
    } else if right.ended && leftOuter {
      tuples := [Joined(key, Some(item), None)];
    }
    if rightOuter {
      left' := left'.(keys := left'.keys + {key});
    }
    if !right.ended {
      left' := left'.(data := left'.data[key := Bucket(left'.data, key) + [item]]);
    }
    AddHolds(left, left', l, r.ended, rightOuter, key, item);
  }

  lemma AddHolds<K(!new), A>(left: Side<K, A>, left': Side<K, A>, l: Received<K, A>, otherEnded: bool,
      otherOuter: bool, key: K, item: A)
    requires !l.ended && Holds(left, l, otherEnded, otherOuter) && left'.ended == left.ended
    requires left'.keys == if otherOuter then left.keys + {key} else left.keys
    requires left'.data == if otherEnded then left.data else left.data[key := Bucket(left.data, key) + [item]]
    ensures Holds(left', AddTo(l, key, item), otherEnded, otherOuter)
  {
    forall k ensures ItemsOf(l.items + [(key, item)], k) == ItemsOf(l.items, k) + if k == key then [item] else [] {
      ItemsOfAppend(l.items, key, item, k);
    }
    if !otherEnded { PushGroups(left.data, l.items, key, item); }
  }

  method MakeSingles<K, A, B>(k: K, items: seq<B>) returns (tuples: seq<Joined<K, A, B>>)
    ensures tuples == Singles(k, items)
  {
    tuples := [];
    for i := 0 to |items|
      invariant tuples == Singles(k, items[..i])
    {
      tuples := tuples + [Joined(k, None, Some(items[i]))];
      assert items[..i + 1][..i] == items[..i];
    }
    assert items[..|items|] == items;
  }

  /** Empty the right table, in any order, keeping the items whose key the left side never had. */
  method Drain<K(==, !new), A, B(!new)>(data: map<K, seq<B>>, keys: set<K>, ghost l: Received<K, A>,
      ghost r: Received<K, B>)
    returns (tuples: seq<Joined<K, A, B>>)
    requires Groups(data, r.items) && forall k :: k in keys <==> ItemsOf(l.items, k) != []
    ensures forall x :: multiset(tuples)[x] == CountAtEnd(true, l, r, x)
  {
    forall x: Joined<K, A, B> | x.key !in data ensures CountAtEnd(true, l, r, x) == 0 {
      assert Bucket(data, x.key) == ItemsOf(r.items, x.key);
    }
    tuples := [];
    var rest := data;
    while rest != map[]
      invariant forall k :: k in rest ==> k in data && rest[k] == data[k]
      invariant forall x :: multiset(tuples)[x] == if x.key in rest then 0 else CountAtEnd(true, l, r, x)
      decreases |rest|
    {
      var k :| k in rest;
      assert rest[k] == Bucket(data, k) == ItemsOf(r.items, k);
      ghost var before := tuples;
      if k !in keys {
        var singles := MakeSingles<K, A, B>(k, rest[k]);
        tuples := tuples + singles;
      }
      DrainOne(keys, l, r, k, before, tuples, rest);
      rest := rest - {k};
    }
  }

  /** The left side ends (the right one, with the sides exchanged). */
  method SideEnded<K(==, !new), A, B(!new)>(rightOuter: bool, left: Side<K, A>, right: Side<K, B>,
      ghost l: Received<K, A>, ghost r: Received<K, B>)
    returns (left': Side<K, A>, right': Side<K, B>, tuples: seq<Joined<K, A, B>>)
    requires !l.ended && Holds(left, l, r.ended, rightOuter) && Groups(right.data, r.items)
    ensures left' == left.(keys := {}, ended := true) && right' == right.(data := map[])
    ensures forall x :: multiset(tuples)[x] == CountAtEnd(rightOuter, l, r, x)
  {
    tuples := [];
    if rightOuter {
      tuples := Drain(right.data, left.keys, l, r);
    }
    left' := left.(keys := {}, ended := true);
    right' := right.(data := map[]);
  }

  lemma DrainOne<K(!new), A, B(!new)>(keys: set<K>, l: Received<K, A>, r: Received<K, B>, k: K,
      before: seq<Joined<K, A, B>>, after: seq<Joined<K, A, B>>, rest: map<K, seq<B>>)
    requires k in rest && (k in keys <==> ItemsOf(l.items, k) != [])
    requires forall x :: multiset(before)[x] == if x.key in rest then 0 else CountAtEnd(true, l, r, x)
    requires after == before + if k in keys then [] else Singles(k, ItemsOf(r.items, k))
    ensures forall x :: multiset(after)[x] == if x.key in rest - {k} then 0 else CountAtEnd(true, l, r, x)
  {
    forall x ensures multiset(after)[x] == if x.key in rest - {k} then 0 else CountAtEnd(true, l, r, x) {
      SinglesCount<K, A, B>(k, ItemsOf(r.items, k), x);
    }
  }

  // The operator -----------------------------------------------------------------------------------

  /** The tuples out so far are those that are due. */
  ghost predicate IsDue<K(!new), A(!new), B(!new)>(v: Variant, l: Received<K, A>, r: Received<K, B>,
      out: seq<Joined<K, A, B>>) {
    forall x :: multiset(out)[x] == DueCount(v.LeftOuter(), v.RightOuter(), l, r, x)
  }

  class HashJoin<K(==, !new), A(==, !new), B(==, !new)> {
    const variant: Variant
    var left: Side<K, A>
    var right: Side<K, B>
    var buffer: seq<Joined<K, A, B>>
    var prev: BinaryStream<K, A, B>            // what the previous operator has yet to emit
    ghost var round: Round<K, A, B>            // what was received in this round
    ghost var out: seq<Joined<K, A, B>>        // what was emitted in this round

    constructor (variant: Variant, input: BinaryStream<K, A, B>)
      requires IsBinaryStream(input, [])
      ensures Valid() && this.variant == variant && prev == input && round == [] && out == []
    {
      this.variant, prev, round, out, buffer := variant, input, [], [], [];
      left, right := Side(map[], {}, false, 0), Side(map[], {}, false, 0);
    }

    ghost predicate Valid()
      reads this
    {
      && IsBinaryStream(prev, round)
      && Has(LeftOf(round), RightOf(round))
    }

    /** The state when l and r have been received in this round. */
    ghost predicate Has(l: Received<K, A>, r: Received<K, B>)
      reads this
    {
      && Holds(left, l, r.ended, variant.RightOuter())
      && Holds(right, r, l.ended, variant.LeftOuter())
      && IsDue(variant, l, r, out + buffer)
    }

    method AddLeft(k: K, a: A, ghost l: Received<K, A>, ghost r: Received<K, B>)
      requires Has(l, r) && !l.ended
      modifies this`left, this`buffer
      ensures Has(AddTo(l, k, a), r)
    {
      ghost var due := out + buffer;
      var left', tuples := AddItem(k, a, left, right, variant.LeftOuter(), variant.RightOuter(), l, r);
      left, buffer := left', buffer + tuples;
      assert out + buffer == due + tuples;
      LeftItemDue(variant, l, r, k, a, due, out + buffer);
    }

    method AddRight(k: K, b: B, ghost l: Received<K, A>, ghost r: Received<K, B>)
      requires Has(l, r) && !r.ended
      modifies this`right, this`buffer
      ensures Has(l, AddTo(r, k, b))
    {
      ghost var due := out + buffer;
      var right', tuples := AddItem(k, b, right, left, variant.RightOuter(), variant.LeftOuter(), r, l);
      right, buffer := right', buffer + FlipAll(tuples);
      assert out + buffer == due + FlipAll(tuples);
      RightItemDue(variant, l, r, k, b, due, out + buffer);
    }

    method EndLeft(ghost l: Received<K, A>, ghost r: Received<K, B>)
      requires Has(l, r) && !l.ended
      modifies this`left, this`right, this`buffer
      ensures Has(l.(ended := true), r)
    {
      ghost var due := out + buffer;
      var left', right', tuples := SideEnded(variant.RightOuter(), left, right, l, r);
      left, right, buffer := left', right', buffer + tuples;
      assert out + buffer == due + tuples;
      LeftEndDue(variant, l, r, tuples, due, out + buffer);
    }

    method EndRight(ghost l: Received<K, A>, ghost r: Received<K, B>)
      requires Has(l, r) && !r.ended
      modifies this`left, this`right, this`buffer
      ensures Has(l, r.(ended := true))
    {
      ghost var due := out + buffer;
      var right', left', tuples := SideEnded(variant.LeftOuter(), right, left, r, l);
      left, right, buffer := left', right', buffer + FlipAll(tuples);
      assert out + buffer == due + FlipAll(tuples);
      RightEndDue(variant, l, r, tuples, due, out + buffer);
    }

    method ProcessItem(e: BinaryElement<(K, A), (K, B)>)
      requires Has(LeftOf(round), RightOf(round)) && CanFollow(round, e)
      modifies this`left, this`right, this`buffer, this`round
      ensures round == old(round) + [e] && Has(LeftOf(round), RightOf(round))
    {
      SidesAfter(round, e);
      ghost var l, r := LeftOf(round), RightOf(round);
      match e {
        case LeftItem((k, a)) => AddLeft(k, a, l, r);
        case RightItem((k, b)) => AddRight(k, b, l, r);
        case LeftEnd => EndLeft(l, r);
        case RightEnd => EndRight(l, r);
      }
      round := round + [e];
    }

    /** At the end of a round the tables are empty, its tuples are out, and the next round starts afresh. */
    method Restart()
      requires Has(LeftOf(round), RightOf(round)) && LeftOf(round).ended && RightOf(round).ended && buffer == []
      modifies this`left, this`right, this`round, this`out
      ensures JoinsRound(variant, old(round), old(out))
      ensures round == [] && out == [] && Has(LeftOf(round), RightOf(round))
    {
      assert left.ended && right.ended;
      assert left.data == map[] && right.data == map[];
      assert left.keys == {} && right.keys == {};
      assert out + buffer == out;
      AllDue(variant, LeftOf(round), RightOf(round), out);
      left, right := left.(ended := false, count := 0), right.(ended := false, count := 0);
      round, out := [], [];
    }

    /** The next element for the operators that follow: the tuples of a round, then its end. */
    method Next() returns (e: StreamElement<Joined<K, A, B>>)
      requires Valid()
      modifies this
      ensures !e.Terminate? ==> Valid()
      ensures |prev| < old(|prev|) || (|prev| == old(|prev|) && |buffer| < old(|buffer|))
      ensures var rounds := old(Rounds(prev, round));
              match e {
                case Item(x) => out == old(out) + [x] && Rounds(prev, round) == rounds
                case FlushAndRestart =>
                  rounds != [] && JoinsRound(variant, rounds[0], old(out)) && out == [] &&
                    Rounds(prev, round) == rounds[1..]
                case FlushBatch => out == old(out) && Rounds(prev, round) == rounds
                case Terminate => rounds == [] && out == old(out) == []
                case _ => false
              }
    {
      ghost var rounds := Rounds(prev, round);
      while buffer == []
        invariant Valid() && out == old(out) && Rounds(prev, round) == rounds
        invariant |prev| < old(|prev|) || (|prev| == old(|prev|) && buffer == old(buffer))
        decreases |prev|
      {
        var next := prev[0];
        prev := prev[1..];
        match next
        case Item(x) =>
          ProcessItem(x);
        case FlushAndRestart =>
          Restart();
          return FlushAndRestart;
        case Terminate =>
          NothingDue(variant, LeftOf(round), RightOf(round), out);
          return Terminate;
        case FlushBatch =>
          return FlushBatch;
      }
      e := Item(buffer[0]);
      ghost var due := out + buffer;
      out, buffer := out + [buffer[0]], buffer[1..];
      assert out + buffer == due;
    }
  }

  /** Nothing is due at the start of a round. */
  lemma NothingDue<K(!new), A(!new), B(!new)>(v: Variant, l: Received<K, A>, r: Received<K, B>,
      out: seq<Joined<K, A, B>>)
    requires l.items == [] && r.items == [] && IsDue(v, l, r, out)
    ensures out == []
  {
    forall x ensures multiset(out)[x] == 0 {
      assert DueCount(v.LeftOuter(), v.RightOuter(), l, r, x) == 0;
    }
    assert multiset(out) == multiset{};
  }

  lemma AllDue<K(!new), A(!new), B(!new)>(v: Variant, l: Received<K, A>, r: Received<K, B>, out: seq<Joined<K, A, B>>)
    requires l.ended && r.ended && IsDue(v, l, r, out)
    ensures IsJoin(v, l.items, r.items, out)
  {
    forall x ensures multiset(out)[x] == JoinCount(v, l.items, r.items, x) {
      assert multiset(out)[x] == DueCount(v.LeftOuter(), v.RightOuter(), l, r, x);
    }
  }

  lemma LeftItemDue<K(!new), A(!new), B(!new)>(v: Variant, l: Received<K, A>, r: Received<K, B>, k: K, a: A,
      out: seq<Joined<K, A, B>>, out': seq<Joined<K, A, B>>)
    requires !l.ended && IsDue(v, l, r, out) && out' == out + TuplesOfItem(v.LeftOuter(), k, a, r)
    ensures IsDue(v, AddTo(l, k, a), r, out')
  {
    forall x ensures multiset(out')[x] == DueCount(v.LeftOuter(), v.RightOuter(), AddTo(l, k, a), r, x) {
      ItemMakesDue(v.LeftOuter(), v.RightOuter(), l, r, k, a, x);
    }
  }

  lemma RightItemDue<K(!new), A(!new), B(!new)>(v: Variant, l: Received<K, A>, r: Received<K, B>, k: K, b: B,
      out: seq<Joined<K, A, B>>, out': seq<Joined<K, A, B>>)
    requires !r.ended && IsDue(v, l, r, out) && out' == out + FlipAll(TuplesOfItem(v.RightOuter(), k, b, l))
    ensures IsDue(v, l, AddTo(r, k, b), out')
  {
    var tuples := TuplesOfItem(v.RightOuter(), k, b, l);
    forall x ensures multiset(out')[x] == DueCount(v.LeftOuter(), v.RightOuter(), l, AddTo(r, k, b), x) {
      ItemMakesDue(v.RightOuter(), v.LeftOuter(), r, l, k, b, Flip(x));
      FlipCount(tuples, Flip(x));
    }
  }

  lemma LeftEndDue<K(!new), A(!new), B(!new)>(v: Variant, l: Received<K, A>, r: Received<K, B>,
      tuples: seq<Joined<K, A, B>>,
      out: seq<Joined<K, A, B>>, out': seq<Joined<K, A, B>>)
    requires !l.ended && IsDue(v, l, r, out) && out' == out + tuples
    requires forall x :: multiset(tuples)[x] == CountAtEnd(v.RightOuter(), l, r, x)
    ensures IsDue(v, l.(ended := true), r, out')
  {
    forall x ensures multiset(out')[x] == DueCount(v.LeftOuter(), v.RightOuter(), l.(ended := true), r, x) {
      EndMakesDue(v.LeftOuter(), v.RightOuter(), l, r, x);
    }
  }

  lemma RightEndDue<K(!new), A(!new), B(!new)>(v: Variant, l: Received<K, A>, r: Received<K, B>,
      tuples: seq<Joined<K, B, A>>,
      out: seq<Joined<K, A, B>>, out': seq<Joined<K, A, B>>)
    requires !r.ended && IsDue(v, l, r, out) && out' == out + FlipAll(tuples)
    requires forall x :: multiset(tuples)[x] == CountAtEnd(v.LeftOuter(), r, l, x)
    ensures IsDue(v, l, r.(ended := true), out')
  {
    forall x ensures multiset(out')[x] == DueCount(v.LeftOuter(), v.RightOuter(), l, r.(ended := true), x) {
      EndMakesDue(v.RightOuter(), v.LeftOuter(), r, l, Flip(x));
      FlipCount(tuples, Flip(x));
    }
  }

  /** A whole stream: round by round, the output is the join of the two sides. */
  method RunHashJoin<K(==, !new), A(==, !new), B(==, !new)>(variant: Variant, input: BinaryStream<K, A, B>)
    returns (rounds: seq<seq<Joined<K, A, B>>>)
    requires IsBinaryStream(input, [])
    ensures JoinsRounds(variant, Rounds(input, []), rounds)
  {
    var join := new HashJoin(variant, input);
    ghost var all, todo := Rounds(input, []), Rounds(input, []);
    var current := [];
    rounds := [];
    while true
      invariant join.Valid() && fresh(join) && join.variant == variant && join.out == current
      invariant todo == Rounds(join.prev, join.round) && |rounds| <= |all| && todo == all[|rounds|..]
      invariant JoinsRounds(variant, all[..|rounds|], rounds)
      decreases |join.prev|, |join.buffer|
    {
      var e := join.Next();
      match e
      case Item(x) => current := current + [x];
      case FlushAndRestart =>
        JoinsOneMore(variant, all, rounds, current);
        rounds, current := rounds + [current], [];
        todo := todo[1..];
      case Terminate =>
        assert all[..|rounds|] == all;
        return;
      case FlushBatch =>
    }
  }

  // JoinKeyedInner ---------------------------------------------------------------------------------

  /** A table is complete until the other side ends; it is cleared then, and again at the end of both. */
  ghost predicate HoldsBoth<K(!new), A(!new), B(!new)>(left: map<K, seq<A>>, right: map<K, seq<B>>, leftEnded: bool,
      rightEnded: bool,
      l: Received<K, A>, r: Received<K, B>, out: seq<Joined<K, A, B>>) {
    && leftEnded == l.ended && rightEnded == r.ended
    && (!r.ended ==> Groups(left, l.items))
    && (!l.ended ==> Groups(right, r.items))
    && (l.ended && r.ended ==> left == map[] && right == map[])
    && IsDue(Inner, l, r, out)
  }

  lemma LeftAdded<K(!new), A(!new), B(!new)>(left: map<K, seq<A>>, right: map<K, seq<B>>, leftEnded: bool,
      rightEnded: bool,
      l: Received<K, A>, r: Received<K, B>, k: K, a: A, out: seq<Joined<K, A, B>>)
    requires HoldsBoth(left, right, leftEnded, rightEnded, l, r, out) && !l.ended
    ensures HoldsBoth(left[k := Bucket(left, k) + [a]], right, leftEnded, rightEnded, AddTo(l, k, a), r,
      out + Pairs(k, a, Bucket(right, k)))
  {
    assert Bucket(right, k) == ItemsOf(r.items, k);
    LeftItemDue(Inner, l, r, k, a, out, out + Pairs(k, a, Bucket(right, k)));
    if !r.ended { PushGroups(left, l.items, k, a); }
  }

  lemma RightAdded<K(!new), A(!new), B(!new)>(left: map<K, seq<A>>, right: map<K, seq<B>>, leftEnded: bool,
      rightEnded: bool,
      l: Received<K, A>, r: Received<K, B>, k: K, b: B, out: seq<Joined<K, A, B>>)
    requires HoldsBoth(left, right, leftEnded, rightEnded, l, r, out) && !r.ended
    ensures HoldsBoth(left, right[k := Bucket(right, k) + [b]], leftEnded, rightEnded, l, AddTo(r, k, b),
      out + FlipAll(Pairs(k, b, Bucket(left, k))))
  {
    assert Bucket(left, k) == ItemsOf(l.items, k);
    RightItemDue(Inner, l, r, k, b, out, out + FlipAll(Pairs(k, b, Bucket(left, k))));
    if !l.ended { PushGroups(right, r.items, k, b); }
  }

  class KeyedInnerJoin<K(==, !new), A(==, !new), B(==, !new)> {
    var left: map<K, seq<A>>
    var right: map<K, seq<B>>
    var leftEnded: bool
    var rightEnded: bool
    var buffer: seq<Joined<K, A, B>>           // all with both items
    var prev: BinaryStream<K, A, B>
    ghost var round: Round<K, A, B>
    ghost var out: seq<Joined<K, A, B>>

    constructor (input: BinaryStream<K, A, B>)
      requires IsBinaryStream(input, [])
      ensures Valid() && prev == input && round == [] && out == []
    {
      prev, round, out, buffer := input, [], [], [];
      left, right, leftEnded, rightEnded := map[], map[], false, false;
    }

    ghost predicate Valid()
      reads this
    {
      && IsBinaryStream(prev, round)
      && Has(LeftOf(round), RightOf(round))
    }

    ghost predicate Has(l: Received<K, A>, r: Received<K, B>)
      reads this
    {
      HoldsBoth(left, right, leftEnded, rightEnded, l, r, out + buffer)
    }

    method AddLeft(k: K, a: A, ghost l: Received<K, A>, ghost r: Received<K, B>)
      requires Has(l, r) && !l.ended
      modifies this`left, this`buffer
      ensures Has(AddTo(l, k, a), r)
    {
      ghost var due, before := out + buffer, left;
      var tuples := MakePairs(k, a, Bucket(right, k));
      buffer := buffer + tuples;
      left := left[k := Bucket(left, k) + [a]];
      assert out + buffer == due + tuples;
      LeftAdded(before, right, leftEnded, rightEnded, l, r, k, a, due);
    }

    method AddRight(k: K, b: B, ghost l: Received<K, A>, ghost r: Received<K, B>)
      requires Has(l, r) && !r.ended
      modifies this`right, this`buffer
      ensures Has(l, AddTo(r, k, b))
    {
      ghost var due, before := out + buffer, right;
      var tuples := MakePairs(k, b, Bucket(left, k));
      buffer := buffer + FlipAll(tuples);
      right := right[k := Bucket(right, k) + [b]];
      assert out + buffer == due + FlipAll(tuples);
      RightAdded(left, before, leftEnded, rightEnded, l, r, k, b, due);
    }

    method EndLeft(ghost l: Received<K, A>, ghost r: Received<K, B>)
      requires Has(l, r) && !l.ended
      modifies this`left, this`right, this`leftEnded
      ensures Has(l.(ended := true), r)
    {
      leftEnded, right := true, map[];
      if rightEnded { left, right := map[], map[]; }
      LeftEndDue(Inner, l, r, [], out + buffer, out + buffer);
    }

    method EndRight(ghost l: Received<K, A>, ghost r: Received<K, B>)
      requires Has(l, r) && !r.ended
      modifies this`left, this`right, this`rightEnded
      ensures Has(l, r.(ended := true))
    {
      rightEnded, left := true, map[];
      if leftEnded { left, right := map[], map[]; }
      RightEndDue(Inner, l, r, [], out + buffer, out + buffer);
    }

    method ProcessItem(e: BinaryElement<(K, A), (K, B)>)
      requires Has(LeftOf(round), RightOf(round)) && CanFollow(round, e)
      modifies this`left, this`right, this`buffer, this`leftEnded, this`rightEnded, this`round
      ensures round == old(round) + [e] && Has(LeftOf(round), RightOf(round))
    {
      SidesAfter(round, e);
      ghost var l, r := LeftOf(round), RightOf(round);
      match e {
        case LeftItem((k, a)) => AddLeft(k, a, l, r);
        case RightItem((k, b)) => AddRight(k, b, l, r);
        case LeftEnd => EndLeft(l, r);
        case RightEnd => EndRight(l, r);
      }
      round := round + [e];
    }

    method Restart()
      requires Has(LeftOf(round), RightOf(round)) && LeftOf(round).ended && RightOf(round).ended && buffer == []
      modifies this`leftEnded, this`rightEnded, this`round, this`out
      ensures JoinsRound(Inner, old(round), old(out))
      ensures round == [] && out == [] && Has(LeftOf(round), RightOf(round))
    {
      assert left == map[] && right == map[];
      assert out + buffer == out;
      AllDue(Inner, LeftOf(round), RightOf(round), out);
      leftEnded, rightEnded, round, out := false, false, [], [];
    }

    /** The next element for the operators that follow: the tuples of a round, then its end. */
    method Next() returns (e: StreamElement<Joined<K, A, B>>)
      requires Valid()
      modifies this
      ensures !e.Terminate? ==> Valid()
      ensures |prev| < old(|prev|) || (|prev| == old(|prev|) && |buffer| < old(|buffer|))
      ensures var rounds := old(Rounds(prev, round));
              match e {
                case Item(x) => out == old(out) + [x] && Rounds(prev, round) == rounds
                case FlushAndRestart =>
                  rounds != [] && JoinsRound(Inner, rounds[0], old(out)) && out == [] &&
                    Rounds(prev, round) == rounds[1..]
                case FlushBatch => out == old(out) && Rounds(prev, round) == rounds
                case Terminate => rounds == [] && out == old(out) == []
                case _ => false
              }
    {
      ghost var rounds := Rounds(prev, round);
      while buffer == []
        invariant Valid() && out == old(out) && Rounds(prev, round) == rounds
        invariant |prev| < old(|prev|) || (|prev| == old(|prev|) && buffer == old(buffer))
        decreases |prev|
      {
        var next := prev[0];
        prev := prev[1..];
        match next
        case Item(x) =>
          ProcessItem(x);
        case FlushAndRestart =>
          Restart();
          return FlushAndRestart;
        case Terminate =>
          NothingDue(Inner, LeftOf(round), RightOf(round), out);
          return Terminate;
        case FlushBatch =>
          return FlushBatch;
      }
      e := Item(buffer[0]);
      ghost var due := out + buffer;
      out, buffer := out + [buffer[0]], buffer[1..];
      assert out + buffer == due;
    }
  }

  /** A whole stream: this form of the join meets the same specification, for its one variant. */
  method RunKeyedInnerJoin<K(==, !new), A(==, !new), B(==, !new)>(input: BinaryStream<K, A, B>)
    returns (rounds: seq<seq<Joined<K, A, B>>>)
    requires IsBinaryStream(input, [])
    ensures JoinsRounds(Inner, Rounds(input, []), rounds)
  {
    var join := new KeyedInnerJoin(input);
    ghost var all, todo := Rounds(input, []), Rounds(input, []);
    var current := [];
    rounds := [];
    while true
      invariant join.Valid() && fresh(join) && join.out == current
      invariant todo == Rounds(join.prev, join.round) && |rounds| <= |all| && todo == all[|rounds|..]
      invariant JoinsRounds(Inner, all[..|rounds|], rounds)
      decreases |join.prev|, |join.buffer|
    {
      var e := join.Next();
      match e
      case Item(x) => current := current + [x];
      case FlushAndRestart =>
        JoinsOneMore(Inner, all, rounds, current);
        rounds, current := rounds + [current], [];
        todo := todo[1..];
      case Terminate =>
        assert all[..|rounds|] == all;
        return;
      case FlushBatch =>
    }
  }
}
