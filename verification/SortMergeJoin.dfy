/** The sort-merge join: both sides are sorted by key and popped from the end. */
module SortMergeJoin {
  import opened Streams
  import opened Keyed
  import opened JoinSpec

  // The tuples that are out when only l and r are left of the two sides ----------------------------

  /** How often a tuple is out when `left` and `right` are done, of the sides l and r. */
  function MergedCount<K(==), A(==), B(==)>(v: Variant, l: seq<(K, A)>, left: seq<(K, A)>, r: seq<(K, B)>,
      right: seq<(K, B)>,
      x: Joined<K, A, B>): nat
  {
    match x
    case Joined(k, Some(a), Some(b)) => Times(left, k, a) * Times(r, k, b)
    case Joined(k, Some(a), None) => if v.LeftOuter() && ItemsOf(r, k) == [] then Times(left, k, a) else 0
    case Joined(k, None, Some(b)) => if v.RightOuter() && ItemsOf(l, k) == [] then Times(right, k, b) else 0
    case _ => 0
  }

  ghost predicate IsMerged<K(!new), A(!new), B(!new)>(v: Variant, l: seq<(K, A)>, left: seq<(K, A)>, r: seq<(K, B)>,
      right: seq<(K, B)>,
      out: seq<Joined<K, A, B>>)
  {
    forall x :: multiset(out)[x] == MergedCount(v, l, left, r, right, x)
  }

  /**
    The first i items of l and j items of r are still to be done: what is left of r is not above the
    last left key, and what is done of it is above all that is left of l.
   */
  ghost predicate Cursor<K(!new), A, B>(o: Order<K>, l: seq<(K, A)>, i: nat, r: seq<(K, B)>, j: nat, last: Option<K>) {
    && i <= |l| && j <= |r|
    && last == (if i < |l| then Some(l[i].0) else None)
    && (last.Some? ==> forall m :: 0 <= m < j ==> o.Le(r[m].0, last.value))
    && (i > 0 ==> forall m :: j <= m < |r| ==> !o.Le(r[m].0, l[i - 1].0))
  }

  /** The last left key alone tells whether a right item to be discarded had a match. */
  lemma CursorDiscards<K(!new), A, B>(o: Order<K>, l: seq<(K, A)>, i: nat, r: seq<(K, B)>, j: nat, last: Option<K>)
    requires IsTotal(o) && Sorted(o, l) && Cursor(o, l, i, r, j, last) && j > 0
    requires i > 0 ==> !o.Le(r[j - 1].0, l[i - 1].0)
    ensures Cursor(o, l, i, r, j - 1, last)
    ensures last == Some(r[j - 1].0) <==> ItemsOf(l, r[j - 1].0) != []
  {
    HasItem(l, r[j - 1].0);
  }

  lemma CursorMatches<K(!new), A, B>(o: Order<K>, l: seq<(K, A)>, i: nat, r: seq<(K, B)>, j: nat, last: Option<K>)
    requires IsTotal(o) && Sorted(o, l) && Sorted(o, r) && Cursor(o, l, i, r, j, last) && i > 0
    requires j > 0 ==> o.Le(r[j - 1].0, l[i - 1].0)
    ensures Cursor(o, l, i - 1, r, j, Some(l[i - 1].0))
    ensures multiset(Matches(r[..j], l[i - 1].0)) == multiset(ItemsOf(r, l[i - 1].0))
    ensures Matches(r[..j], l[i - 1].0) == [] <==> ItemsOf(r, l[i - 1].0) == []
  {
    var k := l[i - 1].0;
    assert i > 1 ==> o.Le(l[i - 2].0, k);
    forall m | 0 <= m < j ensures o.Le(r[m].0, k) { assert o.Transitive(r[m].0, r[j - 1].0, k); }
    if i > 1 {
      forall m | j <= m < |r| ensures !o.Le(r[m].0, l[i - 2].0) { assert o.Transitive(r[m].0, l[i - 2].0, k); }
    }
    MatchesAreAll(o, r[..j], k);
    PrefixHasAll(o, r, j, k);
  }

  function Slots<K(==), V(==)>(x: (K, V), k: K, v: V): nat { if x == (k, v) then 1 else 0 }

  lemma TimesOneMore<K, V>(e: (K, V), s: seq<(K, V)>, k: K, v: V)
    ensures Times([e] + s, k, v) == Times(s, k, v) + Slots(e, k, v)
  {
    ItemsOfConcat([e], s, k);
    assert ItemsOf([e], k) == if e.0 == k then [e.1] else [];
  }

  /** Discarding a right item makes exactly the tuple that is now merged. */
  lemma DiscardMerges<K, A, B>(v: Variant, l: seq<(K, A)>, left: seq<(K, A)>, r: seq<(K, B)>, right: seq<(K, B)>,
      e: (K, B),
      x: Joined<K, A, B>)
    ensures MergedCount(v, l, left, r, [e] + right, x) == MergedCount(v, l, left, r, right, x) +
              multiset(DiscardTuples<K, A, B>(v, ItemsOf(l, e.0) != [], e))[x]
  {
    if x.right.Some? { TimesOneMore(e, right, x.key, x.right.value); }
  }

  lemma MergedDiscard<K(!new), A(!new), B(!new)>(v: Variant, l: seq<(K, A)>, left: seq<(K, A)>, r: seq<(K, B)>,
      right: seq<(K, B)>, e: (K, B),
      out: seq<Joined<K, A, B>>)
    requires IsMerged(v, l, left, r, right, out)
    ensures IsMerged(v, l, left, r, [e] + right, out + DiscardTuples(v, ItemsOf(l, e.0) != [], e))
  {
    forall x ensures multiset(out + DiscardTuples(v, ItemsOf(l, e.0) != [], e))[x] ==
      MergedCount(v, l, left, r, [e] + right, x) {
      DiscardMerges(v, l, left, r, right, e, x);
    }
  }

  function DiscardTuples<K, A, B>(v: Variant, matched: bool, x: (K, B)): seq<Joined<K, A, B>> {
    if !matched && v.RightOuter() then [Joined(x.0, None, Some(x.1))] else []
  }

  /** The values at the end of the right side that have the key k, last first. */
  function Matches<K(==), B>(right: seq<(K, B)>, k: K): seq<B> {
    if right == [] || right[|right| - 1].0 != k then []
    else [right[|right| - 1].1] + Matches(right[..|right| - 1], k)
  }

  /** In a sorted side the items of the greatest key are all at the end. */
  lemma {:induction false} MatchesAreAll<K(!new), B>(o: Order<K>, right: seq<(K, B)>, k: K)
    requires IsTotal(o) && Sorted(o, right) && AllLe(o, right, k)
    ensures multiset(Matches(right, k)) == multiset(ItemsOf(right, k))
    ensures Matches(right, k) == [] <==> ItemsOf(right, k) == []
  {
    if right != [] {
      var n := |right| - 1;
      if right[n].0 == k {
        MatchesAreAll(o, right[..n], k);
      } else {
        forall m | 0 <= m < |right| ensures right[m].0 != k { assert o.Le(right[m].0, right[n].0); }
        HasItem(right, k);
      }
    }
  }

  function MatchTuples<K, A, B>(v: Variant, x: (K, A), matches: seq<B>): seq<Joined<K, A, B>> {
    if matches != [] then Pairs(x.0, x.1, matches)
    else if v.LeftOuter() then [Joined(x.0, Some(x.1), None)]
    else []
  }

  /** A left item, matched with all the right items of its key, makes exactly the tuples that are now merged. */
  lemma MatchMerges<K, A, B>(v: Variant, l: seq<(K, A)>, left: seq<(K, A)>, e: (K, A), r: seq<(K, B)>,
      right: seq<(K, B)>, matches: seq<B>,
      x: Joined<K, A, B>)
    requires multiset(matches) == multiset(ItemsOf(r, e.0)) && (matches == [] <==> ItemsOf(r, e.0) == [])
    ensures MergedCount(v, l, [e] + left, r, right, x) ==
            MergedCount(v, l, left, r, right, x) + multiset(MatchTuples(v, e, matches))[x]
  {
    MatchTuplesCount(v, e, r, matches, x);
    if x.left.Some? {
      TimesOneMore(e, left, x.key, x.left.value);
      if x.right.Some? {
        Grow(Times(left, x.key, x.left.value), Times([e] + left, x.key, x.left.value), Times(r, x.key, x.right.value),
             multiset(MatchTuples(v, e, matches))[x]);
      }
    }
  }

  lemma MergedMatch<K(!new), A(!new), B(!new)>(v: Variant, l: seq<(K, A)>, left: seq<(K, A)>, e: (K, A),
      r: seq<(K, B)>, right: seq<(K, B)>,
      matches: seq<B>, out: seq<Joined<K, A, B>>)
    requires IsMerged(v, l, left, r, right, out)
    requires multiset(matches) == multiset(ItemsOf(r, e.0)) && (matches == [] <==> ItemsOf(r, e.0) == [])
    ensures IsMerged(v, l, [e] + left, r, right, out + MatchTuples(v, e, matches))
  {
    forall x ensures multiset(out + MatchTuples(v, e, matches))[x] == MergedCount(v, l, [e] + left, r, right, x) {
      MatchMerges(v, l, left, e, r, right, matches, x);
    }
  }

  lemma Grow(t: nat, t': nat, u: nat, more: nat)
    requires (t' == t && more == 0) || (t' == t + 1 && more == u)
    ensures t' * u == t * u + more
  {
  }

  lemma MatchTuplesCount<K, A, B>(v: Variant, e: (K, A), r: seq<(K, B)>, matches: seq<B>, x: Joined<K, A, B>)
    requires multiset(matches) == multiset(ItemsOf(r, e.0)) && (matches == [] <==> ItemsOf(r, e.0) == [])
    ensures multiset(MatchTuples(v, e, matches))[x] ==
            if x.left.None? || e != (x.key, x.left.value) then 0
            else if x.right.Some? then Times(r, x.key, x.right.value)
            else if v.LeftOuter() && ItemsOf(r, x.key) == [] then 1
            else 0
  {
    PairsCount(e.0, e.1, matches, x);
    assert x.right.Some? ==> multiset(matches)[x.right.value] == Times(r, e.0, x.right.value);
  }

  /** The items that are left have the key, if those above it are gone. */
  lemma PrefixHasAll<K(!new), B>(o: Order<K>, r: seq<(K, B)>, j: nat, k: K)
    requires j <= |r| && forall m :: j <= m < |r| ==> !o.Le(r[m].0, k)
    requires IsTotal(o)
    ensures ItemsOf(r[..j], k) == ItemsOf(r, k)
  {
    assert r == r[..j] + r[j..];
    ItemsOfConcat(r[..j], r[j..], k);
    HasItem(r[j..], k);
  }

  /** The state of the merge of the sorted sides l and r, when i items of l and j of r are left. */
  ghost predicate Merge<K(!new), A(!new), B(!new)>(v: Variant, o: Order<K>, l: seq<(K, A)>, i: nat, r: seq<(K, B)>,
      j: nat, last: Option<K>,
      out: seq<Joined<K, A, B>>) {
    Cursor(o, l, i, r, j, last) && IsMerged(v, l, l[i..], r, r[j..], out)
  }

  lemma MergeDiscards<K(!new), A(!new), B(!new)>(v: Variant, o: Order<K>, l: seq<(K, A)>, i: nat, r: seq<(K, B)>,
      j: nat, last: Option<K>,
      out: seq<Joined<K, A, B>>)
    requires IsTotal(o) && Sorted(o, l) && Merge(v, o, l, i, r, j, last, out) && j > 0
    requires i > 0 ==> !o.Le(r[j - 1].0, l[i - 1].0)
    ensures Merge(v, o, l, i, r, j - 1, last, out + DiscardTuples(v, last == Some(r[j - 1].0), r[j - 1]))
  {
    CursorDiscards(o, l, i, r, j, last);
    assert r[j - 1..] == [r[j - 1]] + r[j..];
    MergedDiscard(v, l, l[i..], r, r[j..], r[j - 1], out);
  }

  lemma MergeMatches<K(!new), A(!new), B(!new)>(v: Variant, o: Order<K>, l: seq<(K, A)>, i: nat, r: seq<(K, B)>,
      j: nat, last: Option<K>,
      out: seq<Joined<K, A, B>>)
    requires IsTotal(o) && Sorted(o, l) && Sorted(o, r) && Merge(v, o, l, i, r, j, last, out) && i > 0
    requires j > 0 ==> o.Le(r[j - 1].0, l[i - 1].0)
    ensures Merge(v, o, l, i - 1, r, j, Some(l[i - 1].0), out + MatchTuples(v, l[i - 1], Matches(r[..j], l[i - 1].0)))
  {
    CursorMatches(o, l, i, r, j, last);
    assert l[i - 1..] == [l[i - 1]] + l[i..];
    MergedMatch(v, l, l[i..], l[i - 1], r, r[j..], Matches(r[..j], l[i - 1].0), out);
  }

  // The operator -----------------------------------------------------------------------------------

  class SortMergeJoin<K(==, !new), A(==, !new), B(==, !new)> {
    const variant: Variant
    const order: Order<K>
    var leftEnded: bool
    var rightEnded: bool
    var left: seq<(K, A)>
    var right: seq<(K, B)>
    var buffer: seq<Joined<K, A, B>>
    var lastLeftKey: Option<K>
    var prev: BinaryStream<K, A, B>            // what the previous operator has yet to emit
    ghost var round: Round<K, A, B>            // what was received in this round
    ghost var out: seq<Joined<K, A, B>>        // what was emitted in this round

    constructor (variant: Variant, order: Order<K>, input: BinaryStream<K, A, B>)
      requires IsBinaryStream(input, []) && IsTotal(order)
      ensures Valid() && this.variant == variant && prev == input && round == [] && out == []
    {
      this.variant, this.order, prev, round, out, buffer := variant, order, input, [], [], [];
      leftEnded, rightEnded, left, right, lastLeftKey := false, false, [], [], None;
    }

    /** How many items of the two sides are stored. */
    ghost function Work(): nat
      reads this`left, this`right
    {
      |left| + |right|
    }

    ghost predicate Valid()
      reads this
    {
      IsTotal(order) && IsBinaryStream(prev, round) && Has(LeftOf(round), RightOf(round))
    }

    /** The state when l and r have been received in this round: nothing is out until both have ended. */
    ghost predicate Has(l: Received<K, A>, r: Received<K, B>)
      reads this
    {
      && leftEnded == l.ended && rightEnded == r.ended
      && if l.ended && r.ended then Merging(Sort(order, l.items), Sort(order, r.items))
         else
           && left == (if l.ended then Sort(order, l.items) else l.items)
           && right == (if r.ended then Sort(order, r.items) else r.items)
           && lastLeftKey == None && out == [] && buffer == []
    }

    /** l and r are the sorted sides; what is left of them are prefixes. */
    ghost predicate Merging(l: seq<(K, A)>, r: seq<(K, B)>)
      reads this
    {
      && |left| <= |l| && left == l[..|left|] && |right| <= |r| && right == r[..|right|]
      && Merge(variant, order, l, |left|, r, |right|, lastLeftKey, out + buffer)
    }

    method DiscardRight(ghost l: seq<(K, A)>, ghost r: seq<(K, B)>)
      requires IsTotal(order) && Sorted(order, l) && Merging(l, r) && right != []
      requires left != [] ==> !order.Le(right[|right| - 1].0, left[|left| - 1].0)
      modifies this`right, this`buffer
      ensures Merging(l, r) && right == old(right)[..|old(right)| - 1]
    {
      ghost var j, before := |right| - 1, out + buffer;
      MergeDiscards(variant, order, l, |left|, r, j + 1, lastLeftKey, before);
      var last := right[|right| - 1];
      assert last == r[j] && right[..j] == r[..j];
      right := right[..|right| - 1];
      ghost var tuples := DiscardTuples<K, A, B>(variant, lastLeftKey == Some(last.0), last);
      if lastLeftKey != Some(last.0) && variant.RightOuter() {
        buffer := buffer + [Joined(last.0, None, Some(last.1))];
      }
      assert out + buffer == before + tuples;
      assert |right| == j;
    }

    /** Discard the right items above the last left one. */
    method DiscardAbove(ghost l: seq<(K, A)>, ghost r: seq<(K, B)>)
      requires IsTotal(order) && Sorted(order, l) && Merging(l, r) && left != []
      modifies this`right, this`buffer
      ensures Merging(l, r) && |right| <= old(|right|)
      ensures right != [] ==> order.Le(right[|right| - 1].0, left[|left| - 1].0)
    {
      while right != [] && !order.Le(right[|right| - 1].0, left[|left| - 1].0)
        invariant Merging(l, r) && |right| <= old(|right|)
      {
        DiscardRight(l, r);
      }
    }

    /** Match the last left item, once the right items above it are gone. */
    method MatchLeft(ghost l: seq<(K, A)>, ghost r: seq<(K, B)>)
      requires IsTotal(order) && Sorted(order, l) && Sorted(order, r) && Merging(l, r) && left != []
      modifies this`left, this`right, this`buffer, this`lastLeftKey
      ensures Merging(l, r) && |left| + 1 == old(|left|) && |right| <= old(|right|)
    {
      DiscardAbove(l, r);
      MatchTop(l, r);
    }

    method MatchTop(ghost l: seq<(K, A)>, ghost r: seq<(K, B)>)
      requires IsTotal(order) && Sorted(order, l) && Sorted(order, r) && Merging(l, r) && left != []
      requires right != [] ==> order.Le(right[|right| - 1].0, left[|left| - 1].0)
      modifies this`left, this`buffer, this`lastLeftKey
      ensures Merging(l, r) && |left| + 1 == old(|left|)
    {
      var last := left[|left| - 1];
      ghost var i, before := |left| - 1, out + buffer;
      MergeMatches(variant, order, l, i + 1, r, |right|, lastLeftKey, before);
      assert last == l[i] && left[..i] == l[..i];
      var matches := TakeMatches(right, last.0);
      var tuples := MakeMatches(variant, last, matches);
      buffer := buffer + tuples;
      assert out + buffer == before + tuples;
      left := left[..|left| - 1];
      lastLeftKey := Some(last.0);
      assert |left| == i;
    }

    /** Make some tuples, or all the rest. */
    method Advance(ghost l: seq<(K, A)>, ghost r: seq<(K, B)>)
      requires IsTotal(order) && Sorted(order, l) && Sorted(order, r) && Merging(l, r)
      modifies this`left, this`right, this`buffer, this`lastLeftKey
      ensures Merging(l, r) && (buffer != [] || (left == [] && right == []))
      ensures Work() < old(Work()) || (Work() == old(Work()) && buffer == old(buffer))
    {
      while buffer == [] && (left != [] || right != [])
        invariant Merging(l, r)
        invariant Work() < old(Work()) || (Work() == old(Work()) && buffer == old(buffer))
        decreases |left| + |right|
      {
        if left != [] {
          MatchLeft(l, r);
        } else {
          ghost var n := |right|;
          while right != []
            invariant Merging(l, r) && left == [] && (|right| < n || (|right| == n && right != []))
            invariant |right| <= n
          {
            DiscardRight(l, r);
          }
        }
      }
    }

    /** Store an item, or sort a side that has ended. */
    method Store(e: BinaryElement<(K, A), (K, B)>)
      modifies this`left, this`right, this`leftEnded, this`rightEnded
      ensures left == if e.LeftItem? then old(left) + [e.left]
                      else if e.LeftEnd? then Sort(order, old(left)) else old(left)
      ensures right == if e.RightItem? then old(right) + [e.right]
                       else if e.RightEnd? then Sort(order, old(right)) else old(right)
      ensures leftEnded == (old(leftEnded) || e.LeftEnd?) && rightEnded == (old(rightEnded) || e.RightEnd?)
    {
      match e {
        case LeftItem(a) => left := left + [a];
        case RightItem(b) => right := right + [b];
        case LeftEnd => leftEnded, left := true, Sort(order, left);
        case RightEnd => rightEnded, right := true, Sort(order, right);
      }
    }

    /** One element of a side more. */
    method Collect(e: BinaryElement<(K, A), (K, B)>)
      requires IsTotal(order) && Has(LeftOf(round), RightOf(round)) && CanFollow(round, e)
      modifies this`left, this`right, this`leftEnded, this`rightEnded, this`round
      ensures round == old(round) + [e] && Has(LeftOf(round), RightOf(round))
    {
      SidesAfter(round, e);
      Store(e);
      round := round + [e];
      if leftEnded && rightEnded {
        MergeBegins<K, A, B>(variant, order, left, right);
        assert left[..|left|] == left && right[..|right|] == right && out + buffer == [];
      }
    }

    /** At the end of a round both sides are empty, its tuples are out, and the next round starts afresh. */
    method Restart()
      requires IsTotal(order) && Has(LeftOf(round), RightOf(round)) && LeftOf(round).ended && RightOf(round).ended
      requires buffer == [] && left == [] && right == []
      modifies this`leftEnded, this`rightEnded, this`lastLeftKey, this`round, this`out
      ensures JoinsRound(variant, old(round), old(out))
      ensures round == [] && out == [] && Has(LeftOf(round), RightOf(round))
    {
      assert leftEnded && rightEnded;
      assert out + buffer == out;
      AllMerged(variant, order, LeftOf(round).items, RightOf(round).items, lastLeftKey, out);
      leftEnded, rightEnded, lastLeftKey, round, out := false, false, None, [], [];
    }

    /** The tuples of the round are made as soon as both sides have ended. */
    method TryAdvance()
      requires IsTotal(order) && Has(LeftOf(round), RightOf(round))
      modifies this`left, this`right, this`buffer, this`lastLeftKey
      ensures Has(LeftOf(round), RightOf(round))
      ensures buffer == [] && leftEnded && rightEnded ==> left == [] && right == []
      ensures Work() < old(Work()) || (Work() == old(Work()) && buffer == old(buffer))
    {
      if buffer == [] && leftEnded && rightEnded {
        SortIsStable(order, LeftOf(round).items);
        SortIsStable(order, RightOf(round).items);
        Advance(Sort(order, LeftOf(round).items), Sort(order, RightOf(round).items));
      }
    }

    method Pop() returns (e: StreamElement<Joined<K, A, B>>)
      requires buffer != [] && Has(LeftOf(round), RightOf(round))
      modifies this`buffer, this`out
      ensures buffer == old(buffer)[1..] && e.Item? && out == old(out) + [e.value] && Has(LeftOf(round), RightOf(round))
    {
      e := Item(buffer[0]);
      ghost var due := out + buffer;
      out, buffer := out + [buffer[0]], buffer[1..];
      assert out + buffer == due;
    }

    /** The next element for the operators that follow: the tuples of a round, then its end. */
    method Next() returns (e: StreamElement<Joined<K, A, B>>)
      requires Valid()
      modifies this
      ensures !e.Terminate? ==> Valid()
      ensures |prev| <= old(|prev|)
      ensures |prev| < old(|prev|) || Work() < old(Work()) || (Work() == old(Work()) && |buffer| < old(|buffer|))
      ensures var rounds := old(Rounds(prev, round));
              match e {
                case Item(x) => out == old(out) + [x] && Rounds(prev, round) == rounds
                case FlushAndRestart =>
                  rounds != [] && JoinsRound(variant, rounds[0], old(out)) && out == [] &&
                    Rounds(prev, round) == rounds[1..]
                case FlushBatch => out == old(out) && Rounds(prev, round) == rounds
                case Terminate => rounds == []
                case _ => false
              }
    {
      ghost var rounds := Rounds(prev, round);
      while true
        invariant Valid() && out == old(out) && Rounds(prev, round) == rounds && |prev| <= old(|prev|)
        invariant |prev| < old(|prev|) || (Work() == old(Work()) && buffer == old(buffer))
        decreases |prev|
      {
        TryAdvance();
        if buffer != [] {
          e := Pop();
          return;
        }
        var mark := Receive();
        if mark.Some? { return mark.value; }
      }
    }

    /** Receive one element: those that carry no item are forwarded. */
    method Receive() returns (mark: Option<StreamElement<Joined<K, A, B>>>)
      requires Valid() && buffer == [] && (leftEnded && rightEnded ==> left == [] && right == [])
      modifies this
      ensures mark != Some(Terminate) ==> Valid()
      ensures |prev| < old(|prev|)
      ensures var rounds := old(Rounds(prev, round));
              match mark {
                case None => out == old(out) && Rounds(prev, round) == rounds
                case Some(FlushAndRestart) =>
                  rounds != [] && JoinsRound(variant, rounds[0], old(out)) && out == [] &&
                    Rounds(prev, round) == rounds[1..]
                case Some(FlushBatch) => out == old(out) && Rounds(prev, round) == rounds
                case Some(Terminate) => rounds == []
                case _ => false
              }
    {
      var next := prev[0];
      prev := prev[1..];
      match next
      case Item(x) =>
        Collect(x);
        mark := None;
      case FlushAndRestart =>
        Restart();
        mark := Some(FlushAndRestart);
      case Terminate =>
        mark := Some(Terminate);
      case FlushBatch =>
        mark := Some(FlushBatch);
    }
  }

  lemma MergeBegins<K(!new), A(!new), B(!new)>(v: Variant, o: Order<K>, l: seq<(K, A)>, r: seq<(K, B)>)
    ensures Merge(v, o, l, |l|, r, |r|, None, [])
  {
    NothingMerged(v, l, r);
    assert l[|l|..] == [] && r[|r|..] == [];
  }

  lemma NothingMerged<K(!new), A(!new), B(!new)>(v: Variant, l: seq<(K, A)>, r: seq<(K, B)>)
    ensures IsMerged(v, l, [], r, [], [])
  {
    forall x ensures MergedCount(v, l, [], r, [], x) == 0 {
      assert x.left.Some? ==> Times<K, A>([], x.key, x.left.value) == 0;
      assert x.right.Some? ==> Times<K, B>([], x.key, x.right.value) == 0;
    }
  }

  lemma AllMerged<K(!new), A(!new), B(!new)>(v: Variant, o: Order<K>, l: seq<(K, A)>, r: seq<(K, B)>, last: Option<K>,
      out: seq<Joined<K, A, B>>)
    requires IsTotal(o) && Merge(v, o, Sort(o, l), 0, Sort(o, r), 0, last, out)
    ensures IsJoin(v, l, r, out)
  {
    SortIsStable(o, l);
    SortIsStable(o, r);
    var l', r' := Sort(o, l), Sort(o, r);
    assert l'[0..] == l' && r'[0..] == r';
    MergedIsJoin(v, l, l', r, r', out);
  }

  lemma MergedIsJoin<K(!new), A(!new), B(!new)>(v: Variant, l: seq<(K, A)>, l': seq<(K, A)>, r: seq<(K, B)>,
      r': seq<(K, B)>,
      out: seq<Joined<K, A, B>>)
    requires IsMerged(v, l', l', r', r', out)
    requires forall k :: ItemsOf(l', k) == ItemsOf(l, k)
    requires forall k :: ItemsOf(r', k) == ItemsOf(r, k)
    ensures IsJoin(v, l, r, out)
  {
    forall x ensures multiset(out)[x] == JoinCount(v, l, r, x) {
      SameCount(v, l, l', r, r', x);
    }
  }

  lemma SameCount<K, A, B>(v: Variant, l: seq<(K, A)>, l': seq<(K, A)>, r: seq<(K, B)>, r': seq<(K, B)>,
      x: Joined<K, A, B>)
    requires ItemsOf(l', x.key) == ItemsOf(l, x.key) && ItemsOf(r', x.key) == ItemsOf(r, x.key)
    ensures MergedCount(v, l', l', r', r', x) == JoinCount(v, l, r, x)
  {
    assert x.left.Some? ==> Times(l', x.key, x.left.value) == Times(l, x.key, x.left.value);
    assert x.right.Some? ==> Times(r', x.key, x.right.value) == Times(r, x.key, x.right.value);
  }

  /** A whole stream: round by round, the output is the join of the two sides. */
  method RunSortMergeJoin<K(==, !new), A(==, !new), B(==, !new)>(variant: Variant, order: Order<K>,
      input: BinaryStream<K, A, B>)
    returns (rounds: seq<seq<Joined<K, A, B>>>)
    requires IsBinaryStream(input, []) && IsTotal(order)
    ensures JoinsRounds(variant, Rounds(input, []), rounds)
  {
    var join := new SortMergeJoin(variant, order, input);
    ghost var all, todo := Rounds(input, []), Rounds(input, []);
    var current := [];
    rounds := [];
    while true
      invariant join.Valid() && fresh(join) && join.variant == variant && join.out == current
      invariant todo == Rounds(join.prev, join.round) && |rounds| <= |all| && todo == all[|rounds|..]
      invariant JoinsRounds(variant, all[..|rounds|], rounds)
      decreases |join.prev|, join.Work(), |join.buffer|
    {
      var e := join.Next();
      match e
      case Item(x) => current := current + [x];
      case FlushAndRestart =>
        JoinsOneMore(variant, all, rounds, current);
        rounds, current := rounds + [current], [];
        todo := todo[1..];
      case Terminate =>
        assert all[..|rounds|] == all;
        return;
      case FlushBatch =>
    }
  }

  method MakeMatches<K, A, B>(variant: Variant, last: (K, A), matches: seq<B>) returns (tuples: seq<Joined<K, A, B>>)
    ensures tuples == MatchTuples(variant, last, matches)
  {
    tuples := [];
    if matches != [] {
      tuples := MakePairs(last.0, last.1, matches);
    } else if variant.LeftOuter() {
      tuples := [Joined(last.0, Some(last.1), None)];
    }
  }

  method TakeMatches<K(==), B>(right: seq<(K, B)>, k: K) returns (matches: seq<B>)
    ensures matches == Matches(right, k)
  {
    matches := [];
    var n := |right|;
    assert right[..n] == right;
    while n > 0 && right[n - 1].0 == k
      invariant 0 <= n <= |right| && matches + Matches(right[..n], k) == Matches(right, k)
    {
      assert right[..n][..n - 1] == right[..n - 1];
      n := n - 1;
      matches := matches + [right[n].1];
    }
  }
}
