/**
  The join of items whose timestamps are close to each other.
  The operator keeps the left items whose interval may still get right items, and drops the right items
  that are too early for all of them.
 */
module IntervalJoin {
  import opened Streams
  import opened Keyed
  import opened TimedStreams

  datatype Merged<+A, +B> = LeftItem(left: A) | RightItem(right: B)

  /** How far the right item may be before and after the left one. */
  datatype Bounds = Bounds(lower: int, upper: int) {
    predicate Valid() { MIN <= lower <= MAX && MIN <= upper <= MAX }
  }

  /** The operator starts every round at time 0: an earlier one would fail its assertion. */
  predicate CanCome(ts: int) { 0 <= ts <= MAX }

  /** In 64 bits; a limit that cannot be represented is replaced. */
  function LowerLimit(b: Bounds, ts: int): int { if MIN <= ts - b.lower <= MAX then ts - b.lower else MIN }

  function UpperLimit(b: Bounds, ts: int): int { if MIN <= ts + b.upper <= MAX then ts + b.upper else MAX }

  /** No limit is replaced by one that admits too much: the lower one is not too large, or there is nothing to admit. */
  predicate Fits(b: Bounds, ts: int) { ts - b.lower <= MAX || ts + b.upper < 0 }

  /**
    The replaced limits admit the right items they should, but for a negative lower bound: when the lower
    limit is too large, it becomes too small.
   */
  lemma LimitsAreExact(b: Bounds, ts: int)
    requires b.Valid() && CanCome(ts)
    ensures (forall q ::
      CanCome(q) ==> (LowerLimit(b, ts) <= q <= UpperLimit(b, ts) <==> ts - b.lower <= q <= ts + b.upper)) <==>
            Fits(b, ts)
  {
    if ts - b.lower > MAX && ts + b.upper >= 0 {
      assert CanCome(0) && LowerLimit(b, ts) <= 0 <= UpperLimit(b, ts);
    }
  }

  /**
    With a lower bound of -1 and an upper one of 1, a left item at the end of time should match only what
    comes after it, which is nothing, but the operator finds the item at time 0.
   */
  lemma NegativeLowerBoundFails()
    ensures var b, r := Bounds(-1, 1), [('k', (0, 'r'))];
            && b.Valid() && CanCome(MAX) && !Fits(b, MAX)
            && MatchesOf(r, 'k', MAX - b.lower, MAX + b.upper) == []
            && TakeUpto(DropBelow(ItemsOf(r, 'k'), LowerLimit(b, MAX)), UpperLimit(b, MAX)) == [(0, 'r')]
  {
    var r := [('k', (0, 'r'))];
    assert r[..0] == [] && [(0, 'r')][1..] == [];
  }

  // The join of two sides --------------------------------------------------------------------------

  function Tuples<K, A, B>(ts: int, k: K, a: A, matches: seq<Timed<B>>): seq<Timed<(K, (A, B))>> {
    if matches == [] then []
    else
      var n := |matches| - 1;
      Tuples(ts, k, a, matches[..n]) + [(if matches[n].0 >= ts then matches[n].0 else ts, (k, (a, matches[n].1)))]
  }

  /** Each left item with the right items of its key in its interval, with the larger of the two timestamps. */
  function Pairs<K(==), A, B>(b: Bounds, l: seq<Timed<(K, A)>>, r: seq<(K, Timed<B>)>): seq<Timed<(K, (A, B))>> {
    if l == [] then [] else Pairs(b, l[..|l| - 1], r) + PairsOf(b, l[|l| - 1], r)
  }

  function PairsOf<K(==), A, B>(b: Bounds, x: Timed<(K, A)>, r: seq<(K, Timed<B>)>): seq<Timed<(K, (A, B))>> {
    Tuples(x.0, x.1.0, x.1.1, MatchesOf(r, x.1.0, x.0 - b.lower, x.0 + b.upper))
  }

  /** The right items of a key and an interval. */
  function MatchesOf<K(==), B>(r: seq<(K, Timed<B>)>, k: K, lo: int, hi: int): seq<Timed<B>> {
    if r == [] then []
    else
      var y := r[|r| - 1];
      var before := MatchesOf(r[..|r| - 1], k, lo, hi);
      if y.0 == k && lo <= y.1.0 <= hi then before + [y.1] else before
  }

  type Round<K, A, B> = seq<Timed<(K, Merged<A, B>)>>

  function LeftsOf<K, A, B>(round: Round<K, A, B>): seq<Timed<(K, A)>> {
    if round == [] then []
    else
      var x := round[|round| - 1];
      if x.1.1.LeftItem? then LeftsOf(round[..|round| - 1]) + [(x.0, (x.1.0, x.1.1.left))]
        else LeftsOf(round[..|round| - 1])
  }

  function RightsOf<K, A, B>(round: Round<K, A, B>): seq<(K, Timed<B>)> {
    if round == [] then []
    else
      var x := round[|round| - 1];
      if x.1.1.RightItem? then RightsOf(round[..|round| - 1]) + [(x.1.0, (x.0, x.1.1.right))]
        else RightsOf(round[..|round| - 1])
  }

  lemma SidesAppend<K, A, B>(round: Round<K, A, B>, ts: int, k: K, item: Merged<A, B>)
    ensures LeftsOf(round + [(ts, (k, item))]) ==
            if item.LeftItem? then LeftsOf(round) + [(ts, (k, item.left))] else LeftsOf(round)
    ensures RightsOf(round + [(ts, (k, item))]) ==
            if item.RightItem? then RightsOf(round) + [(k, (ts, item.right))] else RightsOf(round)
  {
    assert (round + [(ts, (k, item))])[..|round|] == round;
  }

  // Early matches and evictions --------------------------------------------------------------------

  /** The timestamps increase, from lo to hi. */
  predicate Rising<T>(s: seq<Timed<T>>, lo: int, hi: int) {
    s == [] || (lo <= s[0].0 <= hi && Rising(s[1..], s[0].0, hi))
  }

  lemma {:induction false} RisingAppend<T>(s: seq<Timed<T>>, lo: int, hi: int, x: Timed<T>)
    requires Rising(s, lo, hi) && lo <= hi <= x.0
    ensures Rising(s + [x], lo, x.0)
  {
    if s != [] {
      RisingAppend(s[1..], s[0].0, hi, x);
      assert (s + [x])[1..] == s[1..] + [x];
    }
  }

  lemma {:induction false} RisingLater<T>(s: seq<Timed<T>>, lo: int, hi: int, lo': int, hi': int)
    requires Rising(s, lo, hi) && lo' <= lo && hi <= hi'
    ensures Rising(s, lo', hi')
  {
    if s != [] { RisingLater(s[1..], s[0].0, hi, s[0].0, hi'); }
  }

  /** The items of an interval of time. */
  function Within<B>(items: seq<Timed<B>>, lo: int, hi: int): seq<Timed<B>> {
    if items == [] then []
    else if lo <= items[0].0 <= hi then [items[0]] + Within(items[1..], lo, hi)
    else Within(items[1..], lo, hi)
  }

  lemma {:induction false} WithinAppend<B>(s: seq<Timed<B>>, x: Timed<B>, lo: int, hi: int)
    ensures Within(s + [x], lo, hi) == if lo <= x.0 <= hi then Within(s, lo, hi) + [x] else Within(s, lo, hi)
  {
    if s == [] {
      assert s + [x] == [x] && [x][1..] == [];
    } else {
      assert (s + [x])[1..] == s[1..] + [x] && (s + [x])[0] == s[0];
      WithinAppend(s[1..], x, lo, hi);
    }
  }

  lemma {:induction false} MatchesAreWithin<K, B>(r: seq<(K, Timed<B>)>, k: K, lo: int, hi: int)
    ensures MatchesOf(r, k, lo, hi) == Within(ItemsOf(r, k), lo, hi)
  {
    if r != [] {
      var n := |r| - 1;
      MatchesAreWithin(r[..n], k, lo, hi);
      WithinAppend(ItemsOf(r[..n], k), r[n].1, lo, hi);
    }
  }

  lemma {:induction false} WithinNone<B>(s: seq<Timed<B>>, from: int, seen: int, lo: int, hi: int)
    requires Rising(s, from, seen) && hi < from
    ensures Within(s, lo, hi) == []
  {
    if s != [] { WithinNone(s[1..], s[0].0, seen, lo, hi); }
  }

  /** Without the items at the front that are too early. */
  function DropBelow<B>(s: seq<Timed<B>>, lo: int): seq<Timed<B>> {
    if s == [] || s[0].0 >= lo then s else DropBelow(s[1..], lo)
  }

  function TakeUpto<B>(s: seq<Timed<B>>, hi: int): seq<Timed<B>> {
    if s == [] || s[0].0 > hi then [] else [s[0]] + TakeUpto(s[1..], hi)
  }

  /** What is left of the items when some that are too early have been evicted. */
  predicate IsTail<B(==)>(tail: seq<Timed<B>>, items: seq<Timed<B>>, floor: int) {
    if |tail| >= |items| then tail == items else items[0].0 < floor && IsTail(tail, items[1..], floor)
  }

  lemma {:induction false} TailAppend<B>(tail: seq<Timed<B>>, items: seq<Timed<B>>, floor: int, x: Timed<B>)
    requires IsTail(tail, items, floor)
    ensures IsTail(tail + [x], items + [x], floor)
  {
    if |tail| < |items| {
      TailAppend(tail, items[1..], floor, x);
      assert (items + [x])[1..] == items[1..] + [x];
    }
  }

  lemma {:induction false} TailLater<B>(tail: seq<Timed<B>>, items: seq<Timed<B>>, floor: int, floor': int)
    requires IsTail(tail, items, floor) && floor <= floor'
    ensures IsTail(tail, items, floor')
  {
    if |tail| < |items| { TailLater(tail, items[1..], floor, floor'); }
  }

  /** The items of the interval come one after the other; hi' differs from hi only beyond all the items. */
  lemma {:induction false} TakeIsWithin<B>(s: seq<Timed<B>>, seen: int, lo: int, hi: int, hi': int)
    requires Rising(s, lo, seen) && (hi == hi' || (seen <= hi && seen <= hi'))
    ensures TakeUpto(s, hi) == Within(s, lo, hi')
  {
    if s != [] {
      RisingLater(s[1..], s[0].0, seen, lo, seen);
      if s[0].0 > hi { WithinNone(s, s[0].0, seen, lo, hi'); } else { TakeIsWithin(s[1..], seen, lo, hi, hi'); }
    }
  }

  lemma {:induction false} DropAndTake<B>(s: seq<Timed<B>>, from: int, seen: int, lo: int, hi: int, hi': int)
    requires Rising(s, from, seen) && (hi == hi' || (seen <= hi && seen <= hi'))
    ensures TakeUpto(DropBelow(s, lo), hi) == Within(s, lo, hi') && |DropBelow(s, lo)| <= |s| &&
      IsTail(DropBelow(s, lo), s, lo)
  {
    if s != [] {
      if s[0].0 < lo {
        DropAndTake(s[1..], s[0].0, seen, lo, hi, hi');
      } else {
        TakeIsWithin(s, seen, lo, hi, hi');
      }
    }
  }

  /** The next left item of the key finds all its matches in what is left. */
  lemma {:induction false} TailHasMatches<B>(tail: seq<Timed<B>>, items: seq<Timed<B>>, floor: int, from: int,
      seen: int, lo: int, hi: int, hi': int)
    requires IsTail(tail, items, floor) && floor <= lo && Rising(items, from, seen) &&
      (hi == hi' || (seen <= hi && seen <= hi'))
    ensures TakeUpto(DropBelow(tail, lo), hi) == Within(items, lo, hi') && |DropBelow(tail, lo)| <= |items| &&
      IsTail(DropBelow(tail, lo), items, lo)
  {
    if |tail| >= |items| {
      DropAndTake(items, from, seen, lo, hi, hi');
    } else {
      TailHasMatches(tail, items[1..], floor, items[0].0, seen, lo, hi, hi');
    }
  }

  /** An interval before time 0 has no matches, and nothing is evicted for it. */
  lemma {:induction false} TailHasNone<B>(tail: seq<Timed<B>>, items: seq<Timed<B>>, floor: int, seen: int, lo: int,
      hi: int, floor': int)
    requires IsTail(tail, items, floor) && floor <= floor' && Rising(items, 0, seen) && lo < 0 && hi < 0
    ensures DropBelow(tail, lo) == tail && TakeUpto(tail, hi) == [] && IsTail(tail, items, floor')
    ensures Within(items, floor', hi) == []
  {
    TailRises(tail, items, floor, 0, seen);
    TailLater(tail, items, floor, floor');
    WithinNone(items, 0, seen, floor', hi);
  }

  lemma {:induction false} TailRises<B>(tail: seq<Timed<B>>, items: seq<Timed<B>>, floor: int, from: int, seen: int)
    requires IsTail(tail, items, floor) && Rising(items, from, seen)
    ensures Rising(tail, from, seen)
  {
    if |tail| < |items| {
      TailRises(tail, items[1..], floor, items[0].0, seen);
      RisingLater(tail, items[0].0, seen, from, seen);
    }
  }

  // What the operator keeps ------------------------------------------------------------------------

  /** Left items in the order of time, whose limits fit. */
  predicate Waiting<K, A>(b: Bounds, left: seq<Timed<(K, A)>>, lo: int, hi: int) {
    left == [] || (lo <= left[0].0 <= hi && Fits(b, left[0].0) && Waiting(b, left[1..], left[0].0, hi))
  }

  lemma {:induction false} WaitingAppend<K, A>(b: Bounds, left: seq<Timed<(K, A)>>, lo: int, hi: int, x: Timed<(K, A)>)
    requires Waiting(b, left, lo, hi) && lo <= hi <= x.0 && Fits(b, x.0)
    ensures Waiting(b, left + [x], lo, x.0)
  {
    if left != [] {
      WaitingAppend(b, left[1..], left[0].0, hi, x);
      assert (left + [x])[1..] == left[1..] + [x];
    }
  }

  lemma {:induction false} WaitingLater<K, A>(b: Bounds, left: seq<Timed<(K, A)>>, lo: int, hi: int, hi': int)
    requires Waiting(b, left, lo, hi) && hi <= hi'
    ensures Waiting(b, left, lo, hi')
  {
    if left != [] { WaitingLater(b, left[1..], left[0].0, hi, hi'); }
  }

  /** Left items whose intervals have gone by. */
  predicate Past<K, A>(b: Bounds, done: seq<Timed<(K, A)>>, seen: int) {
    done == [] || (done[|done| - 1].0 + b.upper < seen && Past(b, done[..|done| - 1], seen))
  }

  lemma {:induction false} PastLater<K, A>(b: Bounds, done: seq<Timed<(K, A)>>, seen: int, seen': int)
    requires Past(b, done, seen) && seen <= seen'
    ensures Past(b, done, seen')
  {
    if done != [] { PastLater(b, done[..|done| - 1], seen, seen'); }
  }

  /** The time of the last left item that is done. */
  function DoneUpto<K, A>(done: seq<Timed<(K, A)>>): int {
    if done == [] then 0 else done[|done| - 1].0
  }

  /** All the lower limits to come are above this one. */
  function Floor<K, A>(b: Bounds, done: seq<Timed<(K, A)>>): int {
    if done == [] then MIN else done[|done| - 1].0 - b.lower
  }

  predicate TailAt<K(==), B(==)>(right: map<K, seq<Timed<B>>>, r: seq<(K, Timed<B>)>, floor: int, k: K) {
    IsTail(Bucket(right, k), ItemsOf(r, k), floor)
  }

  ghost predicate TableOk<K(!new), B(!new)>(right: map<K, seq<Timed<B>>>, r: seq<(K, Timed<B>)>, floor: int) {
    forall k {:trigger TailAt(right, r, floor, k)} :: TailAt(right, r, floor, k)
  }

  predicate RisesAt<K(==), B>(r: seq<(K, Timed<B>)>, seen: int, k: K) { Rising(ItemsOf(r, k), 0, seen) }

  ghost predicate AllRise<K(!new), B(!new)>(r: seq<(K, Timed<B>)>, seen: int) {
    forall k {:trigger RisesAt(r, seen, k)} :: RisesAt(r, seen, k)
  }

  lemma AllRiseLater<K(!new), B(!new)>(r: seq<(K, Timed<B>)>, seen: int, seen': int)
    requires AllRise(r, seen) && seen <= seen'
    ensures AllRise(r, seen')
  {
    forall k ensures RisesAt(r, seen', k) {
      assert RisesAt(r, seen, k);
      RisingLater(ItemsOf(r, k), 0, seen, 0, seen');
    }
  }

  /** A right item is too late for the left items that are done. */
  lemma {:induction false} PairsStable<K, A, B>(b: Bounds, done: seq<Timed<(K, A)>>, r: seq<(K, Timed<B>)>, k: K,
      x: Timed<B>)
    requires Past(b, done, x.0)
    ensures Pairs(b, done, r + [(k, x)]) == Pairs(b, done, r)
  {
    if done != [] {
      var n := |done| - 1;
      PairsStable(b, done[..n], r, k, x);
      TooLate(r, k, x, done[n].1.0, done[n].0 - b.lower, done[n].0 + b.upper);
    }
  }

  lemma TooLate<K, B>(r: seq<(K, Timed<B>)>, k: K, x: Timed<B>, k': K, lo: int, hi: int)
    requires hi < x.0
    ensures MatchesOf(r + [(k, x)], k', lo, hi) == MatchesOf(r, k', lo, hi)
  {
    assert (r + [(k, x)])[..|r|] == r;
  }

  lemma PairsAppend<K, A, B>(b: Bounds, done: seq<Timed<(K, A)>>, r: seq<(K, Timed<B>)>, x: Timed<(K, A)>)
    ensures Pairs(b, done + [x], r) == Pairs(b, done, r) + PairsOf(b, x, r)
  {
    assert (done + [x])[..|done|] == done;
  }

  lemma TablePush<K(!new), B(!new)>(right: map<K, seq<Timed<B>>>, r: seq<(K, Timed<B>)>, floor: int, key: K,
      x: Timed<B>)
    requires TableOk(right, r, floor)
    ensures TableOk(right[key := Bucket(right, key) + [x]], r + [(key, x)], floor)
  {
    var right' := right[key := Bucket(right, key) + [x]];
    forall k ensures TailAt(right', r + [(key, x)], floor, k) {
      assert TailAt(right, r, floor, k);
      ItemsOfAppend(r, key, x, k);
      TailAppend(Bucket(right, k), ItemsOf(r, k), floor, x);
    }
  }

  lemma AllRisePush<K(!new), B(!new)>(r: seq<(K, Timed<B>)>, seen: int, key: K, x: Timed<B>)
    requires AllRise(r, seen) && 0 <= seen <= x.0
    ensures AllRise(r + [(key, x)], x.0)
  {
    forall k ensures RisesAt(r + [(key, x)], x.0, k) {
      assert RisesAt(r, seen, k);
      ItemsOfAppend(r, key, x, k);
      RisingAppend(ItemsOf(r, k), 0, seen, x);
      RisingLater(ItemsOf(r, k), 0, seen, 0, x.0);
    }
  }

  /** The table when the items of the key k that are too early are evicted. */
  function Evicted<K, B>(right: map<K, seq<Timed<B>>>, k: K, lo: int): map<K, seq<Timed<B>>> {
    if k in right then right[k := DropBelow(right[k], lo)] else right
  }

  lemma TableEvict<K(!new), B(!new)>(right: map<K, seq<Timed<B>>>, r: seq<(K, Timed<B>)>, floor: int, key: K, lo: int,
      floor': int)
    requires TableOk(right, r, floor) && floor <= floor'
    requires IsTail(DropBelow(Bucket(right, key), lo), ItemsOf(r, key), floor')
    ensures TableOk(Evicted(right, key, lo), r, floor')
  {
    var right' := Evicted(right, key, lo);
    forall k ensures TailAt(right', r, floor', k) {
      assert TailAt(right, r, floor, k);
      if k != key { TailLater(Bucket(right, k), ItemsOf(r, k), floor, floor'); }
    }
  }

  /** When `done` and `left` are the left items of the round, r its right ones, and `out` is made. */
  ghost predicate Joining<K(!new), A(!new), B(!new)>(
      b: Bounds, done: seq<Timed<(K, A)>>, left: seq<Timed<(K, A)>>, r: seq<(K, Timed<B>)>,
      right: map<K, seq<Timed<B>>>,
      seen: int, ended: bool, out: seq<Timed<(K, (A, B))>>) {
    && out == Pairs(b, done, r)
    && 0 <= DoneUpto(done) <= seen <= MAX && Waiting(b, left, DoneUpto(done), seen) && AllRise(r, seen)
    && (!(ended && left == []) ==> TableOk(right, r, Floor(b, done)))
    && (!ended ==> Past(b, done, seen))
  }

  lemma LeftArrives<K(!new), A(!new), B(!new)>(
      b: Bounds, done: seq<Timed<(K, A)>>, left: seq<Timed<(K, A)>>, r: seq<(K, Timed<B>)>,
      right: map<K, seq<Timed<B>>>,
      seen: int, out: seq<Timed<(K, (A, B))>>, x: Timed<(K, A)>)
    requires Joining(b, done, left, r, right, seen, false, out)
    requires seen <= x.0 <= MAX && Fits(b, x.0)
    ensures Joining(b, done, left + [x], r, right, x.0, false, out)
  {
    WaitingAppend(b, left, DoneUpto(done), seen, x);
    AllRiseLater(r, seen, x.0);
    PastLater(b, done, seen, x.0);
  }

  lemma RightArrives<K(!new), A(!new), B(!new)>(
      b: Bounds, done: seq<Timed<(K, A)>>, left: seq<Timed<(K, A)>>, r: seq<(K, Timed<B>)>,
      right: map<K, seq<Timed<B>>>,
      seen: int, out: seq<Timed<(K, (A, B))>>, k: K, x: Timed<B>)
    requires Joining(b, done, left, r, right, seen, false, out) && seen <= x.0 <= MAX
    ensures Joining(b, done, left, r + [(k, x)], right[k := Bucket(right, k) + [x]], x.0, false, out)
  {
    PastLater(b, done, seen, x.0);
    PairsStable(b, done, r, k, x);
    TablePush(right, r, Floor(b, done), k, x);
    AllRisePush(r, seen, k, x);
    WaitingLater(b, left, DoneUpto(done), seen, x.0);
  }

  /** Time goes on, or the round ends. */
  lemma TimePasses<K(!new), A(!new), B(!new)>(
      b: Bounds, done: seq<Timed<(K, A)>>, left: seq<Timed<(K, A)>>, r: seq<(K, Timed<B>)>,
      right: map<K, seq<Timed<B>>>,
      seen: int, out: seq<Timed<(K, (A, B))>>, seen': int, ended: bool)
    requires Joining(b, done, left, r, right, seen, false, out) && seen <= seen' <= MAX
    ensures Joining(b, done, left, r, right, seen', ended, out)
  {
    WaitingLater(b, left, DoneUpto(done), seen, seen');
    AllRiseLater(r, seen, seen');
    PastLater(b, done, seen, seen');
  }

  lemma EvictedBucket<K, B>(right: map<K, seq<Timed<B>>>, k: K, lo: int)
    ensures Bucket(Evicted(right, k, lo), k) == DropBelow(Bucket(right, k), lo)
  {
  }

  lemma LimitsFit(b: Bounds, ts: int, seen: int)
    requires b.Valid() && CanCome(ts) && Fits(b, ts) && seen <= MAX
    ensures LowerLimit(b, ts) == ts - b.lower || (LowerLimit(b, ts) < 0 && UpperLimit(b, ts) == ts + b.upper < 0)
    ensures UpperLimit(b, ts) == ts + b.upper || (seen <= UpperLimit(b, ts) && seen <= ts + b.upper)
    ensures UpperLimit(b, ts) < seen ==> ts + b.upper < seen
  {
  }

  lemma JoinLeft<K(!new), A(!new), B(!new)>(b: Bounds, done: seq<Timed<(K, A)>>, x: Timed<(K, A)>,
      r: seq<(K, Timed<B>)>,
      right: map<K, seq<Timed<B>>>, seen: int, right': map<K, seq<Timed<B>>>, matches: seq<Timed<B>>)
    requires b.Valid() && CanCome(x.0) && Fits(b, x.0) && seen <= MAX
    requires TableOk(right, r, Floor(b, done)) && AllRise(r, seen) && DoneUpto(done) <= x.0
    requires right' == Evicted(right, x.1.0, LowerLimit(b, x.0)) &&
      matches == TakeUpto(Bucket(right', x.1.0), UpperLimit(b, x.0))
    ensures TableOk(right', r, Floor(b, done + [x])) && matches == MatchesOf(r, x.1.0, x.0 - b.lower, x.0 + b.upper)
  {
    var k, lo := x.1.0, Floor(b, done + [x]);
    assert lo == x.0 - b.lower;
    LimitsFit(b, x.0, seen);
    EvictedBucket(right, k, lo);
    assert TailAt(right, r, Floor(b, done), k) && RisesAt(r, seen, k);
    if LowerLimit(b, x.0) == lo {
      TailHasMatches(Bucket(right, k), ItemsOf(r, k), Floor(b, done), 0, seen, lo, UpperLimit(b, x.0), x.0 + b.upper);
    } else {
      TailHasNone(Bucket(right, k), ItemsOf(r, k), Floor(b, done), seen, LowerLimit(b, x.0), x.0 + b.upper, lo);
    }
    MatchesAreWithin(r, k, lo, x.0 + b.upper);
    TableEvict(right, r, Floor(b, done), k, LowerLimit(b, x.0), lo);
  }

  /** The first left item is joined, when no right item of its interval is to come. */
  lemma LeftIsDone<K(!new), A(!new), B(!new)>(
      b: Bounds, done: seq<Timed<(K, A)>>, left: seq<Timed<(K, A)>>, r: seq<(K, Timed<B>)>,
      right: map<K, seq<Timed<B>>>,
      seen: int, ended: bool, out: seq<Timed<(K, (A, B))>>, right': map<K, seq<Timed<B>>>, matches: seq<Timed<B>>)
    requires Joining(b, done, left, r, right, seen, ended, out) && b.Valid() && left != []
    requires ended || UpperLimit(b, left[0].0) < seen
    requires right' == Evicted(right, left[0].1.0, LowerLimit(b, left[0].0)) &&
      matches == TakeUpto(Bucket(right', left[0].1.0), UpperLimit(b, left[0].0))
    ensures Joining(b, done + [left[0]], left[1..], r, right', seen, ended,
      out + Tuples(left[0].0, left[0].1.0, left[0].1.1, matches))
  {
    LimitsFit(b, left[0].0, seen);
    JoinLeft(b, done, left[0], r, right, seen, right', matches);
    OutGrows(b, done, r, left[0], matches, out);
    DoneGrows(b, done, left[0], seen, ended);
  }

  lemma DoneGrows<K, A>(b: Bounds, done: seq<Timed<(K, A)>>, x: Timed<(K, A)>, seen: int, ended: bool)
    requires !ended ==> Past(b, done, seen) && x.0 + b.upper < seen
    ensures DoneUpto(done + [x]) == x.0 && (!ended ==> Past(b, done + [x], seen))
  {
    assert (done + [x])[..|done|] == done;
  }

  lemma OutGrows<K, A, B>(b: Bounds, done: seq<Timed<(K, A)>>, r: seq<(K, Timed<B>)>, x: Timed<(K, A)>,
      matches: seq<Timed<B>>,
      out: seq<Timed<(K, (A, B))>>)
    requires out == Pairs(b, done, r) && matches == MatchesOf(r, x.1.0, x.0 - b.lower, x.0 + b.upper)
    ensures out + Tuples(x.0, x.1.0, x.1.1, matches) == Pairs(b, done + [x], r)
  {
    PairsAppend(b, done, r, x);
    assert Tuples(x.0, x.1.0, x.1.1, matches) == PairsOf(b, x, r);
  }

  /** The elements that say something other than time. */
  function Signals<T>(others: seq<StreamElement<T>>): seq<StreamElement<()>> {
    if others == [] then []
    else
      var before := Signals(others[..|others| - 1]);
      if others[|others| - 1].Watermark? then before else before + [Kind(others[|others| - 1])]
  }

  lemma SignalsAppend<T>(others: seq<StreamElement<T>>, e: StreamElement<T>)
    ensures Signals(others + [e]) == if e.Watermark? then Signals(others) else Signals(others) + [Kind(e)]
  {
    assert (others + [e])[..|others|] == others;
  }

  ghost predicate JoinedRounds<K(!new), A(!new), B(!new)>(b: Bounds, input: seq<Round<K, A, B>>,
      output: seq<seq<Timed<(K, (A, B))>>>, more: nat) {
    |input| == |output| + more && forall i {:trigger IsJoined(b, input, output, i)} :: 0 <= i < |output| ==>
      IsJoined(b, input, output, i)
  }

  /** A round of the output is the join of the sides of the round of the input. */
  predicate IsJoined<K(==), A(==), B(==)>(b: Bounds, input: seq<Round<K, A, B>>, output: seq<seq<Timed<(K, (A, B))>>>,
      i: int) {
    0 <= i < |input| && i < |output| && output[i] == Pairs(b, LeftsOf(input[i]), RightsOf(input[i]))
  }

  lemma JoinedPrefix<K(!new), A(!new), B(!new)>(b: Bounds, input: seq<Round<K, A, B>>,
      output: seq<seq<Timed<(K, (A, B))>>>,
      input': seq<Round<K, A, B>>, output': seq<seq<Timed<(K, (A, B))>>>, i: int)
    requires IsJoined(b, input, output, i) && input <= input' && output <= output'
    ensures IsJoined(b, input', output', i)
  {
  }

  /** What was received in the round: what is stored, and what was made of the rest. */
  ghost predicate Holds<K(!new), A(!new), B(!new)>(
      b: Bounds, round: Round<K, A, B>, done: seq<Timed<(K, A)>>, left: seq<Timed<(K, A)>>,
      right: map<K, seq<Timed<B>>>,
      seen: int, ended: bool, out: seq<Timed<(K, (A, B))>>, buffer: seq<Timed<(K, (A, B))>>) {
    LeftsOf(round) == done + left && Joining(b, done, left, RightsOf(round), right, seen, ended, out + buffer)
  }

  lemma TakeLeft<K(!new), A(!new), B(!new)>(
      b: Bounds, round: Round<K, A, B>, done: seq<Timed<(K, A)>>, left: seq<Timed<(K, A)>>,
      right: map<K, seq<Timed<B>>>,
      seen: int, ended: bool, out: seq<Timed<(K, (A, B))>>, buffer: seq<Timed<(K, (A, B))>>, k: K, a: A, ts: int)
    requires Holds(b, round, done, left, right, seen, ended, out, buffer) && !ended && seen <= ts <= MAX &&
      Fits(b, ts)
    ensures Holds(b, round + [(ts, (k, LeftItem(a)))], done, left + [(ts, (k, a))], right, ts, ended, out, buffer)
  {
    SidesAppend(round, ts, k, LeftItem(a));
    LeftArrives(b, done, left, RightsOf(round), right, seen, out + buffer, (ts, (k, a)));
  }

  lemma TakeRight<K(!new), A(!new), B(!new)>(
      b: Bounds, round: Round<K, A, B>, done: seq<Timed<(K, A)>>, left: seq<Timed<(K, A)>>,
      right: map<K, seq<Timed<B>>>,
      seen: int, ended: bool, out: seq<Timed<(K, (A, B))>>, buffer: seq<Timed<(K, (A, B))>>, k: K, item: B, ts: int)
    requires Holds(b, round, done, left, right, seen, ended, out, buffer) && !ended && seen <= ts <= MAX
    ensures Holds(b, round + [(ts, (k, RightItem(item)))], done, left, right[k := Bucket(right, k) + [(ts, item)]],
      ts, ended, out, buffer)
  {
    SidesAppend(round, ts, k, RightItem(item));
    RightArrives(b, done, left, RightsOf(round), right, seen, out + buffer, k, (ts, item));
  }

  lemma TakeTime<K(!new), A(!new), B(!new)>(
      b: Bounds, round: Round<K, A, B>, done: seq<Timed<(K, A)>>, left: seq<Timed<(K, A)>>,
      right: map<K, seq<Timed<B>>>,
      seen: int, ended: bool, out: seq<Timed<(K, (A, B))>>, buffer: seq<Timed<(K, (A, B))>>, ts: int, ended': bool)
    requires Holds(b, round, done, left, right, seen, ended, out, buffer) && !ended && seen <= ts <= MAX
    ensures Holds(b, round, done, left, right, ts, ended', out, buffer)
  {
    TimePasses(b, done, left, RightsOf(round), right, seen, out + buffer, ts, ended');
  }

  lemma JoinFirst<K(!new), A(!new), B(!new)>(
      b: Bounds, round: Round<K, A, B>, done: seq<Timed<(K, A)>>, left: seq<Timed<(K, A)>>,
      right: map<K, seq<Timed<B>>>,
      seen: int, ended: bool, out: seq<Timed<(K, (A, B))>>, buffer: seq<Timed<(K, (A, B))>>,
      right': map<K, seq<Timed<B>>>, matches: seq<Timed<B>>)
    requires Holds(b, round, done, left, right, seen, ended, out, buffer) && b.Valid() && left != []
    requires ended || UpperLimit(b, left[0].0) < seen
    requires right' == Evicted(right, left[0].1.0, LowerLimit(b, left[0].0)) &&
      matches == TakeUpto(Bucket(right', left[0].1.0), UpperLimit(b, left[0].0))
    ensures Holds(b, round, done + [left[0]], left[1..], right', seen, ended, out,
      buffer + Tuples(left[0].0, left[0].1.0, left[0].1.1, matches))
  {
    LeftIsDone(b, done, left, RightsOf(round), right, seen, ended, out + buffer, right', matches);
    MoveFirst(done, left);
    var tuples := Tuples(left[0].0, left[0].1.0, left[0].1.1, matches);
    assert (out + buffer) + tuples == out + (buffer + tuples);
  }

  lemma ClearRight<K(!new), A(!new), B(!new)>(
      b: Bounds, round: Round<K, A, B>, done: seq<Timed<(K, A)>>, left: seq<Timed<(K, A)>>,
      right: map<K, seq<Timed<B>>>,
      seen: int, ended: bool, out: seq<Timed<(K, (A, B))>>, buffer: seq<Timed<(K, (A, B))>>)
    requires Holds(b, round, done, left, right, seen, ended, out, buffer) && ended && left == []
    ensures Holds(b, round, done, left, map[], seen, ended, out, buffer)
  {
  }

  lemma SendTuple<K(!new), A(!new), B(!new)>(
      b: Bounds, round: Round<K, A, B>, done: seq<Timed<(K, A)>>, left: seq<Timed<(K, A)>>,
      right: map<K, seq<Timed<B>>>,
      seen: int, ended: bool, out: seq<Timed<(K, (A, B))>>, buffer: seq<Timed<(K, (A, B))>>)
    requires Holds(b, round, done, left, right, seen, ended, out, buffer) && buffer != []
    ensures Holds(b, round, done, left, right, seen, ended, out + [buffer[0]], buffer[1..])
  {
    MoveFirst(out, buffer);
  }

  /** With nothing left to do, all the pairs of the round are out. */
  lemma RoundIsJoined<K(!new), A(!new), B(!new)>(
      b: Bounds, round: Round<K, A, B>, done: seq<Timed<(K, A)>>, left: seq<Timed<(K, A)>>,
      right: map<K, seq<Timed<B>>>,
      seen: int, ended: bool, out: seq<Timed<(K, (A, B))>>, buffer: seq<Timed<(K, (A, B))>>)
    requires Holds(b, round, done, left, right, seen, ended, out, buffer) && left == [] && buffer == []
    ensures out == Pairs(b, LeftsOf(round), RightsOf(round))
  {
    assert done + left == done && out + buffer == out;
  }

  lemma StartsAfresh<K(!new), A(!new), B(!new)>(b: Bounds, left: seq<Timed<(K, A)>>, right: map<K, seq<Timed<B>>>,
      out: seq<Timed<(K, (A, B))>>, buffer: seq<Timed<(K, (A, B))>>)
    requires left == [] && right == map[] && out == [] && buffer == []
    ensures Holds(b, [], [], left, right, 0, false, out, buffer)
  {
  }

  /** `got` was received and `sent` was emitted; the round has been received in part, or ended. */
  ghost predicate Tracks<K(!new), A(!new), B(!new)>(b: Bounds, got: Flow<(K, Merged<A, B>)>, sent: Flow<(K, (A, B))>,
      round: Round<K, A, B>,
      seen: int, ended: bool) {
    && got.ordered
    && JoinedRounds(b, got.rounds, sent.rounds, if ended then 1 else 0)
    && (if ended then got.rounds[|sent.rounds|] == round && got.current == [] && got.last == MIN
      else got.current == round && seen == if got.last < 0 then 0 else got.last)
    && Signals(got.others) == if ended then Signals(sent.others) + [FlushAndRestart] else Signals(sent.others)
  }

  lemma TrackTime<K(!new), A(!new), B(!new)>(b: Bounds, got: Flow<(K, Merged<A, B>)>, sent: Flow<(K, (A, B))>,
      round: Round<K, A, B>,
      seen: int, ended: bool, e: StreamElement<(K, Merged<A, B>)>)
    requires Tracks(b, got, sent, round, seen, ended) && !ended && HasTime(e) && Then(got, e).ordered && 0 <= e.ts
    ensures Tracks(b, Then(got, e), sent, Then(got, e).current, e.ts, ended)
  {
    SignalsAppend(got.others, e);
  }

  lemma TrackEnd<K(!new), A(!new), B(!new)>(b: Bounds, got: Flow<(K, Merged<A, B>)>, sent: Flow<(K, (A, B))>,
      round: Round<K, A, B>,
      seen: int, ended: bool)
    requires Tracks(b, got, sent, round, seen, ended) && !ended
    ensures Tracks(b, Then(got, FlushAndRestart), sent, round, seen, true)
  {
    SignalsAppend(got.others, FlushAndRestart);
    forall i | 0 <= i < |sent.rounds| ensures IsJoined(b, got.rounds + [round], sent.rounds, i) {
      JoinedPrefix(b, got.rounds, sent.rounds, got.rounds + [round], sent.rounds, i);
    }
  }

  lemma TrackOther<K(!new), A(!new), B(!new)>(b: Bounds, got: Flow<(K, Merged<A, B>)>, sent: Flow<(K, (A, B))>,
      round: Round<K, A, B>,
      seen: int, ended: bool, e: StreamElement<(K, Merged<A, B>)>, e': StreamElement<(K, (A, B))>)
    requires Tracks(b, got, sent, round, seen, ended) && !ended
    requires (e.FlushBatch? && e'.FlushBatch?) || (e.Terminate? && e'.Terminate?)
    ensures Tracks(b, Then(got, e), Then(sent, e'), round, seen, ended) && Then(sent, e').current == sent.current
  {
    SignalsAppend(got.others, e);
    SignalsAppend(sent.others, e');
  }

  /** The pairs of the round are out. */
  lemma TrackRestart<K(!new), A(!new), B(!new)>(b: Bounds, got: Flow<(K, Merged<A, B>)>, sent: Flow<(K, (A, B))>,
      round: Round<K, A, B>,
      seen: int, ended: bool)
    requires Tracks(b, got, sent, round, seen, ended) && ended &&
      sent.current == Pairs(b, LeftsOf(round), RightsOf(round))
    ensures Tracks(b, got, Then(sent, FlushAndRestart), [], 0, false)
  {
    SignalsAppend(sent.others, FlushAndRestart);
    JoinedMore(b, got.rounds, sent.rounds, sent.current);
  }

  lemma JoinedMore<K(!new), A(!new), B(!new)>(b: Bounds, input: seq<Round<K, A, B>>,
      output: seq<seq<Timed<(K, (A, B))>>>, out: seq<Timed<(K, (A, B))>>)
    requires JoinedRounds(b, input, output, 1) && out == Pairs(b, LeftsOf(input[|output|]), RightsOf(input[|output|]))
    ensures JoinedRounds(b, input, output + [out], 0)
  {
    forall i | 0 <= i < |output + [out]| ensures IsJoined(b, input, output + [out], i) {
      if i < |output| { JoinedPrefix(b, input, output, input, output + [out], i); }
    }
  }

  lemma NextRound<K(!new), A(!new), B(!new)>(
      b: Bounds, got: Flow<(K, Merged<A, B>)>, sent: Flow<(K, (A, B))>, round: Round<K, A, B>, done: seq<Timed<(K, A)>>,
      left: seq<Timed<(K, A)>>, right: map<K, seq<Timed<B>>>, seen: int, ended: bool, buffer: seq<Timed<(K, (A, B))>>)
    requires Holds(b, round, done, left, right, seen, ended, sent.current, buffer) &&
      Tracks(b, got, sent, round, seen, ended)
    requires ended && left == [] && right == map[] && buffer == []
    ensures Holds(b, [], [], left, right, 0, false, Then(sent, FlushAndRestart).current, buffer)
    ensures Tracks(b, got, Then(sent, FlushAndRestart), [], 0, false)
  {
    RoundIsJoined(b, round, done, left, right, seen, ended, sent.current, buffer);
    TrackRestart(b, got, sent, round, seen, ended);
    StartsAfresh(b, left, right, Then(sent, FlushAndRestart).current, buffer);
  }

  // The operator -----------------------------------------------------------------------------------

  /** Only timestamped items are joined, from time 0 on, and the limits of the left ones must fit. */
  predicate Accepts<K, A, B>(b: Bounds, e: StreamElement<(K, Merged<A, B>)>) {
    !e.Item? && (HasTime(e) ==> CanCome(e.ts)) && (e.Timestamped? && e.value.1.LeftItem? ==> Fits(b, e.ts))
  }

  lemma NextIsAccepted<K, A, B>(b: Bounds, input: seq<StreamElement<(K, Merged<A, B>)>>, received: nat)
    requires EndsWithTerminate(input) && IsOrdered(input) && received < |input| &&
      forall e :: e in input ==> Accepts(b, e)
    ensures FlowOf(input[..received + 1]) == Then(FlowOf(input[..received]), input[received])
    ensures Then(FlowOf(input[..received]), input[received]).ordered && Accepts(b, input[received])
    ensures if input[received].Terminate? then input[..received + 1] == input else received + 1 < |input|
  {
    NextOf(input, received);
    assert input[received] in input;
  }

  method DropEarly<B>(items: seq<Timed<B>>, lo: int) returns (rest: seq<Timed<B>>)
    ensures rest == DropBelow(items, lo)
  {
    rest := items;
    while rest != [] && rest[0].0 < lo
      invariant DropBelow(rest, lo) == DropBelow(items, lo)
      decreases |rest|
    {
      rest := rest[1..];
    }
  }

  method TakeEarly<B>(items: seq<Timed<B>>, hi: int) returns (taken: seq<Timed<B>>)
    ensures taken == TakeUpto(items, hi)
  {
    taken := [];
    var rest := items;
    while rest != [] && rest[0].0 <= hi
      invariant taken + TakeUpto(rest, hi) == TakeUpto(items, hi)
      decreases |rest|
    {
      taken, rest := taken + [rest[0]], rest[1..];
    }
  }

  method MakeTuples<K, A, B>(ts: int, k: K, a: A, matches: seq<Timed<B>>) returns (tuples: seq<Timed<(K, (A, B))>>)
    ensures tuples == Tuples(ts, k, a, matches)
  {
    tuples := [];
    for i := 0 to |matches|
      invariant tuples == Tuples(ts, k, a, matches[..i])
    {
      var (q, item) := matches[i];
      tuples := tuples + [(if q >= ts then q else ts, (k, (a, item)))];
      assert matches[..i + 1][..i] == matches[..i];
    }
    assert matches[..|matches|] == matches;
  }

  class IntervalJoin<K(==, !new), A(!new), B(!new)> {
    const bounds: Bounds
    const input: seq<StreamElement<(K, Merged<A, B>)>>   // what the previous operator emits
    var received: nat
    var left: seq<Timed<(K, A)>>
    var right: map<K, seq<Timed<B>>>
    var buffer: seq<Timed<(K, (A, B))>>
    var lastSeen: int
    var receivedRestart: bool
    ghost var round: Round<K, A, B>                      // what was received in this round
    ghost var done: seq<Timed<(K, A)>>                   // its left items that are joined
    ghost var got: Flow<(K, Merged<A, B>)>               // what was received
    ghost var sent: Flow<(K, (A, B))>                    // what was emitted

    constructor (bounds: Bounds, input: seq<StreamElement<(K, Merged<A, B>)>>)
      requires bounds.Valid() && EndsWithTerminate(input) && IsOrdered(input) && forall e :: e in input ==>
        Accepts(bounds, e)
      ensures Valid() && this.bounds == bounds && this.input == input && sent == Nothing() && received == 0
    {
      this.bounds, this.input, received := bounds, input, 0;
      left, right, buffer, lastSeen, receivedRestart := [], map[], [], 0, false;
      round, done, got, sent := [], [], Nothing(), Nothing();
      StartsAfresh<K, A, B>(bounds, [], map[], [], []);
    }

    ghost predicate Valid()
      reads this
    {
      && bounds.Valid() && EndsWithTerminate(input) && IsOrdered(input) &&
        (forall e :: e in input ==> Accepts(bounds, e))
      && received < |input| && got == FlowOf(input[..received])
      && Joins() && Tracks(bounds, got, sent, round, lastSeen, receivedRestart)
      && (receivedRestart ==> left == [] && right == map[])
    }

    ghost predicate Joins()
      reads this
    {
      Holds(bounds, round, done, left, right, lastSeen, receivedRestart, sent.current, buffer)
    }

    /** Everything was received and emitted. */
    ghost predicate Ended()
      reads this
    {
      got == FlowOf(input) && !receivedRestart && Tracks(bounds, got, sent, round, lastSeen, receivedRestart)
    }

    /** Join the left items for which no more matches can come. */
    method Advance()
      requires bounds.Valid() && Joins()
      modifies this`left, this`right, this`buffer, this`done
      ensures Joins() && (receivedRestart ==> left == [] && right == map[])
    {
      while left != []
        invariant Joins()
        decreases |left|
      {
        if UpperLimit(bounds, left[0].0) >= lastSeen && !receivedRestart { return; }
        JoinFront();
      }
      if receivedRestart {
        ClearRight(bounds, round, done, left, right, lastSeen, receivedRestart, sent.current, buffer);
        right := map[];
      }
    }

    method JoinFront()
      requires bounds.Valid() && Joins() && left != [] && (receivedRestart || UpperLimit(bounds, left[0].0) < lastSeen)
      modifies this`left, this`right, this`buffer, this`done
      ensures Joins() && left == old(left)[1..]
    {
      var ts, k, a := left[0].0, left[0].1.0, left[0].1.1;
      var right', tuples, matches := right, [], [];
      if k in right {
        var rest := DropEarly(right[k], LowerLimit(bounds, ts));
        right' := right[k := rest];
        matches := TakeEarly(rest, UpperLimit(bounds, ts));
        tuples := MakeTuples(ts, k, a, matches);
      }
      JoinFirst(bounds, round, done, left, right, lastSeen, receivedRestart, sent.current, buffer, right', matches);
      done := done + [left[0]];
      left, right, buffer := left[1..], right', buffer + tuples;
    }

    /** An item or a watermark; its time is not before the last one. */
    method Store(e: StreamElement<(K, Merged<A, B>)>)
      requires Joins() && !receivedRestart && HasTime(e) && lastSeen <= e.ts <= MAX && Accepts(bounds, e)
      modifies this`left, this`right, this`lastSeen, this`round
      ensures Joins() && lastSeen == e.ts
      ensures round == if e.Timestamped? then old(round) + [(e.ts, e.value)] else old(round)
    {
      match e {
        case Timestamped((k, LeftItem(a)), ts) =>
          TakeLeft(bounds, round, done, left, right, lastSeen, receivedRestart, sent.current, buffer, k, a, ts);
          left, round := left + [(ts, (k, a))], round + [(ts, (k, LeftItem(a)))];
        case Timestamped((k, RightItem(item)), ts) =>
          TakeRight(bounds, round, done, left, right, lastSeen, receivedRestart, sent.current, buffer, k, item, ts);
          right, round := right[k := Bucket(right, k) + [(ts, item)]], round + [(ts, (k, RightItem(item)))];
        case Watermark(ts) =>
          TakeTime(bounds, round, done, left, right, lastSeen, receivedRestart, sent.current, buffer, ts, false);
      }
      lastSeen := e.ts;
    }

    /** Receive an element: those without time are forwarded, but for the end of the round. */
    method Receive() returns (e: Option<StreamElement<(K, (A, B))>>)
      requires Valid() && buffer == [] && !receivedRestart
      modifies this
      ensures received == old(received) + 1
      ensures e == Some(Terminate) || Valid()
      ensures e == Some(Terminate) ==> Ended()
      ensures sent == if e.None? then old(sent) else Then(old(sent), e.value)
    {
      var next := input[received];
      NextIsAccepted(bounds, input, received);
      received := received + 1;
      e := HandleAndAdvance(next);
    }

    method HandleAndAdvance(next: StreamElement<(K, Merged<A, B>)>) returns (e: Option<StreamElement<(K, (A, B))>>)
      requires bounds.Valid() && Joins() && Tracks(bounds, got, sent, round, lastSeen, receivedRestart)
      requires !receivedRestart && Then(got, next).ordered && Accepts(bounds, next)
      modifies this
      ensures Tracks(bounds, got, sent, round, lastSeen, receivedRestart) && Joins() && got == Then(old(got), next)
      ensures received == old(received) && (receivedRestart ==> left == [] && right == map[])
      ensures e == Some(Terminate) <==> next.Terminate?
      ensures e.Some? ==> !receivedRestart
      ensures sent == if e.None? then old(sent) else Then(old(sent), e.value)
    {
      e := Handle(next);
      if e.None? { Advance(); }
    }

    method Handle(next: StreamElement<(K, Merged<A, B>)>) returns (e: Option<StreamElement<(K, (A, B))>>)
      requires Joins() && Tracks(bounds, got, sent, round, lastSeen, receivedRestart) && !receivedRestart
      requires Then(got, next).ordered && Accepts(bounds, next)
      modifies this`left, this`right, this`lastSeen, this`round, this`receivedRestart, this`got, this`sent
      ensures Tracks(bounds, got, sent, round, lastSeen, receivedRestart) && Joins() && got == Then(old(got), next)
      ensures if next.FlushBatch? || next.Terminate?
        then e.Some? && e.value.Terminate? == next.Terminate? && !receivedRestart else e.None?
      ensures sent == if e.None? then old(sent) else Then(old(sent), e.value)
    {
      e := None;
      match next {
        case Timestamped(_, ts) => Hear(next);
        case Watermark(ts) => Hear(next);
        case FlushAndRestart => EndRound();
        case FlushBatch => Forward(next, FlushBatch); e := Some(FlushBatch);
        case Terminate => Forward(next, Terminate); e := Some(Terminate);
      }
    }

    method Hear(e: StreamElement<(K, Merged<A, B>)>)
      requires Joins() && Tracks(bounds, got, sent, round, lastSeen, receivedRestart) && !receivedRestart
      requires HasTime(e) && Then(got, e).ordered && Accepts(bounds, e)
      modifies this`left, this`right, this`lastSeen, this`round, this`got
      ensures Tracks(bounds, got, sent, round, lastSeen, receivedRestart) && Joins() && got == Then(old(got), e)
    {
      TrackTime(bounds, got, sent, round, lastSeen, receivedRestart, e);
      assert e.ts >= lastSeen;
      Store(e);
      got := Then(got, e);
    }

    method EndRound()
      requires Joins() && Tracks(bounds, got, sent, round, lastSeen, receivedRestart) && !receivedRestart
      modifies this`receivedRestart, this`got
      ensures Tracks(bounds, got, sent, round, lastSeen, receivedRestart) && Joins() &&
        got == Then(old(got), FlushAndRestart)
    {
      TrackEnd(bounds, got, sent, round, lastSeen, receivedRestart);
      TakeTime(bounds, round, done, left, right, lastSeen, receivedRestart, sent.current, buffer, lastSeen, true);
      receivedRestart, got := true, Then(got, FlushAndRestart);
    }

    ghost method Forward(e: StreamElement<(K, Merged<A, B>)>, e': StreamElement<(K, (A, B))>)
      requires Joins() && Tracks(bounds, got, sent, round, lastSeen, receivedRestart) && !receivedRestart
      requires (e.FlushBatch? && e'.FlushBatch?) || (e.Terminate? && e'.Terminate?)
      modifies this`got, this`sent
      ensures Tracks(bounds, got, sent, round, lastSeen, receivedRestart) && Joins()
      ensures got == Then(old(got), e) && sent == Then(old(sent), e')
    {
      TrackOther(bounds, got, sent, round, lastSeen, receivedRestart, e, e');
      got, sent := Then(got, e), Then(sent, e');
    }

    method Pop() returns (e: StreamElement<(K, (A, B))>)
      requires Valid() && buffer != []
      modifies this`buffer, this`sent
      ensures Valid() && buffer == old(buffer)[1..] && e.Timestamped? && sent == Then(old(sent), e)
    {
      SendTuple(bounds, round, done, left, right, lastSeen, receivedRestart, sent.current, buffer);
      e := Timestamped(buffer[0].1, buffer[0].0);
      buffer, sent := buffer[1..], Then(sent, e);
    }

    method Restart()
      requires Joins() && Tracks(bounds, got, sent, round, lastSeen, receivedRestart)
      requires buffer == [] && receivedRestart && left == [] && right == map[]
      modifies this`lastSeen, this`receivedRestart, this`round, this`done, this`sent
      ensures Tracks(bounds, got, sent, round, lastSeen, receivedRestart) && Joins()
      ensures !receivedRestart && sent == Then(old(sent), FlushAndRestart)
    {
      NextRound(bounds, got, sent, round, done, left, right, lastSeen, receivedRestart, buffer);
      lastSeen, receivedRestart, round, done, sent := 0, false, [], [], Then(sent, FlushAndRestart);
      assert Joins();
    }

    method Finish()
      requires Valid() && buffer == [] && receivedRestart
      modifies this`lastSeen, this`receivedRestart, this`round, this`done, this`sent
      ensures Valid() && !receivedRestart && sent == Then(old(sent), FlushAndRestart)
    {
      Restart();
    }

    method Next() returns (e: StreamElement<(K, (A, B))>)
      requires Valid()
      modifies this
      ensures e.Terminate? || Valid()
      ensures e.Terminate? ==> Ended()
      ensures sent == Then(old(sent), e)
      ensures received > old(received) || (received == old(received) && |buffer| < old(|buffer|)) ||
              (received == old(received) && |buffer| == old(|buffer|) && !receivedRestart && old(receivedRestart))
    {
      while buffer == []
        invariant Valid() && sent == old(sent)
        invariant received > old(received) || (received == old(received) && buffer == old(buffer) &&
          receivedRestart == old(receivedRestart))
        decreases |input| - received
      {
        if receivedRestart {
          Finish();
          return FlushAndRestart;
        }
        var next := Receive();
        if next.Some? { return next.value; }
      }
      e := Pop();
    }
  }

  method Drain<K(==, !new), A(!new), B(!new)>(join: IntervalJoin<K, A, B>)
    returns (output: seq<StreamElement<(K, (A, B))>>)
    requires join.Valid() && join.sent == Nothing()
    modifies join
    ensures join.Ended() && join.sent == FlowOf(output) && EndsWithTerminate(output)
  {
    output := [];
    while true
      invariant join.Valid() && join.sent == FlowOf(output) && NoneTerminates(output)
      decreases |join.input| - join.received, |join.buffer|, join.receivedRestart
    {
      var e := join.Next();
      FlowAppend(output, e);
      NoneTerminatesAppend(output, e);
      output := output + [e];
      if e.Terminate? { return; }
    }
  }

  /**
    A whole stream in the order of time: every round becomes its pairs, and the other elements but for
    the watermarks are forwarded. The assertions of the operator never fail.
   */
  method RunIntervalJoin<K(==, !new), A(!new), B(!new)>(bounds: Bounds, input: seq<StreamElement<(K, Merged<A, B>)>>)
    returns (output: seq<StreamElement<(K, (A, B))>>)
    requires bounds.Valid() && EndsWithTerminate(input) && IsOrdered(input) && forall e :: e in input ==>
      Accepts(bounds, e)
    ensures JoinedRounds(bounds, TimedRounds(input), TimedRounds(output), 0)
    ensures Signals(Others(output)) == Signals(Others(input)) && EndsWithTerminate(output)
  {
    var join := new IntervalJoin(bounds, input);
    output := Drain(join);
  }
}
