/**
  Streams with timestamps and watermarks.
  A stream is summed up by what has flowed so far: the timestamped items of its rounds, the other
  elements, and whether its watermarks are honoured and its timestamps increase. All of them are kept up
  element by element.
 */
module TimedStreams {
  import opened Streams
  import opened Keyed

  const MIN := -0x8000_0000_0000_0000
  const MAX := 0x7FFF_FFFF_FFFF_FFFF

  /** An item with its timestamp. */
  type Timed<+T> = (int, T)

  function ByTime(): Order<int> { Order((a: int, b: int) => a <= b) }

  lemma ByTimeIsTotal()
    ensures IsTotal(ByTime())
  {
  }

  predicate IsTimestamp(ts: int) { MIN <= ts <= MAX }

  /** What has flowed so far. */
  datatype Flow<+T> = Flow(
    rounds: seq<seq<Timed<T>>>,       // the timestamped items of the complete rounds
    current: seq<Timed<T>>,           // and those of the last one
    others: seq<StreamElement<T>>,    // all that is not a timestamped item
    last: int,                        // the last timestamp of the round
    mark: int,                        // the last watermark of the round
    timed: bool,                      // the watermarks of a round do not fall, and no item is below the last one
    ordered: bool,                    // no timestamp of a round is below the one before it
    honoured: bool)                   // every item of a round is above all the watermarks before it

  function Nothing<T>(): Flow<T> { Flow([], [], [], MIN, MIN - 1, true, true, true) }

  predicate HasTime<T>(e: StreamElement<T>) { e.Timestamped? || e.Watermark? }

  function Then<T>(f: Flow<T>, e: StreamElement<T>): Flow<T> {
    Flow(
      if e.FlushAndRestart? then f.rounds + [f.current] else f.rounds,
      if e.FlushAndRestart? then [] else if e.Timestamped? then f.current + [(e.ts, e.value)] else f.current,
      if e.Timestamped? then f.others else f.others + [e],
      if e.FlushAndRestart? then MIN else if HasTime(e) then e.ts else f.last,
      if e.FlushAndRestart? then MIN - 1 else if e.Watermark? then e.ts else f.mark,
      f.timed && (HasTime(e) ==> IsTimestamp(e.ts) && f.mark <= e.ts),
      f.ordered && (HasTime(e) ==> IsTimestamp(e.ts) && f.last <= e.ts),
      f.honoured && (e.Timestamped? ==> f.mark < e.ts))
  }

  function FlowOf<T>(s: seq<StreamElement<T>>): Flow<T> {
    if s == [] then Nothing() else Then(FlowOf(s[..|s| - 1]), s[|s| - 1])
  }

  function TimedRounds<T>(s: seq<StreamElement<T>>): seq<seq<Timed<T>>> { FlowOf(s).rounds }

  function Others<T>(s: seq<StreamElement<T>>): seq<StreamElement<T>> { FlowOf(s).others }

  predicate IsTimed<T>(s: seq<StreamElement<T>>) { FlowOf(s).timed }

  predicate IsOrdered<T>(s: seq<StreamElement<T>>) { FlowOf(s).ordered }

  /** The contract of watermarks: after one of time t, no item of a time less than or equal to t. */
  predicate HonoursWatermarks<T>(s: seq<StreamElement<T>>) { FlowOf(s).honoured }

  predicate NoneTerminates<T>(s: seq<StreamElement<T>>) {
    s == [] || (!s[|s| - 1].Terminate? && NoneTerminates(s[..|s| - 1]))
  }

  /** A stream ends with its only Terminate. */
  predicate EndsWithTerminate<T>(s: seq<StreamElement<T>>) {
    s != [] && s[|s| - 1].Terminate? && NoneTerminates(s[..|s| - 1])
  }

  lemma {:induction false} NoneTerminatesAt<T>(s: seq<StreamElement<T>>, i: nat)
    requires NoneTerminates(s) && i < |s|
    ensures !s[i].Terminate?
  {
    if i < |s| - 1 { NoneTerminatesAt(s[..|s| - 1], i); }
  }

  lemma TerminatesAtEnd<T>(s: seq<StreamElement<T>>, i: nat)
    requires EndsWithTerminate(s) && i < |s|
    ensures s[i].Terminate? <==> i == |s| - 1
  {
    if i < |s| - 1 { NoneTerminatesAt(s[..|s| - 1], i); }
  }

  lemma NoneTerminatesAppend<T>(s: seq<StreamElement<T>>, e: StreamElement<T>)
    requires NoneTerminates(s)
    ensures if e.Terminate? then EndsWithTerminate(s + [e]) else NoneTerminates(s + [e])
  {
    assert (s + [e])[..|s|] == s;
  }

  lemma FlowAppend<T>(s: seq<StreamElement<T>>, e: StreamElement<T>)
    ensures FlowOf(s + [e]) == Then(FlowOf(s), e)
  {
    assert (s + [e])[..|s|] == s;
  }

  lemma {:induction false} FlowGrows<T>(s: seq<StreamElement<T>>, i: nat)
    requires i <= |s|
    ensures FlowOf(s[..i]).rounds <= FlowOf(s).rounds && (FlowOf(s).timed ==> FlowOf(s[..i]).timed) &&
      (FlowOf(s).ordered ==> FlowOf(s[..i]).ordered) && (FlowOf(s).honoured ==> FlowOf(s[..i]).honoured)
  {
    if i < |s| {
      var n := |s| - 1;
      FlowGrows(s[..n], i);
      assert s[..n][..i] == s[..i];
    } else {
      assert s[..i] == s;
    }
  }

  /** One more element of a stream. */
  lemma FlowNext<T>(s: seq<StreamElement<T>>, i: nat)
    requires i < |s|
    ensures FlowOf(s[..i + 1]) == Then(FlowOf(s[..i]), s[i])
  {
    assert s[..i + 1] == s[..i] + [s[i]];
    FlowAppend(s[..i], s[i]);
  }

  /** The next element of a stream. */
  lemma NextOf<T>(input: seq<StreamElement<T>>, received: nat)
    requires EndsWithTerminate(input) && received < |input|
    ensures FlowOf(input[..received + 1]) == Then(FlowOf(input[..received]), input[received])
    ensures IsTimed(input) ==> Then(FlowOf(input[..received]), input[received]).timed
    ensures IsOrdered(input) ==> Then(FlowOf(input[..received]), input[received]).ordered
    ensures if input[received].Terminate? then input[..received + 1] == input else received + 1 < |input|
  {
    FlowNext(input, received);
    TerminatesAtEnd(input, received);
    FlowGrows(input, received + 1);
  }

  /** The items of the round, whose end may have been received. */
  ghost function RoundOf<T>(got: Flow<T>, receivedEnd: bool): seq<Timed<T>> {
    if receivedEnd && got.rounds != [] then got.rounds[|got.rounds| - 1] else got.current
  }

  // Sorting by time --------------------------------------------------------------------------------

  /** An item that is not earlier than any in front of it is inserted behind them. */
  lemma {:induction false} InsertBehind<T>(front: seq<Timed<T>>, s: seq<Timed<T>>, x: Timed<T>)
    requires forall i :: 0 <= i < |front| ==> front[i].0 <= x.0
    ensures Insert(ByTime(), front + s, x) == front + Insert(ByTime(), s, x)
  {
    if s == [] {
      assert front + s == front;
      assert Insert(ByTime(), s, x) == [x];
    } else if s[|s| - 1].0 <= x.0 {
      assert (front + s) + [x] == front + (s + [x]);
    } else {
      var n := |s| - 1;
      assert (front + s)[..|front| + n] == front + s[..n];
      InsertBehind(front, s[..n], x);
      assert (front + Insert(ByTime(), s[..n], x)) + [s[n]] == front + (Insert(ByTime(), s[..n], x) + [s[n]]);
    }
  }

  lemma {:induction false} SortSorted<T>(s: seq<Timed<T>>)
    requires Sorted(ByTime(), s)
    ensures Sort(ByTime(), s) == s
  {
    if s != [] {
      var n := |s| - 1;
      SortSorted(s[..n]);
      assert n > 0 ==> ByTime().Le(s[n - 1].0, s[n].0);
      assert s == s[..n] + [s[n]];
    }
  }

  lemma SortAppend<T>(s: seq<Timed<T>>, x: Timed<T>)
    ensures Sort(ByTime(), s + [x]) == Insert(ByTime(), Sort(ByTime(), s), x)
  {
    assert (s + [x])[..|s|] == s;
  }

  lemma {:induction false} SortPermutes<K, V>(o: Order<K>, s: seq<(K, V)>)
    ensures multiset(Sort(o, s)) == multiset(s)
  {
    if s != [] {
      var n := |s| - 1;
      SortPermutes(o, s[..n]);
      InsertPermutes(o, Sort(o, s[..n]), s[n]);
      assert s == s[..n] + [s[n]];
    }
  }

  lemma {:induction false} InsertPermutes<K, V>(o: Order<K>, s: seq<(K, V)>, x: (K, V))
    ensures multiset(Insert(o, s, x)) == multiset(s) + multiset{x}
  {
    if s != [] && !o.Le(s[|s| - 1].0, x.0) {
      var n := |s| - 1;
      InsertPermutes(o, s[..n], x);
      assert s == s[..n] + [s[n]];
    }
  }

  lemma MoveFirst<T>(a: seq<T>, b: seq<T>)
    requires b != []
    ensures a + b == (a + [b[0]]) + b[1..]
  {
  }
}
