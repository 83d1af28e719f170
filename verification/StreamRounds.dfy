/**
  The rounds of a stream by the places of its elements.
  The other modules take streams apart from the front or from the end, one element at a time.  Here it is
  said what they get: which elements are in which round, and what it means for their times to be in order.
 */
module StreamRounds {
  import opened Streams
  import opened TimedStreams
  import opened KeyedFold
  import opened GroupBy
  import Joins = JoinSpec

  // Chosen elements --------------------------------------------------------------------------------

  predicate IsAt<T(==)>(s: seq<Option<T>>, i: nat, x: T) { i < |s| && s[i] == Some(x) }

  /** All the values there are, with their places from left to right. */
  ghost predicate AreChosen<T>(s: seq<Option<T>>, chosen: seq<T>, at: seq<nat>) {
    && |chosen| == |at|
    && (forall m {:trigger at[m]} :: 0 <= m < |at| ==> IsAt(s, at[m], chosen[m]))
    && (forall m, m' {:trigger at[m], at[m']} :: 0 <= m < m' < |at| ==> at[m] < at[m'])
    && forall i: nat {:trigger s[i]} :: i < |s| && s[i].Some? ==> i in at
  }

  lemma MoreChosen<T>(s: seq<Option<T>>, chosen: seq<T>, at: seq<nat>, x: Option<T>)
    requires AreChosen(s, chosen, at)
    ensures if x.None? then AreChosen(s + [x], chosen, at) else AreChosen(s + [x], chosen + [x.value], at + [|s|])
  {
    var s' := s + [x];
    var chosen', at' := if x.None? then chosen else chosen + [x.value], if x.None? then at else at + [|s|];
    forall m | 0 <= m < |at'| ensures IsAt(s', at'[m], chosen'[m]) {
      if m < |at| { assert IsAt(s, at[m], chosen[m]); }
    }
    forall m, m' | 0 <= m < m' < |at'| ensures at'[m] < at'[m'] { assert IsAt(s, at[m], chosen[m]); }
    forall i: nat | i < |s'| && s'[i].Some? ensures i in at' {
      if i < |s| { assert s[i].Some? && i in at; } else { assert at'[|at|] == i; }
    }
  }

  function PlainOf<T>(e: StreamElement<T>): Option<T> { if e.Item? then Some(e.value) else None }

  function TimedOf<T>(e: StreamElement<T>): Option<Timed<T>> { if e.Timestamped? then Some((e.ts, e.value)) else None }

  function OtherOf<T>(e: StreamElement<T>): Option<StreamElement<T>> { if e.Timestamped? then None else Some(e) }

  function Each<T, U>(s: seq<T>, f: T -> U): (made: seq<U>)
    ensures |made| == |s| && forall i :: 0 <= i < |s| ==> made[i] == f(s[i])
  {
    seq(|s|, i requires 0 <= i < |s| => f(s[i]))
  }

  lemma EachAppend<T, U>(s: seq<T>, f: T -> U, x: T)
    ensures Each(s + [x], f) == Each(s, f) + [f(x)]
  {
  }

  /** Exactly the elements the function keeps, in their order. */
  ghost predicate AreKept<T, U>(s: seq<T>, f: T -> Option<U>, kept: seq<U>) {
    exists at :: AreChosen(Each(s, f), kept, at)
  }

  lemma NothingKept<T, U>(f: T -> Option<U>)
    ensures AreKept<T, U>([], f, [])
  {
    assert AreChosen(Each([], f), [], []);
  }

  lemma MoreKept<T, U>(s: seq<T>, f: T -> Option<U>, kept: seq<U>, x: T)
    requires AreKept(s, f, kept)
    ensures AreKept(s + [x], f, if f(x).None? then kept else kept + [f(x).value])
  {
    var at :| AreChosen(Each(s, f), kept, at);
    EachAppend(s, f, x);
    MoreChosen(Each(s, f), kept, at, f(x));
  }

  // The rounds -------------------------------------------------------------------------------------

  predicate HasNoEnd<T>(chunk: seq<StreamElement<T>>) {
    forall m :: 0 <= m < |chunk| ==> !chunk[m].FlushAndRestart?
  }

  function Ended<T>(rounds: seq<seq<StreamElement<T>>>): (ended: seq<seq<StreamElement<T>>>)
    ensures |ended| == |rounds| && forall i :: 0 <= i < |rounds| ==> ended[i] == rounds[i] + [FlushAndRestart]
  {
    seq(|rounds|, i requires 0 <= i < |rounds| => rounds[i] + [FlushAndRestart])
  }

  /** The rounds, each with its end, and the rest of the stream are the stream; and there is no other end. */
  predicate IsSplit<T(==)>(c: Chunks<T>, s: seq<StreamElement<T>>) {
    && Flatten(Ended(c.rounds)) + c.current == s
    && (forall i {:trigger c.rounds[i]} :: 0 <= i < |c.rounds| ==> HasNoEnd(c.rounds[i])) && HasNoEnd(c.current)
  }

  lemma {:induction false} ChunksAreStream<T>(s: seq<StreamElement<T>>)
    requires NoneTerminates(s)
    ensures IsSplit(ChunksOf(s), s)
  {
    if s != [] {
      var n := |s| - 1;
      assert s == s[..n] + [s[n]];
      ChunksAreStream(s[..n]);
      SplitAppend(ChunksOf(s[..n]), s[..n], s[n]);
    }
  }

  lemma SplitAppend<T>(c: Chunks<T>, s: seq<StreamElement<T>>, e: StreamElement<T>)
    requires IsSplit(c, s) && !e.Terminate?
    ensures IsSplit(Cut(c, e), s + [e])
  {
    if e.FlushAndRestart? {
      assert Ended(c.rounds + [c.current]) == Ended(c.rounds) + [c.current + [FlushAndRestart]];
      FlattenAppend(Ended(c.rounds), c.current + [FlushAndRestart]);
    }
  }

  /** What comes after the last round is not part of it. */
  lemma TerminateIsNoPart<T>(s: seq<StreamElement<T>>)
    ensures ChunksOf(s + [Terminate]) == ChunksOf(s)
  {
    ChunksAppend(s, Terminate);
  }

  lemma {:induction false} PlainIsKept<T>(chunk: seq<StreamElement<T>>)
    ensures AreKept(chunk, PlainOf, Plain(chunk))
  {
    if chunk == [] {
      NothingKept<StreamElement<T>, T>(PlainOf);
    } else {
      var n := |chunk| - 1;
      PlainIsKept(chunk[..n]);
      MoreKept(chunk[..n], PlainOf, Plain(chunk[..n]), chunk[n]);
      assert chunk == chunk[..n] + [chunk[n]];
    }
  }

  /** The items of a round are its plain elements, in their order. */
  lemma RoundsAreItems<T>(s: seq<StreamElement<T>>)
    requires EndsWithTerminate(s)
    ensures |Rounds(s, [])| == |ChunksOf(s).rounds|
    ensures forall i :: 0 <= i < |Rounds(s, [])| ==> AreKept(ChunksOf(s).rounds[i], PlainOf, Rounds(s, [])[i])
  {
    RoundsArePlain(s);
    forall i | 0 <= i < |Rounds(s, [])| ensures AreKept(ChunksOf(s).rounds[i], PlainOf, Rounds(s, [])[i]) {
      PlainIsKept(ChunksOf(s).rounds[i]);
    }
  }

  /** The items with times of a round are its elements with times, in their order. */
  ghost predicate AreTimed<T>(c: Chunks<T>, f: Flow<T>) {
    && |f.rounds| == |c.rounds| && AreKept(c.current, TimedOf, f.current)
    && forall i :: 0 <= i < |c.rounds| ==> AreKept(c.rounds[i], TimedOf, f.rounds[i])
  }

  lemma {:induction false} TimedRoundsAreItems<T>(s: seq<StreamElement<T>>)
    ensures AreTimed(ChunksOf(s), FlowOf(s))
  {
    NothingKept<StreamElement<T>, Timed<T>>(TimedOf);
    if s != [] {
      var n := |s| - 1;
      TimedRoundsAreItems(s[..n]);
      MoreTimed(ChunksOf(s[..n]), FlowOf(s[..n]), s[n]);
    }
  }

  lemma MoreTimed<T>(c: Chunks<T>, f: Flow<T>, e: StreamElement<T>)
    requires AreTimed(c, f)
    ensures AreTimed(Cut(c, e), Then(f, e))
  {
    NothingKept<StreamElement<T>, Timed<T>>(TimedOf);
    if !e.FlushAndRestart? && !e.Terminate? { MoreKept(c.current, TimedOf, f.current, e); }
  }

  /** All the other elements of the stream are in their order too. */
  lemma {:induction false} OthersAreKept<T>(s: seq<StreamElement<T>>)
    ensures AreKept(s, OtherOf, Others(s))
  {
    if s == [] {
      NothingKept<StreamElement<T>, StreamElement<T>>(OtherOf);
    } else {
      var n := |s| - 1;
      OthersAreKept(s[..n]);
      MoreKept(s[..n], OtherOf, Others(s[..n]), s[n]);
      assert s == s[..n] + [s[n]];
    }
  }

  // The sides of a round of a join -----------------------------------------------------------------

  function LeftItemOf<A, B>(e: Joins.BinaryElement<A, B>): Option<A> { if e.LeftItem? then Some(e.left) else None }

  function RightItemOf<A, B>(e: Joins.BinaryElement<A, B>): Option<B> { if e.RightItem? then Some(e.right) else None }

  /** The items of a side are kept in their order; a side has ended if its end has come. */
  ghost predicate AreSides<K, A, B>(round: Joins.Round<K, A, B>, l: Joins.Received<K, A>, r: Joins.Received<K, B>) {
    && AreKept(round, LeftItemOf, l.items) && AreKept(round, RightItemOf, r.items)
    && (l.ended <==> exists i :: 0 <= i < |round| && round[i].LeftEnd?)
    && (r.ended <==> exists i :: 0 <= i < |round| && round[i].RightEnd?)
  }

  lemma {:induction false} SidesAreKept<K, A, B>(round: Joins.Round<K, A, B>)
    ensures AreSides(round, Joins.LeftOf(round), Joins.RightOf(round))
  {
    if round == [] {
      NothingKept<Joins.BinaryElement<(K, A), (K, B)>, (K, A)>(LeftItemOf);
      NothingKept<Joins.BinaryElement<(K, A), (K, B)>, (K, B)>(RightItemOf);
    } else {
      var n := |round| - 1;
      SidesAreKept(round[..n]);
      MoreSides(round[..n], Joins.LeftOf(round[..n]), Joins.RightOf(round[..n]), round[n]);
      Joins.SidesAfter(round[..n], round[n]);
      assert round == round[..n] + [round[n]];
    }
  }

  lemma MoreSides<K, A, B>(round: Joins.Round<K, A, B>, l: Joins.Received<K, A>, r: Joins.Received<K, B>,
      e: Joins.BinaryElement<(K, A), (K, B)>)
    requires AreSides(round, l, r)
    ensures AreSides(round + [e],
      Joins.Received(if e.LeftItem? then l.items + [e.left] else l.items, l.ended || e.LeftEnd?),
      Joins.Received(if e.RightItem? then r.items + [e.right] else r.items, r.ended || e.RightEnd?))
  {
    MoreKept(round, LeftItemOf, l.items, e);
    MoreKept(round, RightItemOf, r.items, e);
    var round' := round + [e];
    assert round'[|round|] == e && forall i :: 0 <= i < |round| ==> round'[i] == round[i];
  }

  // The order of time ------------------------------------------------------------------------------

  /** The i-th element is in the round of the j-th, and before it. */
  ghost predicate InRound<T>(s: seq<StreamElement<T>>, i: int, j: int) {
    0 <= i < j <= |s| && forall m :: i <= m < j ==> !s[m].FlushAndRestart?
  }

  /** Either all times are looked at, or those of watermarks only. */
  predicate Tells<T>(e: StreamElement<T>, marks: bool) { e.Watermark? || (e.Timestamped? && !marks) }

  ghost predicate AllUpto<T>(s: seq<StreamElement<T>>, j: int, marks: bool, t: int) {
    forall i {:trigger InRound(s, i, j)} :: InRound(s, i, j) && Tells(s[i], marks) ==> s[i].ts <= t
  }

  ghost predicate IsTold<T>(s: seq<StreamElement<T>>, j: int, marks: bool, t: int) {
    exists i :: InRound(s, i, j) && Tells(s[i], marks) && s[i].ts == t
  }

  lemma InRoundAppend<T>(s: seq<StreamElement<T>>, e: StreamElement<T>, i: int, j: int)
    ensures InRound(s + [e], i, |s| + 1) <==> !e.FlushAndRestart? && (i == |s| || InRound(s, i, |s|))
    ensures j <= |s| ==> (InRound(s + [e], i, j) <==> InRound(s, i, j))
  {
    var s' := s + [e];
    if j <= |s| && InRound(s', i, j) {
      forall m | i <= m < j ensures !s[m].FlushAndRestart? { assert s'[m] == s[m]; }
    }
    if InRound(s', i, |s| + 1) {
      assert s'[|s|] == e;
      forall m | i <= m < |s| ensures !s[m].FlushAndRestart? { assert s'[m] == s[m]; }
    }
  }

  lemma UptoAppend<T>(s: seq<StreamElement<T>>, e: StreamElement<T>, marks: bool, t: int)
    ensures AllUpto(s + [e], |s| + 1, marks, t) <==>
            e.FlushAndRestart? || (AllUpto(s, |s|, marks, t) && (Tells(e, marks) ==> e.ts <= t))
  {
    var s' := s + [e];
    forall i {:trigger InRound(s', i, |s| + 1)} {:trigger InRound(s, i, |s|)}
      ensures InRound(s', i, |s| + 1) <==> !e.FlushAndRestart? && (i == |s| || InRound(s, i, |s|))
    {
      InRoundAppend(s, e, i, 0);
    }
    if AllUpto(s', |s| + 1, marks, t) && !e.FlushAndRestart? {
      assert InRound(s', |s|, |s| + 1);
      forall i | InRound(s, i, |s|) && Tells(s[i], marks) ensures s[i].ts <= t { assert InRound(s', i, |s| + 1); }
    }
  }

  lemma UptoPrefix<T>(s: seq<StreamElement<T>>, e: StreamElement<T>, marks: bool, t: int, j: int)
    requires j <= |s|
    ensures AllUpto(s + [e], j, marks, t) <==> AllUpto(s, j, marks, t)
  {
    var s' := s + [e];
    forall i {:trigger InRound(s', i, j)} {:trigger InRound(s, i, j)}
      ensures InRound(s', i, j) <==> InRound(s, i, j)
    {
      InRoundAppend(s, e, i, j);
    }
  }

  lemma ToldAppend<T>(s: seq<StreamElement<T>>, e: StreamElement<T>, marks: bool, t: int)
    requires !e.FlushAndRestart? && (IsTold(s, |s|, marks, t) || (Tells(e, marks) && e.ts == t))
    ensures IsTold(s + [e], |s| + 1, marks, t)
  {
    if IsTold(s, |s|, marks, t) {
      var i :| InRound(s, i, |s|) && Tells(s[i], marks) && s[i].ts == t;
      InRoundAppend(s, e, i, 0);
      assert InRound(s + [e], i, |s| + 1) && (s + [e])[i] == s[i];
    } else {
      InRoundAppend(s, e, |s|, 0);
      assert InRound(s + [e], |s|, |s| + 1) && (s + [e])[|s|] == e;
    }
  }

  /** The time kept before there is any in the round. */
  function Least(marks: bool): int { if marks then MIN - 1 else MIN }

  function Latest<T>(f: Flow<T>, marks: bool): int { if marks then f.mark else f.last }

  predicate InOrder<T>(f: Flow<T>, marks: bool) { if marks then f.timed else f.ordered }

  /** The time kept is one of the round, or less than any. */
  lemma {:induction false} LatestIsTold<T>(s: seq<StreamElement<T>>, marks: bool)
    ensures Latest(FlowOf(s), marks) == Least(marks) || IsTold(s, |s|, marks, Latest(FlowOf(s), marks))
  {
    if s != [] {
      var n := |s| - 1;
      assert s == s[..n] + [s[n]];
      LatestIsTold(s[..n], marks);
      if !s[n].FlushAndRestart? && Latest(FlowOf(s), marks) != Least(marks) {
        ToldAppend(s[..n], s[n], marks, Latest(FlowOf(s), marks));
      }
    }
  }

  /** As long as the times are in order, it is the greatest of them. */
  lemma {:induction false} LatestIsGreatest<T>(s: seq<StreamElement<T>>, marks: bool)
    requires InOrder(FlowOf(s), marks)
    ensures AllUpto(s, |s|, marks, Latest(FlowOf(s), marks))
  {
    if s != [] {
      var n := |s| - 1;
      assert s == s[..n] + [s[n]];
      LatestIsGreatest(s[..n], marks);
      GreatestAppend(s[..n], s[n], marks, FlowOf(s[..n]));
    }
  }

  lemma GreatestAppend<T>(s: seq<StreamElement<T>>, e: StreamElement<T>, marks: bool, f: Flow<T>)
    requires AllUpto(s, |s|, marks, Latest(f, marks)) && InOrder(Then(f, e), marks)
    ensures AllUpto(s + [e], |s| + 1, marks, Latest(Then(f, e), marks))
  {
    var t, t' := Latest(f, marks), Latest(Then(f, e), marks);
    UptoAppend(s, e, marks, t');
    if !e.FlushAndRestart? {
      assert t <= t';
      forall i | InRound(s, i, |s|) && Tells(s[i], marks) ensures s[i].ts <= t' { assert s[i].ts <= t; }
    }
  }

  /** A time is one of 64 bits, and none of the times it is compared with is greater. */
  ghost predicate IsInTime<T>(s: seq<StreamElement<T>>, j: int, marks: bool)
    requires 0 <= j < |s|
  {
    HasTime(s[j]) ==> IsTimestamp(s[j].ts) && AllUpto(s, j, marks, s[j].ts)
  }

  /** What the sums of a stream say of its times. */
  lemma InOrderMeans<T>(s: seq<StreamElement<T>>, marks: bool)
    ensures InOrder(FlowOf(s), marks) <==> forall j :: 0 <= j < |s| ==> IsInTime(s, j, marks)
  {
    if InOrder(FlowOf(s), marks) {
      forall j | 0 <= j < |s| ensures IsInTime(s, j, marks) { InOrderIsInTime(s, marks, j); }
    }
    if forall j :: 0 <= j < |s| ==> IsInTime(s, j, marks) { InTimeIsInOrder(s, marks); }
  }

  lemma {:induction false} InOrderIsInTime<T>(s: seq<StreamElement<T>>, marks: bool, j: nat)
    requires InOrder(FlowOf(s), marks) && j < |s|
    ensures IsInTime(s, j, marks)
  {
    var n := |s| - 1;
    assert s == s[..n] + [s[n]];
    if j < n {
      InOrderIsInTime(s[..n], marks, j);
      if HasTime(s[j]) { UptoPrefix(s[..n], s[n], marks, s[j].ts, j); }
    } else if HasTime(s[n]) {
      NextInTime(s[..n], s[n], marks);
    }
  }

  lemma {:induction false} InTimeIsInOrder<T>(s: seq<StreamElement<T>>, marks: bool)
    requires forall j :: 0 <= j < |s| ==> IsInTime(s, j, marks)
    ensures InOrder(FlowOf(s), marks)
  {
    if s != [] {
      var n := |s| - 1;
      assert s == s[..n] + [s[n]];
      forall j | 0 <= j < n ensures IsInTime(s[..n], j, marks) {
        assert IsInTime(s, j, marks) && s[..n][j] == s[j];
        if HasTime(s[j]) { UptoPrefix(s[..n], s[n], marks, s[j].ts, j); }
      }
      InTimeIsInOrder(s[..n], marks);
      assert IsInTime(s, n, marks);
      if HasTime(s[n]) { NextInTime(s[..n], s[n], marks); }
    }
  }

  lemma NextInTime<T>(s: seq<StreamElement<T>>, e: StreamElement<T>, marks: bool)
    requires InOrder(FlowOf(s), marks) && HasTime(e)
    ensures IsInTime(s + [e], |s|, marks) <==> IsTimestamp(e.ts) && Latest(FlowOf(s), marks) <= e.ts
  {
    LatestIsTold(s, marks);
    LatestIsGreatest(s, marks);
    UptoPrefix(s, e, marks, e.ts, |s|);
    assert (s + [e])[|s|] == e;
  }

  /** No item comes after a watermark of its round that is not below it. */
  ghost predicate IsHonoured<T>(s: seq<StreamElement<T>>, j: int)
    requires 0 <= j < |s|
  {
    s[j].Timestamped? ==> AllUpto(s, j, true, s[j].ts - 1)
  }

  lemma {:induction false} HonouredMeans<T>(s: seq<StreamElement<T>>)
    requires IsTimed(s)
    ensures HonoursWatermarks(s) <==> forall j :: 0 <= j < |s| ==> IsHonoured(s, j)
  {
    if s != [] {
      var n := |s| - 1;
      assert s == s[..n] + [s[n]];
      HonouredMeans(s[..n]);
      forall j | 0 <= j < n ensures IsHonoured(s, j) <==> IsHonoured(s[..n], j) {
        if s[j].Timestamped? { UptoPrefix(s[..n], s[n], true, s[j].ts - 1, j); }
      }
      if s[n].Timestamped? { NextHonoured(s[..n], s[n]); }
    }
  }

  lemma NextHonoured<T>(s: seq<StreamElement<T>>, e: StreamElement<T>)
    requires IsTimed(s) && e.Timestamped? && IsTimestamp(e.ts)
    ensures IsHonoured(s + [e], |s|) <==> FlowOf(s).mark < e.ts
  {
    LatestIsTold(s, true);
    LatestIsGreatest(s, true);
    UptoPrefix(s, e, true, e.ts - 1, |s|);
    assert (s + [e])[|s|] == e;
  }
}
