/** Reorder: the items of a stream wait for the watermark that follows them, and come out in the order of time. */
module Reorder {
  import opened Streams
  import opened Keyed
  import opened TimedStreams

  /** What can be emitted: `seen` is the last timestamp emitted in the round, and `out` its items. */
  ghost predicate Waits<T>(round: seq<Timed<T>>, out: seq<Timed<T>>, buffer: seq<Timed<T>>, seen: int) {
    && Sort(ByTime(), round) == out + Sort(ByTime(), buffer)
    && (forall i :: 0 <= i < |out| ==> out[i].0 <= seen)
    && forall i :: 0 <= i < |buffer| ==> seen <= buffer[i].0 <= MAX
  }

  lemma Arrives<T>(round: seq<Timed<T>>, out: seq<Timed<T>>, buffer: seq<Timed<T>>, seen: int, x: Timed<T>)
    requires Waits(round, out, buffer, seen) && seen <= x.0 <= MAX
    ensures Waits(round + [x], out, buffer + [x], seen)
  {
    SortAppend(round, x);
    SortAppend(buffer, x);
    InsertBehind(out, Sort(ByTime(), buffer), x);
  }

  lemma Sorts<T>(round: seq<Timed<T>>, out: seq<Timed<T>>, buffer: seq<Timed<T>>, seen: int)
    requires Waits(round, out, buffer, seen)
    ensures var sorted := Sort(ByTime(), buffer);
            Waits(round, out, sorted, seen) && Sorted(ByTime(), sorted)
  {
    var sorted := Sort(ByTime(), buffer);
    ByTimeIsTotal();
    SortIsStable(ByTime(), buffer);
    SortSorted(sorted);
    SortPermutes(ByTime(), buffer);
    forall i | 0 <= i < |sorted| ensures seen <= sorted[i].0 <= MAX { assert sorted[i] in multiset(buffer); }
  }

  lemma SortKeepsAbove<T>(buffer: seq<Timed<T>>, mark: int)
    requires forall i :: 0 <= i < |buffer| ==> mark < buffer[i].0
    ensures var sorted := Sort(ByTime(), buffer); forall i :: 0 <= i < |sorted| ==> mark < sorted[i].0
  {
    var sorted := Sort(ByTime(), buffer);
    SortPermutes(ByTime(), buffer);
    forall i | 0 <= i < |sorted| ensures mark < sorted[i].0 { assert sorted[i] in multiset(buffer); }
  }

  lemma Leaves<T>(round: seq<Timed<T>>, out: seq<Timed<T>>, buffer: seq<Timed<T>>, seen: int)
    requires Waits(round, out, buffer, seen) && Sorted(ByTime(), buffer) && buffer != []
    ensures Waits(round, out + [buffer[0]], buffer[1..], buffer[0].0) && Sorted(ByTime(), buffer[1..])
  {
    assert Sorted(ByTime(), buffer[1..]);
    LeavesInOrder(out, buffer);
    forall i | 0 <= i < |buffer[1..]|
      ensures buffer[0].0 <= buffer[1..][i].0 { assert ByTime().Le(buffer[0].0, buffer[i + 1].0); }
  }

  lemma LeavesInOrder<T>(out: seq<Timed<T>>, buffer: seq<Timed<T>>)
    requires buffer != [] && Sorted(ByTime(), buffer) && Sorted(ByTime(), buffer[1..])
    ensures out + Sort(ByTime(), buffer) == (out + [buffer[0]]) + Sort(ByTime(), buffer[1..])
  {
    SortSorted(buffer);
    SortSorted(buffer[1..]);
    MoveFirst(out, buffer);
  }

  // What the operator keeps ------------------------------------------------------------------------

  /** The finished rounds have come out sorted; the last one received may not be finished. */
  ghost predicate SortedRounds<T>(input: seq<seq<Timed<T>>>, output: seq<seq<Timed<T>>>, more: nat) {
    |input| == |output| + more && forall i {:trigger IsSorted(input, output, i)} :: 0 <= i < |output| ==>
      IsSorted(input, output, i)
  }

  predicate IsSorted<T(==)>(input: seq<seq<Timed<T>>>, output: seq<seq<Timed<T>>>, i: int) {
    0 <= i < |input| && i < |output| && output[i] == Sort(ByTime(), input[i])
  }

  lemma SortedPrefix<T>(input: seq<seq<Timed<T>>>, output: seq<seq<Timed<T>>>, input': seq<seq<Timed<T>>>,
      output': seq<seq<Timed<T>>>, i: int)
    requires IsSorted(input, output, i) && input <= input' && output <= output'
    ensures IsSorted(input', output', i)
  {
  }

  /** The element that comes out once its items are gone. */
  ghost function Pending<T>(mark: Option<int>, receivedEnd: bool): seq<StreamElement<T>> {
    if mark.Some? then [Watermark(mark.value)] else if receivedEnd then [FlushAndRestart] else []
  }

  ghost predicate MarksOk<T>(got: Flow<T>, mark: Option<int>, receivedEnd: bool, seen: int) {
    && MIN <= seen
    && (mark.Some? ==> !receivedEnd && seen <= mark.value == got.mark <= MAX)
    && (mark.None? && !receivedEnd ==> seen == if got.mark < MIN then MIN else got.mark)
    && (receivedEnd ==> got.current == [] && got.mark == MIN - 1)
  }

  /** What is still to come is above the watermarks that are out, if no item came too late. */
  ghost predicate HonoursOk<T>(got: Flow<T>, buffer: seq<Timed<T>>, mark: Option<int>, receivedEnd: bool,
      sent: Flow<T>) {
    && (mark.None? && !receivedEnd ==> sent.mark == got.mark)
    && (got.honoured ==> sent.honoured && forall i :: 0 <= i < |buffer| ==> sent.mark < buffer[i].0)
  }

  /** After `got` was received and `sent` was emitted. */
  ghost predicate Holds<T>(got: Flow<T>, buffer: seq<Timed<T>>, mark: Option<int>, receivedEnd: bool, sent: Flow<T>) {
    && Waits(RoundOf(got, receivedEnd), sent.current, buffer, sent.last)
    && (mark.Some? || receivedEnd ==> Sorted(ByTime(), buffer))
    && got.others == sent.others + Pending(mark, receivedEnd)
    && SortedRounds(got.rounds, sent.rounds, if receivedEnd then 1 else 0)
    && MarksOk(got, mark, receivedEnd, sent.last)
    && HonoursOk(got, buffer, mark, receivedEnd, sent)
    && sent.ordered
  }

  lemma ReceiveItem<T>(got: Flow<T>, buffer: seq<Timed<T>>, mark: Option<int>, receivedEnd: bool, sent: Flow<T>, x: T,
      ts: int)
    requires Holds(got, buffer, mark, receivedEnd, sent) && mark.None? && !receivedEnd &&
      Then(got, Timestamped(x, ts)).timed
    ensures Holds(Then(got, Timestamped(x, ts)), buffer + [(ts, x)], mark, receivedEnd, sent)
  {
    Arrives(got.current, sent.current, buffer, sent.last, (ts, x));
  }

  lemma ReceiveWatermark<T>(got: Flow<T>, buffer: seq<Timed<T>>, mark: Option<int>, receivedEnd: bool, sent: Flow<T>,
      ts: int, sorted: seq<Timed<T>>)
    requires Holds(got, buffer, mark, receivedEnd, sent) && mark.None? && !receivedEnd && Then(got, Watermark(ts)).timed
    requires sorted == Sort(ByTime(), buffer)
    ensures Holds(Then(got, Watermark(ts)), sorted, Some(ts), receivedEnd, sent)
  {
    Sorts(got.current, sent.current, buffer, sent.last);
    if got.honoured { SortKeepsAbove(buffer, sent.mark); }
  }

  lemma ReceiveEnd<T>(got: Flow<T>, buffer: seq<Timed<T>>, mark: Option<int>, receivedEnd: bool, sent: Flow<T>,
      sorted: seq<Timed<T>>)
    requires Holds(got, buffer, mark, receivedEnd, sent) && mark.None? && !receivedEnd &&
      sorted == Sort(ByTime(), buffer)
    ensures Holds(Then(got, FlushAndRestart), sorted, mark, true, sent)
  {
    Sorts(got.current, sent.current, buffer, sent.last);
    if got.honoured { SortKeepsAbove(buffer, sent.mark); }
    forall i | 0 <= i < |sent.rounds| ensures IsSorted(got.rounds + [got.current], sent.rounds, i) {
      SortedPrefix(got.rounds, sent.rounds, got.rounds + [got.current], sent.rounds, i);
    }
  }

  lemma Forward<T>(got: Flow<T>, buffer: seq<Timed<T>>, mark: Option<int>, receivedEnd: bool, sent: Flow<T>,
      e: StreamElement<T>)
    requires Holds(got, buffer, mark, receivedEnd, sent) && mark.None? && !receivedEnd &&
      (e.Item? || e.FlushBatch? || e.Terminate?)
    ensures Holds(Then(got, e), buffer, mark, receivedEnd, Then(sent, e))
  {
  }

  lemma EmitItem<T>(got: Flow<T>, buffer: seq<Timed<T>>, mark: Option<int>, receivedEnd: bool, sent: Flow<T>)
    requires Holds(got, buffer, mark, receivedEnd, sent) && buffer != []
    requires if mark.Some? then buffer[0].0 <= mark.value else receivedEnd
    ensures Holds(got, buffer[1..], mark, receivedEnd, Then(sent, Timestamped(buffer[0].1, buffer[0].0)))
  {
    Leaves(RoundOf(got, receivedEnd), sent.current, buffer, sent.last);
  }

  lemma EmitWatermark<T>(got: Flow<T>, buffer: seq<Timed<T>>, mark: Option<int>, receivedEnd: bool, sent: Flow<T>)
    requires Holds(got, buffer, mark, receivedEnd, sent) && mark.Some? && (buffer != [] ==> mark.value < buffer[0].0)
    ensures Holds(got, buffer, None, receivedEnd, Then(sent, Watermark(mark.value)))
  {
    forall i | 0 <= i < |buffer| ensures mark.value <= buffer[i].0 { assert ByTime().Le(buffer[0].0, buffer[i].0); }
  }

  lemma EmitEnd<T>(got: Flow<T>, buffer: seq<Timed<T>>, mark: Option<int>, receivedEnd: bool, sent: Flow<T>)
    requires Holds(got, buffer, mark, receivedEnd, sent) && buffer == [] && mark.None? && receivedEnd
    ensures Holds(got, buffer, mark, false, Then(sent, FlushAndRestart))
  {
    RoundEnds(got.rounds, sent.rounds, sent.current, sent.last);
  }

  /** With nothing left to wait for, the round has come out sorted. */
  lemma RoundEnds<T>(input: seq<seq<Timed<T>>>, output: seq<seq<Timed<T>>>, out: seq<Timed<T>>, seen: int)
    requires SortedRounds(input, output, 1) && Waits(input[|input| - 1], out, [], seen)
    ensures SortedRounds(input, output + [out], 0)
  {
    assert out + Sort(ByTime(), []) == out;
    forall i | 0 <= i < |output + [out]| ensures IsSorted(input, output + [out], i) {
      if i < |output| { SortedPrefix(input, output, input, output + [out], i); }
    }
  }

  // The operator -----------------------------------------------------------------------------------

  class Reorder<T> {
    const input: seq<StreamElement<T>>       // what the previous operator emits
    var received: nat
    var buffer: seq<Timed<T>>
    var lastWatermark: Option<int>
    var receivedEnd: bool
    ghost var got: Flow<T>                   // what was received
    ghost var sent: Flow<T>                  // what was emitted

    constructor (input: seq<StreamElement<T>>)
      requires EndsWithTerminate(input) && IsTimed(input)
      ensures Valid() && this.input == input && sent == Nothing() && received == 0
    {
      this.input, received, buffer, lastWatermark, receivedEnd, got, sent := input, 0, [], None, false, Nothing(),
        Nothing();
    }

    ghost predicate Valid()
      reads this
    {
      && EndsWithTerminate(input) && IsTimed(input) && received < |input| && got == FlowOf(input[..received])
      && Holds(got, buffer, lastWatermark, receivedEnd, sent)
    }

    /** Everything was received and emitted. */
    ghost predicate Ended()
      reads this
    {
      got == FlowOf(input) && lastWatermark.None? && !receivedEnd &&
        Holds(got, buffer, lastWatermark, receivedEnd, sent)
    }

    ghost function Work(): nat
      reads this
    {
      |buffer| + (if lastWatermark.Some? then 1 else 0) + if receivedEnd then 1 else 0
    }

    /** Receive an element: those that are not sorted are emitted at once. */
    method Receive() returns (e: Option<StreamElement<T>>)
      requires Valid() && !receivedEnd && lastWatermark.None?
      modifies this
      ensures received == old(received) + 1
      ensures e == Some(Terminate) || Valid()
      ensures e == Some(Terminate) ==> Ended()
      ensures sent == if e.None? then old(sent) else Then(old(sent), e.value)
    {
      var next := input[received];
      NextOf(input, received);
      received, e := received + 1, None;
      match next
      case Timestamped(x, ts) => Push(x, ts);
      case Watermark(ts) => Mark(ts);
      case FlushAndRestart => End();
      case _ =>
        Pass(next);
        e := Some(next);
    }

    ghost method Pass(e: StreamElement<T>)
      requires Holds(got, buffer, lastWatermark, receivedEnd, sent) && lastWatermark.None? && !receivedEnd
      requires e.Item? || e.FlushBatch? || e.Terminate?
      modifies this`got, this`sent
      ensures got == Then(old(got), e) && sent == Then(old(sent), e) &&
        Holds(got, buffer, lastWatermark, receivedEnd, sent)
    {
      Forward(got, buffer, lastWatermark, receivedEnd, sent, e);
      got, sent := Then(got, e), Then(sent, e);
    }

    method Push(x: T, ts: int)
      requires Holds(got, buffer, lastWatermark, receivedEnd, sent) && lastWatermark.None? && !receivedEnd
      requires Then(got, Timestamped(x, ts)).timed
      modifies this`buffer, this`got
      ensures got == Then(old(got), Timestamped(x, ts)) && Holds(got, buffer, lastWatermark, receivedEnd, sent)
    {
      ReceiveItem(got, buffer, lastWatermark, receivedEnd, sent, x, ts);
      buffer, got := buffer + [(ts, x)], Then(got, Timestamped(x, ts));
    }

    method Mark(ts: int)
      requires Holds(got, buffer, lastWatermark, receivedEnd, sent) && lastWatermark.None? && !receivedEnd
      requires Then(got, Watermark(ts)).timed
      modifies this`buffer, this`lastWatermark, this`got
      ensures got == Then(old(got), Watermark(ts)) && lastWatermark == Some(ts) &&
        Holds(got, buffer, lastWatermark, receivedEnd, sent)
    {
      var sorted := Sort(ByTime(), buffer);
      ReceiveWatermark(got, buffer, lastWatermark, receivedEnd, sent, ts, sorted);
      lastWatermark, buffer, got := Some(ts), sorted, Then(got, Watermark(ts));
    }

    method End()
      requires Holds(got, buffer, lastWatermark, receivedEnd, sent) && lastWatermark.None? && !receivedEnd
      modifies this`buffer, this`receivedEnd, this`got
      ensures got == Then(old(got), FlushAndRestart) && receivedEnd &&
        Holds(got, buffer, lastWatermark, receivedEnd, sent)
    {
      var sorted := Sort(ByTime(), buffer);
      ReceiveEnd(got, buffer, lastWatermark, receivedEnd, sent, sorted);
      receivedEnd, buffer, got := true, sorted, Then(got, FlushAndRestart);
    }

    method Next() returns (e: StreamElement<T>)
      requires Valid()
      modifies this
      ensures e.Terminate? || Valid()
      ensures e.Terminate? ==> Ended()
      ensures sent == Then(old(sent), e)
      ensures received > old(received) || (received == old(received) && Work() < old(Work()))
    {
      while !receivedEnd && lastWatermark.None?
        invariant Valid() && sent == old(sent)
        invariant received > old(received) || (received == old(received) && Work() == old(Work()))
        decreases |input| - received
      {
        var next := Receive();
        if next.Some? { return next.value; }
      }
      e := Emit();
    }

    /** Emit an item up to the watermark, then the watermark; or an item up to the end, then the end. */
    method Emit() returns (e: StreamElement<T>)
      requires Valid() && (receivedEnd || lastWatermark.Some?)
      modifies this`buffer, this`lastWatermark, this`receivedEnd, this`sent
      ensures Valid() && !e.Terminate?
      ensures sent == Then(old(sent), e)
      ensures Work() < old(Work())
    {
      if lastWatermark.Some? && !(buffer != [] && buffer[0].0 <= lastWatermark.value) {
        e := Watermark(lastWatermark.value);
        EmitWatermark(got, buffer, lastWatermark, receivedEnd, sent);
        lastWatermark, sent := None, Then(sent, e);
      } else if buffer != [] {
        e := Pop();
      } else {
        e := FlushAndRestart;
        EmitEnd(got, buffer, lastWatermark, receivedEnd, sent);
        receivedEnd, sent := false, Then(sent, FlushAndRestart);
      }
    }

    method Pop() returns (e: StreamElement<T>)
      requires Valid() && buffer != [] && if lastWatermark.Some? then buffer[0].0 <= lastWatermark.value
        else receivedEnd
      modifies this`buffer, this`sent
      ensures Valid() && buffer == old(buffer)[1..] && e.Timestamped? && sent == Then(old(sent), e)
    {
      EmitItem(got, buffer, lastWatermark, receivedEnd, sent);
      e := Timestamped(buffer[0].1, buffer[0].0);
      buffer, sent := buffer[1..], Then(sent, e);
    }
  }

  lemma AllOut<T>(got: Flow<T>, buffer: seq<Timed<T>>, mark: Option<int>, receivedEnd: bool, sent: Flow<T>)
    requires Holds(got, buffer, mark, receivedEnd, sent) && mark.None? && !receivedEnd
    ensures |sent.rounds| == |got.rounds| && sent.others == got.others && sent.ordered
    ensures got.honoured ==> sent.honoured
    ensures sent.current <= Sort(ByTime(), got.current)
    ensures forall i :: 0 <= i < |got.rounds| ==> sent.rounds[i] == Sort(ByTime(), got.rounds[i])
  {
    forall i | 0 <= i < |got.rounds|
      ensures sent.rounds[i] == Sort(ByTime(), got.rounds[i]) { assert IsSorted(got.rounds, sent.rounds, i); }
  }

  method Drain<T>(reorder: Reorder<T>) returns (output: seq<StreamElement<T>>)
    requires reorder.Valid() && reorder.sent == Nothing()
    modifies reorder
    ensures reorder.Ended() && reorder.sent == FlowOf(output) && EndsWithTerminate(output)
  {
    output := [];
    while true
      invariant reorder.Valid() && reorder.sent == FlowOf(output) && NoneTerminates(output)
      decreases |reorder.input| - reorder.received, reorder.Work()
    {
      var e := reorder.Next();
      FlowAppend(output, e);
      NoneTerminatesAppend(output, e);
      output := output + [e];
      if e.Terminate? { return; }
    }
  }

  /**
    A whole stream: in every round the timestamped items come out sorted by time, those of the same time
    in their order of arrival, and the first of them if the round does not end; all the other elements
    come out in their order; and no item comes out after a watermark above it, nor after an equal one if
    the input honours its watermarks.
   */
  method RunReorder<T>(input: seq<StreamElement<T>>) returns (output: seq<StreamElement<T>>)
    requires EndsWithTerminate(input) && IsTimed(input)
    ensures |TimedRounds(output)| == |TimedRounds(input)|
    ensures forall i :: 0 <= i < |TimedRounds(input)| ==>
      TimedRounds(output)[i] == Sort(ByTime(), TimedRounds(input)[i])
    ensures FlowOf(output).current <= Sort(ByTime(), FlowOf(input).current)
    ensures Others(output) == Others(input)
    ensures IsOrdered(output) && EndsWithTerminate(output)
    ensures HonoursWatermarks(input) ==> HonoursWatermarks(output)
  {
    var reorder := new Reorder(input);
    output := Drain(reorder);
    AllOut(reorder.got, reorder.buffer, reorder.lastWatermark, reorder.receivedEnd, reorder.sent);
  }
}
