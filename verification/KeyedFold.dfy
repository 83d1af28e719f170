/** KeyedFold: one element for every key of a round, with the fold of its values. */
module KeyedFold {
  import opened Streams
  import opened Keyed
  import opened TimedStreams

  // The rounds of a stream -------------------------------------------------------------------------

  /** What lies between the ends of rounds. */
  datatype Chunks<+T> = Chunks(rounds: seq<seq<StreamElement<T>>>, current: seq<StreamElement<T>>)

  function Cut<T>(c: Chunks<T>, e: StreamElement<T>): Chunks<T> {
    match e
    case FlushAndRestart => Chunks(c.rounds + [c.current], [])
    case Terminate => c
    case _ => c.(current := c.current + [e])
  }

  function ChunksOf<T>(s: seq<StreamElement<T>>): Chunks<T> {
    if s == [] then Chunks([], []) else Cut(ChunksOf(s[..|s| - 1]), s[|s| - 1])
  }

  lemma ChunksAppend<T>(s: seq<StreamElement<T>>, e: StreamElement<T>)
    ensures ChunksOf(s + [e]) == Cut(ChunksOf(s), e)
  {
    assert (s + [e])[..|s|] == s;
  }

  // What comes out of a round ----------------------------------------------------------------------

  /** A value, and its timestamp if it has one. */
  type Arrival<+V> = (V, Option<int>)

  datatype Folding<!O, !V> = Folding(init: O, fold: (O, V) -> O)

  /** The values of a round, with their keys. */
  function Arrivals<K, V>(chunk: seq<StreamElement<(K, V)>>): seq<(K, Arrival<V>)> {
    if chunk == [] then []
    else
      var before := Arrivals(chunk[..|chunk| - 1]);
      match chunk[|chunk| - 1]
      case Item((k, v)) => before + [(k, (v, None))]
      case Timestamped((k, v), ts) => before + [(k, (v, Some(ts)))]
      case _ => before
  }

  function Max(a: Option<int>, b: int): Option<int> {
    if a.Some? && a.value >= b then a else Some(b)
  }

  function MaxMark<T>(chunk: seq<StreamElement<T>>): Option<int> {
    if chunk == [] then None
    else
      var before := MaxMark(chunk[..|chunk| - 1]);
      match chunk[|chunk| - 1]
      case Watermark(ts) => Max(before, ts)
      case _ => before
  }

  lemma ChunkAppend<K, V>(chunk: seq<StreamElement<(K, V)>>, e: StreamElement<(K, V)>)
    ensures Arrivals(chunk + [e]) ==
            if e.Item? then Arrivals(chunk) + [(e.value.0, (e.value.1, None))]
            else if e.Timestamped? then Arrivals(chunk) + [(e.value.0, (e.value.1, Some(e.ts)))]
            else Arrivals(chunk)
    ensures MaxMark(chunk + [e]) == if e.Watermark? then Max(MaxMark(chunk), e.ts) else MaxMark(chunk)
  {
    assert (chunk + [e])[..|chunk|] == chunk;
  }

  function FoldOf<O, V>(f: Folding<O, V>, values: seq<Arrival<V>>): O {
    if values == [] then f.init else f.fold(FoldOf(f, values[..|values| - 1]), values[|values| - 1].0)
  }

  function TimeOf<V>(values: seq<Arrival<V>>): Option<int> {
    if values == [] then None
    else
      var before := TimeOf(values[..|values| - 1]);
      match values[|values| - 1].1
      case Some(ts) => Max(before, ts)
      case None => before
  }

  lemma ValuesAppend<O, V>(f: Folding<O, V>, values: seq<Arrival<V>>, v: Arrival<V>)
    ensures FoldOf(f, values + [v]) == f.fold(FoldOf(f, values), v.0)
    ensures TimeOf(values + [v]) == if v.1.Some? then Max(TimeOf(values), v.1.value) else TimeOf(values)
  {
    assert (values + [v])[..|values|] == values;
  }

  function ElementOf<K, O, V>(f: Folding<O, V>, k: K, values: seq<Arrival<V>>): StreamElement<(K, O)> {
    match TimeOf(values)
    case Some(ts) => Timestamped((k, FoldOf(f, values)), ts)
    case None => Item((k, FoldOf(f, values)))
  }

  /** The element is the one for its key, if the key occurs. */
  predicate IsElement<K(==), O(==), V>(f: Folding<O, V>, arrived: seq<(K, Arrival<V>)>, e: StreamElement<(K, O)>) {
    && (e.Item? || e.Timestamped?)
    && ItemsOf(arrived, e.value.0) != [] && e == ElementOf(f, e.value.0, ItemsOf(arrived, e.value.0))
  }

  /** Exactly one element for each key that occurs. */
  ghost predicate AreElements<K(!new), O(!new), V>(f: Folding<O, V>, arrived: seq<(K, Arrival<V>)>,
      out: seq<StreamElement<(K, O)>>) {
    forall e {:trigger IsElement(f, arrived, e)} {:trigger multiset(out)[e]} :: multiset(out)[e] ==
      if IsElement(f, arrived, e) then 1 else 0
  }

  /** What becomes of a round: the elements of its keys, in any order, and then the greatest watermark. */
  ghost predicate IsFolded<K(!new), O(!new), V>(f: Folding<O, V>, chunk: seq<StreamElement<(K, V)>>,
      out: seq<StreamElement<(K, O)>>) {
    match MaxMark(chunk)
    case None => AreElements(f, Arrivals(chunk), out)
    case Some(ts) => out != [] && out[|out| - 1] == Watermark(ts) && AreElements(f, Arrivals(chunk), out[..|out| - 1])
  }

  ghost predicate RoundFolded<K(!new), O(!new), V>(f: Folding<O, V>, input: seq<seq<StreamElement<(K, V)>>>,
      output: seq<seq<StreamElement<(K, O)>>>, i: int) {
    0 <= i < |input| && i < |output| && IsFolded(f, input[i], output[i])
  }

  ghost predicate RoundsFolded<K(!new), O(!new), V>(f: Folding<O, V>, input: seq<seq<StreamElement<(K, V)>>>,
      output: seq<seq<StreamElement<(K, O)>>>,
      more: nat) {
    |input| == |output| + more && forall i {:trigger RoundFolded(f, input, output, i)} :: 0 <= i < |output| ==>
      RoundFolded(f, input, output, i)
  }

  // What the operator keeps ------------------------------------------------------------------------

  ghost predicate KeyOk<K(!new), O, V>(f: Folding<O, V>, accumulators: map<K, O>, timestamps: map<K, int>,
      arrived: seq<(K, Arrival<V>)>, k: K) {
    var values := ItemsOf(arrived, k);
    && (k in accumulators <==> values != []) && (k in accumulators ==> accumulators[k] == FoldOf(f, values))
    && (k in timestamps <==> TimeOf(values).Some?) && (k in timestamps ==> Some(timestamps[k]) == TimeOf(values))
  }

  ghost predicate Accumulates<K(!new), O, V>(f: Folding<O, V>, accumulators: map<K, O>, timestamps: map<K, int>,
      arrived: seq<(K, Arrival<V>)>) {
    forall k {:trigger KeyOk(f, accumulators, timestamps, arrived, k)} :: KeyOk(f, accumulators, timestamps, arrived, k)
  }

  function Folded<K, O, V>(f: Folding<O, V>, accumulators: map<K, O>, k: K, v: V): map<K, O> {
    accumulators[k := f.fold(if k in accumulators then accumulators[k] else f.init, v)]
  }

  function Stamped<K>(timestamps: map<K, int>, k: K, ts: Option<int>): map<K, int> {
    match ts
    case None => timestamps
    case Some(t) => timestamps[k := if k in timestamps && timestamps[k] >= t then timestamps[k] else t]
  }

  lemma ArrivalAccumulates<K(!new), O, V>(f: Folding<O, V>, accumulators: map<K, O>, timestamps: map<K, int>,
      arrived: seq<(K, Arrival<V>)>,
      k: K, v: V, ts: Option<int>)
    requires Accumulates(f, accumulators, timestamps, arrived)
    ensures Accumulates(f, Folded(f, accumulators, k, v), Stamped(timestamps, k, ts), arrived + [(k, (v, ts))])
  {
    forall k' ensures KeyOk(f, Folded(f, accumulators, k, v), Stamped(timestamps, k, ts), arrived + [(k, (v, ts))],
      k') {
      assert KeyOk(f, accumulators, timestamps, arrived, k');
      if k' == k { KeyArrives(f, accumulators, timestamps, arrived, k, v, ts); }
        else { OtherArrives(f, accumulators, timestamps, arrived, k, v, ts, k'); }
    }
  }

  lemma KeyArrives<K(!new), O, V>(f: Folding<O, V>, accumulators: map<K, O>, timestamps: map<K, int>,
      arrived: seq<(K, Arrival<V>)>,
      k: K, v: V, ts: Option<int>)
    requires KeyOk(f, accumulators, timestamps, arrived, k)
    ensures KeyOk(f, Folded(f, accumulators, k, v), Stamped(timestamps, k, ts), arrived + [(k, (v, ts))], k)
  {
    ItemsOfAppend(arrived, k, (v, ts), k);
    ValuesAppend(f, ItemsOf(arrived, k), (v, ts));
  }

  lemma OtherArrives<K(!new), O, V>(f: Folding<O, V>, accumulators: map<K, O>, timestamps: map<K, int>,
      arrived: seq<(K, Arrival<V>)>,
      k: K, v: V, ts: Option<int>, k': K)
    requires KeyOk(f, accumulators, timestamps, arrived, k') && k' != k
    ensures KeyOk(f, Folded(f, accumulators, k, v), Stamped(timestamps, k, ts), arrived + [(k, (v, ts))], k')
  {
    ItemsOfAppend(arrived, k, (v, ts), k');
  }

  lemma NothingAccumulates<K(!new), O, V>(f: Folding<O, V>)
    ensures Accumulates<K, O, V>(f, map[], map[], [])
  {
    forall k: K ensures KeyOk(f, map[], map[], [], k) { assert ItemsOf<K, Arrival<V>>([], k) == []; }
  }

  /** The elements of the keys that are not in `rest`. */
  ghost predicate DrainedTo<K(!new), O(!new), V>(f: Folding<O, V>, arrived: seq<(K, Arrival<V>)>, rest: map<K, O>,
      ready: seq<StreamElement<(K, O)>>) {
    forall e {:trigger multiset(ready)[e]} :: multiset(ready)[e] ==
      if IsElement(f, arrived, e) && e.value.0 !in rest then 1 else 0
  }

  lemma DrainOne<K(!new), O(!new), V>(f: Folding<O, V>, arrived: seq<(K, Arrival<V>)>, rest: map<K, O>,
      ready: seq<StreamElement<(K, O)>>,
      k: K, e: StreamElement<(K, O)>)
    requires DrainedTo(f, arrived, rest, ready) && k in rest
    requires ItemsOf(arrived, k) != [] && e == ElementOf(f, k, ItemsOf(arrived, k))
    ensures DrainedTo(f, arrived, rest - {k}, ready + [e])
  {
    forall x ensures multiset(ready + [e])[x] == if IsElement(f, arrived, x) && x.value.0 !in rest - {k} then 1 else 0 {
      assert multiset(ready)[x] == if IsElement(f, arrived, x) && x.value.0 !in rest then 1 else 0;
    }
  }

  /** The tables are drained: what is ready comes out, and then the watermark. */
  ghost predicate Emits<K(!new), O(!new), V>(f: Folding<O, V>, chunk: seq<StreamElement<(K, V)>>,
      ready: seq<StreamElement<(K, O)>>, mark: Option<int>,
      out: seq<StreamElement<(K, O)>>) {
    if mark == MaxMark(chunk) then AreElements(f, Arrivals(chunk), out + ready)
    else mark == None && ready == [] && IsFolded(f, chunk, out)
  }

  lemma PopReady<K(!new), O(!new), V>(f: Folding<O, V>, chunk: seq<StreamElement<(K, V)>>,
      ready: seq<StreamElement<(K, O)>>, mark: Option<int>,
      out: seq<StreamElement<(K, O)>>)
    requires Emits(f, chunk, ready, mark, out) && ready != []
    ensures Emits(f, chunk, ready[..|ready| - 1], mark, out + [ready[|ready| - 1]])
  {
    var n := |ready| - 1;
    assert ready == ready[..n] + [ready[n]];
    assert multiset((out + [ready[n]]) + ready[..n]) == multiset(out + ready);
    forall e ensures multiset((out + [ready[n]]) + ready[..n])[e] == if IsElement(f, Arrivals(chunk), e) then 1 else 0 {
      assert multiset(out + ready)[e] == if IsElement(f, Arrivals(chunk), e) then 1 else 0;
    }
  }

  /** What is ready are elements with a key. */
  lemma IsReady<K(!new), O(!new), V>(f: Folding<O, V>, chunk: seq<StreamElement<(K, V)>>,
      ready: seq<StreamElement<(K, O)>>, mark: Option<int>,
      out: seq<StreamElement<(K, O)>>)
    requires Emits(f, chunk, ready, mark, out) && ready != []
    ensures ready[|ready| - 1].Item? || ready[|ready| - 1].Timestamped?
  {
    var e := ready[|ready| - 1];
    assert e in multiset(ready) && e in multiset(out + ready);
    assert IsElement(f, Arrivals(chunk), e);
  }

  lemma EmitMark<K(!new), O(!new), V>(f: Folding<O, V>, chunk: seq<StreamElement<(K, V)>>,
      ready: seq<StreamElement<(K, O)>>, mark: Option<int>,
      out: seq<StreamElement<(K, O)>>)
    requires Emits(f, chunk, ready, mark, out) && ready == [] && mark.Some?
    ensures Emits(f, chunk, ready, None, out + [Watermark(mark.value)])
  {
    assert out + ready == out && (out + [Watermark(mark.value)])[..|out|] == out;
  }

  lemma AllEmitted<K(!new), O(!new), V>(f: Folding<O, V>, chunk: seq<StreamElement<(K, V)>>,
      ready: seq<StreamElement<(K, O)>>, mark: Option<int>,
      out: seq<StreamElement<(K, O)>>)
    requires Emits(f, chunk, ready, mark, out) && ready == [] && mark.None?
    ensures IsFolded(f, chunk, out)
  {
    assert out + ready == out;
  }

  lemma Drained<K(!new), O(!new), V>(f: Folding<O, V>, chunk: seq<StreamElement<(K, V)>>,
      ready: seq<StreamElement<(K, O)>>, mark: Option<int>,
      out: seq<StreamElement<(K, O)>>)
    requires DrainedTo(f, Arrivals(chunk), map[], ready) && mark == MaxMark(chunk) && out == []
    ensures Emits(f, chunk, ready, mark, out)
  {
    assert out + ready == ready;
    forall e ensures multiset(ready)[e] == if IsElement(f, Arrivals(chunk), e) then 1 else 0 {}
  }

  lemma FoldedMore<K(!new), O(!new), V>(f: Folding<O, V>, input: seq<seq<StreamElement<(K, V)>>>,
      output: seq<seq<StreamElement<(K, O)>>>,
      out: seq<StreamElement<(K, O)>>)
    requires RoundsFolded(f, input, output, 1) && IsFolded(f, input[|input| - 1], out)
    ensures RoundsFolded(f, input, output + [out], 0)
  {
    forall i | 0 <= i < |output + [out]| ensures RoundFolded(f, input, output + [out], i) {
      if i < |output| { assert RoundFolded(f, input, output, i); }
    }
  }

  lemma FoldedLess<K(!new), O(!new), V>(f: Folding<O, V>, input: seq<seq<StreamElement<(K, V)>>>,
      output: seq<seq<StreamElement<(K, O)>>>,
      chunk: seq<StreamElement<(K, V)>>)
    requires RoundsFolded(f, input, output, 0)
    ensures RoundsFolded(f, input + [chunk], output, 1)
  {
    forall i | 0 <= i < |output|
      ensures RoundFolded(f, input + [chunk], output, i) { assert RoundFolded(f, input, output, i); }
  }

  lemma NextCut<T>(input: seq<StreamElement<T>>, received: nat)
    requires EndsWithTerminate(input) && received < |input|
    ensures ChunksOf(input[..received + 1]) == Cut(ChunksOf(input[..received]), input[received])
    ensures if input[received].Terminate? then received + 1 == |input| else received + 1 < |input|
  {
    assert input[..received + 1] == input[..received] + [input[received]];
    ChunksAppend(input[..received], input[received]);
    TerminatesAtEnd(input, received);
  }

  // The operator -----------------------------------------------------------------------------------

  class KeyedFold<K(==, !new), O(==, !new), V(!new)> {
    const folding: Folding<O, V>
    const input: seq<StreamElement<(K, V)>>       // what the previous operator emits
    var received: nat
    var accumulators: map<K, O>
    var timestamps: map<K, int>
    var ready: seq<StreamElement<(K, O)>>
    var maxWatermark: Option<int>
    var receivedEnd: bool
    var receivedEndIter: bool
    ghost var got: Chunks<(K, V)>                 // what was received
    ghost var sent: Chunks<(K, O)>                // what was emitted

    constructor (folding: Folding<O, V>, input: seq<StreamElement<(K, V)>>)
      requires EndsWithTerminate(input)
      ensures Valid() && this.folding == folding && this.input == input && sent == Chunks([], []) && received == 0
    {
      this.folding, this.input, received := folding, input, 0;
      accumulators, timestamps, ready, maxWatermark, receivedEnd, receivedEndIter := map[], map[], [], None, false,
        false;
      got, sent := Chunks([], []), Chunks([], []);
      NothingAccumulates<K, O, V>(folding);
    }

    ghost function Chunk(): seq<StreamElement<(K, V)>>
      reads this
    {
      if receivedEndIter && got.rounds != [] then got.rounds[|got.rounds| - 1] else got.current
    }

    ghost predicate Valid()
      reads this
    {
      && EndsWithTerminate(input) && Reads()
      && RoundsFolded(folding, got.rounds, sent.rounds, if receivedEndIter then 1 else 0)
      && (receivedEndIter ==> receivedEnd && got.current == [])
      && (if !receivedEnd then Collects()
        else accumulators == map[] && timestamps == map[] && Emits(folding, Chunk(), ready, maxWatermark, sent.current))
    }

    ghost predicate Reads()
      reads this
    {
      received <= |input| && got == ChunksOf(input[..received]) &&
        (received == |input| <==> receivedEnd && !receivedEndIter)
    }

    ghost predicate Collects()
      reads this
    {
      && Accumulates(folding, accumulators, timestamps, Arrivals(got.current)) && maxWatermark == MaxMark(got.current)
      && ready == [] && sent.current == []
    }

    method ProcessItem(k: K, v: V)
      modifies this`accumulators
      ensures accumulators == Folded(folding, old(accumulators), k, v)
    {
      if k in accumulators {
        accumulators := accumulators[k := folding.fold(accumulators[k], v)];
      } else {
        var acc := folding.init;
        acc := folding.fold(acc, v);
        accumulators := accumulators[k := acc];
      }
    }

    /** Take in one element; no other one is of interest before the end. */
    method Take(e: StreamElement<(K, V)>)
      requires !receivedEnd && Collects() && !e.FlushAndRestart? && !e.Terminate?
      modifies this`accumulators, this`timestamps, this`maxWatermark, this`got
      ensures Collects() && got == Cut(old(got), e)
    {
      ChunkAppend(got.current, e);
      match e {
        case Item((k, v)) =>
          ArrivalAccumulates(folding, accumulators, timestamps, Arrivals(got.current), k, v, None);
          ProcessItem(k, v);
        case Timestamped((k, v), ts) =>
          ArrivalAccumulates(folding, accumulators, timestamps, Arrivals(got.current), k, v, Some(ts));
          ProcessItem(k, v);
          timestamps := Stamped(timestamps, k, Some(ts));
        case Watermark(ts) => maxWatermark := Max(maxWatermark, ts);
        case FlushBatch =>
      }
      got := Cut(got, e);
    }

    /** The round, or the stream, has ended. */
    ghost predicate Gathered()
      reads this
    {
      && receivedEnd && Reads()
      && RoundsFolded(folding, got.rounds, sent.rounds, if receivedEndIter then 1 else 0)
      && (receivedEndIter ==> got.current == [])
      && Accumulates(folding, accumulators, timestamps, Arrivals(Chunk())) && maxWatermark == MaxMark(Chunk())
      && ready == [] && sent.current == []
    }

    method Gather()
      requires Valid() && !receivedEnd
      modifies this
      ensures Gathered() && received > old(received) && sent == old(sent)
    {
      while !receivedEnd
        invariant if receivedEnd then Gathered() else Valid()
        invariant sent == old(sent) && received >= old(received) && (receivedEnd ==> received > old(received))
        decreases |input| - received
      {
        Receive();
      }
    }

    method Receive()
      requires Valid() && !receivedEnd
      modifies this
      ensures if receivedEnd then Gathered() else Valid()
      ensures sent == old(sent) && received == old(received) + 1
    {
      var next := input[received];
      NextCut(input, received);
      received := received + 1;
      match next {
        case Terminate => receivedEnd, got := true, Cut(got, next);
        case FlushAndRestart => EndRound();
        case _ => Take(next);
      }
    }

    method EndRound()
      requires !receivedEnd && !receivedEndIter && Collects() && RoundsFolded(folding, got.rounds, sent.rounds, 0)
      modifies this`receivedEnd, this`receivedEndIter, this`got
      ensures receivedEnd && receivedEndIter && got == Cut(old(got), FlushAndRestart)
      ensures RoundsFolded(folding, got.rounds, sent.rounds, 1)
      ensures Accumulates(folding, accumulators, timestamps, Arrivals(Chunk())) && maxWatermark == MaxMark(Chunk())
    {
      FoldedLess(folding, got.rounds, sent.rounds, got.current);
      receivedEnd, receivedEndIter, got := true, true, Cut(got, FlushAndRestart);
    }

    /** The accumulators become elements, in any order. */
    method Drain()
      requires EndsWithTerminate(input) && Gathered()
      modifies this`accumulators, this`timestamps, this`ready
      ensures Valid()
    {
      ghost var chunk := Chunk();
      ghost var arrived := Arrivals(chunk);
      ready, timestamps := TakeAll(folding, accumulators, timestamps, arrived);
      accumulators := map[];
      Drained(folding, chunk, ready, maxWatermark, sent.current);
    }

    method Emit() returns (e: StreamElement<(K, O)>)
      requires Valid() && receivedEnd
      modifies this`ready, this`maxWatermark, this`receivedEnd, this`receivedEndIter, this`sent
      ensures e.Terminate? || Valid()
      ensures e.Terminate? ==> Ended()
      ensures sent == Cut(old(sent), e)
      ensures e.Terminate? || Work() < old(Work())
    {
      if ready != [] {
        e := Pop();
      } else if maxWatermark.Some? {
        e := PopMark();
      } else if receivedEndIter {
        Restart();
        e := FlushAndRestart;
      } else {
        assert input[..|input|] == input;
        AllEmitted(folding, Chunk(), ready, maxWatermark, sent.current);
        e := Terminate;
      }
    }

    method PopMark() returns (e: StreamElement<(K, O)>)
      requires Valid() && receivedEnd && ready == [] && maxWatermark.Some?
      modifies this`maxWatermark, this`sent
      ensures Valid() && sent == Cut(old(sent), e) && maxWatermark.None? && !e.Terminate?
    {
      EmitMark(folding, Chunk(), ready, maxWatermark, sent.current);
      e, maxWatermark := Watermark(maxWatermark.value), None;
      sent := Cut(sent, e);
    }

    method Pop() returns (e: StreamElement<(K, O)>)
      requires Valid() && receivedEnd && ready != []
      modifies this`ready, this`sent
      ensures Valid() && sent == Cut(old(sent), e) && |ready| < old(|ready|) && !e.Terminate?
    {
      PopReady(folding, Chunk(), ready, maxWatermark, sent.current);
      IsReady(folding, Chunk(), ready, maxWatermark, sent.current);
      e, ready := ready[|ready| - 1], ready[..|ready| - 1];
      sent := Cut(sent, e);
    }

    method Restart()
      requires Valid() && receivedEndIter && ready == [] && maxWatermark.None?
      modifies this`receivedEnd, this`receivedEndIter, this`sent
      ensures Valid() && !receivedEnd && !receivedEndIter && sent == Cut(old(sent), FlushAndRestart)
    {
      AllEmitted(folding, Chunk(), ready, maxWatermark, sent.current);
      FoldedMore(folding, got.rounds, sent.rounds, sent.current);
      NothingAccumulates<K, O, V>(folding);
      receivedEnd, receivedEndIter, sent := false, false, Cut(sent, FlushAndRestart);
    }

    ghost function Work(): nat
      reads this
    {
      |ready| + (if maxWatermark.Some? then 1 else 0) + if receivedEnd then 1 else 0
    }

    /** Everything was received and emitted. */
    ghost predicate Ended()
      reads this
    {
      got == ChunksOf(input) && RoundsFolded(folding, got.rounds, sent.rounds, 0) &&
        IsFolded(folding, got.current, sent.current)
    }

    method Next() returns (e: StreamElement<(K, O)>)
      requires Valid()
      modifies this
      ensures e.Terminate? || Valid()
      ensures e.Terminate? ==> Ended()
      ensures sent == Cut(old(sent), e)
      ensures e.Terminate? || received > old(received) || (received == old(received) && Work() < old(Work()))
    {
      if !receivedEnd {
        Gather();
        Drain();
      }
      e := Emit();
    }
  }

  method TakeAll<K(==, !new), O(==, !new), V(!new)>(f: Folding<O, V>, accumulators: map<K, O>,
      timestamps: map<K, int>, ghost arrived: seq<(K, Arrival<V>)>)
    returns (ready: seq<StreamElement<(K, O)>>, left: map<K, int>)
    requires Accumulates(f, accumulators, timestamps, arrived)
    ensures DrainedTo(f, arrived, map[], ready) && left == map[]
  {
    ready, left := [], timestamps;
    var rest := accumulators;
    NothingDrained(f, accumulators, timestamps, arrived);
    while rest != map[]
      invariant forall k :: k in rest ==> k in accumulators && rest[k] == accumulators[k]
      invariant forall k :: k in left ==> k in timestamps && left[k] == timestamps[k] && k in rest
      invariant forall k :: k in rest && k in timestamps ==> k in left
      invariant DrainedTo(f, arrived, rest, ready)
      decreases |rest|
    {
      var k :| k in rest;
      assert KeyOk(f, accumulators, timestamps, arrived, k);
      var e := if k in left then Timestamped((k, rest[k]), left[k]) else Item((k, rest[k]));
      DrainOne(f, arrived, rest, ready, k, e);
      ready, left, rest := ready + [e], left - {k}, rest - {k};
    }
  }

  lemma NothingDrained<K(!new), O(!new), V>(f: Folding<O, V>, accumulators: map<K, O>, timestamps: map<K, int>,
      arrived: seq<(K, Arrival<V>)>)
    requires Accumulates(f, accumulators, timestamps, arrived)
    ensures DrainedTo(f, arrived, accumulators, []) && forall k :: k in timestamps ==> k in accumulators
  {
    forall e: StreamElement<(K, O)> ensures !(IsElement(f, arrived, e) && e.value.0 !in accumulators) {
      if IsElement(f, arrived, e) { assert KeyOk(f, accumulators, timestamps, arrived, e.value.0); }
    }
    forall k | k in timestamps ensures k in accumulators { assert KeyOk(f, accumulators, timestamps, arrived, k); }
  }

  method DrainAll<K(==, !new), O(==, !new), V(!new)>(fold: KeyedFold<K, O, V>)
    returns (output: seq<StreamElement<(K, O)>>)
    requires fold.Valid() && fold.sent == Chunks([], [])
    modifies fold
    ensures fold.Ended() && fold.sent == ChunksOf(output) && EndsWithTerminate(output)
  {
    output := [];
    while true
      invariant fold.Valid() && fold.sent == ChunksOf(output) && NoneTerminates(output)
      decreases |fold.input| - fold.received, fold.Work()
    {
      var e := fold.Next();
      ChunksAppend(output, e);
      NoneTerminatesAppend(output, e);
      output := output + [e];
      if e.Terminate? { return; }
    }
  }

  /**
    A whole stream: every round becomes, in any order, one element for each of its keys, with the fold of
    the values of the key in their order of arrival and the greatest of their timestamps; then comes the
    greatest watermark.
   */
  method RunKeyedFold<K(==, !new), O(==, !new), V(!new)>(f: Folding<O, V>, input: seq<StreamElement<(K, V)>>)
    returns (output: seq<StreamElement<(K, O)>>)
    requires EndsWithTerminate(input)
    ensures RoundsFolded(f, ChunksOf(input).rounds, ChunksOf(output).rounds, 0)
    ensures IsFolded(f, ChunksOf(input).current, ChunksOf(output).current)
    ensures EndsWithTerminate(output)
  {
    var fold := new KeyedFold(f, input);
    output := DrainAll(fold);
  }
}
