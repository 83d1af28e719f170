/** Where the elements of a block go, with and without times. */
module TimedDelivery {
  import opened Streams
  import opened Keyed
  import opened Routing
  import opened EndOfBlock
  import opened Delivery

  // One element ------------------------------------------------------------------------------------

  /** Which of n senders gets an item: it is drawn, or that of its key, or the first one. */
  function PlaceInGroup<Out>(s: Strategy<Out>, x: Out, random: nat, n: nat): nat
    requires n > 0
  {
    if s.Random? then random % n else if s.GroupBy? then s.index(x) % n else 0
  }

  /** In each group one sender gets an item, whether it has a time or not; and the item keeps its time. */
  lemma ItemInGroup<Out, B>(s: Strategy<Out>, feedback: Option<nat>, senders: seq<(Endpoint, B)>,
      groups: seq<seq<nat>>, g: nat, j: nat, x: Out, random: nat)
    requires IsGrouping(s, senders, groups) && g < |groups| && j < |groups[g]|
    ensures groups[g][j] < |senders|
    ensures Sends(s, feedback, senders, groups[g][j], Item(x), random) ==
            if j == PlaceInGroup(s, x, random, |groups[g]|) then [Item(x)] else []
    ensures forall ts ::
      Sends(s, feedback, senders, groups[g][j], Timestamped(x, ts), random) ==
        if j == PlaceInGroup(s, x, random, |groups[g]|) then [Timestamped(x, ts)] else []
  {
    assert IsAt(groups, g, j, groups[g][j]);
    ChosenInGroup(s, senders, groups, Index(s, x, random), g, j, groups[g][j]);
    PlaceIsIndex(s, x, random, |groups[g]|);
  }

  lemma PlaceIsIndex<Out>(s: Strategy<Out>, x: Out, random: nat, n: nat)
    requires n > 0
    ensures PlaceInGroup(s, x, random, n) == Index(s, x, random) % n
  {
  }

  /**
    The other elements go to all the senders; but Terminate does not go back to the head of the loop, and
    the end of a batch goes nowhere.
   */
  lemma SignalsToAll<Out, B>(s: Strategy<Out>, feedback: Option<nat>, senders: seq<(Endpoint, B)>, p: nat, random: nat)
    requires p < |senders|
    ensures forall ts :: Sends(s, feedback, senders, p, Watermark(ts), random) == [Watermark(ts)]
    ensures Sends(s, feedback, senders, p, FlushAndRestart, random) == [FlushAndRestart]
    ensures Sends(s, feedback, senders, p, FlushBatch, random) == []
    ensures Sends(s, feedback, senders, p, Terminate, random) ==
            if feedback == Some(senders[p].0.coord.block) then [] else [Terminate]
  {
  }

  // Items with and without times -------------------------------------------------------------------

  /** An item together with its time, if it has one, becomes an item without. */
  function Stamp<T, U>(g: (T, Option<int>) -> U, e: StreamElement<T>): StreamElement<U> {
    match e
    case Item(x) => Item(g(x, None))
    case Timestamped(x, ts) => Item(g(x, Some(ts)))
    case Watermark(ts) => Watermark(ts)
    case FlushBatch => FlushBatch
    case Terminate => Terminate
    case FlushAndRestart => FlushAndRestart
  }

  function StampAll<T, U>(g: (T, Option<int>) -> U, s: seq<StreamElement<T>>): (stamped: seq<StreamElement<U>>)
    ensures |stamped| == |s| && forall i :: 0 <= i < |s| ==> stamped[i] == Stamp(g, s[i])
  {
    seq(|s|, i requires 0 <= i < |s| => Stamp(g, s[i]))
  }

  function StampStream<T, U>(g: (T, Option<int>) -> U, stream: seq<(StreamElement<T>, nat)>)
      : (stamped: seq<(StreamElement<U>, nat)>)
    ensures |stamped| == |stream|
    ensures forall i :: 0 <= i < |stream| ==> stamped[i] == (Stamp(g, stream[i].0), stream[i].1)
  {
    seq(|stream|, i requires 0 <= i < |stream| => (Stamp(g, stream[i].0), stream[i].1))
  }

  /** The time of an item does not matter to the strategy. */
  ghost predicate SameIndexes<T(!new), U>(g: (T, Option<int>) -> U, s: Strategy<T>, s': Strategy<U>) {
    (s.All? <==> s'.All?) && forall x, t, random :: Index(s', g(x, t), random) == Index(s, x, random)
  }

  /** Items go where they would go without their times, and take them with them. */
  lemma {:induction false} SendsStamped<T(!new), U, B>(g: (T, Option<int>) -> U, s: Strategy<T>, s': Strategy<U>,
      feedback: Option<nat>, senders: seq<(Endpoint, B)>, p: nat, stream: seq<(StreamElement<T>, nat)>)
    requires p < |senders| && SameIndexes(g, s, s')
    ensures StampAll(g, SendsAll(s, feedback, senders, p, stream)) ==
            SendsAll(s', feedback, senders, p, StampStream(g, stream))
  {
    if stream != [] {
      var n := |stream| - 1;
      SendsStamped(g, s, s', feedback, senders, p, stream[..n]);
      assert StampStream(g, stream)[..n] == StampStream(g, stream[..n]);
      OneStamped(g, s, s', feedback, senders, p, stream[n].0, stream[n].1);
      StampConcat(g, SendsAll(s, feedback, senders, p, stream[..n]),
        Sends(s, feedback, senders, p, stream[n].0, stream[n].1));
    }
  }

  lemma OneStamped<T(!new), U, B>(g: (T, Option<int>) -> U, s: Strategy<T>, s': Strategy<U>, feedback: Option<nat>,
      senders: seq<(Endpoint, B)>, p: nat, e: StreamElement<T>, random: nat)
    requires p < |senders| && SameIndexes(g, s, s')
    ensures StampAll(g, Sends(s, feedback, senders, p, e, random)) ==
            Sends(s', feedback, senders, p, Stamp(g, e), random)
  {
    match e
    case Item(x) => assert Index(s', g(x, None), random) == Index(s, x, random);
    case Timestamped(x, ts) => assert Index(s', g(x, Some(ts)), random) == Index(s, x, random);
    case _ =>
  }

  lemma StampConcat<T, U>(g: (T, Option<int>) -> U, a: seq<StreamElement<T>>, b: seq<StreamElement<T>>)
    ensures StampAll(g, a + b) == StampAll(g, a) + StampAll(g, b)
  {
  }

  lemma {:induction false} StampElements<T, U>(g: (T, Option<int>) -> U, stream: seq<(StreamElement<T>, nat)>)
    ensures Elements(StampStream(g, stream)) == StampAll(g, Elements(stream))
  {
    if stream != [] {
      StampElements(g, stream[1..]);
      assert StampStream(g, stream)[1..] == StampStream(g, stream[1..]);
      StampConcat(g, [stream[0].0], Elements(stream[1..]));
    }
  }

  /** What is sent to one receiver has the rounds of the stream, each with the items for it and their times. */
  lemma TimedRoundsSent<T(!new), U, B>(g: (T, Option<int>) -> U, s: Strategy<T>, s': Strategy<U>,
      senders: seq<(Endpoint, B)>, p: nat, stream: seq<(StreamElement<T>, nat)>)
    requires p < |senders| && !s.Random? && !s'.Random? && SameIndexes(g, s, s')
    ensures Rounds(StampAll(g, SendsAll(s, None, senders, p, stream)), []) ==
            KeptOfEach(s', senders, p, Rounds(StampAll(g, Elements(stream)), []))
  {
    SendsStamped(g, s, s', None, senders, p, stream);
    StampElements(g, stream);
    RoundsSent(s', senders, p, StampStream(g, stream), []);
  }

  // What the replicas get -------------------------------------------------------------------------------

  /** The stream of a replica, in which the items carry their times, if they have one. */
  function StampUp<T, U, B>(g: (T, Option<int>) -> U, up: Upstream<T, B>): Upstream<U, B> {
    Upstream(up.coord, up.senders, StampStream(g, up.stream))
  }

  function StampUps<T, U, B>(g: (T, Option<int>) -> U, ups: seq<Upstream<T, B>>): (stamped: seq<Upstream<U, B>>)
    ensures |stamped| == |ups| && forall i :: 0 <= i < |ups| ==> stamped[i] == StampUp(g, ups[i])
  {
    seq(|ups|, i requires 0 <= i < |ups| => StampUp(g, ups[i]))
  }

  /** What the end of a replica sends to a replica of the next block in a round, with the times. */
  function TimedSentTo<T, U, B>(g: (T, Option<int>) -> U, s: Strategy<T>, up: Upstream<T, B>, to: Coord, i: nat)
      : seq<U> {
    var sorted := Sort(EndpointOrder(), up.senders);
    var p := PositionOf(sorted, to);
    if p < |sorted| then RoundOf(StampAll(g, SendsAll(s, None, sorted, p, up.stream)), i) else []
  }

  function TimedAllSentTo<T, U, B>(g: (T, Option<int>) -> U, s: Strategy<T>, ups: seq<Upstream<T, B>>, to: Coord,
    i: nat)
      : seq<U> {
    if ups == [] then []
    else TimedAllSentTo(g, s, ups[..|ups| - 1], to, i) + TimedSentTo(g, s, ups[|ups| - 1], to, i)
  }

  /** The items of a round of all replicas, with their times. */
  function TimedItemsFrom<T, U, B>(g: (T, Option<int>) -> U, ups: seq<Upstream<T, B>>, i: nat): seq<U> {
    if ups == [] then []
    else TimedItemsFrom(g, ups[..|ups| - 1], i) + RoundOf(StampAll(g, Elements(ups[|ups| - 1].stream)), i)
  }

  lemma TimedIsStamped<T(!new), U, B>(g: (T, Option<int>) -> U, s: Strategy<T>, s': Strategy<U>, up: Upstream<T, B>,
      to: Coord, i: nat)
    requires SameIndexes(g, s, s')
    ensures TimedSentTo(g, s, up, to, i) == SentTo(s', StampUp(g, up), to, i)
    ensures RoundOf(StampAll(g, Elements(up.stream)), i) == RoundOf(Elements(StampUp(g, up).stream), i)
  {
    var sorted := Sort(EndpointOrder(), up.senders);
    var p := PositionOf(sorted, to);
    if p < |sorted| { SendsStamped(g, s, s', None, sorted, p, up.stream); }
    StampElements(g, up.stream);
  }

  lemma {:induction false} AllTimedIsStamped<T(!new), U, B>(g: (T, Option<int>) -> U, s: Strategy<T>, s': Strategy<U>,
      ups: seq<Upstream<T, B>>, to: Coord, i: nat)
    requires SameIndexes(g, s, s')
    ensures TimedAllSentTo(g, s, ups, to, i) == AllSentTo(s', StampUps(g, ups), to, i)
    ensures TimedItemsFrom(g, ups, i) == ItemsFrom(StampUps(g, ups), i)
  {
    if ups != [] {
      var n := |ups| - 1;
      AllTimedIsStamped(g, s, s', ups[..n], to, i);
      TimedIsStamped(g, s, s', ups[n], to, i);
      assert StampUps(g, ups)[..n] == StampUps(g, ups[..n]);
    }
  }

  lemma StampedAreConnected<T, U, B>(g: (T, Option<int>) -> U, onlyOne: bool, ups: seq<Upstream<T, B>>, block: nat,
      replicas: seq<Coord>)
    requires AreConnected(onlyOne, ups, block, replicas)
    ensures AreConnected(onlyOne, StampUps(g, ups), block, replicas)
  {
    forall i | 0 <= i < |ups| ensures IsConnected(onlyOne, StampUps(g, ups)[i], block, replicas) {
      assert IsConnected(onlyOne, ups[i], block, replicas);
    }
  }

  /** The value of a keyed item with its time. */
  function WithKey<K, V>(): ((K, V), Option<int>) -> (K, (V, Option<int>)) {
    (x: (K, V), t: Option<int>) => (x.0, (x.1, t))
  }

  function WithTime<T>(): (T, Option<int>) -> (T, Option<int>) { (x: T, t: Option<int>) => (x, t) }

  /** By key: all the items of a key, with their times, go to the replica of its hash and to no other. */
  lemma TimedByKey<K(!new), V(!new), B>(hash: K -> nat, ups: seq<Upstream<(K, V), B>>, block: nat,
      replicas: seq<Coord>, i: nat, j: nat, k: K)
    requires AreConnected(false, ups, block, replicas) && IsReplicas(block, replicas) && j < |replicas|
    ensures ItemsOf(TimedAllSentTo(WithKey(), ByKey(hash), ups, replicas[j], i), k) ==
      if hash(k) % |replicas| == j then ItemsOf(TimedItemsFrom(WithKey(), ups, i), k) else []
  {
    AllTimedIsStamped(WithKey(), ByKey(hash), ByKey(hash), ups, replicas[j], i);
    StampedAreConnected(WithKey(), false, ups, block, replicas);
    SentByKey(hash, StampUps(WithKey(), ups), block, replicas, i, j, k);
  }

  /** By broadcast: every replica gets all the items with their times. */
  lemma TimedToAll<T(!new), B>(ups: seq<Upstream<T, B>>, block: nat, replicas: seq<Coord>, i: nat, j: nat)
    requires AreConnected(false, ups, block, replicas) && IsReplicas(block, replicas) && j < |replicas|
    ensures TimedAllSentTo(WithTime(), All, ups, replicas[j], i) == TimedItemsFrom(WithTime(), ups, i)
  {
    AllTimedIsStamped(WithTime(), All, All, ups, replicas[j], i);
    StampedAreConnected(WithTime(), false, ups, block, replicas);
    SentToAll(StampUps(WithTime(), ups), block, replicas, i, j);
  }

  /** Without shuffle: all the items of a replica, with their times, go to one and the same receiver. */
  lemma TimedToOne<T(!new), B>(up: Upstream<T, B>, block: nat, replicas: seq<Coord>, i: nat) returns (d: nat)
    requires IsConnected(true, up, block, replicas) && IsReplicas(block, replicas) &&
      Reached(true, up.coord, block, replicas) != []
    ensures d < |replicas|
    ensures forall j :: 0 <= j < |replicas| ==>
      TimedSentTo(WithTime(), OnlyOne, up, replicas[j], i) ==
        if j == d then RoundOf(StampAll(WithTime(), Elements(up.stream)), i) else []
  {
    d := SentToOne(StampUp(WithTime(), up), block, replicas, i);
    forall j | 0 <= j < |replicas|
      ensures TimedSentTo(WithTime(), OnlyOne, up, replicas[j], i) ==
        if j == d then RoundOf(StampAll(WithTime(), Elements(up.stream)), i) else []
    {
      TimedIsStamped(WithTime(), OnlyOne, OnlyOne, up, replicas[j], i);
    }
  }
}
