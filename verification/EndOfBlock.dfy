/** The End of a block. */
module EndOfBlock {
  /*
    It routes the messages of the block to the batchers of the next replicas.
   */

  import opened Streams
  import opened Keyed
  import opened Routing
  import opened Batching

  /** What the sender at position p gets for an element; `random` is drawn for the Random strategy. */
  function Sends<Out, B>(s: Strategy<Out>, feedback: Option<nat>, senders: seq<(Endpoint, B)>, p: nat,
      e: StreamElement<Out>, random: nat)
    : seq<StreamElement<Out>>
    requires p < |senders|
  {
    match e
    case FlushBatch => []
    case Terminate => if feedback == Some(senders[p].0.coord.block) then [] else [e]
    case Item(x) => if Chosen(s, senders, p, Index(s, x, random)) then [e] else []
    case Timestamped(x, _) => if Chosen(s, senders, p, Index(s, x, random)) then [e] else []
    case _ => [e]
  }

  /** All that it gets for a stream. */
  function SendsAll<Out, B>(s: Strategy<Out>, feedback: Option<nat>, senders: seq<(Endpoint, B)>, p: nat,
      stream: seq<(StreamElement<Out>, nat)>)
    : seq<StreamElement<Out>>
    requires p < |senders|
  {
    if stream == [] then []
    else
      var (e, random) := stream[|stream| - 1];
      SendsAll(s, feedback, senders, p, stream[..|stream| - 1]) + Sends(s, feedback, senders, p, e, random)
  }

  lemma SendsMore<Out, B>(s: Strategy<Out>, feedback: Option<nat>, senders: seq<(Endpoint, B)>,
      stream: seq<(StreamElement<Out>, nat)>, i: nat)
    requires i < |stream|
    ensures forall p :: 0 <= p < |senders| ==>
      SendsAll(s, feedback, senders, p, stream[..i + 1]) ==
      SendsAll(s, feedback, senders, p, stream[..i]) + Sends(s, feedback, senders, p, stream[i].0, stream[i].1)
  {
    assert stream[..i + 1][..i] == stream[..i];
  }

  predicate IsBroadcast<Out>(e: StreamElement<Out>) { e.Watermark? || e.Terminate? || e.FlushAndRestart? }

  /** The copies of e that p gets when it is sent to these targets in turn. */
  function Copies<Out>(targets: seq<nat>, p: nat, e: StreamElement<Out>): seq<StreamElement<Out>> {
    if targets == [] then []
    else
      var before := Copies(targets[..|targets| - 1], p, e);
      if targets[|targets| - 1] == p then before + [e] else before
  }

  lemma {:induction false} CopiesConcat<Out>(a: seq<nat>, b: seq<nat>, p: nat, e: StreamElement<Out>)
    ensures Copies(a + b, p, e) == Copies(a, p, e) + Copies(b, p, e)
  {
    if b == [] {
      assert a + b == a;
    } else {
      assert (a + b)[..|a + b| - 1] == a + b[..|b| - 1];
      CopiesConcat(a, b[..|b| - 1], p, e);
    }
  }

  /** Without repetitions, there is at most one copy. */
  lemma {:induction false} CopiesOnce<Out>(targets: seq<nat>, p: nat, e: StreamElement<Out>)
    requires forall i, j :: 0 <= i < j < |targets| ==> targets[i] != targets[j]
    ensures Copies(targets, p, e) == if p in targets then [e] else []
  {
    if targets != [] {
      var n := |targets| - 1;
      CopiesOnce(targets[..n], p, e);
      assert targets == targets[..n] + [targets[n]];
    }
  }

  /** The senders of a group that get an element: all of a broadcast but for the head of the loop, or the chosen one. */
  function GroupTargets<B>(feedback: Option<nat>, senders: seq<(Endpoint, B)>, group: seq<nat>, broadcast: bool,
      last: bool, index: nat): seq<nat>
    requires group != [] && forall i :: 0 <= i < |group| ==> group[i] < |senders|
  {
    if !broadcast then [group[index % |group|]]
    else if last then Others(feedback, senders, group)
    else group
  }

  function Others<B>(feedback: Option<nat>, senders: seq<(Endpoint, B)>, group: seq<nat>): seq<nat>
    requires forall i :: 0 <= i < |group| ==> group[i] < |senders|
  {
    if group == [] then []
    else
      var p := group[|group| - 1];
      var before := Others(feedback, senders, group[..|group| - 1]);
      if feedback == Some(senders[p].0.coord.block) then before else before + [p]
  }

  lemma {:induction false} OthersCopies<Out, B>(feedback: Option<nat>, senders: seq<(Endpoint, B)>, group: seq<nat>,
      p: nat, e: StreamElement<Out>)
    requires forall i :: 0 <= i < |group| ==> group[i] < |senders|
    requires p < |senders|
    ensures Copies(Others(feedback, senders, group), p, e) ==
            if feedback == Some(senders[p].0.coord.block) then [] else Copies(group, p, e)
  {
    if group != [] {
      var n := |group| - 1;
      var q := group[n];
      OthersCopies(feedback, senders, group[..n], p, e);
      if feedback != Some(senders[q].0.coord.block) { CopiesMore(Others(feedback, senders, group[..n]), q, p, e); }
      CopiesMore(group[..n], q, p, e);
      assert group == group[..n] + [q];
    }
  }

  lemma CopiesMore<Out>(targets: seq<nat>, q: nat, p: nat, e: StreamElement<Out>)
    ensures Copies(targets + [q], p, e) == if q == p then Copies(targets, p, e) + [e] else Copies(targets, p, e)
  {
    assert (targets + [q])[..|targets|] == targets;
  }

  /** The senders that get an element, group by group. */
  function Targets<B>(feedback: Option<nat>, senders: seq<(Endpoint, B)>, groups: seq<seq<nat>>, broadcast: bool,
      last: bool, index: nat): seq<nat>
    requires AreGroups(groups, |senders|)
  {
    if groups == [] then []
    else
      var n := |groups| - 1;
      Targets(feedback, senders, groups[..n], broadcast, last, index) +
      GroupTargets(feedback, senders, groups[n], broadcast, last, index)
  }

  ghost predicate AreGroups(groups: seq<seq<nat>>, n: nat) {
    forall g :: 0 <= g < |groups| ==> groups[g] != [] && forall i :: 0 <= i < |groups[g]| ==> groups[g][i] < n
  }

  /** A broadcast reaches p in its own group, once. */
  lemma CopiesInGroup<Out>(groups: seq<seq<nat>>, n: nat, p: nat, e: StreamElement<Out>, g: nat, j: nat, h: nat)
    requires IsPartition(groups, n) && IsAt(groups, g, j, p) && h < |groups|
    ensures Copies(groups[h], p, e) == if h == g then [e] else []
  {
    var group := groups[h];
    forall i, i' | 0 <= i < i' < |group| ensures group[i] != group[i'] {
      assert IsAt(groups, h, i, group[i]) && IsAt(groups, h, i', group[i']);
    }
    if i :| 0 <= i < |group| && group[i] == p { assert IsAt(groups, h, i, p); }
    CopiesOnce(group, p, e);
  }

  lemma CopiesOfChosen<Out>(groups: seq<seq<nat>>, n: nat, p: nat, e: StreamElement<Out>, index: nat, g: nat, j: nat,
      h: nat)
    requires IsPartition(groups, n) && IsAt(groups, g, j, p) && h < |groups| && groups[h] != []
    ensures Copies([groups[h][index % |groups[h]|]], p, e) == if h == g && j == index % |groups[h]| then [e] else []
  {
    var i := index % |groups[h]|;
    var q := groups[h][i];
    assert IsAt(groups, h, i, q);
    assert Copies([q], p, e) == if q == p then [e] else [];
  }

  /** What the group with p at place j contributes, and what any other group does. */
  lemma GroupSends<Out, B>(s: Strategy<Out>, feedback: Option<nat>, senders: seq<(Endpoint, B)>,
      groups: seq<seq<nat>>, p: nat,
      e: StreamElement<Out>, random: nat, index: nat, g: nat, j: nat, h: nat)
    requires AreGroups(groups, |senders|) && IsPartition(groups, |senders|) && p < |senders| &&
      IsAt(groups, g, j, p) && h < |groups|
    requires Chosen(s, senders, p, index) <==> j == index % |groups[g]|
    requires !e.FlushBatch? && (e.Item? || e.Timestamped? ==> index == Index(s, e.value, random))
    ensures Copies(GroupTargets(feedback, senders, groups[h], IsBroadcast(e), e.Terminate?, index), p, e) ==
            if h == g then Sends(s, feedback, senders, p, e, random) else []
  {
    CopiesInGroup(groups, |senders|, p, e, g, j, h);
    if e.Terminate? {
      OthersCopies(feedback, senders, groups[h], p, e);
    } else if !IsBroadcast(e) {
      CopiesOfChosen(groups, |senders|, p, e, index, g, j, h);
    }
  }

  /** What all the groups contribute: p gets its messages from its own group only. */
  lemma {:induction false} TargetsSend<Out, B>(s: Strategy<Out>, feedback: Option<nat>, senders: seq<(Endpoint, B)>,
      groups: seq<seq<nat>>, p: nat,
      e: StreamElement<Out>, random: nat, index: nat, g: nat, j: nat, n: nat)
    requires AreGroups(groups, |senders|) && IsPartition(groups, |senders|) && p < |senders| &&
      IsAt(groups, g, j, p) && n <= |groups|
    requires Chosen(s, senders, p, index) <==> j == index % |groups[g]|
    requires !e.FlushBatch? && (e.Item? || e.Timestamped? ==> index == Index(s, e.value, random))
    ensures Copies(Targets(feedback, senders, groups[..n], IsBroadcast(e), e.Terminate?, index), p, e) ==
            if g < n then Sends(s, feedback, senders, p, e, random) else []
  {
    if n == 0 {
      assert groups[..n] == [];
    } else {
      TargetsSend(s, feedback, senders, groups, p, e, random, index, g, j, n - 1);
      TargetsUnfold(feedback, senders, groups, n, p, e, index);
      GroupSends(s, feedback, senders, groups, p, e, random, index, g, j, n - 1);
      assert g < n <==> g < n - 1 || n - 1 == g;
    }
  }

  lemma TargetsUnfold<Out, B>(feedback: Option<nat>, senders: seq<(Endpoint, B)>, groups: seq<seq<nat>>, n: nat, p: nat,
      e: StreamElement<Out>, index: nat)
    requires AreGroups(groups, |senders|) && 0 < n <= |groups|
    ensures Copies(Targets(feedback, senders, groups[..n], IsBroadcast(e), e.Terminate?, index), p, e) ==
            Copies(Targets(feedback, senders, groups[..n - 1], IsBroadcast(e), e.Terminate?, index), p, e) +
            Copies(GroupTargets(feedback, senders, groups[n - 1], IsBroadcast(e), e.Terminate?, index), p, e)
  {
    assert groups[..n][..n - 1] == groups[..n - 1];
    CopiesConcat(Targets(feedback, senders, groups[..n - 1], IsBroadcast(e), e.Terminate?, index),
                 GroupTargets(feedback, senders, groups[n - 1], IsBroadcast(e), e.Terminate?, index), p, e);
  }

  lemma AllTargetsSend<Out, B>(s: Strategy<Out>, feedback: Option<nat>, senders: seq<(Endpoint, B)>,
      groups: seq<seq<nat>>,
      e: StreamElement<Out>, random: nat, index: nat)
    requires IsGrouping(s, senders, groups) && AreGroups(groups, |senders|)
    requires !e.FlushBatch? && (e.Item? || e.Timestamped? ==> index == Index(s, e.value, random))
    ensures forall p :: 0 <= p < |senders| ==>
      Copies(Targets(feedback, senders, groups, IsBroadcast(e), e.Terminate?, index), p, e) ==
        Sends(s, feedback, senders, p, e, random)
  {
    GroupsPartition(s, senders, groups);
    assert groups[..|groups|] == groups;
    forall p | 0 <= p < |senders|
      ensures Copies(Targets(feedback, senders, groups, IsBroadcast(e), e.Terminate?, index), p, e) ==
              Sends(s, feedback, senders, p, e, random)
    {
      assert Occurs(groups, p);
      var g, j :| IsAt(groups, g, j, p);
      ChosenInGroup(s, senders, groups, index, g, j, p);
      TargetsSend(s, feedback, senders, groups, p, e, random, index, g, j, |groups|);
    }
  }

  predicate InRange(positions: seq<nat>, n: nat) { forall i :: 0 <= i < |positions| ==> positions[i] < n }

  lemma InRangeConcat(a: seq<nat>, b: seq<nat>, n: nat)
    requires InRange(a, n) && InRange(b, n)
    ensures InRange(a + b, n)
  {
  }

  lemma {:induction false} TargetsInRange<B>(feedback: Option<nat>, senders: seq<(Endpoint, B)>, groups: seq<seq<nat>>,
      broadcast: bool, last: bool, index: nat)
    requires AreGroups(groups, |senders|)
    ensures InRange(Targets(feedback, senders, groups, broadcast, last, index), |senders|)
  {
    if groups != [] {
      var n := |groups| - 1;
      TargetsInRange(feedback, senders, groups[..n], broadcast, last, index);
      OthersInRange(feedback, senders, groups[n]);
      InRangeConcat(Targets(feedback, senders, groups[..n], broadcast, last, index),
                    GroupTargets(feedback, senders, groups[n], broadcast, last, index), |senders|);
    }
  }

  lemma {:induction false} OthersInRange<B>(feedback: Option<nat>, senders: seq<(Endpoint, B)>, group: seq<nat>)
    requires forall i :: 0 <= i < |group| ==> group[i] < |senders|
    ensures InRange(Others(feedback, senders, group), |senders|)
  {
    if group != [] {
      var n := |group| - 1;
      OthersInRange(feedback, senders, group[..n]);
      InRangeConcat(Others(feedback, senders, group[..n]),
        if feedback == Some(senders[group[n]].0.coord.block) then [] else [group[n]], |senders|);
    }
  }

  // The operator -----------------------------------------------------------------------------------

  ghost predicate AreBatchers<Out>(batchers: seq<Batcher<Out>>)
    reads batchers
  {
    && (forall i, j :: 0 <= i < j < |batchers| ==> batchers[i] != batchers[j])
    && forall i :: 0 <= i < |batchers| ==> batchers[i].Valid()
  }

  method MakeBatchers<Out>(n: nat, mode: BatchMode) returns (batchers: seq<Batcher<Out>>)
    requires mode.MaxSize() > 0
    ensures |batchers| == n && AreBatchers(batchers)
    ensures forall i :: 0 <= i < n ==> fresh(batchers[i]) && batchers[i].All() == [] && batchers[i].mode == mode
  {
    batchers := [];
    for k := 0 to n
      invariant |batchers| == k && AreBatchers(batchers)
      invariant forall i :: 0 <= i < k ==> fresh(batchers[i]) && batchers[i].All() == [] && batchers[i].mode == mode
    {
      var batcher := new Batcher(mode);
      batchers := batchers + [batcher];
    }
  }

  /** Give a message to one batcher. */
  method EnqueueAt<Out>(batchers: seq<Batcher<Out>>, p: nat, e: StreamElement<Out>)
    requires AreBatchers(batchers) && p < |batchers|
    modifies batchers[p]
    ensures AreBatchers(batchers)
    ensures forall q :: 0 <= q < |batchers| ==>
      batchers[q].All() == if p == q then old(batchers[q].All()) + [e] else old(batchers[q].All())
  {
    var elapsed: bool := *;
    batchers[p].Enqueue(e, elapsed);
  }

  lemma OneMoreCopy<Out>(before: seq<StreamElement<Out>>, targets: seq<nat>, i: nat, p: nat, e: StreamElement<Out>)
    requires i < |targets|
    ensures before + Copies(targets[..i + 1], p, e) ==
            if targets[i] == p then before + Copies(targets[..i], p, e) + [e] else before + Copies(targets[..i], p, e)
  {
    assert targets[..i + 1][..i] == targets[..i];
  }

  /** Give a message to some batchers, in turn. */
  method EnqueueAll<Out>(batchers: seq<Batcher<Out>>, targets: seq<nat>, e: StreamElement<Out>)
    requires AreBatchers(batchers) && InRange(targets, |batchers|)
    modifies batchers
    ensures AreBatchers(batchers)
    ensures forall p :: 0 <= p < |batchers| ==> batchers[p].All() == old(batchers[p].All()) + Copies(targets, p, e)
  {
    for i := 0 to |targets|
      invariant AreBatchers(batchers)
      invariant forall p :: 0 <= p < |batchers| ==>
        batchers[p].All() == old(batchers[p].All()) + Copies(targets[..i], p, e)
    {
      forall p | 0 <= p < |batchers|
        ensures old(batchers[p].All()) + Copies(targets[..i + 1], p, e) ==
                if targets[i] == p then batchers[p].All() + [e] else batchers[p].All()
      {
        OneMoreCopy(old(batchers[p].All()), targets, i, p, e);
      }
      EnqueueAt(batchers, targets[i], e);
    }
    assert targets[..|targets|] == targets;
  }

  /** B is the sending half of a channel; the batcher at the same position fills it. */
  class End<Out, B> {
    const strategy: Strategy<Out>
    const feedback: Option<nat>        // the head of the loop, if this block is its end
    var senders: seq<(Endpoint, B)>
    var batchers: seq<Batcher<Out>>
    var groups: seq<seq<nat>>

    ghost predicate Valid()
      reads this, batchers
    {
      IsGrouping(strategy, senders, groups) && AreGroups(groups, |senders|) && |batchers| == |senders| &&
        AreBatchers(batchers)
    }

    constructor (strategy: Strategy<Out>, feedback: Option<nat>, senders: seq<(Endpoint, B)>, mode: BatchMode)
      requires strategy.OnlyOne? ==> forall b :: |EndpointsOf(senders, b)| <= 1
      requires mode.MaxSize() > 0
      ensures Valid() && this.strategy == strategy && this.feedback == feedback
      ensures this.senders == Sort(EndpointOrder(), senders) && |batchers| == |this.senders|
      ensures forall i :: 0 <= i < |batchers| ==>
        fresh(batchers[i]) && batchers[i].All() == [] && batchers[i].mode == mode
    {
      var sorted, groups := SetupSenders(strategy, senders);
      GroupsAreGroups(strategy, sorted, groups);
      var batchers := MakeBatchers<Out>(|sorted|, mode);
      this.strategy, this.feedback := strategy, feedback;
      this.senders, this.groups, this.batchers := sorted, groups, batchers;
    }

    /** An element of the block; the one that is returned tells only its kind. */
    method Next(e: StreamElement<Out>, random: nat) returns (kind: StreamElement<()>)
      requires Valid()
      modifies batchers
      ensures Valid()
      ensures forall p :: 0 <= p < |batchers| ==>
        batchers[p].All() == old(batchers[p].All()) + Sends(strategy, feedback, senders, p, e, random)
      ensures e.FlushBatch? || e.FlushAndRestart? || e.Terminate? ==> AllSent(batchers)
      ensures kind == Kind(e)
    {
      if !e.FlushBatch? {
        var index := if e.Item? || e.Timestamped? then Index(strategy, e.value, random) else 0;
        AllTargetsSend(strategy, feedback, senders, groups, e, random, index);
        TargetsInRange(feedback, senders, groups, IsBroadcast(e), e.Terminate?, index);
        EnqueueAll(batchers, Targets(feedback, senders, groups, IsBroadcast(e), e.Terminate?, index), e);
      }
      if e.FlushBatch? || e.FlushAndRestart? || e.Terminate? { FlushEach(batchers, e.Terminate?); }
      kind := Kind(e);
    }

    /** A stream of the block from its beginning, while the timer runs between the elements. */
    method Run(stream: seq<(StreamElement<Out>, nat)>, timer: nat -> seq<(nat, bool)>)
      requires Valid() && forall p :: 0 <= p < |batchers| ==> batchers[p].All() == []
      modifies batchers
      ensures Valid()
      ensures forall p :: 0 <= p < |batchers| ==> batchers[p].All() == SendsAll(strategy, feedback, senders, p, stream)
      ensures stream != [] && stream[|stream| - 1].0.Terminate? ==> AllSent(batchers)
    {
      for i := 0 to |stream|
        invariant Valid()
        invariant forall p ::
          0 <= p < |batchers| ==> batchers[p].All() == SendsAll(strategy, feedback, senders, p, stream[..i])
        invariant i > 0 && stream[i - 1].0.Terminate? ==> AllSent(batchers)
      {
        Step(stream, i, timer(i));
      }
      assert stream[..|stream|] == stream;
    }

    method Step(stream: seq<(StreamElement<Out>, nat)>, i: nat, ticks: seq<(nat, bool)>)
      requires Valid() && i < |stream|
      requires forall p :: 0 <= p < |batchers| ==>
        batchers[p].All() == SendsAll(strategy, feedback, senders, p, stream[..i])
      modifies batchers
      ensures Valid()
      ensures forall p :: 0 <= p < |batchers| ==>
        batchers[p].All() == SendsAll(strategy, feedback, senders, p, stream[..i + 1])
      ensures stream[i].0.Terminate? ==> AllSent(batchers)
    {
      SendsMore(strategy, feedback, senders, stream, i);
      TickAndNext(ticks, stream[i].0, stream[i].1);
    }

    method TickAndNext(ticks: seq<(nat, bool)>, e: StreamElement<Out>, random: nat)
      requires Valid()
      modifies batchers
      ensures Valid()
      ensures forall p :: 0 <= p < |batchers| ==>
        batchers[p].All() == old(batchers[p].All()) + Sends(strategy, feedback, senders, p, e, random)
      ensures e.FlushBatch? || e.FlushAndRestart? || e.Terminate? ==> AllSent(batchers)
    {
      Ticks(batchers, ticks);
      var kind := Next(e, random);
    }
  }

  ghost predicate AllSent<Out>(batchers: seq<Batcher<Out>>)
    reads batchers
  {
    forall p :: 0 <= p < |batchers| ==> batchers[p].buffer == []
  }

  /** The batches that the channels were given. */
  method Sent<Out>(batchers: seq<Batcher<Out>>) returns (batches: seq<seq<seq<StreamElement<Out>>>>)
    ensures |batches| == |batchers| && forall p :: 0 <= p < |batches| ==> batches[p] == batchers[p].sent
  {
    batches := seq(|batchers|, p requires 0 <= p < |batchers| reads batchers => batchers[p].sent);
  }

  lemma GroupsAreGroups<Out, B>(s: Strategy<Out>, senders: seq<(Endpoint, B)>, groups: seq<seq<nat>>)
    requires IsGrouping(s, senders, groups)
    ensures AreGroups(groups, |senders|)
  {
    GroupsPartition(s, senders, groups);
    forall g, i | 0 <= g < |groups| && 0 <= i < |groups[g]|
      ensures groups[g][i] < |senders| { assert IsAt(groups, g, i, groups[g][i]); }
  }

  /** Flush all batchers, or end them. */
  method FlushEach<Out>(batchers: seq<Batcher<Out>>, last: bool)
    requires AreBatchers(batchers)
    modifies batchers
    ensures AreBatchers(batchers)
    ensures AllSent(batchers) && forall p :: 0 <= p < |batchers| ==> batchers[p].All() == old(batchers[p].All())
  {
    for i := 0 to |batchers|
      invariant AreBatchers(batchers)
      invariant forall p :: 0 <= p < |batchers| ==>
        batchers[p].All() == old(batchers[p].All()) && (p < i ==> batchers[p].buffer == [])
    {
      if last { batchers[i].End(); } else { batchers[i].Flush(); }
    }
  }

  /** The timer thread flushes these batchers; it fails where the channel is full. */
  method Ticks<Out>(batchers: seq<Batcher<Out>>, ticks: seq<(nat, bool)>)
    requires AreBatchers(batchers)
    modifies batchers
    ensures AreBatchers(batchers)
    ensures forall p :: 0 <= p < |batchers| ==> batchers[p].All() == old(batchers[p].All())
  {
    for i := 0 to |ticks|
      invariant AreBatchers(batchers)
      invariant forall p :: 0 <= p < |batchers| ==> batchers[p].All() == old(batchers[p].All())
    {
      var (p, full) := ticks[i];
      if p < |batchers| { var done := batchers[p].TryFlush(full); }
    }
  }

  /**
    A whole stream: every next replica gets, in batches that are neither empty nor too long, exactly the
    messages that are for it, in order, however the network lists the connections, whatever the timer does.
   */
  method RunEnd<Out, B>(strategy: Strategy<Out>, feedback: Option<nat>, senders: seq<(Endpoint, B)>, mode: BatchMode,
      stream: seq<(StreamElement<Out>, nat)>, timer: nat -> seq<(nat, bool)>)
    returns (sorted: seq<(Endpoint, B)>, batches: seq<seq<seq<StreamElement<Out>>>>)
    requires strategy.OnlyOne? ==> forall b :: |EndpointsOf(senders, b)| <= 1
    requires mode.MaxSize() > 0 && stream != [] && stream[|stream| - 1].0.Terminate?
    ensures sorted == Sort(EndpointOrder(), senders) && |batches| == |sorted|
    ensures forall p :: 0 <= p < |sorted| ==>
      Flatten(batches[p]) == SendsAll(strategy, feedback, sorted, p, stream) && AreBatches(batches[p], mode.MaxSize())
  {
    var end := new End(strategy, feedback, senders, mode);
    sorted := end.senders;
    end.Run(stream, timer);
    batches := Sent(end.batchers);
    assert |batches| == |sorted|;
    forall p | 0 <= p < |sorted|
      ensures Flatten(batches[p]) == SendsAll(strategy, feedback, sorted, p, stream) &&
        AreBatches(batches[p], mode.MaxSize())
    {
      assert end.batchers[p].Valid() && Flatten(batches[p]) == end.batchers[p].All();
    }
  }

  // Round by round ---------------------------------------------------------------------------------

  /** The stream, without the numbers drawn for it. */
  function Elements<Out>(stream: seq<(StreamElement<Out>, nat)>): seq<StreamElement<Out>> {
    if stream == [] then [] else [stream[0].0] + Elements(stream[1..])
  }

  /** The items that the sender at position p gets. */
  function Kept<Out, B>(s: Strategy<Out>, senders: seq<(Endpoint, B)>, p: nat, items: seq<Out>): seq<Out>
    requires p < |senders|
  {
    if items == [] then []
    else
      var x := items[|items| - 1];
      var before := Kept(s, senders, p, items[..|items| - 1]);
      if Chosen(s, senders, p, Index(s, x, 0)) then before + [x] else before
  }

  function KeptOfEach<Out, B>(s: Strategy<Out>, senders: seq<(Endpoint, B)>, p: nat,
      rounds: seq<seq<Out>>): (kept: seq<seq<Out>>)
    requires p < |senders|
    ensures |kept| == |rounds| && forall i :: 0 <= i < |kept| ==> kept[i] == Kept(s, senders, p, rounds[i])
  {
    if rounds == [] then [] else [Kept(s, senders, p, rounds[0])] + KeptOfEach(s, senders, p, rounds[1..])
  }

  lemma {:induction false} SendsFirst<Out, B>(s: Strategy<Out>, feedback: Option<nat>, senders: seq<(Endpoint, B)>,
      p: nat,
      stream: seq<(StreamElement<Out>, nat)>)
    requires p < |senders| && stream != []
    ensures SendsAll(s, feedback, senders, p, stream) ==
            Sends(s, feedback, senders, p, stream[0].0, stream[0].1) + SendsAll(s, feedback, senders, p, stream[1..])
  {
    var n := |stream| - 1;
    if n > 0 {
      SendsFirst(s, feedback, senders, p, stream[..n]);
      assert stream[..n][1..] == stream[1..][..n - 1];
    }
  }

  /** What is sent to one receiver has the rounds of the stream, each with the items for this receiver. */
  lemma {:induction false} RoundsSent<Out, B>(s: Strategy<Out>, senders: seq<(Endpoint, B)>, p: nat,
      stream: seq<(StreamElement<Out>, nat)>,
      current: seq<Out>)
    requires p < |senders| && !s.Random?
    ensures Rounds(SendsAll(s, None, senders, p, stream), Kept(s, senders, p, current)) ==
            KeptOfEach(s, senders, p, Rounds(Elements(stream), current))
  {
    if stream != [] {
      var (e, random) := stream[0];
      SendsFirst(s, None, senders, p, stream);
      RoundsAfter([e], Elements(stream[1..]), current);
      RoundsSent(s, senders, p, stream[1..], CurrentAfter(current, e));
      RoundsSentFirst(s, senders, p, e, random, SendsAll(s, None, senders, p, stream[1..]), Elements(stream[1..]),
        current);
    }
  }

  /** The items of the round so far, after an element. */
  function CurrentAfter<T>(current: seq<T>, e: StreamElement<T>): seq<T> {
    if e.Item? then current + [e.value] else if e.FlushAndRestart? then [] else current
  }

  lemma RoundsSentFirst<Out, B>(s: Strategy<Out>, senders: seq<(Endpoint, B)>, p: nat, e: StreamElement<Out>,
      random: nat,
      sent: seq<StreamElement<Out>>, rest: seq<StreamElement<Out>>, current: seq<Out>)
    requires p < |senders| && !s.Random?
    requires Rounds(sent, Kept(s, senders, p, CurrentAfter(current, e))) ==
            KeptOfEach(s, senders, p, Rounds(rest, CurrentAfter(current, e)))
    ensures Rounds(Sends(s, None, senders, p, e, random) + sent, Kept(s, senders, p, current)) ==
            KeptOfEach(s, senders, p, Rounds([e] + rest, current))
  {
    RoundsAfter([e], rest, current);
    RoundsAfter(Sends(s, None, senders, p, e, random), sent, Kept(s, senders, p, current));
    match e
    case Item(x) => KeptAppend(s, senders, p, current, x);
    case FlushAndRestart => assert ([current] + Rounds(rest, []))[1..] == Rounds(rest, []);
    case _ =>
  }

  lemma KeptAppend<Out, B>(s: Strategy<Out>, senders: seq<(Endpoint, B)>, p: nat, items: seq<Out>, x: Out)
    requires p < |senders|
    ensures Kept(s, senders, p, items + [x]) ==
            if Chosen(s, senders, p, Index(s, x, 0)) then Kept(s, senders, p, items) + [x]
              else Kept(s, senders, p, items)
  {
    assert (items + [x])[..|items|] == items;
  }

  lemma RoundsAfter<T>(a: seq<StreamElement<T>>, rest: seq<StreamElement<T>>, current: seq<T>)
    requires |a| <= 1
    ensures Rounds(a + rest, current) ==
            if a == [] then Rounds(rest, current)
            else if a[0].Terminate? then []
            else if a[0].FlushAndRestart? then [current] + Rounds(rest, [])
            else if a[0].Item? then Rounds(rest, current + [a[0].value])
            else Rounds(rest, current)
  {
    if a == [] { assert a + rest == rest; } else { assert (a + rest)[1..] == rest; }
  }
}
