/** The leader of an iteration. */
module IterationLeader {
  /*
    The operator IterationLeader and, at the other end of its input channel, IterationEnd.
   */

  import opened Streams

  // What the leader computes -----------------------------------------------------------------------

  /** The user's closures and the parameters of the loop. */
  datatype Loop<!S, !D> = Loop(
    replicas: nat,                  // number of IterationEnd replicas
    maxIterations: nat,
    initial: S,
    globalFold: (S, D) -> S,
    condition: S -> (S, bool))

  /** A message to the Iterate replicas, with the final state when the run is over. */
  datatype Decision<+S> = GoOn(state: S) | Finish(result: S)

  function FoldAll<S, D>(l: Loop<S, D>, state: S, deltas: seq<D>): S {
    if deltas == [] then state else FoldAll(l, l.globalFold(state, deltas[0]), deltas[1..])
  }

  /** The decision after a round, when `rounds` rounds of the run are done. */
  function Decide<S, D>(l: Loop<S, D>, state: S, rounds: nat): Decision<S> {
    var (state', condition) := l.condition(state);
    if condition && rounds < l.maxIterations then GoOn(state') else Finish(state')
  }

  /** All decisions: each one folds one delta per replica; a finished run starts over from the initial state. */
  function Decisions<S, D>(l: Loop<S, D>, state: S, done: nat, deltas: seq<D>): seq<Decision<S>>
    requires l.replicas > 0
    decreases |deltas|
  {
    if |deltas| < l.replicas then []
    else
      var d := Decide(l, FoldAll(l, state, deltas[..l.replicas]), done + 1);
      var rest := deltas[l.replicas..];
      [d] + if d.GoOn? then Decisions(l, d.state, done + 1, rest) else Decisions(l, l.initial, 0, rest)
  }

  /** What is broadcast for a decision: at the end of a run the replicas get the initial state back. */
  function Feedback<S, D>(l: Loop<S, D>, d: Decision<S>): (bool, S) {
    if d.GoOn? then (true, d.state) else (false, l.initial)
  }

  function Feedbacks<S, D>(l: Loop<S, D>, ds: seq<Decision<S>>): seq<(bool, S)> {
    if ds == [] then [] else [Feedback(l, ds[0])] + Feedbacks(l, ds[1..])
  }

  /** What leaves the leader: the final state of each run, and the end of that run. */
  function Results<S>(ds: seq<Decision<S>>): seq<StreamElement<S>> {
    if ds == [] then []
    else if ds[0].GoOn? then Results(ds[1..])
    else [Item(ds[0].result), FlushAndRestart] + Results(ds[1..])
  }

  /** The deltas of a stream, up to its end. */
  function Deltas<D>(input: seq<StreamElement<D>>): seq<D> {
    if input == [] || input[0].Terminate? then []
    else if input[0].Item? then [input[0].value] + Deltas(input[1..])
    else Deltas(input[1..])
  }

  /** What the leader may receive: anything but timestamped elements, and the end of the stream. */
  predicate IsDeltaStream<D>(input: seq<StreamElement<D>>) {
    && (exists i :: 0 <= i < |input| && input[i].Terminate?)
    && forall i :: 0 <= i < |input| ==> !input[i].Timestamped? && !input[i].Watermark?
  }

  // The operator -----------------------------------------------------------------------------------

  class Leader<S(==), D> {
    const loop: Loop<S, D>
    var state: S
    var iterationIndex: nat
    var flushAndRestart: bool
    var input: seq<StreamElement<D>>     // the receiver of the delta updates
    var sent: seq<(bool, S)>             // what was broadcast to the Iterate replicas

    constructor (loop: Loop<S, D>, input: seq<StreamElement<D>>)
      ensures this.loop == loop && this.input == input && state == loop.initial
      ensures iterationIndex == 0 && !flushAndRestart && sent == []
    {
      this.loop, this.input, state := loop, input, loop.initial;
      iterationIndex, flushAndRestart, sent := 0, false, [];
    }

    /** Fold one delta per replica into the state, unless the stream ends. */
    method ProcessUpdates() returns (terminated: bool)
      requires IsDeltaStream(input)
      modifies this`state, this`input
      ensures var ds := old(Deltas(input));
              && terminated == (|ds| < loop.replicas)
              && (!terminated ==> IsDeltaStream(input) && state == FoldAll(loop, old(state), ds[..loop.replicas])
                                  && Deltas(input) == ds[loop.replicas..])
      ensures |input| <= old(|input|) && (!terminated && loop.replicas > 0 ==> |input| < old(|input|))
    {
      var missing := loop.replicas;
      ghost var ds := Deltas(input);
      while missing > 0
        invariant 0 <= missing <= loop.replicas && |input| <= old(|input|)
        invariant missing < loop.replicas ==> |input| < old(|input|)
        invariant IsDeltaStream(input)
        invariant loop.replicas - missing <= |ds| && Deltas(input) == ds[loop.replicas - missing..]
        invariant state == FoldAll(loop, old(state), ds[..loop.replicas - missing])
        decreases |input|
      {
        var e := input[0];
        ghost var before, taken := input, loop.replicas - missing;
        input := input[1..];
        DeltasUnfold(before);
        if e.Item? {
          missing := missing - 1;
          state := loop.globalFold(state, e.value);
          TakeDelta(ds, taken, e.value, Deltas(input));
          FoldOneMore(loop, old(state), ds, taken);
        } else if e.Terminate? {
          return true;
        }
        RestIsDeltaStream(before);
      }
      terminated := false;
    }

    /** The final state if this was the last round of the run; the state is then reset. */
    method FinalResult() returns (result: Option<S>)
      modifies this`state
      ensures var d := Decide(loop, old(state), iterationIndex);
              if d.GoOn? then result == None && state == d.state
              else result == Some(d.result) && state == loop.initial
    {
      var (state', condition) := loop.condition(state);
      var moreIterations := iterationIndex < loop.maxIterations;
      if condition && moreIterations {
        state := state';
        result := None;
      } else {
        result := Some(state');
        state := loop.initial;
      }
    }

    /** The decisions still to come. */
    ghost function ToDecide(): seq<Decision<S>>
      requires loop.replicas > 0
      reads this
    {
      Decisions(loop, state, iterationIndex, Deltas(input))
    }

    /** The output still to come. */
    ghost function ToEmit(): seq<StreamElement<S>>
      requires loop.replicas > 0
      reads this
    {
      (if flushAndRestart then [FlushAndRestart] else []) + Results(ToDecide()) + [Terminate]
    }

    /** Next element for the operators that follow the leader; the rest of the output is still to come. */
    method Next() returns (e: StreamElement<S>)
      requires loop.replicas > 0 && IsDeltaStream(input)
      modifies this
      ensures e == old(ToEmit())[0]
      ensures e.Terminate? ==> sent == old(sent + Feedbacks(loop, ToDecide())) && old(ToEmit()) == [e]
      ensures !e.Terminate? ==>
                && sent + Feedbacks(loop, ToDecide()) == old(sent + Feedbacks(loop, ToDecide()))
                && ToEmit() == old(ToEmit())[1..]
                && IsDeltaStream(input)
    {
      if flushAndRestart {
        flushAndRestart := false;
        return FlushAndRestart;
      }
      ghost var ds := ToDecide();
      ghost var results, feedbacks := Results(ds), sent + Feedbacks(loop, ds);
      assert ToEmit() == results + [Terminate];
      while true
        invariant IsDeltaStream(input) && !flushAndRestart
        invariant ds == ToDecide() && Results(ds) == results && sent + Feedbacks(loop, ds) == feedbacks
        decreases |input|
      {
        DecisionsUnfold(loop, state, iterationIndex, Deltas(input));
        var terminated := ProcessUpdates();
        if terminated { return Terminate; }
        iterationIndex := iterationIndex + 1;
        var result := FinalResult();
        EmitMoves(sent, Feedbacks(loop, ds));
        sent := sent + [(result.None?, state)];
        if result.Some? {
          flushAndRestart := true;
          iterationIndex := 0;
          EmitFinish(ds);
          return Item(result.value);
        }
        ds := ds[1..];
      }
    }
  }

  lemma EmitFinish<S>(ds: seq<Decision<S>>)
    requires ds != [] && ds[0].Finish?
    ensures var all := Results(ds) + [Terminate];
            all[0] == Item(ds[0].result) && all[1..] == [FlushAndRestart] + Results(ds[1..]) + [Terminate]
  {
  }

  lemma DecisionsUnfold<S, D>(l: Loop<S, D>, state: S, done: nat, deltas: seq<D>)
    requires l.replicas > 0
    ensures var ds := Decisions(l, state, done, deltas);
            if |deltas| < l.replicas then ds == []
            else
              var d := Decide(l, FoldAll(l, state, deltas[..l.replicas]), done + 1);
              && ds != [] && ds[0] == d
              && ds[1..] == if d.GoOn? then Decisions(l, d.state, done + 1, deltas[l.replicas..])
                            else Decisions(l, l.initial, 0, deltas[l.replicas..])
  {
  }

  lemma FoldOneMore<S, D>(l: Loop<S, D>, state: S, ds: seq<D>, k: nat)
    requires k < |ds|
    ensures FoldAll(l, state, ds[..k + 1]) == l.globalFold(FoldAll(l, state, ds[..k]), ds[k])
  {
    if k > 0 {
      assert ds[..k + 1][1..] == ds[1..][..k] && ds[..k][1..] == ds[1..][..k - 1];
      FoldOneMore(l, l.globalFold(state, ds[0]), ds[1..], k - 1);
    }
  }

  lemma DeltasUnfold<D>(input: seq<StreamElement<D>>)
    requires input != []
    ensures Deltas(input) == if input[0].Terminate? then []
      else (if input[0].Item? then [input[0].value] else []) + Deltas(input[1..])
  {
    assert [] + Deltas(input[1..]) == Deltas(input[1..]);
  }

  lemma TakeDelta<D>(ds: seq<D>, taken: nat, d: D, rest: seq<D>)
    requires taken <= |ds| && ds[taken..] == [d] + rest
    ensures taken < |ds| && ds[taken] == d && ds[taken + 1..] == rest
  {
    assert ds[taken..][0] == d && ds[taken..][1..] == rest;
  }

  lemma RestIsDeltaStream<D>(input: seq<StreamElement<D>>)
    requires IsDeltaStream(input) && !input[0].Terminate?
    ensures IsDeltaStream(input[1..])
  {
    var i :| 0 <= i < |input| && input[i].Terminate?;
    assert input[1..][i - 1].Terminate?;
  }

  method Drive<S(==), D>(loop: Loop<S, D>, input: seq<StreamElement<D>>)
    returns (out: seq<StreamElement<S>>, sent: seq<(bool, S)>)
    requires loop.replicas > 0 && IsDeltaStream(input)
    ensures var ds := Decisions(loop, loop.initial, 0, Deltas(input));
            out == Results(ds) + [Terminate] && sent == Feedbacks(loop, ds)
  {
    var leader := new Leader(loop, input);
    ghost var emit, feedback := leader.ToEmit(), Feedbacks(loop, leader.ToDecide());
    ghost var allEmitted, allSent := emit, feedback;
    assert allEmitted == Results(leader.ToDecide()) + [Terminate];
    out := [];
    while true
      invariant leader.loop == loop && IsDeltaStream(leader.input) && fresh(leader)
      invariant emit == leader.ToEmit() && feedback == Feedbacks(loop, leader.ToDecide())
      invariant out + emit == allEmitted && leader.sent + feedback == allSent
      decreases |emit|
    {
      var e := leader.Next();
      EmitMoves(out, emit);
      out := out + [e];
      if e.Terminate? { return out, leader.sent; }
      emit, feedback := leader.ToEmit(), Feedbacks(loop, leader.ToDecide());
    }
  }

  /**
    The whole life of a leader. It broadcasts one answer for every decision, whether the run goes on or
    ends; and it emits the result of every decision that ends a run, each with the end of that run.
   */
  method RunLeader<S(==), D>(loop: Loop<S, D>, input: seq<StreamElement<D>>)
    returns (out: seq<StreamElement<S>>, sent: seq<(bool, S)>)
    requires loop.replicas > 0 && IsDeltaStream(input)
    ensures var ds := Decisions(loop, loop.initial, 0, Deltas(input));
            && |sent| == |ds|
            && (forall i :: 0 <= i < |ds| ==>
                sent[i] == if ds[i].GoOn? then (true, ds[i].state) else (false, loop.initial))
            && var at := FinishedAt(ds);
            && |out| == 2 * |at| + 1 && out[2 * |at|] == Terminate
            && forall j :: 0 <= j < |at| ==> out[2 * j] == Item(ds[at[j]].result) && out[2 * j + 1] == FlushAndRestart
    ensures var ds := Decisions(loop, loop.initial, 0, Deltas(input));
            out == Results(ds) + [Terminate] && sent == Feedbacks(loop, ds)
  {
    out, sent := Drive(loop, input);
    FeedbacksAre(loop, Decisions(loop, loop.initial, 0, Deltas(input)));
    ResultsAre(Decisions(loop, loop.initial, 0, Deltas(input)));
  }

  /** What is broadcast: for every decision one answer, even for the one that ends a run. */
  lemma {:induction false} FeedbacksAre<S, D>(l: Loop<S, D>, ds: seq<Decision<S>>)
    ensures |Feedbacks(l, ds)| == |ds|
    ensures forall i :: 0 <= i < |ds| ==>
      Feedbacks(l, ds)[i] == if ds[i].GoOn? then (true, ds[i].state) else (false, l.initial)
  {
    if ds != [] {
      FeedbacksAre(l, ds[1..]);
      forall i | 0 < i < |ds| ensures Feedbacks(l, ds)[i] == Feedbacks(l, ds[1..])[i - 1] && ds[i] == ds[1..][i - 1] {}
    }
  }

  /** Where the decisions are that end a run. */
  function FinishedAt<S>(ds: seq<Decision<S>>): (at: seq<nat>)
    ensures forall j :: 0 <= j < |at| ==> at[j] < |ds| && ds[at[j]].Finish?
    ensures forall i, j :: 0 <= i < j < |at| ==> at[i] < at[j]
    ensures forall i :: 0 <= i < |ds| && ds[i].Finish? ==> i in at
  {
    if ds == [] then []
    else
      var n := |ds| - 1;
      var before := FinishedAt(ds[..n]);
      if ds[n].Finish? then before + [n] else before
  }

  /** What is emitted: the result of every decision that ends a run, in their order, and nothing else. */
  lemma {:induction false} ResultsAre<S>(ds: seq<Decision<S>>)
    ensures var at := FinishedAt(ds);
            && |Results(ds)| == 2 * |at|
            && forall j :: 0 <= j < |at| ==>
              Results(ds)[2 * j] == Item(ds[at[j]].result) && Results(ds)[2 * j + 1] == FlushAndRestart
  {
    if ds != [] {
      var n := |ds| - 1;
      assert ds == ds[..n] + [ds[n]];
      ResultsAre(ds[..n]);
      ResultsMore(ds[..n], ds[n]);
      ResultsStay(ds[..n], ds[n]);
    }
  }

  lemma ResultsStay<S>(before: seq<Decision<S>>, d: Decision<S>)
    ensures FinishedAt(before + [d]) == if d.Finish? then FinishedAt(before) + [|before|] else FinishedAt(before)
  {
    assert (before + [d])[..|before|] == before;
  }

  lemma {:induction false} ResultsMore<S>(ds: seq<Decision<S>>, d: Decision<S>)
    ensures Results(ds + [d]) == if d.Finish? then Results(ds) + [Item(d.result), FlushAndRestart] else Results(ds)
  {
    if ds == [] {
      assert [d][1..] == [];
    } else {
      ResultsMore(ds[1..], d);
      assert (ds + [d])[1..] == ds[1..] + [d];
    }
  }

  lemma EmitMoves<T>(out: seq<T>, emit: seq<T>)
    requires emit != []
    ensures out + emit == (out + [emit[0]]) + emit[1..]
  {
  }

  /**
    Each run of the leader starts over: with deltas enough for at least one run, the decisions are
    those of that run, which stops at its first round where the condition fails or the maximum is
    reached, followed by the decisions of a fresh leader on the rest.
   */
  lemma {:induction false} RunsAreIndependent<S, D>(l: Loop<S, D>, state: S, done: nat, deltas: seq<D>, k: nat)
    requires l.replicas > 0
    requires var ds := Decisions(l, state, done, deltas);
             k < |ds| && ds[k].Finish? && forall i :: 0 <= i < k ==> ds[i].GoOn?
    ensures var ds := Decisions(l, state, done, deltas);
            && (k + 1) * l.replicas <= |deltas|
            && (k > 0 ==> done + k < l.maxIterations)
            && ds[k + 1..] == Decisions(l, l.initial, 0, deltas[(k + 1) * l.replicas..])
    decreases k
  {
    var ds := Decisions(l, state, done, deltas);
    DecisionsUnfold(l, state, done, deltas);
    if k == 0 {
      assert 1 * l.replicas == l.replicas;
    } else {
      var d, rest := ds[0], deltas[l.replicas..];
      NextIsFinish(ds, k);
      RunsAreIndependent(l, d.state, done + 1, rest, k - 1);
      Shifted(deltas, l.replicas, k);
      assert ds[k + 1..] == ds[1..][k..];
    }
  }

  lemma NextIsFinish<S>(ds: seq<Decision<S>>, k: nat)
    requires 0 < k < |ds| && ds[k].Finish? && forall i :: 0 <= i < k ==> ds[i].GoOn?
    ensures ds[1..][k - 1].Finish? && forall i :: 0 <= i < k - 1 ==> ds[1..][i].GoOn?
  {
  }

  lemma Shifted<D>(deltas: seq<D>, n: nat, k: nat)
    requires n <= |deltas| && k * n <= |deltas| - n
    ensures (k + 1) * n == n + k * n && deltas[n..][k * n..] == deltas[(k + 1) * n..]
  {
    assert (k + 1) * n == n + k * n;
  }

  // IterationEnd -----------------------------------------------------------------------------------

  class IterationEnd<D> {
    const default: D
    var hasReceivedItem: bool
    var input: seq<StreamElement<D>>     // the previous operator: the local reduction
    var sent: seq<StreamElement<D>>      // the channel to the leader

    constructor (default: D, input: seq<StreamElement<D>>)
      ensures this.default == default && this.input == input && !hasReceivedItem && sent == []
    {
      this.default, this.input, hasReceivedItem, sent := default, input, false, [];
    }

    method Next() returns (e: StreamElement<()>)
      requires input != [] && !input[0].Timestamped? && !input[0].Watermark?
      modifies this`hasReceivedItem, this`input, this`sent
      ensures input == old(input)[1..]
      ensures hasReceivedItem == (old(input)[0].Item? || (old(hasReceivedItem) && !old(input)[0].FlushAndRestart?))
      ensures sent == old(sent) + Forwarded(default, old(hasReceivedItem), old(input)[0])
      ensures e == match old(input)[0] { case Item(_) => Item(()) case FlushAndRestart => FlushAndRestart
                                         case Terminate => Terminate case _ => FlushBatch }
    {
      var elem := input[0];
      input := input[1..];
      match elem
      case Item(_) =>
        sent := sent + [elem];
        hasReceivedItem := true;
        e := Item(());
      case FlushAndRestart =>
        if !hasReceivedItem { sent := sent + [Item(default)]; }
        hasReceivedItem := false;
        e := FlushAndRestart;
      case Terminate =>
        sent := sent + [Terminate];
        e := Terminate;
      case FlushBatch =>
        e := FlushBatch;
    }
  }

  function Forwarded<D>(default: D, hasReceivedItem: bool, e: StreamElement<D>): seq<StreamElement<D>> {
    match e
    case Item(_) => [e]
    case Terminate => [Terminate]
    case FlushAndRestart => if hasReceivedItem then [] else [Item(default)]
    case _ => []
  }

  /** All that IterationEnd sends for a stream. */
  function SentFor<D>(default: D, hasReceivedItem: bool, input: seq<StreamElement<D>>): seq<StreamElement<D>>
    decreases |input|
  {
    if input == [] then []
    else
      Forwarded(default, hasReceivedItem, input[0]) +
      SentFor(default, input[0].Item? || (hasReceivedItem && !input[0].FlushAndRestart?), input[1..])
  }

  method RunIterationEnd<D>(default: D, input: seq<StreamElement<D>>) returns (sent: seq<StreamElement<D>>)
    requires forall i :: 0 <= i < |input| ==> !input[i].Timestamped? && !input[i].Watermark?
    ensures sent == SentFor(default, false, input)
    ensures EndsOnce(input) ==> EndsOnce(sent) && IsDeltaStream(sent)
    ensures forall i :: 0 <= i < |sent| ==> sent[i].Item? || sent[i].Terminate?
  {
    SentIsStream(default, false, input);
    var end := new IterationEnd(default, input);
    while end.input != []
      invariant fresh(end) && end.default == default
      invariant forall i :: 0 <= i < |end.input| ==> !end.input[i].Timestamped? && !end.input[i].Watermark?
      invariant end.sent + SentFor(default, end.hasReceivedItem, end.input) == SentFor(default, false, input)
      decreases |end.input|
    {
      ghost var before, had, sent0 := end.input, end.hasReceivedItem, end.sent;
      var e := end.Next();
      SentUnfold(default, had, before, sent0);
    }
    sent := end.sent;
  }

  /** A stream ends with its only Terminate. */
  predicate EndsOnce<D>(s: seq<StreamElement<D>>) {
    s != [] && forall i :: 0 <= i < |s| ==> (s[i].Terminate? <==> i == |s| - 1)
  }

  /** What is sent is an input the leader may receive. */
  lemma {:induction false} SentIsStream<D>(default: D, had: bool, input: seq<StreamElement<D>>)
    ensures var sent := SentFor(default, had, input);
            && (forall i :: 0 <= i < |sent| ==> sent[i].Item? || sent[i].Terminate?)
            && (EndsOnce(input) ==> EndsOnce(sent) && IsDeltaStream(sent))
            && ((forall i :: 0 <= i < |input| ==> !input[i].Terminate?) ==> forall i :: 0 <= i < |sent| ==>
              sent[i].Item?)
    decreases |input|
  {
    if input != [] {
      SentUnfold(default, had, input, []);
      SentIsStream(default, input[0].Item? || (had && !input[0].FlushAndRestart?), input[1..]);
      if EndsOnce(input) {
        if |input| > 1 { assert EndsOnce(input[1..]); }
        var sent := SentFor(default, had, input);
        assert sent[|sent| - 1].Terminate?;
      }
    }
  }

  lemma SentUnfold<D>(default: D, had: bool, input: seq<StreamElement<D>>, sent: seq<StreamElement<D>>)
    requires input != []
    ensures var had' := input[0].Item? || (had && !input[0].FlushAndRestart?);
            && SentFor(default, had, input) == Forwarded(default, had, input[0]) + SentFor(default, had', input[1..])
            && sent + SentFor(default, had, input) == (sent + Forwarded(default, had, input[0])) +
              SentFor(default, had', input[1..])
  {
  }

  /** The deltas of every round: its items, or the default if there is none. */
  function DeltasOfRounds<D>(default: D, rounds: seq<seq<D>>): seq<D> {
    if rounds == [] then []
    else (if rounds[0] == [] then [default] else rounds[0]) + DeltasOfRounds(default, rounds[1..])
  }

  lemma DeltasCons<D>(d: D, s: seq<StreamElement<D>>)
    ensures Deltas([Item(d)] + s) == [d] + Deltas(s)
  {
    assert ([Item(d)] + s)[1..] == s;
  }

  lemma {:induction false} SentIsDeltasOfRounds<D>(default: D, input: seq<StreamElement<D>>, current: seq<D>)
    requires EndsCleanly(input, current)
    ensures current + Deltas(SentFor(default, current != [], input)) == DeltasOfRounds(default, Rounds(input, current))
  {
    var rest, had := input[1..], current != [];
    SentUnfold(default, had, input, []);
    match input[0]
    case Terminate =>
    case FlushAndRestart =>
      SentIsDeltasOfRounds(default, rest, []);
      EndOfRound(default, current, SentFor(default, false, rest), Rounds(rest, []));
    case Item(v) =>
      SentIsDeltasOfRounds(default, rest, current + [v]);
      DeltasCons(v, SentFor(default, true, rest));
      assert current + ([v] + Deltas(SentFor(default, true, rest))) ==
              (current + [v]) + Deltas(SentFor(default, true, rest));
    case _ =>
      SentIsDeltasOfRounds(default, rest, current);
      assert [] + SentFor(default, had, rest) == SentFor(default, had, rest);
  }

  lemma EndOfRound<D>(default: D, current: seq<D>, sent: seq<StreamElement<D>>, rounds: seq<seq<D>>)
    requires [] + Deltas(sent) == DeltasOfRounds(default, rounds)
    ensures current + Deltas(Forwarded(default, current != [], FlushAndRestart) + sent) ==
            DeltasOfRounds(default, [current] + rounds)
  {
    assert ([current] + rounds)[1..] == rounds && [] + sent == sent;
    if current == [] { DeltasCons(default, sent); }
  }

  /**
    One delta per round, if and only if the local reduction emits at most one item per round.
    The leader can then tell the rounds apart by counting.
   */
  lemma {:induction false} OneDeltaPerRound<D>(default: D, rounds: seq<seq<D>>)
    ensures |DeltasOfRounds(default, rounds)| >= |rounds|
    ensures |DeltasOfRounds(default, rounds)| == |rounds| <==> forall k :: 0 <= k < |rounds| ==> |rounds[k]| <= 1
    ensures (forall k :: 0 <= k < |rounds| ==> |rounds[k]| <= 1) ==>
              forall k :: 0 <= k < |rounds| ==>
                DeltasOfRounds(default, rounds)[k] == if rounds[k] == [] then default else rounds[k][0]
  {
    if rounds != [] {
      OneDeltaPerRound(default, rounds[1..]);
      var rest := rounds[1..];
      assert forall k :: 0 <= k < |rest| ==> rest[k] == rounds[k + 1];
      if |rounds[0]| <= 1 && forall k :: 0 <= k < |rest| ==> |rest[k]| <= 1 {
        forall k | 0 <= k < |rounds| ensures |rounds[k]| <= 1 { if k > 0 { assert rounds[k] == rest[k - 1]; } }
      }
    }
  }
}
