/** Iterate and Replay, the heads of a loop. */
module IterationSources {
  /*
    Iterate feeds back what leaves the loop, and Replay emits its input again.  The elements that other
    replicas and the leader will send are part of the model; when they are received is left open, but for
    one thing: no feedback of a round arrives before that of the round before has been swapped in.  Iterate
    relies on it, as it tells the end of a round by the last element received; that the rest of the system
    guarantees it, in every interleaving, is IterationTheorems.FeedbackIsOneRound.
   */

  import opened Streams

  predicate IsRound<T>(r: seq<StreamElement<T>>) {
    r != [] && r[|r| - 1].FlushAndRestart? && forall i :: 0 <= i < |r| - 1 ==> !r[i].FlushAndRestart?
  }

  // What Iterate does ------------------------------------------------------------------------------

  /** What is emitted into the loop, and the batches sent to the output. */
  datatype Trace<T> = Trace(emits: seq<T>, outputs: seq<seq<T>>)

  function Emit<T>(es: seq<T>, t: Trace<T>): Trace<T> { t.(emits := es + t.emits) }

  function Send<T>(batch: seq<T>, t: Trace<T>): Trace<T> { t.(outputs := [batch] + t.outputs) }

  /** A run: the input enters the loop up to its FlushAndRestart. */
  function FromInput<T>(input: seq<StreamElement<T>>, feedback: seq<seq<StreamElement<T>>>, goOn: seq<bool>)
    : Trace<StreamElement<T>>
    decreases |goOn|, |input|
  {
    if input == [] then Trace([], [])
    else if input[0].Terminate? then Emit([Terminate], Send([Terminate], FromInput(input[1..], feedback, goOn)))
    else if input[0].FlushAndRestart? then Emit([input[0]], FromFeedback(input[1..], feedback, goOn))
    else Emit([input[0]], FromInput(input[1..], feedback, goOn))
  }

  /** After a round: either its feedback enters the loop, or it is the output and the next run begins. */
  function FromFeedback<T>(input: seq<StreamElement<T>>, feedback: seq<seq<StreamElement<T>>>, goOn: seq<bool>)
    : Trace<StreamElement<T>>
    decreases |goOn|, |input|
  {
    if feedback == [] || goOn == [] then Trace([], [])
    else if goOn[0] then Emit(feedback[0], FromFeedback(input, feedback[1..], goOn[1..]))
    else Send(feedback[0], FromInput(input, feedback[1..], goOn[1..]))
  }

  /** The end of the stream enters the loop, and is sent to the output. */
  lemma TerminatePasses<T>(rest: seq<StreamElement<T>>, feedback: seq<seq<StreamElement<T>>>, goOn: seq<bool>)
    ensures FromInput([Terminate] + rest, feedback, goOn) ==
            Emit([Terminate], Send([Terminate], FromInput(rest, feedback, goOn)))
  {
    assert ([Terminate] + rest)[1..] == rest;
  }

  /**
    One run of k rounds: the loop gets the input and then the feedback of every round but the last,
    which is the output; the next run starts like the first one, with what is left.
   */
  lemma {:induction false} OneRun<T>(r: seq<StreamElement<T>>, rest: seq<StreamElement<T>>,
      feedback: seq<seq<StreamElement<T>>>, goOn: seq<bool>, k: nat)
    requires IsRound(r) && forall i :: 0 <= i < |r| ==> !r[i].Terminate?
    requires 0 < k <= |feedback| && k <= |goOn|
    requires !goOn[k - 1] && forall i :: 0 <= i < k - 1 ==> goOn[i]
    ensures FromInput(r + rest, feedback, goOn) ==
            Emit(r + Flatten(feedback[..k - 1]), Send(feedback[k - 1], FromInput(rest, feedback[k..], goOn[k..])))
    decreases |r|
  {
    var all := r + rest;
    if |r| == 1 {
      assert all[1..] == rest && r == [all[0]];
      RunOfFeedback(rest, feedback, goOn, k);
      EmitTwice(r, Flatten(feedback[..k - 1]), Send(feedback[k - 1], FromInput(rest, feedback[k..], goOn[k..])));
    } else {
      assert IsRound(r[1..]) && all[1..] == r[1..] + rest && !all[0].FlushAndRestart?;
      OneRun(r[1..], rest, feedback, goOn, k);
      var t := Send(feedback[k - 1], FromInput(rest, feedback[k..], goOn[k..]));
      EmitTwice([r[0]], r[1..] + Flatten(feedback[..k - 1]), t);
      assert [r[0]] + (r[1..] + Flatten(feedback[..k - 1])) == r + Flatten(feedback[..k - 1]);
    }
  }

  lemma EmitTwice<T>(a: seq<T>, b: seq<T>, t: Trace<T>)
    ensures Emit(a, Emit(b, t)) == Emit(a + b, t)
  {
    assert a + (b + t.emits) == (a + b) + t.emits;
  }

  lemma {:induction false} RunOfFeedback<T>(rest: seq<StreamElement<T>>, feedback: seq<seq<StreamElement<T>>>,
      goOn: seq<bool>, k: nat)
    requires 0 < k <= |feedback| && k <= |goOn|
    requires !goOn[k - 1] && forall i :: 0 <= i < k - 1 ==> goOn[i]
    ensures FromFeedback(rest, feedback, goOn) ==
            Emit(Flatten(feedback[..k - 1]), Send(feedback[k - 1], FromInput(rest, feedback[k..], goOn[k..])))
    decreases k
  {
    var t := Send(feedback[k - 1], FromInput(rest, feedback[k..], goOn[k..]));
    if k == 1 {
      assert [] + t.emits == t.emits;
    } else {
      RunOfFeedback(rest, feedback[1..], goOn[1..], k - 1);
      assert feedback[1..][..k - 2] == feedback[..k - 1][1..];
      FlattenFirst(feedback[..k - 1]);
      assert feedback[1..][k - 1..] == feedback[k..] && goOn[1..][k - 1..] == goOn[k..];
      EmitTwice(feedback[0], Flatten(feedback[..k - 1][1..]), t);
    }
  }

  // The operator Iterate ---------------------------------------------------------------------------

  class Iterate<T(==)> {
    var content: seq<StreamElement<T>>
    var inputStash: seq<StreamElement<T>>
    var feedbackContent: seq<StreamElement<T>>
    var inputFinished: bool
    var locks: nat                                     // how many times the state was locked
    var output: seq<seq<StreamElement<T>>>             // batches sent to the output
    // what the other ends of the channels have yet to deliver
    var input: seq<StreamElement<T>>
    var feedback: seq<StreamElement<T>>                // of the current round
    var laterFeedback: seq<seq<StreamElement<T>>>      // of the rounds to come
    var goOn: seq<bool>                                // the leader's answers to come

    constructor (input: seq<StreamElement<T>>, feedbacks: seq<seq<StreamElement<T>>>, goOn: seq<bool>)
      requires forall i :: 0 <= i < |feedbacks| ==> IsRound(feedbacks[i])
      ensures Valid() && output == [] && locks == 0 && Future() == FromInput(input, feedbacks, goOn)
    {
      this.input, this.goOn, content, inputStash, feedbackContent := input, goOn, [], [], [];
      inputFinished, locks, output := false, 0, [];
      feedback := if feedbacks == [] then [] else feedbacks[0];
      laterFeedback := if feedbacks == [] then [] else feedbacks[1..];
      new;
      assert inputStash + this.input == input && feedbackContent + feedback == feedback;
      assert Rounds() == feedbacks;
    }

    ghost predicate Valid()
      reads this
    {
      && (IsRound(feedbackContent + feedback) || (feedbackContent + feedback == [] && laterFeedback == []))
      && (forall i :: 0 <= i < |laterFeedback| ==> IsRound(laterFeedback[i]))
      && (!inputFinished ==> content == [])
    }

    /** The feedback of the current round and of those to come. */
    ghost function Rounds(): seq<seq<StreamElement<T>>>
      reads this
    {
      (if feedbackContent + feedback == [] then [] else [feedbackContent + feedback]) + laterFeedback
    }

    /** All that the operator has still to do. */
    ghost function Future(): Trace<StreamElement<T>>
      reads this
    {
      if !inputFinished then FromInput(inputStash + input, Rounds(), goOn)
      else Emit(content, FromFeedback(inputStash + input, Rounds(), goOn))
    }

    predicate FeedbackFinished()
      reads this
    {
      feedbackContent != [] && feedbackContent[|feedbackContent| - 1].FlushAndRestart?
    }

    /** A batch of feedback arrives. */
    method ReceiveFeedback()
      requires Valid() && feedback != []
      modifies this`feedbackContent, this`feedback
      ensures Valid() && |feedback| < old(|feedback|)
      ensures feedbackContent + feedback == old(feedbackContent + feedback)
    {
      var n: nat :| 0 < n <= |feedback|;
      ghost var all := feedbackContent + feedback;
      feedbackContent, feedback := feedbackContent + feedback[..n], feedback[n..];
      assert feedbackContent + feedback == all;
    }

    /** A batch of the input arrives; it may belong to a later run. */
    method ReceiveInput()
      requires Valid() && input != []
      modifies this`inputStash, this`input
      ensures Valid() && |input| < old(|input|) && inputStash != []
      ensures inputStash + input == old(inputStash + input)
    {
      var n: nat :| 0 < n <= |input|;
      ghost var all := inputStash + input;
      inputStash, input := inputStash + input[..n], input[n..];
      assert inputStash + input == all;
    }

    method InputOrFeedback()
      requires Valid() && (input != [] || feedback != [])
      modifies this`feedbackContent, this`feedback, this`inputStash, this`input
      ensures Valid() && |input| + |feedback| < old(|input| + |feedback|)
      ensures feedbackContent + feedback == old(feedbackContent + feedback)
      ensures inputStash + input == old(inputStash + input)
    {
      var preferInput: bool := *;
      if input != [] && (preferInput || feedback == []) { ReceiveInput(); } else { ReceiveFeedback(); }
    }

    method NextInput() returns (e: StreamElement<T>)
      requires inputStash != []
      modifies this`inputStash, this`inputFinished, this`locks, this`output
      ensures e == old(inputStash)[0] && inputStash == old(inputStash)[1..]
      ensures inputFinished == (e.FlushAndRestart? || old(inputFinished))
      ensures locks == old(locks) + (if e.FlushAndRestart? then 1 else 0)
      ensures output == old(output) + (if e.Terminate? then [[Terminate]] else [])
    {
      e := inputStash[0];
      inputStash := inputStash[1..];
      if e.FlushAndRestart? {
        inputFinished := true;
        locks := locks + 1;
      } else if e.Terminate? {
        output := output + [[Terminate]];
      }
    }

    method NextStored() returns (e: StreamElement<T>)
      requires content != []
      modifies this`content, this`locks
      ensures e == old(content)[0] && content == old(content)[1..]
      ensures locks == old(locks) + (if e.FlushAndRestart? then 1 else 0)
    {
      e := content[0];
      content := content[1..];
      if e.FlushAndRestart? { locks := locks + 1; }
    }

    /** The leader's answer; input that arrives early is stashed. */
    method WaitUpdate() returns (answer: bool)
      requires Valid() && goOn != []
      modifies this`inputStash, this`input, this`goOn
      ensures Valid() && answer == old(goOn)[0] && goOn == old(goOn)[1..]
      ensures inputStash + input == old(inputStash + input)
    {
      while input != []
        invariant Valid() && goOn == old(goOn) && inputStash + input == old(inputStash + input)
        decreases |input|
      {
        var stateFirst: bool := *;
        if stateFirst { break; }
        ReceiveInput();
      }
      answer := goOn[0];
      goOn := goOn[1..];
    }

    /** Wait for all the feedback of the round. */
    method WaitFeedback()
      requires Valid() && Rounds() != []
      modifies this`feedbackContent, this`feedback, this`inputStash, this`input
      ensures Rounds() == old(Rounds()) && inputStash + input == old(inputStash + input)
      ensures Valid() && FeedbackFinished() && feedback == [] && feedbackContent == Rounds()[0] &&
        laterFeedback == Rounds()[1..]
    {
      while !FeedbackFinished()
        invariant Valid() && feedbackContent + feedback == old(feedbackContent + feedback)
        invariant inputStash + input == old(inputStash + input)
        decreases |input| + |feedback|
      {
        assert feedback == [] ==> feedbackContent + feedback == feedbackContent;
        InputOrFeedback();
      }
      FinishedMeansAll(feedbackContent, feedback);
      assert feedbackContent + feedback == feedbackContent;
    }

    /** From here on the other replicas may send the feedback of the next round. */
    method Swap()
      requires Valid() && inputFinished && content == [] && FeedbackFinished() && feedback == []
      modifies this`content, this`feedbackContent, this`feedback, this`laterFeedback
      ensures Valid() && content == old(feedbackContent) && Rounds() == old(laterFeedback)
    {
      content, feedbackContent := feedbackContent, [];
      feedback := if laterFeedback == [] then [] else laterFeedback[0];
      laterFeedback := if laterFeedback == [] then [] else laterFeedback[1..];
      assert feedbackContent + feedback == feedback;
    }

    /** The end of a round: its feedback becomes the content of the next one, or the output. */
    method EndOfRound()
      requires Valid() && inputFinished && content == [] && Rounds() != [] && goOn != []
      modifies this
      ensures Valid() && Future().emits == old(Future().emits)
      ensures output + Future().outputs == old(output + Future().outputs)
      ensures |goOn| < old(|goOn|) && locks == old(locks)
    {
      ghost var rounds, stash := Rounds(), inputStash + input;
      WaitFeedback();
      Swap();
      FeedbackUnfold(stash, rounds, goOn, output);
      var answer := WaitUpdate();
      assert Rounds() == rounds[1..];
      if !answer {
        inputFinished := false;
        output := output + [content];
        content := [];
      }
    }

    /**
      The next element entering the loop.  However messages arrive, what was to be done before the
      call is this element, what was sent to the output, and what is to be done after it.
     */
    method Next() returns (e: StreamElement<T>)
      requires Valid() && Future().emits != []
      modifies this
      ensures Valid()
      ensures [e] + Future().emits == old(Future().emits)
      ensures output + Future().outputs == old(output + Future().outputs)
      ensures locks == old(locks) + (if e.FlushAndRestart? then 1 else 0)
    {
      ghost var emits, outputs := Future().emits, output + Future().outputs;
      while true
        invariant Valid() && locks == old(locks)
        invariant Future().emits == emits && output + Future().outputs == outputs
        decreases |goOn|
      {
        TryFeedback();
        if !inputFinished {
          WaitInput();
          InputUnfold(inputStash, input, Rounds(), goOn, output);
          e := NextInput();
          return;
        }
        if content != [] {
          StoredUnfold(content, FromFeedback(inputStash + input, Rounds(), goOn));
          e := NextStored();
          return;
        }
        EndOfRound();
      }
    }

    /** Receive the feedback that is already there. */
    method TryFeedback()
      requires Valid()
      modifies this`feedbackContent, this`feedback
      ensures Valid() && Rounds() == old(Rounds())
    {
      while feedback != []
        invariant Valid() && feedbackContent + feedback == old(feedbackContent + feedback)
        decreases |feedback|
      {
        var noMore: bool := *;
        if noMore { break; }
        ReceiveFeedback();
      }
    }

    method WaitInput()
      requires Valid() && inputStash + input != []
      modifies this`feedbackContent, this`feedback, this`inputStash, this`input
      ensures Valid() && Rounds() == old(Rounds()) && inputStash + input == old(inputStash + input) && inputStash != []
    {
      while inputStash == []
        invariant Valid() && feedbackContent + feedback == old(feedbackContent + feedback)
        invariant inputStash + input == old(inputStash + input)
        decreases |input| + |feedback|
      {
        InputOrFeedback();
      }
    }
  }

  lemma FinishedMeansAll<T>(a: seq<StreamElement<T>>, b: seq<StreamElement<T>>)
    requires IsRound(a + b) && a != [] && a[|a| - 1].FlushAndRestart?
    ensures b == []
  {
    assert (a + b)[|a| - 1] == a[|a| - 1];
  }

  lemma FeedbackUnfold<T>(input: seq<StreamElement<T>>, feedback: seq<seq<StreamElement<T>>>, goOn: seq<bool>,
      output: seq<seq<StreamElement<T>>>)
    requires feedback != [] && goOn != []
    ensures var t, rest := Emit([], FromFeedback(input, feedback, goOn)), FromInput(input, feedback[1..], goOn[1..]);
            if goOn[0] then t == Emit(feedback[0], FromFeedback(input, feedback[1..], goOn[1..]))
            else t.emits == rest.emits && output + t.outputs == (output + [feedback[0]]) + rest.outputs
  {
  }

  lemma StoredUnfold<T>(content: seq<T>, t: Trace<T>)
    requires content != []
    ensures Emit(content, t).emits == [content[0]] + Emit(content[1..], t).emits
  {
  }

  lemma InputUnfold<T>(stash: seq<StreamElement<T>>, input: seq<StreamElement<T>>, feedback: seq<seq<StreamElement<T>>>,
      goOn: seq<bool>, output: seq<seq<StreamElement<T>>>)
    requires stash != []
    ensures var rest := stash[1..] + input;
            var t, t' := FromInput(stash + input, feedback, goOn),
                         if stash[0].FlushAndRestart? then Emit([], FromFeedback(rest, feedback, goOn))
                         else FromInput(rest, feedback, goOn);
            && t.emits == [stash[0]] + t'.emits
            && output + t.outputs == (output + if stash[0].Terminate? then [[Terminate]] else []) + t'.outputs
  {
    assert (stash + input)[1..] == stash[1..] + input;
  }

  /** Any number of calls: the elements emitted, how often the state was locked, and the batches sent out. */
  method CallIterate<T(==)>(input: seq<StreamElement<T>>, feedbacks: seq<seq<StreamElement<T>>>, goOn: seq<bool>,
      calls: nat)
    returns (emitted: seq<StreamElement<T>>, output: seq<seq<StreamElement<T>>>, locks: nat)
    requires forall i :: 0 <= i < |feedbacks| ==> IsRound(feedbacks[i])
    requires calls <= |FromInput(input, feedbacks, goOn).emits|
    ensures emitted == FromInput(input, feedbacks, goOn).emits[..calls] && locks == Ends(emitted)
    ensures output <= FromInput(input, feedbacks, goOn).outputs
  {
    var it := new Iterate(input, feedbacks, goOn);
    ghost var all, todo := it.Future(), it.Future();
    emitted := [];
    while |emitted| < calls
      invariant it.Valid() && fresh(it) && it.locks == Ends(emitted) && |emitted| <= calls
      invariant todo == it.Future() && emitted + todo.emits == all.emits && it.output + todo.outputs == all.outputs
    {
      var e := it.Next();
      EndsAppend(emitted, e);
      EmitOne(emitted, e, it.Future().emits);
      emitted, todo := emitted + [e], it.Future();
    }
    output, locks := it.output, it.locks;
  }

  /** The number of rounds a stream has ended. */
  function Ends<T>(s: seq<StreamElement<T>>): nat {
    if s == [] then 0 else (if s[0].FlushAndRestart? then 1 else 0) + Ends(s[1..])
  }

  lemma EndsAppend<T>(s: seq<StreamElement<T>>, e: StreamElement<T>)
    ensures Ends(s + [e]) == Ends(s) + if e.FlushAndRestart? then 1 else 0
  {
    if s != [] { assert (s + [e])[1..] == s[1..] + [e]; }
  }

  // What Replay does -------------------------------------------------------------------------------

  predicate IsKept<T>(e: StreamElement<T>) { !e.FlushBatch? && !e.Terminate? }

  /** The input enters the loop up to its FlushAndRestart; `saved` went by already. */
  function ReplayInput<T>(input: seq<StreamElement<T>>, saved: seq<StreamElement<T>>,
      goOn: seq<bool>): seq<StreamElement<T>>
    decreases |goOn|, |input|
  {
    if input == [] then []
    else
      var saved' := if IsKept(input[0]) then saved + [input[0]] else saved;
      [input[0]] + if input[0].FlushAndRestart? then ReplayAgain(input[1..], saved', goOn)
                   else ReplayInput(input[1..], saved', goOn)
  }

  /** All that Replay emits. */
  function Replayed<T>(input: seq<StreamElement<T>>, goOn: seq<bool>): seq<StreamElement<T>> {
    ReplayInput(input, [], goOn)
  }

  function ReplayAgain<T>(input: seq<StreamElement<T>>, saved: seq<StreamElement<T>>,
      goOn: seq<bool>): seq<StreamElement<T>>
    decreases |goOn|, |input|
  {
    if goOn == [] then []
    else if goOn[0] then saved + ReplayAgain(input, saved, goOn[1..])
    else ReplayInput(input, [], goOn[1..])
  }

  function Kept<T>(r: seq<StreamElement<T>>): seq<StreamElement<T>> {
    if r == [] then [] else (if IsKept(r[0]) then [r[0]] else []) + Kept(r[1..])
  }

  /** Where the elements are that are not the end of a batch or of the stream. */
  function KeptAt<T>(r: seq<StreamElement<T>>): (at: seq<nat>)
    ensures forall j :: 0 <= j < |at| ==> at[j] < |r| && !r[at[j]].FlushBatch? && !r[at[j]].Terminate?
    ensures forall i, j :: 0 <= i < j < |at| ==> at[i] < at[j]
    ensures forall i: nat :: i < |r| && !r[i].FlushBatch? && !r[i].Terminate? ==> i in at
  {
    if r == [] then []
    else
      var n := |r| - 1;
      var before := KeptAt(r[..n]);
      assert forall i :: 0 <= i < n ==> r[..n][i] == r[i];
      if r[n].FlushBatch? || r[n].Terminate? then before else before + [n]
  }

  /** What is replayed are the elements of the round but for the ends of batches, in their order. */
  lemma {:induction false} KeptAre<T>(r: seq<StreamElement<T>>)
    ensures |Kept(r)| == |KeptAt(r)| && forall j :: 0 <= j < |Kept(r)| ==> Kept(r)[j] == r[KeptAt(r)[j]]
  {
    if r != [] {
      var n := |r| - 1;
      KeptAre(r[..n]);
      KeptMore(r[..n], r[n]);
      assert r == r[..n] + [r[n]];
    }
  }

  lemma {:induction false} KeptMore<T>(r: seq<StreamElement<T>>, e: StreamElement<T>)
    ensures Kept(r + [e]) == if e.FlushBatch? || e.Terminate? then Kept(r) else Kept(r) + [e]
  {
    if r == [] {
      assert [e][1..] == [];
    } else {
      KeptMore(r[1..], e);
      assert (r + [e])[1..] == r[1..] + [e];
    }
  }

  function Times<T>(s: seq<T>, n: nat): seq<T> {
    if n == 0 then [] else s + Times(s, n - 1)
  }

  /** The first round of a run forwards the input and keeps what is to be replayed. */
  lemma {:induction false} FirstRound<T>(r: seq<StreamElement<T>>, saved: seq<StreamElement<T>>,
      rest: seq<StreamElement<T>>, goOn: seq<bool>)
    requires IsRound(r)
    ensures ReplayInput(r + rest, saved, goOn) == r + ReplayAgain(rest, saved + Kept(r), goOn)
    decreases |r|
  {
    var saved' := if IsKept(r[0]) then saved + [r[0]] else saved;
    assert saved' + Kept(r[1..]) == saved + Kept(r);
    if |r| == 1 {
      assert saved' == saved + Kept(r) && (r + rest)[1..] == rest && r == [(r + rest)[0]];
    } else {
      assert (r + rest)[1..] == r[1..] + rest && IsRound(r[1..]);
      FirstRound(r[1..], saved', rest, goOn);
      FrontFirst(r, ReplayAgain(rest, saved + Kept(r), goOn));
    }
  }

  lemma FrontFirst<T>(r: seq<T>, rest: seq<T>)
    requires r != []
    ensures [r[0]] + (r[1..] + rest) == r + rest
  {
  }

  /**
    A run of k rounds: the input, then its elements but for the ends of batches, once in every other round;
    then a fresh run.
   */
  lemma OneReplay<T>(r: seq<StreamElement<T>>, rest: seq<StreamElement<T>>, goOn: seq<bool>, k: nat)
    requires IsRound(r) && 0 < k <= |goOn|
    requires !goOn[k - 1] && forall i :: 0 <= i < k - 1 ==> goOn[i]
    ensures |Kept(r)| == |KeptAt(r)| && forall j :: 0 <= j < |Kept(r)| ==> Kept(r)[j] == r[KeptAt(r)[j]]
    ensures Replayed(r + rest, goOn) == r + (Times(Kept(r), k - 1) + Replayed(rest, goOn[k..]))
  {
    KeptAre(r);
    FirstRound(r, [], rest, goOn);
    assert [] + Kept(r) == Kept(r);
    AgainRun(rest, Kept(r), goOn, k);
  }

  lemma {:induction false} AgainRun<T>(rest: seq<StreamElement<T>>, saved: seq<StreamElement<T>>, goOn: seq<bool>,
      k: nat)
    requires 0 < k <= |goOn|
    requires !goOn[k - 1] && forall i :: 0 <= i < k - 1 ==> goOn[i]
    ensures ReplayAgain(rest, saved, goOn) == Times(saved, k - 1) + ReplayInput(rest, [], goOn[k..])
    decreases k
  {
    if k > 1 {
      AgainRun(rest, saved, goOn[1..], k - 1);
      assert goOn[1..][k - 1..] == goOn[k..];
      var c := Times(saved, k - 2);
      assert saved + (c + ReplayInput(rest, [], goOn[k..])) == (saved + c) + ReplayInput(rest, [], goOn[k..]);
    }
  }

  // The operator Replay ----------------------------------------------------------------------------

  class Replay<T> {
    var content: seq<StreamElement<T>>
    var contentIndex: nat
    var inputFinished: bool
    var locks: nat
    var prev: seq<StreamElement<T>>      // the elements the previous operator has yet to emit
    var goOn: seq<bool>                  // the leader's answers to come

    constructor (input: seq<StreamElement<T>>, goOn: seq<bool>)
      ensures Valid() && locks == 0 && Future() == Replayed(input, goOn)
    {
      prev, this.goOn, content, contentIndex, inputFinished, locks := input, goOn, [], 0, false, 0;
    }

    ghost predicate Valid()
      reads this
    {
      inputFinished ==> contentIndex <= |content|
    }

    /** All that the operator has still to emit. */
    ghost function Future(): seq<StreamElement<T>>
      requires Valid()
      reads this
    {
      if inputFinished then content[contentIndex..] + ReplayAgain(prev, content, goOn)
      else ReplayInput(prev, content, goOn)
    }

    method InputNext() returns (e: StreamElement<T>)
      requires Valid() && !inputFinished && prev != []
      modifies this
      ensures Valid() && [e] + Future() == old(Future())
      ensures locks == old(locks) + (if e.FlushAndRestart? then 1 else 0)
    {
      e := prev[0];
      prev := prev[1..];
      match e
      case FlushAndRestart =>
        inputFinished := true;
        content := content + [FlushAndRestart];
        contentIndex := |content|;
        locks := locks + 1;
        assert content[contentIndex..] + ReplayAgain(prev, content, goOn) == ReplayAgain(prev, content, goOn);
      case Item(_) => content := content + [e];
      case Timestamped(_, _) => content := content + [e];
      case Watermark(_) => content := content + [e];
      case FlushBatch =>
      case Terminate =>
    }

    method Next() returns (e: StreamElement<T>)
      requires Valid() && Future() != []
      modifies this
      ensures Valid() && [e] + Future() == old(Future())
      ensures locks == old(locks) + (if e.FlushAndRestart? then 1 else 0)
    {
      ghost var future := Future();
      while true
        invariant Valid() && Future() == future && locks == old(locks)
        decreases |goOn|
      {
        if !inputFinished {
          e := InputNext();
          return;
        }
        if contentIndex < |content| {
          e := content[contentIndex];
          contentIndex := contentIndex + 1;
          if e.FlushAndRestart? { locks := locks + 1; }
          return;
        }
        assert future == ReplayAgain(prev, content, goOn);
        contentIndex := 0;
        var answer := goOn[0];
        goOn := goOn[1..];
        if !answer {
          content := [];
          inputFinished := false;
        }
      }
    }
  }

  method CallReplay<T>(input: seq<StreamElement<T>>, goOn: seq<bool>, calls: nat)
    returns (emitted: seq<StreamElement<T>>, locks: nat)
    requires calls <= |Replayed(input, goOn)|
    ensures emitted == Replayed(input, goOn)[..calls] && locks == Ends(emitted)
  {
    var replay := new Replay(input, goOn);
    ghost var all, todo := replay.Future(), replay.Future();
    emitted := [];
    while |emitted| < calls
      invariant replay.Valid() && fresh(replay) && replay.locks == Ends(emitted) && |emitted| <= calls
      invariant todo == replay.Future() && emitted + todo == all
    {
      var e := replay.Next();
      EndsAppend(emitted, e);
      EmitOne(emitted, e, replay.Future());
      emitted, todo := emitted + [e], replay.Future();
    }
    locks := replay.locks;
  }

  lemma EmitOne<T>(emitted: seq<T>, e: T, rest: seq<T>)
    ensures emitted + ([e] + rest) == (emitted + [e]) + rest
  {
  }
}
