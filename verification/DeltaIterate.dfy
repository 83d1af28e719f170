/** The iteration delta_iterate. */
module DeltaIterate {
  /*
    It iterates over the changes of the states of the keys, and ends with one round of outputs.
   */

  import opened Streams
  import opened SequentialLoop

  // The program ------------------------------------------------------------------------------------

  datatype Condition = Condition(changed: bool, last: bool, rounds: nat)

  datatype Msg<+In, +U, +D, +O> = Init(init: In) | Update(update: U) | Delta(delta: D) | Output(output: O)

  /**
    The user's closures, the limit of rounds, and whether overflows are checked, as in a debug build. The
    messages of a key always come to the same replica.
   */
  datatype Client<!K, !In, !U, !D, !O> = Client(
    limit: nat,
    checked: bool,
    blank: In,
    process: (K, In, D) -> In,
    update: (K, In) -> (U, In),
    output: (K, In) -> O,
    matters: D -> bool,
    body: seq<(K, U)> -> seq<(K, D)>)

  datatype Content<K, In, U, D, O> = Content(messages: seq<(K, Msg<In, U, D, O>)>, locals: map<K, In>)

  /** limit - 2, in 64 bits without a sign. */
  function OutputRound(limit: nat): nat { (limit + 0x1_0000_0000_0000_0000 - 2) % 0x1_0000_0000_0000_0000 }

  /** Whether subtracting 2 from the limit panics, if a message is processed at all. */
  predicate Panics<K, In, U, D, O>(c: Client<K, In, U, D, O>, s: Condition) { !s.last && c.checked && c.limit < 2 }

  /** In this round the states come out. */
  predicate IsOutput<K, In, U, D, O>(c: Client<K, In, U, D, O>, s: Condition) {
    s.last || s.rounds == OutputRound(c.limit)
  }

  function Local<K, In>(blank: In, locals: map<K, In>, k: K): In { if k in locals then locals[k] else blank }

  /** A message at the start of the loop; there is no result where the code would panic. */
  function Step<K, In, U, D, O>(c: Client<K, In, U, D, O>, isOutput: bool, locals: map<K, In>, k: K,
      msg: Msg<In, U, D, O>)
    : Option<(Msg<In, U, D, O>, In)>
  {
    var local := Local(c.blank, locals, k);
    if isOutput then Some((Output(c.output(k, local)), c.blank))
    else
      match msg
      case Init(init) => var (u, local') := c.update(k, init); Some((Update(u), local'))
      case Delta(delta) => var (u, local') := c.update(k, c.process(k, local, delta)); Some((Update(u), local'))
      case _ => None
  }

  function StepAll<K, In, U, D, O>(c: Client<K, In, U, D, O>, isOutput: bool,
      x: Content<K, In, U, D, O>): Option<Content<K, In, U, D, O>>
    decreases |x.messages|
  {
    if x.messages == [] then Some(x)
    else
      var n := |x.messages| - 1;
      var before := StepAll(c, isOutput, Content(x.messages[..n], x.locals));
      if before.None? then None
      else
        var k := x.messages[n].0;
        var step := Step(c, isOutput, before.value.locals, k, x.messages[n].1);
        if step.None? then None
        else Some(Content(before.value.messages + [(k, step.value.0)], before.value.locals[k := step.value.1]))
  }

  function Updates<K, In, U, D, O>(messages: seq<(K, Msg<In, U, D, O>)>): seq<(K, U)> {
    if messages == [] then []
    else
      var before, m := Updates(messages[..|messages| - 1]), messages[|messages| - 1];
      if m.1.Update? then before + [(m.0, m.1.update)] else before
  }

  function Outputs<K, In, U, D, O>(messages: seq<(K, Msg<In, U, D, O>)>): seq<(K, Msg<In, U, D, O>)> {
    if messages == [] then []
    else
      var before, m := Outputs(messages[..|messages| - 1]), messages[|messages| - 1];
      if m.1.Output? then before + [m] else before
  }

  function Deltas<K, In, U, D, O>(ds: seq<(K, D)>): (ms: seq<(K, Msg<In, U, D, O>)>)
    ensures |ms| == |ds| && forall i :: 0 <= i < |ms| ==> ms[i] == (ds[i].0, Delta(ds[i].1))
  {
    seq(|ds|, i requires 0 <= i < |ds| => (ds[i].0, Delta(ds[i].1)))
  }

  /** Updates go through the user's body, and outputs go around it. */
  function Body<K, In, U, D, O>(c: Client<K, In, U, D, O>, s: Condition,
      x: Content<K, In, U, D, O>): Option<Content<K, In, U, D, O>> {
    var stepped := StepAll(c, IsOutput(c, s), x);
    if stepped.None? || (Panics(c, s) && x.messages != []) then None
    else Some(Content(Deltas(c.body(Updates(stepped.value.messages))) + Outputs(stepped.value.messages),
      stepped.value.locals))
  }

  ghost predicate SomethingMatters<K, In, U, D, O>(c: Client<K, In, U, D, O>, messages: seq<(K, Msg<In, U, D, O>)>) {
    exists i :: 0 <= i < |messages| && messages[i].1.Delta? && c.matters(messages[i].1.delta)
  }

  ghost predicate SomethingIsOutput<K, In, U, D, O>(messages: seq<(K, Msg<In, U, D, O>)>) {
    exists i :: 0 <= i < |messages| && messages[i].1.Output?
  }

  /** The folds of the deltas of all replicas, and the loop condition. */
  ghost function Decide<K, In, U, D, O>(c: Client<K, In, U, D, O>, s: Condition,
      messages: seq<(K, Msg<In, U, D, O>)>): (Condition, bool) {
    var changed := s.changed || SomethingMatters(c, messages);
    var last := s.last || SomethingIsOutput(messages);
    (Condition(false, last || !changed, s.rounds + 1), !last)
  }

  ghost function Round<K, In, U, D, O>(c: Client<K, In, U, D, O>, s: Condition, x: Option<Content<K, In, U, D, O>>)
    : (Condition, bool, Option<Content<K, In, U, D, O>>)
  {
    if x.None? then (s, true, None)
    else
      var out := Body(c, s, x.value);
      if out.None? then (s, true, None)
      else
        var (s', go) := Decide(c, s, out.value.messages);
        (s', go, out)
  }

  ghost function Loop<K, In, U, D, O>(c: Client<K, In, U, D, O>)
    : Program<Condition, Option<Content<K, In, U, D, O>>, ()>
  {
    Program((_: (), s, x) => Round(c, s, x), c.limit)
  }

  const INITIAL: Condition := Condition(false, false, 0)

  function Inits<K, In, U, D, O>(input: seq<(K, In)>): Content<K, In, U, D, O> {
    Content(seq(|input|, i requires 0 <= i < |input| => (input[i].0, Init(input[i].1))), map[])
  }

  // One round --------------------------------------------------------------------------------------

  predicate AllInputs<K, In, U, D, O>(messages: seq<(K, Msg<In, U, D, O>)>) {
    forall i :: 0 <= i < |messages| ==> messages[i].1.Init? || messages[i].1.Delta?
  }

  predicate AllDeltas<K, In, U, D, O>(messages: seq<(K, Msg<In, U, D, O>)>) {
    forall i :: 0 <= i < |messages| ==> messages[i].1.Delta?
  }

  predicate AllUpdates<K, In, U, D, O>(messages: seq<(K, Msg<In, U, D, O>)>) {
    forall i :: 0 <= i < |messages| ==> messages[i].1.Update?
  }

  predicate AllOutputs<K, In, U, D, O>(messages: seq<(K, Msg<In, U, D, O>)>) {
    forall i :: 0 <= i < |messages| ==> messages[i].1.Output?
  }

  function Keys<K, V>(items: seq<(K, V)>): (ks: seq<K>)
    ensures |ks| == |items| && forall i :: 0 <= i < |ks| ==> ks[i] == items[i].0
  {
    seq(|items|, i requires 0 <= i < |items| => items[i].0)
  }

  lemma {:induction false} Steps<K, In, U, D, O>(c: Client<K, In, U, D, O>, isOutput: bool, x: Content<K, In, U, D, O>)
    requires AllInputs(x.messages)
    ensures var y := StepAll(c, isOutput, x);
            && y.Some? && Keys(y.value.messages) == Keys(x.messages)
            && if isOutput then AllOutputs(y.value.messages) else AllUpdates(y.value.messages)
    decreases |x.messages|
  {
    if x.messages != [] { Steps(c, isOutput, Content(x.messages[..|x.messages| - 1], x.locals)); }
  }

  lemma {:induction false} RoutedUpdates<K, In, U, D, O>(messages: seq<(K, Msg<In, U, D, O>)>)
    requires AllUpdates(messages)
    ensures Outputs(messages) == [] && Keys(Updates(messages)) == Keys(messages)
  {
    if messages != [] { RoutedUpdates(messages[..|messages| - 1]); }
  }

  lemma {:induction false} RoutedOutputs<K, In, U, D, O>(messages: seq<(K, Msg<In, U, D, O>)>)
    requires AllOutputs(messages)
    ensures Updates(messages) == [] && Outputs(messages) == messages
  {
    if messages != [] { RoutedOutputs(messages[..|messages| - 1]); }
  }

  /** The body makes nothing of nothing. */
  predicate KeepsSilent<K, In, U, D, O>(c: Client<K, In, U, D, O>) { |c.body([])| == 0 }

  /** No subtraction overflows, or it goes unnoticed. */
  predicate Subtracts<K, In, U, D, O>(c: Client<K, In, U, D, O>) { c.checked ==> c.limit >= 2 }

  lemma BodyRound<K, In, U, D, O>(c: Client<K, In, U, D, O>, s: Condition, x: Content<K, In, U, D, O>)
    requires AllInputs(x.messages) && KeepsSilent(c) && Subtracts(c)
    ensures var y := Body(c, s, x);
            && y.Some?
            && if IsOutput(c, s) then AllOutputs(y.value.messages) && Keys(y.value.messages) == Keys(x.messages)
              else AllDeltas(y.value.messages)
  {
    var stepped := StepAll(c, IsOutput(c, s), x);
    Steps(c, IsOutput(c, s), x);
    if IsOutput(c, s) { RoutedOutputs(stepped.value.messages); } else { RoutedUpdates(stepped.value.messages); }
  }

  // Whole runs -------------------------------------------------------------------------------------

  ghost function After<K, In, U, D, O>(c: Client<K, In, U, D, O>, input: seq<(K, In)>,
      k: nat): Point<Condition, Option<Content<K, In, U, D, O>>> {
    Run(Loop(c), INITIAL, Some(Inits(input)), seq(k, i => ()))
  }

  lemma AfterNext<K, In, U, D, O>(c: Client<K, In, U, D, O>, input: seq<(K, In)>, k: nat)
    ensures var p, p' := After(c, input, k), After(c, input, k + 1);
            Round(c, p.state, p.data) == (p'.state, p'.condition, p'.data)
  {
    RunNext(Loop(c), INITIAL, Some(Inits(input)), seq(k, i => ()), ());
    assert seq(k, i => ()) + [()] == seq(k + 1, i => ());
  }

  /** While the loop goes on, its messages are inputs; they are outputs only when it stops. */
  ghost predicate Inv<K, In, U, D, O>(c: Client<K, In, U, D, O>, k: nat,
      p: Point<Condition, Option<Content<K, In, U, D, O>>>) {
    && p.data.Some? && p.state.rounds == k && !p.state.changed
    && if p.condition then AllInputs(p.data.value.messages) else AllOutputs(p.data.value.messages)
  }

  lemma RoundInv<K, In, U, D, O>(c: Client<K, In, U, D, O>, k: nat,
      p: Point<Condition, Option<Content<K, In, U, D, O>>>,
      p': Point<Condition, Option<Content<K, In, U, D, O>>>)
    requires KeepsSilent(c) && Subtracts(c) && Inv(c, k, p) && p.condition
    requires Round(c, p.state, p.data) == (p'.state, p'.condition, p'.data)
    ensures Inv(c, k + 1, p')
    ensures p'.condition ==> AllDeltas(p'.data.value.messages)
    ensures IsOutput(c, p.state) ==>
      AllOutputs(p'.data.value.messages) && Keys(p'.data.value.messages) == Keys(p.data.value.messages)
    ensures !IsOutput(c, p.state) ==> AllDeltas(p'.data.value.messages) && p'.condition
  {
    BodyRound(c, p.state, p.data.value);
  }

  /** After the round of outputs the loop goes on only if there was nothing to put out, and then for one more round. */
  ghost predicate IsBounded<K, In, U, D, O>(c: Client<K, In, U, D, O>, k: nat,
      p: Point<Condition, Option<Content<K, In, U, D, O>>>) {
    p.condition ==>
      k + 2 <= c.limit || (k + 1 == c.limit && p.state.last && p.data.Some? && p.data.value.messages == [])
  }

  lemma RoundBounded<K, In, U, D, O>(c: Client<K, In, U, D, O>, k: nat,
      p: Point<Condition, Option<Content<K, In, U, D, O>>>,
      p': Point<Condition, Option<Content<K, In, U, D, O>>>)
    requires KeepsSilent(c) && Inv(c, k, p) && p.condition && IsBounded(c, k, p) &&
      2 <= c.limit < 0x1_0000_0000_0000_0000
    requires Round(c, p.state, p.data) == (p'.state, p'.condition, p'.data)
    ensures IsBounded(c, k + 1, p')
  {
    BodyRound(c, p.state, p.data.value);
    assert OutputRound(c.limit) == c.limit - 2;
    var m := p'.data.value.messages;
    if IsOutput(c, p.state) && m != [] { assert m[0].1.Output?; }
  }

  /** The loop has not stopped before round k. */
  ghost predicate GoesOn<K, In, U, D, O>(c: Client<K, In, U, D, O>, input: seq<(K, In)>, k: nat) {
    forall j :: 0 <= j < k ==> After(c, input, j).condition
  }

  lemma {:induction false} RunKeeps<K, In, U, D, O>(c: Client<K, In, U, D, O>, input: seq<(K, In)>, k: nat)
    requires KeepsSilent(c) && Subtracts(c) && GoesOn(c, input, k)
    ensures Inv(c, k, After(c, input, k))
    ensures k > 0 && After(c, input, k).condition ==> AllDeltas(After(c, input, k).data.value.messages)
    ensures 2 <= c.limit < 0x1_0000_0000_0000_0000 ==> IsBounded(c, k, After(c, input, k))
  {
    if k > 0 {
      RunKeeps(c, input, k - 1);
      AfterNext(c, input, k - 1);
      assert After(c, input, k - 1).condition;
      RoundInv(c, k - 1, After(c, input, k - 1), After(c, input, k));
      if 2 <= c.limit < 0x1_0000_0000_0000_0000 { RoundBounded(c, k - 1, After(c, input, k - 1), After(c, input, k)); }
    }
  }

  lemma NotStopped<K, In, U, D, O>(c: Client<K, In, U, D, O>, input: seq<(K, In)>, k: nat)
    requires k > 0 && Length(Loop(c), INITIAL, Some(Inits(input)), seq(k, i => ())) == k
    ensures GoesOn(c, input, k) && (After(c, input, k).condition ==> k >= c.limit) &&
      k <= if c.limit == 0 then 1 else c.limit
  {
    var orders := seq(k, i => ());
    assert orders[..k] == orders;
    forall j | 0 <= j < k
      ensures After(c, input, j).condition && (j > 0 ==> j < c.limit)
    {
      assert orders[..j] == seq(j, i => ());
      assert !Stops(Loop(c), INITIAL, Some(Inits<K, In, U, D, O>(input)), orders[..j]);
    }
    if k > 1 { assert k - 1 < c.limit; }
  }

  lemma RoutedMore<K, In, U, D, O>(before: seq<(K, Msg<In, U, D, O>)>, m: (K, Msg<In, U, D, O>))
    requires m.1.Update?
    ensures Updates(before + [m]) == Updates(before) + [(m.0, m.1.update)] && Outputs(before + [m]) == Outputs(before)
  {
    assert (before + [m])[..|before|] == before;
  }

  /** What the body gets in the first round. */
  function FirstUpdates<K, In, U, D, O>(c: Client<K, In, U, D, O>, input: seq<(K, In)>): (us: seq<(K, U)>)
    ensures |us| == |input|
  {
    seq(|input|, i requires 0 <= i < |input| => (input[i].0, c.update(input[i].0, input[i].1).0))
  }

  lemma {:induction false} FirstSteps<K, In, U, D, O>(c: Client<K, In, U, D, O>, input: seq<(K, In)>)
    ensures var y := StepAll(c, false, Inits(input));
            y.Some? && Updates(y.value.messages) == FirstUpdates(c, input) && Outputs(y.value.messages) == []
    decreases |input|
  {
    if input != [] {
      var n := |input| - 1;
      var x: Content<K, In, U, D, O> := Inits(input);
      assert Content(x.messages[..n], x.locals) == Inits(input[..n]);
      FirstSteps(c, input[..n]);
      var before := StepAll(c, false, Inits(input[..n])).value.messages;
      var k, u := input[n].0, c.update(input[n].0, input[n].1).0;
      assert x.messages[n] == (k, Init(input[n].1));
      assert StepAll(c, false, x).value.messages == before + [(k, Update(u))];
      RoutedMore(before, (k, Update(u)));
      assert FirstUpdates(c, input) == FirstUpdates(c, input[..n]) + [(k, u)];
    }
  }

  /** With a limit below two, the only round ends with the deltas the body makes of the first updates, or panics. */
  lemma TooFewRounds<K, In, U, D, O>(c: Client<K, In, U, D, O>, input: seq<(K, In)>)
    requires c.limit < 2
    ensures var end := After(c, input, 1).data;
            && (end.None? <==> c.checked && input != [])
            && (end.Some? ==> end.value.messages == Deltas(c.body(FirstUpdates(c, input))))
  {
    AfterNext(c, input, 0);
    FirstSteps(c, input);
    var ds := Deltas<K, In, U, D, O>(c.body(FirstUpdates(c, input)));
    assert ds + [] == ds;
  }

  /** The condition on what is given to the loop: enough rounds, or nothing for it to do. */
  predicate IsEnough<K, In, U, D, O>(c: Client<K, In, U, D, O>, input: seq<(K, In)>) {
    c.limit >= 2 || if c.checked then input == [] else |c.body(FirstUpdates(c, input))| == 0
  }

  ghost predicate IsWholeRun<K, In, U, D, O>(c: Client<K, In, U, D, O>, input: seq<(K, In)>, k: nat) {
    k > 0 && Length(Loop(c), INITIAL, Some(Inits(input)), seq(k, i => ())) == k
  }

  /** The run ends without a panic, and all its messages can be unwrapped as outputs. */
  ghost predicate EndsWell<K, In, U, D, O>(c: Client<K, In, U, D, O>, input: seq<(K, In)>, k: nat) {
    After(c, input, k).data.Some? && AllOutputs(After(c, input, k).data.value.messages)
  }

  /**
    The whole run: before its end no message is ever of a kind that the code does not expect, and all the
    messages of a round are of the same kind. It ends without a panic and with outputs alone if and only
    if the limit is at least two, or else the body makes no delta of the first updates; in a debug build,
    there must be no input at all.
   */
  lemma EndsWithOutputs<K, In, U, D, O>(c: Client<K, In, U, D, O>, input: seq<(K, In)>, k: nat)
    requires KeepsSilent(c) && c.limit < 0x1_0000_0000_0000_0000 && IsWholeRun(c, input, k)
    ensures forall j :: 0 <= j < k ==>
      After(c, input, j).data.Some? && AllInputs(After(c, input, j).data.value.messages)
    ensures EndsWell(c, input, k) <==> IsEnough(c, input)
  {
    NotStopped(c, input, k);
    if c.limit < 2 {
      assert k == 1;
      TooFewRounds(c, input);
      assert c.checked && input == [] ==> FirstUpdates(c, input) == [];
      var end := After(c, input, k).data;
      if end.Some? && end.value.messages != [] { assert end.value.messages[0].1.Delta?; }
    } else {
      forall j | 0 <= j < k
        ensures After(c, input, j).data.Some? && AllInputs(After(c, input, j).data.value.messages)
      {
        assert GoesOn(c, input, j);
        RunKeeps(c, input, j);
      }
      RunKeeps(c, input, k);
    }
  }

  // When it stops ----------------------------------------------------------------------------------

  /** No delta among the messages that are left by a round matters. */
  ghost predicate NothingMatters<K, In, U, D, O>(c: Client<K, In, U, D, O>, data: Option<Content<K, In, U, D, O>>) {
    data.Some? && forall i :: 0 <= i < |data.value.messages| && data.value.messages[i].1.Delta? ==>
      !c.matters(data.value.messages[i].1.delta)
  }

  /** Round j is the last that is allowed, but for one, or nothing matters of what the round before it has left. */
  ghost predicate EndsIn<K, In, U, D, O>(c: Client<K, In, U, D, O>, input: seq<(K, In)>, j: nat) {
    j + 2 == c.limit || (j > 0 && NothingMatters(c, After(c, input, j).data))
  }

  /** The flag is set after a round if and only if nothing matters of what it has left. */
  lemma LastIsSet<K, In, U, D, O>(c: Client<K, In, U, D, O>, input: seq<(K, In)>, k: nat)
    requires KeepsSilent(c) && Subtracts(c) && k > 0 && GoesOn(c, input, k) && After(c, input, k).condition
    ensures After(c, input, k).state.last <==> NothingMatters(c, After(c, input, k).data)
  {
    RunKeeps(c, input, k - 1);
    RunKeeps(c, input, k);
    AfterNext(c, input, k - 1);
    var p, p' := After(c, input, k - 1), After(c, input, k);
    RoundInv(c, k - 1, p, p');
    var ms := p'.data.value.messages;
    if m :| 0 <= m < |ms| && ms[m].1.Delta? && c.matters(ms[m].1.delta) { assert SomethingMatters(c, ms); }
  }

  /** The round of outputs. */
  lemma OutputIsEnd<K, In, U, D, O>(c: Client<K, In, U, D, O>, input: seq<(K, In)>, j: nat)
    requires KeepsSilent(c) && 2 <= c.limit < 0x1_0000_0000_0000_0000
    requires GoesOn(c, input, j) && After(c, input, j).condition
    ensures IsOutput(c, After(c, input, j).state) <==> EndsIn(c, input, j)
  {
    RunKeeps(c, input, j);
    assert OutputRound(c.limit) == c.limit - 2;
    if j > 0 { LastIsSet(c, input, j); }
  }

  /** It ends the run, unless there is nothing to put out in the very first round. */
  lemma EndEnds<K, In, U, D, O>(c: Client<K, In, U, D, O>, input: seq<(K, In)>, j: nat)
    requires KeepsSilent(c) && 2 <= c.limit < 0x1_0000_0000_0000_0000 && input != []
    requires GoesOn(c, input, j) && After(c, input, j).condition
    ensures After(c, input, j + 1).condition <==> !EndsIn(c, input, j)
  {
    OutputIsEnd(c, input, j);
    RunKeeps(c, input, j);
    AfterNext(c, input, j);
    var p, p' := After(c, input, j), After(c, input, j + 1);
    RoundInv(c, j, p, p');
    if IsOutput(c, p.state) {
      if p.data.value.messages == [] {
        assert j > 0 && NothingMatters(c, p.data);
        LastIsSet(c, input, j);
      } else {
        assert |Keys(p'.data.value.messages)| > 0;
        assert p'.data.value.messages[0].1.Output?;
      }
    }
  }

  /**
    The last round, which puts out the states, is the first one of which the round before has left no delta
    that matters, or the one before the last that is allowed.
   */
  lemma StopsWhenNothingMatters<K, In, U, D, O>(c: Client<K, In, U, D, O>, input: seq<(K, In)>, n: nat)
    requires KeepsSilent(c) && 2 <= c.limit < 0x1_0000_0000_0000_0000 && IsWholeRun(c, input, n) && input != []
    ensures EndsIn(c, input, n - 1) && forall j :: 0 <= j < n - 1 ==> !EndsIn(c, input, j)
  {
    NotStopped(c, input, n);
    forall j | 0 <= j < n - 1 ensures !EndsIn(c, input, j) {
      assert GoesOn(c, input, j) && After(c, input, j).condition && After(c, input, j + 1).condition;
      EndEnds(c, input, j);
    }
    assert GoesOn(c, input, n - 1) && After(c, input, n - 1).condition;
    EndEnds(c, input, n - 1);
    RunKeeps(c, input, n);
  }

  /** A round without messages leaves none, and is followed by the last one. */
  lemma EmptyRound<K, In, U, D, O>(c: Client<K, In, U, D, O>, s: Condition, x: Content<K, In, U, D, O>)
    requires KeepsSilent(c) && x.messages == [] && !s.changed
    ensures var (s', go, out) := Round(c, s, Some(x));
            s'.last && !s'.changed && go == !s.last && out.Some? && out.value.messages == []
  {
  }

  /** Without input there are two rounds. */
  lemma NothingToDo<K, In, U, D, O>(c: Client<K, In, U, D, O>, n: nat)
    requires KeepsSilent(c) && 2 <= c.limit < 0x1_0000_0000_0000_0000 && IsWholeRun(c, [], n)
    ensures n == 2
  {
    NotStopped(c, [], n);
    TwoEmptyRounds(c);
  }

  lemma TwoEmptyRounds<K, In, U, D, O>(c: Client<K, In, U, D, O>)
    requires KeepsSilent(c)
    ensures After(c, [], 1).condition && !After(c, [], 2).condition
  {
    AfterNext(c, [], 0);
    AfterNext(c, [], 1);
    EmptyRound(c, After(c, [], 0).state, After(c, [], 0).data.value);
    EmptyRound(c, After(c, [], 1).state, After(c, [], 1).data.value);
  }

  /** Limit 1, one item, and a body that returns its delta. */
  function OneRound(checked: bool): Client<nat, nat, nat, nat, nat> {
    Client(1, checked, 0, (k, s, d) => d, (k, s) => (s, s), (k, s) => s, d => true, us => us)
  }

  /** The run is a whole one, and the delta that is left cannot be unwrapped; a debug build panics before. */
  lemma OneRoundFails(checked: bool)
    ensures KeepsSilent(OneRound(checked)) && IsWholeRun(OneRound(checked), [(0, 7)], 1)
    ensures var end := After(OneRound(checked), [(0, 7)], 1).data;
            if checked then end.None? else end.Some? && end.value.messages == [(0, Delta(7))]
    ensures !EndsWell(OneRound(checked), [(0, 7)], 1)
  {
    var c := OneRound(checked);
    var input := [(0, 7)];
    var orders := seq(1, i => ());
    assert orders[..1] == orders && orders[..0] == [];
    assert Stops(Loop(c), INITIAL, Some(Inits(input)), orders);
    LengthIsFirst(Loop(c), INITIAL, Some(Inits(input)), orders, 1);
    TooFewRounds(c, input);
    assert FirstUpdates(c, input) == [(0, 7)];
    var m := After(c, input, 1).data;
    if m.Some? { assert m.value.messages[0] == (0, Delta(7)); }
  }

  // One output for each key ------------------------------------------------------------------------

  predicate KeepsKeysOf<K(==), In, U, D, O>(c: Client<K, In, U, D, O>, us: seq<(K, U)>) {
    multiset(Keys(c.body(us))) == multiset(Keys(us))
  }

  /** The body returns one delta for each update, of the same key. */
  ghost predicate KeepsKeys<K(!new), In, U(!new), D, O>(c: Client<K, In, U, D, O>) {
    forall us {:trigger KeepsKeysOf(c, us)} :: KeepsKeysOf(c, us)
  }

  lemma KeepsKeysIsSilent<K(!new), In, U(!new), D, O>(c: Client<K, In, U, D, O>)
    requires KeepsKeys(c)
    ensures KeepsSilent(c)
  {
    assert KeepsKeysOf(c, []);
    assert |multiset(Keys(c.body([])))| == |c.body([])|;
  }

  lemma KeysConcat<K, V>(a: seq<(K, V)>, b: seq<(K, V)>)
    ensures Keys(a + b) == Keys(a) + Keys(b)
  {
  }

  lemma RoundKeys<K(!new), In, U(!new), D, O>(c: Client<K, In, U, D, O>, s: Condition, x: Content<K, In, U, D, O>)
    requires AllInputs(x.messages) && KeepsKeys(c) && Subtracts(c)
    ensures var y := Body(c, s, x); y.Some? && multiset(Keys(y.value.messages)) == multiset(Keys(x.messages))
  {
    var stepped := StepAll(c, IsOutput(c, s), x);
    Steps(c, IsOutput(c, s), x);
    var us := Updates(stepped.value.messages);
    assert KeepsKeysOf(c, us);
    if IsOutput(c, s) { RoutedOutputs(stepped.value.messages); } else { RoutedUpdates(stepped.value.messages); }
    KeysConcat(Deltas<K, In, U, D, O>(c.body(us)), Outputs(stepped.value.messages));
    assert Keys(Deltas<K, In, U, D, O>(c.body(us))) == Keys(c.body(us));
  }

  /** If it does, every key has as many outputs as it had items. */
  lemma {:induction false} RunKeepsKeys<K(!new), In, U(!new), D, O>(c: Client<K, In, U, D, O>, input: seq<(K, In)>,
      k: nat)
    requires KeepsKeys(c) && Subtracts(c) && GoesOn(c, input, k)
    ensures After(c, input, k).data.Some? && multiset(Keys(After(c, input, k).data.value.messages)) ==
      multiset(Keys(input))
  {
    KeepsKeysIsSilent(c);
    if k == 0 {
      var x: Content<K, In, U, D, O> := Inits(input);
      assert Keys(x.messages) == Keys(input);
    } else {
      RunKeepsKeys(c, input, k - 1);
      RunKeeps(c, input, k - 1);
      AfterNext(c, input, k - 1);
      assert After(c, input, k - 1).condition;
      RoundKeys(c, After(c, input, k - 1).state, After(c, input, k - 1).data.value);
    }
  }

  /** If the body keeps the keys, the run ends well if and only if the limit is at least two or there is no input. */
  lemma EndsWithOutputsOfKeys<K(!new), In, U(!new), D, O>(c: Client<K, In, U, D, O>, input: seq<(K, In)>, k: nat)
    requires KeepsKeys(c) && c.limit < 0x1_0000_0000_0000_0000 && IsWholeRun(c, input, k)
    ensures EndsWell(c, input, k) <==> c.limit >= 2 || input == []
  {
    KeepsKeysIsSilent(c);
    EndsWithOutputs(c, input, k);
    var us := FirstUpdates(c, input);
    assert KeepsKeysOf(c, us);
    assert |multiset(Keys(c.body(us)))| == |Keys(c.body(us))| && |multiset(Keys(us))| == |Keys(us)|;
  }

  lemma OneOutputPerKey<K(!new), In, U(!new), D, O>(c: Client<K, In, U, D, O>, input: seq<(K, In)>, k: nat)
    requires KeepsKeys(c) && 2 <= c.limit < 0x1_0000_0000_0000_0000 && IsWholeRun(c, input, k)
    ensures EndsWell(c, input, k)
    ensures multiset(Keys(After(c, input, k).data.value.messages)) == multiset(Keys(input))
  {
    KeepsKeysIsSilent(c);
    EndsWithOutputs(c, input, k);
    NotStopped(c, input, k);
    RunKeepsKeys(c, input, k);
  }

  // The state behind each output -------------------------------------------------------------------

  /** The messages of one key, in their order. */
  function MessagesOf<K(==), In, U, D, O>(messages: seq<(K, Msg<In, U, D, O>)>, k: K): seq<Msg<In, U, D, O>> {
    if messages == [] then []
    else
      var before, m := MessagesOf(messages[..|messages| - 1], k), messages[|messages| - 1];
      if m.0 == k then before + [m.1] else before
  }

  /** The state of a key after all these messages, if it knew of no other key. */
  function FoldKey<K, In, U, D, O>(c: Client<K, In, U, D, O>, k: K, local: In, messages: seq<Msg<In, U, D, O>>): In {
    if messages == [] then local
    else
      var before := FoldKey(c, k, local, messages[..|messages| - 1]);
      match messages[|messages| - 1]
      case Init(init) => c.update(k, init).1
      case Delta(delta) => c.update(k, c.process(k, before, delta)).1
      case _ => before
  }

  /** The state is put out for the first message of the key, and is taken away by that. */
  function OutputsOf<K, In, U, D, O>(c: Client<K, In, U, D, O>, k: K, local: In, n: nat): (os: seq<Msg<In, U, D, O>>)
    ensures |os| == n
  {
    if n == 0 then [] else OutputsOf(c, k, local, n - 1) + [Output(c.output(k, if n == 1 then local else c.blank))]
  }

  lemma FoldKeyMore<K, In, U, D, O>(c: Client<K, In, U, D, O>, k: K, local: In, messages: seq<Msg<In, U, D, O>>,
      m: Msg<In, U, D, O>)
    ensures FoldKey(c, k, local, messages + [m]) ==
            match m
            case Init(init) => c.update(k, init).1
            case Delta(delta) => c.update(k, c.process(k, FoldKey(c, k, local, messages), delta)).1
            case _ => FoldKey(c, k, local, messages)
  {
    assert (messages + [m])[..|messages|] == messages;
  }

  lemma {:induction false} FoldKeyConcat<K, In, U, D, O>(c: Client<K, In, U, D, O>, k: K, local: In,
      a: seq<Msg<In, U, D, O>>, b: seq<Msg<In, U, D, O>>)
    ensures FoldKey(c, k, FoldKey(c, k, local, a), b) == FoldKey(c, k, local, a + b)
  {
    if b == [] {
      assert a + b == a;
    } else {
      var n := |b| - 1;
      assert a + b == (a + b[..n]) + [b[n]] && b == b[..n] + [b[n]];
      FoldKeyConcat(c, k, local, a, b[..n]);
      FoldKeyMore(c, k, FoldKey(c, k, local, a), b[..n], b[n]);
      FoldKeyMore(c, k, local, a + b[..n], b[n]);
    }
  }

  lemma MessagesMore<K, In, U, D, O>(messages: seq<(K, Msg<In, U, D, O>)>, m: (K, Msg<In, U, D, O>), k: K)
    ensures MessagesOf(messages + [m], k) ==
            if m.0 == k then MessagesOf(messages, k) + [m.1] else MessagesOf(messages, k)
  {
    assert (messages + [m])[..|messages|] == messages;
  }

  /** A round does to the state of a key what the key's own messages do. */
  lemma {:induction false} StepsOfKey<K, In, U, D, O>(c: Client<K, In, U, D, O>, x: Content<K, In, U, D, O>, k: K)
    requires AllInputs(x.messages)
    ensures var y := StepAll(c, false, x);
            y.Some? && Local(c.blank, y.value.locals, k) ==
              FoldKey(c, k, Local(c.blank, x.locals, k), MessagesOf(x.messages, k))
    decreases |x.messages|
  {
    Steps(c, false, x);
    if x.messages != [] {
      var n := |x.messages| - 1;
      var m := x.messages[n];
      StepsOfKey(c, Content(x.messages[..n], x.locals), k);
      assert x.messages == x.messages[..n] + [m];
      MessagesMore(x.messages[..n], m, k);
      FoldKeyMore(c, k, Local(c.blank, x.locals, k), MessagesOf(x.messages[..n], k), m.1);
    }
  }

  lemma {:induction false} OutputsOfKey<K, In, U, D, O>(c: Client<K, In, U, D, O>, x: Content<K, In, U, D, O>, k: K)
    requires AllInputs(x.messages)
    ensures var y, n, local := StepAll(c, true, x), |MessagesOf(x.messages, k)|, Local(c.blank, x.locals, k);
            && y.Some? && MessagesOf(y.value.messages, k) == OutputsOf(c, k, local, n)
            && Local(c.blank, y.value.locals, k) == if n == 0 then local else c.blank
    decreases |x.messages|
  {
    Steps(c, true, x);
    if x.messages != [] {
      var n := |x.messages| - 1;
      var m := x.messages[n];
      OutputsOfKey(c, Content(x.messages[..n], x.locals), k);
      assert x.messages == x.messages[..n] + [m];
      MessagesMore(x.messages[..n], m, k);
      var before := StepAll(c, true, Content(x.messages[..n], x.locals)).value;
      MessagesMore(before.messages, (m.0, Output(c.output(m.0, Local(c.blank, before.locals, m.0)))), k);
    }
  }

  /** All the messages a key got in the first n rounds. */
  ghost function History<K, In, U, D, O>(c: Client<K, In, U, D, O>, input: seq<(K, In)>, n: nat, k: K)
      : seq<Msg<In, U, D, O>>
    requires KeepsSilent(c) && Subtracts(c) && GoesOn(c, input, n)
  {
    if n == 0 then []
    else
      RunKeeps(c, input, n - 1);
      History(c, input, n - 1, k) + MessagesOf(After(c, input, n - 1).data.value.messages, k)
  }

  /** Before the round of outputs, the state of a key is made by its own messages; after it, no message is left. */
  lemma {:induction false} StatesAreHistories<K, In, U, D, O>(c: Client<K, In, U, D, O>, input: seq<(K, In)>, n: nat,
      k: K)
    requires KeepsSilent(c) && Subtracts(c) && GoesOn(c, input, n) && After(c, input, n).condition
    ensures var data := After(c, input, n).data;
            && data.Some?
            && (data.value.messages != [] ==>
                Local(c.blank, data.value.locals, k) == FoldKey(c, k, c.blank, History(c, input, n, k)))
  {
    RunKeeps(c, input, n);
    if n > 0 {
      StatesAreHistories(c, input, n - 1, k);
      RunKeeps(c, input, n - 1);
      AfterNext(c, input, n - 1);
      var p := After(c, input, n - 1);
      StateOfNext(c, p.state, p.data.value, k);
      if After(c, input, n).data.value.messages != [] {
        NotYetOutput(c, n - 1, p, After(c, input, n));
        FoldKeyConcat(c, k, c.blank, History(c, input, n - 1, k), MessagesOf(p.data.value.messages, k));
      }
    }
  }

  lemma StateOfNext<K, In, U, D, O>(c: Client<K, In, U, D, O>, s: Condition, x: Content<K, In, U, D, O>, k: K)
    requires AllInputs(x.messages) && KeepsSilent(c) && Subtracts(c)
    ensures var y, local := Body(c, s, x), Local(c.blank, x.locals, k);
            && y.Some?
            && (IsOutput(c, s) ==>
                MessagesOf(y.value.messages, k) == OutputsOf(c, k, local, |MessagesOf(x.messages, k)|))
            && (!IsOutput(c, s) ==>
                Local(c.blank, y.value.locals, k) == FoldKey(c, k, local, MessagesOf(x.messages, k)))
            && (x.messages == [] ==> y.value.messages == [])
  {
    BodyRound(c, s, x);
    var stepped := StepAll(c, IsOutput(c, s), x);
    Steps(c, IsOutput(c, s), x);
    if IsOutput(c, s) {
      OutputsOfKey(c, x, k);
      RoutedOutputs(stepped.value.messages);
      assert Deltas<K, In, U, D, O>(c.body([])) == [];
      assert [] + stepped.value.messages == stepped.value.messages;
    } else {
      StepsOfKey(c, x, k);
    }
  }

  lemma NotYetOutput<K, In, U, D, O>(c: Client<K, In, U, D, O>, k: nat,
      p: Point<Condition, Option<Content<K, In, U, D, O>>>, p': Point<Condition, Option<Content<K, In, U, D, O>>>)
    requires KeepsSilent(c) && Subtracts(c) && Inv(c, k, p) && p.condition && p'.condition
    requires Round(c, p.state, p.data) == (p'.state, p'.condition, p'.data)
    requires p'.data.Some? && p'.data.value.messages != []
    ensures !IsOutput(c, p.state) && p.data.value.messages != []
  {
    RoundInv(c, k, p, p');
    BodyRound(c, p.state, p.data.value);
    StateOfEmpty(c, p.state, p.data.value);
  }

  lemma StateOfEmpty<K, In, U, D, O>(c: Client<K, In, U, D, O>, s: Condition, x: Content<K, In, U, D, O>)
    requires KeepsSilent(c)
    ensures x.messages == [] ==> Body(c, s, x).Some? && Body(c, s, x).value.messages == []
  {
  }

  /**
    Every key comes out as the output of the state that its own messages make, one after the other and
    whatever the other keys do: its input, and then its deltas of all the rounds but the last one before
    the outputs, which is not processed any more.
   */
  lemma OutputsAreOfStates<K, In, U, D, O>(c: Client<K, In, U, D, O>, input: seq<(K, In)>, n: nat, k: K)
    requires KeepsSilent(c) && 2 <= c.limit < 0x1_0000_0000_0000_0000 && IsWholeRun(c, input, n)
    ensures GoesOn(c, input, n) && After(c, input, n - 1).data.Some? && After(c, input, n).data.Some?
    ensures MessagesOf(After(c, input, n).data.value.messages, k) ==
            OutputsOf(c, k, FoldKey(c, k, c.blank, History(c, input, n - 1, k)),
              |MessagesOf(After(c, input, n - 1).data.value.messages, k)|)
  {
    NotStopped(c, input, n);
    RunKeeps(c, input, n - 1);
    RunKeeps(c, input, n);
    AfterNext(c, input, n - 1);
    StatesAreHistories(c, input, n - 1, k);
    var p, p' := After(c, input, n - 1), After(c, input, n);
    StateOfNext(c, p.state, p.data.value, k);
    RoundInv(c, n - 1, p, p');
    if p.data.value.messages == [] { assert MessagesOf(p'.data.value.messages, k) == []; }
  }

  // What the body gets -----------------------------------------------------------------------------

  /** The state of a key from which the i-th message of a round makes an update. */
  function StateFor<K(==), In, U, D, O>(c: Client<K, In, U, D, O>, x: Content<K, In, U, D, O>, i: nat): In
    requires i < |x.messages|
  {
    var (k, m) := x.messages[i];
    match m
    case Init(init) => init
    case Delta(delta) =>
      c.process(k, FoldKey(c, k, Local(c.blank, x.locals, k), MessagesOf(x.messages[..i], k)), delta)
    case _ => Local(c.blank, x.locals, k)
  }

  /** Every message of a round makes one update, from the state of its key with the message. */
  function UpdatesFor<K(==), In, U, D, O>(c: Client<K, In, U, D, O>, x: Content<K, In, U, D, O>): (us: seq<(K, U)>)
    ensures |us| == |x.messages|
    ensures forall i :: 0 <= i < |us| ==> us[i] == (x.messages[i].0, c.update(x.messages[i].0, StateFor(c, x, i)).0)
  {
    seq(|x.messages|, i requires 0 <= i < |x.messages| => (x.messages[i].0,
      c.update(x.messages[i].0, StateFor(c, x, i)).0))
  }

  lemma {:induction false} StepsMakeUpdates<K, In, U, D, O>(c: Client<K, In, U, D, O>, x: Content<K, In, U, D, O>)
    requires AllInputs(x.messages)
    ensures var y := StepAll(c, false, x);
            y.Some? && Updates(y.value.messages) == UpdatesFor(c, x) && Outputs(y.value.messages) == []
    decreases |x.messages|
  {
    Steps(c, false, x);
    if x.messages != [] {
      var n := |x.messages| - 1;
      var before := Content(x.messages[..n], x.locals);
      StepsMakeUpdates(c, before);
      StepsOfKey(c, before, x.messages[n].0);
      OneMoreUpdate(c, x);
      LastStep(c, x);
    }
  }

  lemma OneMoreUpdate<K, In, U, D, O>(c: Client<K, In, U, D, O>, x: Content<K, In, U, D, O>)
    requires x.messages != []
    ensures var n := |x.messages| - 1;
            UpdatesFor(c, x) == UpdatesFor(c, Content(x.messages[..n], x.locals)) +
              [(x.messages[n].0, c.update(x.messages[n].0, StateFor(c, x, n)).0)]
  {
    var n := |x.messages| - 1;
    var before := Content(x.messages[..n], x.locals);
    forall i | 0 <= i < n ensures StateFor(c, x, i) == StateFor(c, before, i) {
      assert x.messages[..n][..i] == x.messages[..i];
    }
  }

  lemma LastStep<K, In, U, D, O>(c: Client<K, In, U, D, O>, x: Content<K, In, U, D, O>)
    requires x.messages != [] && AllInputs(x.messages)
    requires var before := Content(x.messages[..|x.messages| - 1], x.locals); var k := x.messages[|x.messages| - 1].0;
             var y := StepAll(c, false, before);
             y.Some? && Local(c.blank, y.value.locals, k) ==
               FoldKey(c, k, Local(c.blank, x.locals, k), MessagesOf(before.messages, k))
    ensures var n := |x.messages| - 1;
            var before := StepAll(c, false, Content(x.messages[..n], x.locals));
            var y := StepAll(c, false, x);
            && y.Some? && Outputs(y.value.messages) == Outputs(before.value.messages)
            && Updates(y.value.messages) == Updates(before.value.messages) +
              [(x.messages[n].0, c.update(x.messages[n].0, StateFor(c, x, n)).0)]
  {
    var n := |x.messages| - 1;
    var before := StepAll(c, false, Content(x.messages[..n], x.locals)).value.messages;
    var k, u := x.messages[n].0, c.update(x.messages[n].0, StateFor(c, x, n)).0;
    assert StepAll(c, false, x).value.messages == before + [(k, Update(u))];
    RoutedMore(before, (k, Update(u)));
  }

  /**
    Until the round of outputs, what a round leaves are the deltas that the body returns for one update of
    each message, made from the state of its key after all the messages up to this one.
   */
  lemma RoundIsOfUpdates<K, In, U, D, O>(c: Client<K, In, U, D, O>, input: seq<(K, In)>, j: nat)
    requires KeepsSilent(c) && 2 <= c.limit < 0x1_0000_0000_0000_0000
    requires GoesOn(c, input, j) && After(c, input, j).condition && !EndsIn(c, input, j)
    ensures var x, y := After(c, input, j).data, After(c, input, j + 1).data;
            x.Some? && y.Some? && y.value.messages == Deltas(c.body(UpdatesFor(c, x.value)))
  {
    OutputIsEnd(c, input, j);
    RunKeeps(c, input, j);
    AfterNext(c, input, j);
    var x := After(c, input, j).data.value;
    StepsMakeUpdates(c, x);
    var ds := Deltas<K, In, U, D, O>(c.body(UpdatesFor(c, x)));
    assert ds + [] == ds;
  }
}
