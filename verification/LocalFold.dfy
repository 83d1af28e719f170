/** The local fold of an iteration and its IterationEnd. */
module LocalFold {
  import opened Streams
  import opened Keyed
  import opened TimedStreams
  import opened KeyedFold
  import opened GroupBy
  import Operator = IterationLeader

  // The same key for every item --------------------------------------------------------------------

  function Paired<V>(e: StreamElement<V>): StreamElement<((), V)> {
    match e
    case Item(v) => Item(((), v))
    case Timestamped(v, ts) => Timestamped(((), v), ts)
    case Watermark(ts) => Watermark(ts)
    case FlushBatch => FlushBatch
    case Terminate => Terminate
    case FlushAndRestart => FlushAndRestart
  }

  function Unpaired<O>(e: StreamElement<((), O)>): StreamElement<O> {
    match e
    case Item(x) => Item(x.1)
    case Timestamped(x, ts) => Timestamped(x.1, ts)
    case Watermark(ts) => Watermark(ts)
    case FlushBatch => FlushBatch
    case Terminate => Terminate
    case FlushAndRestart => FlushAndRestart
  }

  /** key_by, with the same key for every item. */
  function WithKey<V>(s: seq<StreamElement<V>>): (k: seq<StreamElement<((), V)>>)
    ensures |k| == |s| && forall i :: 0 <= i < |k| ==> k[i] == Paired(s[i])
  {
    seq(|s|, i requires 0 <= i < |s| => Paired(s[i]))
  }

  /** drop_key. */
  function WithoutKey<O>(s: seq<StreamElement<((), O)>>): (p: seq<StreamElement<O>>)
    ensures |p| == |s| && forall i :: 0 <= i < |p| ==> p[i] == Unpaired(s[i])
  {
    seq(|s|, i requires 0 <= i < |s| => Unpaired(s[i]))
  }

  function OneKey<V>(items: seq<V>): (k: seq<((), V)>)
    ensures |k| == |items| && forall i :: 0 <= i < |k| ==> k[i] == ((), items[i])
  {
    seq(|items|, i requires 0 <= i < |items| => ((), items[i]))
  }

  lemma {:induction false} RoundsWithKey<V>(s: seq<StreamElement<V>>, current: seq<V>)
    ensures var rounds, keyed := Rounds(s, current), Rounds(WithKey(s), OneKey(current));
            |keyed| == |rounds| && forall i :: 0 <= i < |rounds| ==> keyed[i] == OneKey(rounds[i])
    ensures EndsCleanly(WithKey(s), OneKey(current)) == EndsCleanly(s, current)
    decreases |s|
  {
    if s != [] {
      assert WithKey(s)[1..] == WithKey(s[1..]);
      assert OneKey<V>([]) == [];
      if s[0].FlushAndRestart? {
        RoundsWithKey(s[1..], []);
      } else if s[0].Item? {
        assert OneKey(current + [s[0].value]) == OneKey(current) + [((), s[0].value)];
        RoundsWithKey(s[1..], current + [s[0].value]);
      } else {
        RoundsWithKey(s[1..], current);
      }
    }
  }

  lemma {:induction false} KeyRounds<O>(s: seq<StreamElement<((), O)>>, current: seq<O>)
    ensures var rounds, keyed := Rounds(WithoutKey(s), current), Rounds(s, OneKey(current));
            |keyed| == |rounds| && forall i :: 0 <= i < |rounds| ==> keyed[i] == OneKey(rounds[i])
    ensures EndsCleanly(WithoutKey(s), current) == EndsCleanly(s, OneKey(current))
    decreases |s|
  {
    if s != [] {
      assert WithoutKey(s)[1..] == WithoutKey(s[1..]);
      assert OneKey<O>([]) == [];
      if s[0].FlushAndRestart? {
        KeyRounds(s[1..], []);
      } else if s[0].Item? {
        var (unit, o) := s[0].value;
        assert unit == ();
        assert OneKey(current + [s[0].value.1]) == OneKey(current) + [s[0].value];
        KeyRounds(s[1..], current + [s[0].value.1]);
      } else {
        KeyRounds(s[1..], current);
      }
    }
  }

  lemma {:induction false} NoneTerminatesWithKey<V>(s: seq<StreamElement<V>>)
    requires NoneTerminates(s)
    ensures NoneTerminates(WithKey(s))
  {
    if s != [] {
      NoneTerminatesWithKey(s[..|s| - 1]);
      assert WithKey(s)[..|s| - 1] == WithKey(s[..|s| - 1]);
    }
  }

  lemma {:induction false} ItemsOfOneKey<V>(items: seq<V>)
    ensures ItemsOf(OneKey(items), ()) == items
  {
    if items != [] {
      var n := |items| - 1;
      ItemsOfOneKey(items[..n]);
      assert OneKey(items) == OneKey(items[..n]) + [((), items[n])];
      ItemsOfAppend(OneKey(items[..n]), (), items[n], ());
    }
  }

  // One delta for every round ----------------------------------------------------------------------

  /** A round becomes one item, or none if it is empty. */
  lemma FoldIsOneItem<O(!new), V>(f: Folding<O, V>, round: seq<V>, out: seq<O>)
    requires FoldsByKey(f, OneKey(round), OneKey(out))
    ensures out == if round == [] then [] else [FoldAll(f, round)]
  {
    ItemsOfOneKey(round);
    var x := ((), FoldAll(f, round));
    if round == [] {
      NothingFolded(f, OneKey(out));
    } else {
      forall y: ((), O) ensures multiset(OneKey(out))[y] == multiset{x}[y] {
        var (unit, o) := y;
        assert unit == () && multiset(OneKey(out))[((), o)] == if o == x.1 then 1 else 0;
      }
      assert multiset(OneKey(out)) == multiset{x};
      assert |out| == |multiset(OneKey(out))| == 1;
      assert OneKey(out)[0] in multiset(OneKey(out));
    }
  }

  function FoldEach<O, V>(f: Folding<O, V>, rounds: seq<seq<V>>): (ds: seq<O>)
    ensures |ds| == |rounds| && forall i :: 0 <= i < |ds| ==> ds[i] == FoldAll(f, rounds[i])
  {
    seq(|rounds|, i requires 0 <= i < |rounds| => FoldAll(f, rounds[i]))
  }

  lemma InputWithKey<V>(input: seq<StreamElement<V>>)
    requires EndsWithTerminate(input) && EndsCleanly(input, []) && IsTimeless(input)
    ensures var keyed := WithKey(input);
            && EndsWithTerminate(keyed) && EndsCleanly(keyed, []) && IsTimeless(keyed) && Untimed(keyed)
            && |Rounds(keyed, [])| == |Rounds(input, [])|
            && forall i :: 0 <= i < |Rounds(input, [])| ==> Rounds(keyed, [])[i] == OneKey(Rounds(input, [])[i])
  {
    var keyed, n := WithKey(input), |input| - 1;
    assert keyed[..n] == WithKey(input[..n]);
    NoneTerminatesWithKey(input[..n]);
    assert OneKey<V>([]) == [];
    RoundsWithKey(input, []);
    TimelessIsUnmarked(keyed);
  }

  /** What comes out of the fold, round by round. */
  lemma OutputWithoutKey<O(!new), V(!new)>(f: Folding<O, V>, input: seq<StreamElement<V>>,
      folded: seq<StreamElement<((), O)>>)
    requires EndsCleanly(folded, []) && |Rounds(folded, [])| == |Rounds(input, [])|
    requires forall i :: 0 <= i < |Rounds(input, [])| ==>
      FoldsByKey(f, OneKey(Rounds(input, [])[i]), Rounds(folded, [])[i])
    ensures var output := WithoutKey(folded);
            && EndsCleanly(output, []) && |Rounds(output, [])| == |Rounds(input, [])|
            && forall i :: 0 <= i < |Rounds(input, [])| ==>
              Rounds(output, [])[i] == if Rounds(input, [])[i] == [] then [] else [FoldAll(f, Rounds(input, [])[i])]
  {
    assert OneKey<O>([]) == [];
    KeyRounds(folded, []);
    forall i | 0 <= i < |Rounds(input, [])|
      ensures var out := Rounds(WithoutKey(folded), [])[i];
              out == if Rounds(input, [])[i] == [] then [] else [FoldAll(f, Rounds(input, [])[i])]
    {
      FoldIsOneItem(f, Rounds(input, [])[i], Rounds(WithoutKey(folded), [])[i]);
    }
  }

  /**
    What a replica sends to the leader: exactly one delta for every round, even an empty one, namely the
    local fold of the round.
   */
  method RunLocalFold<O(==, !new), V(!new)>(f: Folding<O, V>, input: seq<StreamElement<V>>)
    returns (sent: seq<StreamElement<O>>)
    requires EndsWithTerminate(input) && EndsCleanly(input, []) && IsTimeless(input)
    ensures Operator.Deltas(sent) == FoldEach(f, Rounds(input, []))
  {
    InputWithKey(input);
    var folded := RunUntimedFold(f, WithKey(input));
    OutputWithoutKey(f, input, folded);
    var output := WithoutKey(folded);
    sent := Operator.RunIterationEnd(f.init, output);
    Operator.SentIsDeltasOfRounds(f.init, output, []);
    Operator.OneDeltaPerRound(f.init, Rounds(output, []));
    assert Operator.Deltas(sent) == [] + Operator.Deltas(sent);
  }
}
