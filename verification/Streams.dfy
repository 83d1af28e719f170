/**
  What flows between the operators.
  The elements of a stream, with and without timestamps, and the signals between them; its rounds, each of
  which ends with a FlushAndRestart; and a few facts about sequences that are put together from parts.
 */
module Streams {

  datatype Option<+T> = None | Some(value: T)

  /** A stream is a sequence `((Item | Timestamped | Watermark | FlushBatch)* FlushAndRestart)+ Terminate`. */
  datatype StreamElement<+T> =
    | Item(value: T)
    | Timestamped(value: T, ts: int)
    | Watermark(ts: int)
    | FlushBatch
    | Terminate
    | FlushAndRestart

  /** The kind of an element, without its item. */
  function Kind<T>(e: StreamElement<T>): StreamElement<()> {
    match e
    case Item(_) => Item(())
    case Timestamped(_, _) => Item(())
    case Watermark(ts) => Watermark(ts)
    case FlushBatch => FlushBatch
    case Terminate => Terminate
    case FlushAndRestart => FlushAndRestart
  }

  /** The items of the rounds of a stream; those of `current` have gone by already. */
  function Rounds<T>(s: seq<StreamElement<T>>, current: seq<T>): seq<seq<T>> {
    if s == [] || s[0].Terminate? then []
    else if s[0].FlushAndRestart? then [current] + Rounds(s[1..], [])
    else if s[0].Item? then Rounds(s[1..], current + [s[0].value])
    else Rounds(s[1..], current)
  }

  /** A stream ends with Terminate after a complete round. */
  predicate EndsCleanly<T>(s: seq<StreamElement<T>>, current: seq<T>) {
    if s == [] then false
    else if s[0].Terminate? then current == []
    else if s[0].FlushAndRestart? then EndsCleanly(s[1..], [])
    else if s[0].Item? then EndsCleanly(s[1..], current + [s[0].value])
    else EndsCleanly(s[1..], current)
  }

  /** The parts of a sequence, put together. */
  function Flatten<T>(parts: seq<seq<T>>): seq<T> {
    if parts == [] then [] else Flatten(parts[..|parts| - 1]) + parts[|parts| - 1]
  }

  lemma FlattenAppend<T>(parts: seq<seq<T>>, part: seq<T>)
    ensures Flatten(parts + [part]) == Flatten(parts) + part
  {
    assert (parts + [part])[..|parts|] == parts;
  }

  lemma {:induction false} FlattenFirst<T>(parts: seq<seq<T>>)
    requires parts != []
    ensures Flatten(parts) == parts[0] + Flatten(parts[1..])
  {
    var n := |parts| - 1;
    if n > 0 {
      FlattenFirst(parts[..n]);
      assert parts[..n][1..] == parts[1..][..n - 1];
    }
  }

  /** Of two permutations, the last element of one is somewhere in the other. */
  lemma TakeOut<T>(a: seq<T>, x: T, b: seq<T>) returns (b1: seq<T>, b2: seq<T>)
    requires multiset(a + [x]) == multiset(b)
    ensures b == b1 + [x] + b2 && multiset(a) == multiset(b1 + b2)
  {
    assert x in multiset(b);
    var m :| 0 <= m < |b| && b[m] == x;
    b1, b2 := b[..m], b[m + 1..];
    assert b == b1 + [x] + b2;
    assert multiset(a) == multiset(a + [x]) - multiset{x};
    assert multiset(b1 + b2) == multiset(b) - multiset{x};
  }

  lemma EmptyAlike<T>(s: seq<T>, t: seq<T>)
    requires multiset(s) == multiset(t)
    ensures s == [] <==> t == []
  {
    assert |multiset(s)| == |s| && |multiset(t)| == |t|;
  }

  /** Only one part may have the element. */
  lemma {:induction false} CountInOnePart<T>(parts: seq<seq<T>>, d: nat, x: T, c: nat)
    requires forall j :: 0 <= j < |parts| ==> multiset(parts[j])[x] == if j == d then c else 0
    ensures multiset(Flatten(parts))[x] == if d < |parts| then c else 0
  {
    if parts != [] { CountInOnePart(parts[..|parts| - 1], d, x, c); }
  }
}
