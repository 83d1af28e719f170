/** What comes out of a fold by key. */
module FoldedRounds {
  /*
    The output of a round, in terms of the elements of the round alone.
   */

  import opened Streams
  import opened Keyed
  import opened KeyedFold

  predicate IsOfKey<K(==), V>(chunk: seq<StreamElement<(K, V)>>, k: K, i: int) {
    0 <= i < |chunk| && (chunk[i].Item? || chunk[i].Timestamped?) && chunk[i].value.0 == k
  }

  /** Where the items of a key are in a round. */
  function PlacesOf<K(==), V>(chunk: seq<StreamElement<(K, V)>>, k: K): (at: seq<nat>)
    ensures forall j :: 0 <= j < |at| ==> IsOfKey(chunk, k, at[j])
    ensures forall i, j :: 0 <= i < j < |at| ==> at[i] < at[j]
    ensures forall i: nat :: IsOfKey(chunk, k, i) ==> i in at
  {
    if chunk == [] then []
    else
      var n := |chunk| - 1;
      var before := PlacesOf(chunk[..n], k);
      assert forall i :: 0 <= i < n ==> (IsOfKey(chunk[..n], k, i) <==> IsOfKey(chunk, k, i));
      if IsOfKey(chunk, k, n) then before + [n] else before
  }

  predicate HasArrived<K, V(==)>(e: StreamElement<(K, V)>, x: Arrival<V>) {
    || (e.Item? && x == (e.value.1, None))
    || (e.Timestamped? && x == (e.value.1, Some(e.ts)))
  }

  predicate HaveArrived<K, V(==)>(chunk: seq<StreamElement<(K, V)>>, at: seq<nat>, arrived: seq<Arrival<V>>) {
    |arrived| == |at| && forall j :: 0 <= j < |at| ==> at[j] < |chunk| && HasArrived(chunk[at[j]], arrived[j])
  }

  lemma PlacesAppend<K, V>(chunk: seq<StreamElement<(K, V)>>, e: StreamElement<(K, V)>, k: K)
    ensures PlacesOf(chunk + [e], k) ==
            if (e.Item? || e.Timestamped?) && e.value.0 == k then PlacesOf(chunk, k) + [|chunk|] else PlacesOf(chunk, k)
  {
    assert (chunk + [e])[..|chunk|] == chunk;
  }

  lemma ArrivedAppend<K, V>(chunk: seq<StreamElement<(K, V)>>, e: StreamElement<(K, V)>, k: K)
    ensures var before, arrived := ItemsOf(Arrivals(chunk), k), ItemsOf(Arrivals(chunk + [e]), k);
            if e.Item? && e.value.0 == k then arrived == before + [(e.value.1, None)]
            else if e.Timestamped? && e.value.0 == k then arrived == before + [(e.value.1, Some(e.ts))]
            else arrived == before
  {
    ChunkAppend(chunk, e);
    if e.Item? { ItemsOfAppend(Arrivals(chunk), e.value.0, (e.value.1, None), k); }
    if e.Timestamped? { ItemsOfAppend(Arrivals(chunk), e.value.0, (e.value.1, Some(e.ts)), k); }
  }

  lemma OneMoreArrived<K, V>(chunk: seq<StreamElement<(K, V)>>, e: StreamElement<(K, V)>, at: seq<nat>,
      arrived: seq<Arrival<V>>, at': seq<nat>, arrived': seq<Arrival<V>>)
    requires HaveArrived(chunk, at, arrived)
    requires || (at' == at && arrived' == arrived)
             || (exists x :: HasArrived(e, x) && at' == at + [|chunk|] && arrived' == arrived + [x])
    ensures HaveArrived(chunk + [e], at', arrived')
  {
  }

  /** What has arrived for a key are its items, with their times, in their order. */
  lemma {:induction false} ArrivedAre<K, V>(chunk: seq<StreamElement<(K, V)>>, k: K)
    ensures HaveArrived(chunk, PlacesOf(chunk, k), ItemsOf(Arrivals(chunk), k))
  {
    if chunk != [] {
      var before, e := chunk[..|chunk| - 1], chunk[|chunk| - 1];
      assert chunk == before + [e];
      ArrivedAre(before, k);
      ArrivedStep(before, e, k);
    }
  }

  lemma ArrivedStep<K, V>(chunk: seq<StreamElement<(K, V)>>, e: StreamElement<(K, V)>, k: K)
    requires HaveArrived(chunk, PlacesOf(chunk, k), ItemsOf(Arrivals(chunk), k))
    ensures HaveArrived(chunk + [e], PlacesOf(chunk + [e], k), ItemsOf(Arrivals(chunk + [e]), k))
  {
    PlacesAppend(chunk, e, k);
    ArrivedAppend(chunk, e, k);
    var at, arrived := PlacesOf(chunk, k), ItemsOf(Arrivals(chunk), k);
    if e.Item? && e.value.0 == k {
      assert HasArrived(e, (e.value.1, None));
      OneMoreArrived(chunk, e, at, arrived, at + [|chunk|], arrived + [(e.value.1, None)]);
    } else if e.Timestamped? && e.value.0 == k {
      assert HasArrived(e, (e.value.1, Some(e.ts)));
      OneMoreArrived(chunk, e, at, arrived, at + [|chunk|], arrived + [(e.value.1, Some(e.ts))]);
    } else {
      OneMoreArrived(chunk, e, at, arrived, at, arrived);
    }
  }

  /** The time of some values is the greatest of their times. */
  lemma {:induction false} TimeIsGreatest<V>(values: seq<Arrival<V>>)
    ensures TimeOf(values).None? <==> forall i :: 0 <= i < |values| ==> values[i].1.None?
    ensures TimeOf(values).Some? ==>
      && (exists i :: 0 <= i < |values| && values[i].1 == TimeOf(values))
      && forall i :: 0 <= i < |values| && values[i].1.Some? ==> values[i].1.value <= TimeOf(values).value
  {
    if values != [] {
      var n := |values| - 1;
      TimeIsGreatest(values[..n]);
      if TimeOf(values).Some? {
        if TimeOf(values) == values[n].1 {
        } else {
          var i :| 0 <= i < n && values[..n][i].1 == TimeOf(values[..n]);
          assert values[i].1 == TimeOf(values);
        }
      }
    }
  }

  lemma {:induction false} MarkIsGreatest<T>(chunk: seq<StreamElement<T>>)
    ensures MaxMark(chunk).None? <==> forall i :: 0 <= i < |chunk| ==> !chunk[i].Watermark?
    ensures MaxMark(chunk).Some? ==>
      && (exists i :: 0 <= i < |chunk| && chunk[i] == Watermark(MaxMark(chunk).value))
      && forall i :: 0 <= i < |chunk| && chunk[i].Watermark? ==> chunk[i].ts <= MaxMark(chunk).value
  {
    if chunk != [] {
      var n := |chunk| - 1;
      MarkIsGreatest(chunk[..n]);
      if MaxMark(chunk).Some? {
        if chunk[n] == Watermark(MaxMark(chunk).value) {
        } else {
          var i :| 0 <= i < n && chunk[..n][i] == Watermark(MaxMark(chunk[..n]).value);
          assert chunk[i] == Watermark(MaxMark(chunk).value);
        }
      }
    }
  }

  /** The values of the items of a key, in their order. */
  function ValuesAt<K(==), V>(chunk: seq<StreamElement<(K, V)>>, k: K): (values: seq<Arrival<V>>)
    ensures |values| == |PlacesOf(chunk, k)|
    ensures forall j :: 0 <= j < |values| ==> values[j] == (chunk[PlacesOf(chunk, k)[j]].value.1, None)
  {
    seq(|PlacesOf(chunk, k)|, j requires 0 <= j < |PlacesOf(chunk, k)| => (chunk[PlacesOf(chunk, k)[j]].value.1, None))
  }

  lemma {:induction false} FoldIgnoresTimes<O, V>(f: Folding<O, V>, a: seq<Arrival<V>>, b: seq<Arrival<V>>)
    requires |a| == |b| && forall j :: 0 <= j < |a| ==> a[j].0 == b[j].0
    ensures FoldOf(f, a) == FoldOf(f, b)
  {
    if a != [] { FoldIgnoresTimes(f, a[..|a| - 1], b[..|b| - 1]); }
  }

  predicate IsElementOf<K(==), O>(k: K, e: StreamElement<(K, O)>) { (e.Item? || e.Timestamped?) && e.value.0 == k }

  /** Its time is one of those of its key, and none of them is later; it has none only if none of its key has. */
  ghost predicate HasGreatestTime<K(!new), V, O>(chunk: seq<StreamElement<(K, V)>>, e: StreamElement<(K, O)>)
    requires e.Item? || e.Timestamped?
  {
    if e.Item? then forall i :: IsOfKey(chunk, e.value.0, i) ==> chunk[i].Item?
    else
      && (exists i :: IsOfKey(chunk, e.value.0, i) && chunk[i].Timestamped? && chunk[i].ts == e.ts)
      && forall i :: IsOfKey(chunk, e.value.0, i) && chunk[i].Timestamped? ==> chunk[i].ts <= e.ts
  }

  /** An element of the output: its value is the fold of the values of its key, and its time is their greatest. */
  lemma ElementMeans<K(!new), O(!new), V>(f: Folding<O, V>, chunk: seq<StreamElement<(K, V)>>, e: StreamElement<(K, O)>)
    requires IsElement(f, Arrivals(chunk), e)
    ensures (exists i :: IsOfKey(chunk, e.value.0, i)) && e.value.1 == FoldOf(f, ValuesAt(chunk, e.value.0))
    ensures HasGreatestTime(chunk, e)
  {
    var k := e.value.0;
    ArrivedAre(chunk, k);
    FoldIgnoresTimes(f, ItemsOf(Arrivals(chunk), k), ValuesAt(chunk, k));
    assert IsOfKey(chunk, k, PlacesOf(chunk, k)[0]);
    TimeMeans(chunk, k, e);
  }

  lemma TimeMeans<K(!new), O, V>(chunk: seq<StreamElement<(K, V)>>, k: K, e: StreamElement<(K, O)>)
    requires IsElementOf(k, e)
    requires TimeOf(ItemsOf(Arrivals(chunk), k)) == if e.Timestamped? then Some(e.ts) else None
    ensures HasGreatestTime(chunk, e)
  {
    var at, arrived := PlacesOf(chunk, k), ItemsOf(Arrivals(chunk), k);
    ArrivedAre(chunk, k);
    TimeIsGreatest(arrived);
    if e.Timestamped? {
      var j :| 0 <= j < |arrived| && arrived[j].1 == TimeOf(arrived);
      assert IsOfKey(chunk, k, at[j]) && chunk[at[j]].ts == e.ts;
    }
    forall i | IsOfKey(chunk, k, i) && chunk[i].Timestamped? ensures e.Timestamped? && chunk[i].ts <= e.ts {
      var j :| 0 <= j < |at| && at[j] == i;
      assert arrived[j].1 == Some(chunk[i].ts);
    }
  }

  /** Every key of the round has an element. */
  lemma KeyHasElement<K(!new), O(!new), V>(f: Folding<O, V>, chunk: seq<StreamElement<(K, V)>>, i: int, k: K)
    requires IsOfKey(chunk, k, i)
    ensures var e := ElementOf(f, k, ItemsOf(Arrivals(chunk), k)); IsElement(f, Arrivals(chunk), e) && e.value.0 == k
  {
    ArrivedAre(chunk, k);
    assert i in PlacesOf(chunk, k);
  }

  /** The elements, without the watermark. */
  function ElementsOf<K, O, V>(chunk: seq<StreamElement<(K, V)>>, out: seq<StreamElement<(K, O)>>)
      : seq<StreamElement<(K, O)>>
    requires MaxMark(chunk).Some? ==> out != []
  {
    if MaxMark(chunk).None? then out else out[..|out| - 1]
  }

  /** The greatest of the watermarks of a round comes last, if it has one. */
  lemma MarkComesLast<K(!new), O(!new), V>(f: Folding<O, V>, chunk: seq<StreamElement<(K, V)>>,
      out: seq<StreamElement<(K, O)>>, j: nat)
    requires IsFolded(f, chunk, out) && j < |out| && out[j].Watermark?
    ensures j == |out| - 1 && forall i :: 0 <= i < |chunk| && chunk[i].Watermark? ==> chunk[i].ts <= out[j].ts
    ensures exists i :: 0 <= i < |chunk| && chunk[i] == Watermark(out[j].ts)
  {
    MarkIsGreatest(chunk);
    NoMarks(f, Arrivals(chunk), ElementsOf(chunk, out));
  }

  lemma NoMarks<K(!new), O(!new), V>(f: Folding<O, V>, arrived: seq<(K, Arrival<V>)>,
      elements: seq<StreamElement<(K, O)>>)
    requires AreElements(f, arrived, elements)
    ensures forall j :: 0 <= j < |elements| ==> !elements[j].Watermark?
  {
    forall j | 0 <= j < |elements| ensures !elements[j].Watermark? { ElementIsOne(f, arrived, elements, j); }
  }

  lemma ElementIsOne<K(!new), O(!new), V>(f: Folding<O, V>, arrived: seq<(K, Arrival<V>)>,
      elements: seq<StreamElement<(K, O)>>, j: nat)
    requires AreElements(f, arrived, elements) && j < |elements|
    ensures IsElement(f, arrived, elements[j]) && multiset(elements)[elements[j]] == 1
  {
    assert elements[j] in multiset(elements);
  }

  lemma OthersAreElements<K(!new), O(!new), V>(f: Folding<O, V>, chunk: seq<StreamElement<(K, V)>>,
      out: seq<StreamElement<(K, O)>>, j: nat)
    requires IsFolded(f, chunk, out) && j < |out| && !out[j].Watermark?
    ensures IsElement(f, Arrivals(chunk), out[j]) && multiset(out)[out[j]] == 1
  {
    var elements := ElementsOf(chunk, out);
    assert elements[j] == out[j];
    ElementIsOne(f, Arrivals(chunk), elements, j);
    if MaxMark(chunk).Some? { assert out == elements + [out[|out| - 1]]; }
  }

  lemma KeyComesOut<K(!new), O(!new), V>(f: Folding<O, V>, chunk: seq<StreamElement<(K, V)>>,
      out: seq<StreamElement<(K, O)>>, i: int, k: K) returns (j: nat)
    requires IsFolded(f, chunk, out) && IsOfKey(chunk, k, i)
    ensures j < |out| && IsElementOf(k, out[j])
  {
    KeyHasElement(f, chunk, i, k);
    var e := ElementOf(f, k, ItemsOf(Arrivals(chunk), k));
    var elements := ElementsOf(chunk, out);
    assert multiset(elements)[e] == 1;
    j :| 0 <= j < |elements| && elements[j] == e;
    assert out[j] == e;
  }

  /**
    What becomes of a round. The greatest of its watermarks comes last, if it has one; and there is one
    element for each of its keys, with the fold of all the values of the key and the greatest of their
    times, or none if they have none.
   */
  lemma FoldedMeans<K(!new), O(!new), V>(f: Folding<O, V>, chunk: seq<StreamElement<(K, V)>>,
      out: seq<StreamElement<(K, O)>>)
    requires IsFolded(f, chunk, out)
    ensures forall j :: 0 <= j < |out| && out[j].Watermark? ==>
      && j == |out| - 1 && (forall i :: 0 <= i < |chunk| && chunk[i].Watermark? ==> chunk[i].ts <= out[j].ts)
      && exists i :: 0 <= i < |chunk| && chunk[i] == Watermark(out[j].ts)
    ensures (exists i :: 0 <= i < |chunk| && chunk[i].Watermark?) ==> out != [] && out[|out| - 1].Watermark?
    ensures forall j :: 0 <= j < |out| && !out[j].Watermark? ==>
      && (out[j].Item? || out[j].Timestamped?) && multiset(out)[out[j]] == 1
      && out[j].value.1 == FoldOf(f, ValuesAt(chunk, out[j].value.0))
      && HasGreatestTime(chunk, out[j])
    ensures forall i, k :: IsOfKey(chunk, k, i) ==> exists j :: 0 <= j < |out| && IsElementOf(k, out[j])
    ensures forall i, j, k :: 0 <= i < j < |out| ==> !(IsElementOf(k, out[i]) && IsElementOf(k, out[j]))
  {
    MarkIsGreatest(chunk);
    forall j | 0 <= j < |out| && out[j].Watermark?
      ensures j == |out| - 1 && forall i :: 0 <= i < |chunk| && chunk[i].Watermark? ==> chunk[i].ts <= out[j].ts
      ensures exists i :: 0 <= i < |chunk| && chunk[i] == Watermark(out[j].ts)
    {
      MarkComesLast(f, chunk, out, j);
    }
    forall j | 0 <= j < |out| && !out[j].Watermark?
      ensures (out[j].Item? || out[j].Timestamped?) && multiset(out)[out[j]] == 1
      ensures out[j].value.1 == FoldOf(f, ValuesAt(chunk, out[j].value.0)) && HasGreatestTime(chunk, out[j])
    {
      OthersAreElements(f, chunk, out, j);
      ElementMeans(f, chunk, out[j]);
    }
    forall i, k | IsOfKey(chunk, k, i) ensures exists j :: 0 <= j < |out| && IsElementOf(k, out[j]) {
      var j := KeyComesOut(f, chunk, out, i, k);
    }
    forall i, j, k | 0 <= i < j < |out| ensures !(IsElementOf(k, out[i]) && IsElementOf(k, out[j])) {
      KeysDiffer(f, chunk, out, i, j, k);
    }
  }

  lemma KeysDiffer<K(!new), O(!new), V>(f: Folding<O, V>, chunk: seq<StreamElement<(K, V)>>,
      out: seq<StreamElement<(K, O)>>, i: nat, j: nat, k: K)
    requires IsFolded(f, chunk, out) && i < j < |out|
    ensures !(IsElementOf(k, out[i]) && IsElementOf(k, out[j]))
  {
    if !out[i].Watermark? && !out[j].Watermark? {
      OthersAreElements(f, chunk, out, i);
      OthersAreElements(f, chunk, out, j);
      OnceOnly(out, i, j);
    }
  }

  lemma OnceOnly<T>(s: seq<T>, i: nat, j: nat)
    requires i < j < |s| && multiset(s)[s[j]] == 1
    ensures s[i] != s[j]
  {
    assert s == s[..j] + [s[j]] + s[j + 1..];
    assert multiset(s[..j])[s[j]] == 0 && s[i] in s[..j];
  }
}
