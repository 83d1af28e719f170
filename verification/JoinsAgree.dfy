/** The join operators against each other. */
module JoinsAgree {
  import opened Streams
  import opened Keyed
  import opened JoinSpec
  import opened HashJoin
  import opened SortMergeJoin

  /**
    The hash join works on one stream and the sort-merge join on another with the same rounds, but for
    the order of arrival: their outputs are permutations of each other, round by round. So is that of
    the join on keyed streams.
   */
  method RunJoins<K(==, !new), A(==, !new), B(==, !new)>(variant: Variant, order: Order<K>,
      input: BinaryStream<K, A, B>,
      input': BinaryStream<K, A, B>)
    returns (hashed: seq<seq<Joined<K, A, B>>>, merged: seq<seq<Joined<K, A, B>>>, keyed: seq<seq<Joined<K, A, B>>>)
    requires IsBinaryStream(input, []) && IsBinaryStream(input', []) && IsTotal(order)
    requires SameRounds(Rounds(input, []), Rounds(input', []))
    ensures |hashed| == |merged| == |keyed| && forall i :: 0 <= i < |hashed| ==>
      multiset(hashed[i]) == multiset(merged[i])
    ensures variant.Inner? ==> forall i :: 0 <= i < |hashed| ==> multiset(hashed[i]) == multiset(keyed[i])
  {
    hashed := RunHashJoin(variant, input);
    merged := RunSortMergeJoin(variant, order, input');
    keyed := RunKeyedInnerJoin(input');
    RoundsAreUnique(variant, Rounds(input, []), Rounds(input', []), hashed, merged);
    if variant.Inner? { RoundsAreUnique(variant, Rounds(input, []), Rounds(input', []), hashed, keyed); }
  }
}
