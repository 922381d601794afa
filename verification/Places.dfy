/** Places in a sequence, in ascending order. */
module Places {
  predicate Ascending(at: seq<nat>) { forall j, k :: 0 <= j < k < |at| ==> at[j] < at[k] }

  // `at` are the places below `n` that are wanted.
  ghost predicate Picked(at: seq<nat>, n: nat, wanted: nat -> bool) {
    Ascending(at) && forall i: nat :: i in at <==> i < n && wanted(i)
  }

  // One more place after those below `n`.
  lemma PickedMore(at: seq<nat>, n: nat, before: nat -> bool, wanted: nat -> bool)
    requires Picked(at, n, before) && forall i :: 0 <= i < n ==> before(i) == wanted(i)
    ensures Picked(if wanted(n) then at + [n] else at, n + 1, wanted)
    ensures forall k :: 0 <= k < |at| ==> at[k] < n
  {
    forall k | 0 <= k < |at| ensures at[k] < n {
      assert at[k] in at;
    }
  }
}
