/** Distinct thread numbers below n are at most n. */
module Pigeonhole {

  lemma {:induction false} SmallSet(ids: set<nat>, n: nat)
    requires forall t :: t in ids ==> t < n
    ensures |ids| <= n
    decreases n
  {
    if n == 0 {
      assert ids == {};
    } else {
      var rest := ids - {n - 1};
      SmallSet(rest, n - 1);
      assert |ids| <= |rest| + 1;
    }
  }

  lemma {:induction false} DistinctSet(ids: seq<nat>) returns (all: set<nat>)
    requires forall i, j :: 0 <= i < j < |ids| ==> ids[i] != ids[j]
    ensures |all| == |ids| && forall t :: t in all <==> t in ids
    decreases |ids|
  {
    if ids == [] {
      all := {};
    } else {
      var last := |ids| - 1;
      var rest := DistinctSet(ids[..last]);
      all := rest + {ids[last]};
    }
  }

  lemma DistinctSeq(ids: seq<nat>, n: nat)
    requires forall i, j :: 0 <= i < j < |ids| ==> ids[i] != ids[j]
    requires forall i :: 0 <= i < |ids| ==> ids[i] < n
    ensures |ids| <= n
  {
    var all := DistinctSet(ids);
    SmallSet(all, n);
  }
}
