/** Counting the marks in a sequence. */
module Counting {

  function Count(marks: seq<bool>): (n: nat)
    ensures n <= |marks|
  {
    if marks == [] then 0
    else Count(marks[..|marks| - 1]) + (if marks[|marks| - 1] then 1 else 0)
  }

  lemma {:induction false} CountUpdate(marks: seq<bool>, t: nat, mark: bool)
    requires t < |marks|
    ensures Count(marks[t := mark]) + (if marks[t] then 1 else 0) == Count(marks) + (if mark then 1 else 0)
    decreases |marks|
  {
    var n := |marks| - 1;
    if t == n {
      assert marks[t := mark][..n] == marks[..n];
    } else {
      assert marks[t := mark][..n] == marks[..n][t := mark];
      CountUpdate(marks[..n], t, mark);
    }
  }

  lemma {:induction false} CountPositive(marks: seq<bool>, t: nat)
    requires t < |marks| && marks[t]
    ensures 0 < Count(marks)
    decreases |marks|
  {
    if t < |marks| - 1 { CountPositive(marks[..|marks| - 1], t); }
  }

  lemma {:induction false} CountNone(marks: seq<bool>)
    requires forall t :: 0 <= t < |marks| ==> !marks[t]
    ensures Count(marks) == 0
    decreases |marks|
  {
    if marks != [] { CountNone(marks[..|marks| - 1]); }
  }

  lemma {:induction false} CountMonotone(a: seq<bool>, b: seq<bool>)
    requires |a| == |b| && forall t :: 0 <= t < |a| && a[t] ==> b[t]
    ensures Count(a) <= Count(b)
    decreases |a|
  {
    if a != [] { CountMonotone(a[..|a| - 1], b[..|b| - 1]); }
  }
}
