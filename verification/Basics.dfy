/** Small shared vocabulary: optional values and sums over sequences. */
module Basics {

  datatype Option<+T> = None | Some(value: T)

  /** The sum of a sequence of integers. */
  function Sum(xs: seq<int>): (total: int)
    ensures (forall k :: 0 <= k < |xs| ==> 0 <= xs[k]) ==> 0 <= total
  {
    if xs == [] then 0 else xs[0] + Sum(xs[1..])
  }

  /** Changing one summand changes the sum by the same amount. */
  lemma {:induction false} SumUpdate(xs: seq<int>, ys: seq<int>, i: nat)
    requires i < |xs| == |ys|
    requires forall k :: 0 <= k < |xs| && k != i ==> xs[k] == ys[k]
    ensures Sum(ys) - Sum(xs) == ys[i] - xs[i]
  {
    if i == 0 {
      assert xs[1..] == ys[1..];
    } else {
      SumUpdate(xs[1..], ys[1..], i - 1);
    }
  }

  /** Appending a summand adds it to the sum. */
  lemma {:induction false} SumAppend(xs: seq<int>, x: int)
    ensures Sum(xs + [x]) == Sum(xs) + x
  {
    if xs == [] {
      assert xs + [x] == [x];
      assert Sum([x][1..]) == 0;
    } else {
      assert (xs + [x])[1..] == xs[1..] + [x];
      SumAppend(xs[1..], x);
    }
  }

  /** A sum of non-negative numbers is at least each of them. */
  lemma {:induction false} SumAtLeast(xs: seq<int>, i: nat)
    requires i < |xs|
    requires forall k :: 0 <= k < |xs| ==> 0 <= xs[k]
    ensures xs[i] <= Sum(xs)
  {
    if i > 0 {
      SumAtLeast(xs[1..], i - 1);
    }
  }

  lemma {:induction false} AllZero(xs: seq<int>)
    requires forall k :: 0 <= k < |xs| ==> xs[k] == 0
    ensures Sum(xs) == 0
  {
    if xs != [] {
      AllZero(xs[1..]);
    }
  }
}
