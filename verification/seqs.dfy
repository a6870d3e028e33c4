/**
 * Numeric helpers over sequences, shared by the model: sums and numpy's
 * running sum, first-maximum selection (numpy's `argmax` and Python's
 * `max(..., key=...)` both keep the first maximal element), means and
 * counts.
 */
module Seqs {

  /** The sum of a sequence, taken from the front to the back. */
  function Sum(xs: seq<real>): real {
    if xs == [] then 0.0 else Sum(xs[..|xs| - 1]) + xs[|xs| - 1]
  }

  /** Splitting off the first element of a sum. */
  lemma {:induction false} SumFront(xs: seq<real>)
    requires |xs| > 0
    ensures Sum(xs) == xs[0] + Sum(xs[1..])
  {
    if |xs| > 1 {
      var init := xs[..|xs| - 1];
      SumFront(init);
      assert init[1..] == xs[1..][..|xs[1..]| - 1];
    }
  }

  /** numpy's `cumsum`: one left-to-right pass that adds each element to a
    * running total and records the total. */
  function CumSum(xs: seq<real>): (r: seq<real>)
    ensures |r| == |xs|
    ensures forall t :: 0 <= t < |xs| ==> r[t] == Sum(xs[..t + 1])
  {
    RunningFrom(0.0, xs)
  }

  function RunningFrom(acc: real, xs: seq<real>): (r: seq<real>)
    ensures |r| == |xs|
    ensures forall t :: 0 <= t < |xs| ==> r[t] == acc + Sum(xs[..t + 1])
    decreases |xs|
  {
    if xs == [] then []
    else
      var rest := RunningFrom(acc + xs[0], xs[1..]);
      assert forall t :: 0 <= t < |xs| ==> Sum(xs[..t + 1]) == xs[0] + Sum(xs[1..][..t]) by {
        forall t | 0 <= t < |xs| ensures Sum(xs[..t + 1]) == xs[0] + Sum(xs[1..][..t]) {
          SumFront(xs[..t + 1]);
          assert xs[..t + 1][1..] == xs[1..][..t];
        }
      }
      [acc + xs[0]] + rest
  }

  /** The arithmetic mean of a non-empty sequence (numpy's `mean`). */
  function Mean(xs: seq<real>): real
    requires |xs| > 0
  {
    Sum(xs) / |xs| as real
  }

  /** The number of `true` entries. */
  function CountTrue(bs: seq<bool>): (n: nat)
    ensures n <= |bs|
  {
    if bs == [] then 0
    else CountTrue(bs[..|bs| - 1]) + (if bs[|bs| - 1] then 1 else 0)
  }

  /** A row with some `true` counts at least one. */
  lemma {:induction false} CountTruePositive(bs: seq<bool>)
    requires true in bs
    ensures CountTrue(bs) > 0
  {
    var n := |bs| - 1;
    if !bs[n] {
      assert bs == bs[..n] + [bs[n]];
      CountTruePositive(bs[..n]);
    }
  }

  /** A selection score: a real, or the `float('inf')` given to arms
    * nothing is known about. */
  datatype Score = Finite(value: real) | Infinite

  predicate Below(a: Score, b: Score) {
    match (a, b)
    case (Finite(x), Finite(y)) => x < y
    case (Finite(_), Infinite) => true
    case (Infinite, _) => false
  }

  /** The index of the first maximal score. */
  function FirstMax(scores: seq<Score>): (k: nat)
    requires |scores| > 0
    ensures k < |scores|
    ensures forall j :: 0 <= j < |scores| ==> !Below(scores[k], scores[j])
    ensures forall j :: 0 <= j < k ==> Below(scores[j], scores[k])
  {
    if |scores| == 1 then 0
    else
      var k := FirstMax(scores[..|scores| - 1]);
      if Below(scores[k], scores[|scores| - 1]) then |scores| - 1 else k
  }

  /** `np.argmax` over reals: the first index of the maximum. */
  function ArgMax(xs: seq<real>): (k: nat)
    requires |xs| > 0
    ensures k < |xs|
    ensures forall j :: 0 <= j < |xs| ==> xs[j] <= xs[k]
    ensures forall j :: 0 <= j < k ==> xs[j] < xs[k]
  {
    var scores := seq(|xs|, i requires 0 <= i < |xs| => Finite(xs[i]));
    var k := FirstMax(scores);
    assert forall j :: 0 <= j < |xs| ==> xs[j] <= xs[k] && (j < k ==> xs[j] < xs[k]) by {
      forall j | 0 <= j < |xs| ensures xs[j] <= xs[k] && (j < k ==> xs[j] < xs[k]) {
        assert scores[j] == Finite(xs[j]) && scores[k] == Finite(xs[k]);
        assert !Below(scores[k], scores[j]);
      }
    }
    k
  }

  /** `max` / `np.max` over reals. */
  function Max(xs: seq<real>): (m: real)
    requires |xs| > 0
    ensures m in xs
    ensures forall j :: 0 <= j < |xs| ==> xs[j] <= m
  {
    xs[ArgMax(xs)]
  }

  /** Python's `max(arms, key=...)` over the arms a mask keeps, taken in
    * index order: the first kept arm whose score no other kept arm beats. */
  function FirstMaxWhere(mask: seq<bool>, scores: seq<Score>): (k: nat)
    requires |mask| == |scores| && true in mask
    ensures k < |mask| && mask[k]
    ensures forall j :: 0 <= j < |mask| && mask[j] ==> !Below(scores[k], scores[j])
    ensures forall j :: 0 <= j < k && mask[j] ==> Below(scores[j], scores[k])
  {
    var n := |mask|;
    if true !in mask[..n - 1] then
      assert mask == mask[..n - 1] + [mask[n - 1]];
      assert forall j :: 0 <= j < n - 1 ==> mask[..n - 1][j] == mask[j];
      n - 1
    else
      var k := FirstMaxWhere(mask[..n - 1], scores[..n - 1]);
      if mask[n - 1] && Below(scores[k], scores[n - 1]) then n - 1 else k
  }

  /** The first index a mask keeps (`available_arms[0]`). */
  function FirstTrue(mask: seq<bool>): (k: nat)
    requires true in mask
    ensures k < |mask| && mask[k]
    ensures forall j :: 0 <= j < k ==> !mask[j]
  {
    if mask[0] then 0 else 1 + FirstTrue(mask[1..])
  }

  /** `min` over reals. */
  function Min(xs: seq<real>): (m: real)
    requires |xs| > 0
    ensures m in xs
    ensures forall j :: 0 <= j < |xs| ==> m <= xs[j]
  {
    if |xs| == 1 then xs[0]
    else
      var m := Min(xs[..|xs| - 1]);
      assert forall j :: 0 <= j < |xs| - 1 ==> xs[..|xs| - 1][j] == xs[j];
      if xs[|xs| - 1] < m then xs[|xs| - 1] else m
  }

  /** A sum of `n` values between `lo` and `hi` lies between `n * lo` and
    * `n * hi`. */
  lemma {:induction false} SumWithin(xs: seq<real>, lo: real, hi: real)
    requires forall k :: 0 <= k < |xs| ==> lo <= xs[k] <= hi
    ensures |xs| as real * lo <= Sum(xs) <= |xs| as real * hi
  {
    if xs != [] {
      SumWithin(xs[..|xs| - 1], lo, hi);
    }
  }

  /** A mean lies between the least and the greatest value. */
  lemma MeanWithin(xs: seq<real>)
    requires |xs| > 0
    ensures Min(xs) <= Mean(xs) <= Max(xs)
  {
    MeanBetween(xs, Min(xs), Max(xs));
  }

  lemma MeanBetween(xs: seq<real>, lo: real, hi: real)
    requires |xs| > 0
    requires forall k :: 0 <= k < |xs| ==> lo <= xs[k] <= hi
    ensures lo <= Mean(xs) <= hi
  {
    SumWithin(xs, lo, hi);
    QuotientWithin(Sum(xs), |xs| as real, lo, hi);
  }

  lemma QuotientWithin(total: real, n: real, lo: real, hi: real)
    requires n > 0.0 && n * lo <= total <= n * hi
    ensures lo <= total / n <= hi
  {
    assert total == (total / n) * n;
  }

  /** Every row of a table is `k` wide. */
  predicate Rows<T>(table: seq<seq<T>>, k: nat) {
    forall t :: 0 <= t < |table| ==> |table[t]| == k
  }
}
