/** Arithmetic on similarity scores: the `max(·, 0)` clamp, the `min(1.0, ·)`
    cap, and the reductions (`sum`, `np.mean`, `max`, `min`) over score lists.
    Scores are mathematical reals; floating-point rounding is not modelled. */
module Scoring {

  /** `max(x, 0)`, applied to every cosine similarity. */
  function Clamp0(x: real): (r: real)
    ensures r >= 0.0 && r >= x
    ensures r == x || r == 0.0
  {
    if x > 0.0 then x else 0.0
  }

  /** `min(1.0, x)`. */
  function Min1(x: real): (r: real)
    ensures r <= 1.0 && r <= x
    ensures r == x || r == 1.0
  {
    if x < 1.0 then x else 1.0
  }

  predicate InUnit(x: real)
  {
    0.0 <= x <= 1.0
  }

  predicate AllInRange(s: seq<real>, lo: real, hi: real)
  {
    forall i :: 0 <= i < |s| ==> lo <= s[i] <= hi
  }

  /** Python's `sum(s)`. */
  function Sum(s: seq<real>): real
  {
    if s == [] then 0.0 else Sum(s[..|s| - 1]) + s[|s| - 1]
  }

  /** `np.mean(s)` for a non-empty list. */
  function Mean(s: seq<real>): real
    requires |s| > 0
  {
    Sum(s) / (|s| as real)
  }

  /** Python's `max(s)`. */
  function MaxOf(s: seq<real>): (r: real)
    requires |s| > 0
    ensures forall i :: 0 <= i < |s| ==> s[i] <= r
    ensures exists i :: 0 <= i < |s| && s[i] == r
  {
    if |s| == 1 then s[0]
    else
      var m := MaxOf(s[..|s| - 1]);
      assert forall i :: 0 <= i < |s| - 1 ==> s[..|s| - 1][i] == s[i];
      if s[|s| - 1] > m then s[|s| - 1] else m
  }

  /** Python's `min(s)`. */
  function MinOf(s: seq<real>): (r: real)
    requires |s| > 0
    ensures forall i :: 0 <= i < |s| ==> r <= s[i]
    ensures exists i :: 0 <= i < |s| && s[i] == r
  {
    if |s| == 1 then s[0]
    else
      var m := MinOf(s[..|s| - 1]);
      assert forall i :: 0 <= i < |s| - 1 ==> s[..|s| - 1][i] == s[i];
      if s[|s| - 1] < m then s[|s| - 1] else m
  }

  /** A sum of values in `[lo, hi]` lies between `n·lo` and `n·hi`. */
  lemma {:induction false} SumBounds(s: seq<real>, lo: real, hi: real)
    requires AllInRange(s, lo, hi)
    ensures (|s| as real) * lo <= Sum(s) <= (|s| as real) * hi
  {
    if s != [] {
      var init := s[..|s| - 1];
      assert AllInRange(init, lo, hi) by {
        forall i | 0 <= i < |init| ensures lo <= init[i] <= hi {
          assert init[i] == s[i];
        }
      }
      SumBounds(init, lo, hi);
      assert (|s| as real) * lo == (|init| as real) * lo + lo;
      assert (|s| as real) * hi == (|init| as real) * hi + hi;
    }
  }

  /** The mean of values in `[lo, hi]` lies in `[lo, hi]`. */
  lemma MeanBounds(s: seq<real>, lo: real, hi: real)
    requires |s| > 0 && AllInRange(s, lo, hi)
    ensures lo <= Mean(s) <= hi
  {
    SumBounds(s, lo, hi);
    var n := |s| as real;
    assert n * lo <= Sum(s) <= n * hi;
    assert Sum(s) / n >= lo by {
      assert Sum(s) >= lo * n;
    }
    assert Sum(s) / n <= hi by {
      assert Sum(s) <= hi * n;
    }
  }

  /** The mean lies between the least and the greatest value. */
  lemma MeanBetweenMinAndMax(s: seq<real>)
    requires |s| > 0
    ensures MinOf(s) <= Mean(s) <= MaxOf(s)
  {
    MeanBounds(s, MinOf(s), MaxOf(s));
  }

  lemma {:induction false} SumNonNegative(s: seq<real>)
    requires forall i :: 0 <= i < |s| ==> s[i] >= 0.0
    ensures Sum(s) >= 0.0
  {
    if s != [] {
      var init := s[..|s| - 1];
      assert forall i :: 0 <= i < |init| ==> init[i] == s[i];
      SumNonNegative(init);
    }
  }

  /** A sum of non-negative values is at least each of them. */
  lemma {:induction false} SumDominates(s: seq<real>, k: nat)
    requires forall i :: 0 <= i < |s| ==> s[i] >= 0.0
    requires k < |s|
    ensures s[k] <= Sum(s)
  {
    var init := s[..|s| - 1];
    assert forall i :: 0 <= i < |init| ==> init[i] == s[i];
    if k < |s| - 1 {
      SumDominates(init, k);
    } else {
      SumNonNegative(init);
    }
  }

  /** A sum over two lists joined is the sum of their sums. */
  lemma {:induction false} SumAppend(a: seq<real>, b: seq<real>)
    ensures Sum(a + b) == Sum(a) + Sum(b)
    decreases |b|
  {
    if b == [] {
      assert a + b == a;
    } else {
      assert (a + b)[..|a + b| - 1] == a + b[..|b| - 1];
      assert (a + b)[|a + b| - 1] == b[|b| - 1];
      SumAppend(a, b[..|b| - 1]);
    }
  }

  /** Doubling both sides of a quotient leaves it as it was. */
  lemma DoubledQuotient(x: real, n: real)
    requires n > 0.0
    ensures (2.0 * x) / (2.0 * n) == x / n
  {
    var q := x / n;
    assert q * n == x;
    assert q * (2.0 * n) == 2.0 * x;
  }

  /** A list twice as long with twice the sum has the same mean. */
  lemma MeanOfDoubled(t: seq<real>, s: seq<real>)
    requires |s| > 0 && |t| == 2 * |s| && Sum(t) == 2.0 * Sum(s)
    ensures Mean(t) == Mean(s)
  {
    assert |t| as real == 2.0 * (|s| as real);
    DoubledQuotient(Sum(s), |s| as real);
  }

  /** A list repeated twice has twice the sum and the same mean. */
  lemma RepeatedListMean(s: seq<real>)
    requires |s| > 0
    ensures Sum(s + s) == 2.0 * Sum(s)
    ensures Mean(s + s) == Mean(s)
  {
    SumAppend(s, s);
    MeanOfDoubled(s + s, s);
  }

  /** The `[0.7, 0.8]` ensemble that the category tests use averages to 0.75. */
  lemma MeanOfTestEnsemble()
    ensures Mean([0.7, 0.8]) == 0.75
  {
    assert [0.7, 0.8][..1] == [0.7];
    assert [0.7][..0] == [];
  }
}
