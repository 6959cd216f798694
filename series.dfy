/** Sums, averages, tails and extremes of finite real series: the LINQ
    operators (Sum, Average, TakeLast, Max, Min) the indicator code uses. */
module Series {

  function Abs(x: real): real { if x < 0.0 then -x else x }

  function Max(a: real, b: real): real { if a >= b then a else b }

  /** Sum of a series, folded from the end so that a loop appending to a
      list keeps `Sum(prefix)` in step. */
  function Sum(s: seq<real>): real
  {
    if s == [] then 0.0 else Sum(s[..|s| - 1]) + s[|s| - 1]
  }

  /** Arithmetic mean; LINQ's Average throws on an empty sequence. */
  function Mean(s: seq<real>): real
    requires |s| > 0
  {
    Sum(s) / (|s| as real)
  }

  /** The last `n` elements, or all of them when there are fewer (LINQ TakeLast). */
  function TakeLast<T>(s: seq<T>, n: int): (r: seq<T>)
    ensures |r| == if n <= 0 then 0 else if n >= |s| then |s| else n
    ensures r == s[|s| - |r|..]
  {
    if n <= 0 then [] else if n >= |s| then s else s[|s| - n..]
  }

  function MaxOf(s: seq<real>): real
    requires |s| > 0
  {
    if |s| == 1 then s[0]
    else
      var rest := MaxOf(s[..|s| - 1]);
      if s[|s| - 1] > rest then s[|s| - 1] else rest
  }

  /** MaxOf is an upper bound that the sequence attains. */
  lemma {:induction false} MaxOfIsMaximum(s: seq<real>)
    requires |s| > 0
    ensures forall i :: 0 <= i < |s| ==> s[i] <= MaxOf(s)
    ensures exists i :: 0 <= i < |s| && s[i] == MaxOf(s)
  {
    if |s| > 1 {
      var init := s[..|s| - 1];
      MaxOfIsMaximum(init);
      var j :| 0 <= j < |init| && init[j] == MaxOf(init);
      assert forall i :: 0 <= i < |init| ==> s[i] == init[i];
      if s[|s| - 1] > MaxOf(init) {
        assert s[|s| - 1] == MaxOf(s);
      } else {
        assert s[j] == MaxOf(s);
      }
    } else {
      assert s[0] == MaxOf(s);
    }
  }

  function MinOf(s: seq<real>): real
    requires |s| > 0
  {
    if |s| == 1 then s[0]
    else
      var rest := MinOf(s[..|s| - 1]);
      if s[|s| - 1] < rest then s[|s| - 1] else rest
  }

  /** MinOf is a lower bound that the sequence attains. */
  lemma {:induction false} MinOfIsMinimum(s: seq<real>)
    requires |s| > 0
    ensures forall i :: 0 <= i < |s| ==> MinOf(s) <= s[i]
    ensures exists i :: 0 <= i < |s| && s[i] == MinOf(s)
  {
    if |s| > 1 {
      var init := s[..|s| - 1];
      MinOfIsMinimum(init);
      var j :| 0 <= j < |init| && init[j] == MinOf(init);
      assert forall i :: 0 <= i < |init| ==> s[i] == init[i];
      if s[|s| - 1] < MinOf(init) {
        assert s[|s| - 1] == MinOf(s);
      } else {
        assert s[j] == MinOf(s);
      }
    } else {
      assert s[0] == MinOf(s);
    }
  }

  /** A series whose every element lies in [lo, hi] sums to a value in
      [|s|*lo, |s|*hi]. */
  lemma {:induction false} SumBounds(s: seq<real>, lo: real, hi: real)
    requires forall i :: 0 <= i < |s| ==> lo <= s[i] <= hi
    ensures (|s| as real) * lo <= Sum(s) <= (|s| as real) * hi
  {
    if s != [] {
      var p := s[..|s| - 1];
      assert forall i :: 0 <= i < |p| ==> p[i] == s[i];
      SumBounds(p, lo, hi);
      assert Sum(s) == Sum(p) + s[|s| - 1];
      OneMore(|s|, |p|, lo);
      OneMore(|s|, |p|, hi);
    }
  }

  lemma OneMore(m: int, n: int, x: real)
    requires m == n + 1
    ensures (m as real) * x == (n as real) * x + x
  {
  }

  /** The mean of a series lies between any common bounds of its elements. */
  lemma MeanBounds(s: seq<real>, lo: real, hi: real)
    requires |s| > 0
    requires forall i :: 0 <= i < |s| ==> lo <= s[i] <= hi
    ensures lo <= Mean(s) <= hi
  {
    SumBounds(s, lo, hi);
    var n := |s| as real;
    assert n * lo <= Sum(s) <= n * hi;
    assert Mean(s) * n == Sum(s);
  }

  /** A series of non-negative values has a non-negative sum. */
  lemma {:induction false} SumNonNegative(s: seq<real>)
    requires forall i :: 0 <= i < |s| ==> 0.0 <= s[i]
    ensures 0.0 <= Sum(s)
  {
    if s != [] {
      var p := s[..|s| - 1];
      assert forall i :: 0 <= i < |p| ==> p[i] == s[i];
      SumNonNegative(p);
    }
  }

  /** Every tail of a non-negative series has a non-negative sum. */
  lemma TailSumNonNegative(s: seq<real>, n: int)
    requires forall i :: 0 <= i < |s| ==> 0.0 <= s[i]
    ensures 0.0 <= Sum(TakeLast(s, n))
  {
    var t := TakeLast(s, n);
    assert forall i :: 0 <= i < |t| ==> t[i] == s[|s| - |t| + i];
    SumNonNegative(t);
  }

  /** Every tail of a non-negative series that is not empty has a
      non-negative mean. */
  lemma TailMeanNonNegative(s: seq<real>, n: int)
    requires |s| > 0 && n >= 1
    requires forall i :: 0 <= i < |s| ==> 0.0 <= s[i]
    ensures 0.0 <= Mean(TakeLast(s, n))
  {
    TailSumNonNegative(s, n);
  }

  /** The product of two non-negative reals is non-negative. */
  lemma ProductNonNegative(x: real, y: real)
    requires 0.0 <= x && 0.0 <= y
    ensures 0.0 <= x * y
  {
  }

  /** A ratio of a non-negative amount to a larger positive one lies in [0, 1]. */
  lemma RatioInUnit(a: real, b: real)
    requires 0.0 <= a <= b && 0.0 < b
    ensures 0.0 <= a / b <= 1.0
  {
    var q := a / b;
    assert q * b == a;
  }

  /** 100 * a / b is a percentage when 0 <= a <= b and b > 0. */
  lemma PercentInRange(a: real, b: real)
    requires 0.0 <= a <= b && 0.0 < b
    ensures 0.0 <= 100.0 * a / b <= 100.0
  {
    RatioInUnit(a, b);
    assert 100.0 * a / b == 100.0 * (a / b);
  }
}
