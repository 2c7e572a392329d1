/**
  Summary statistics of a benchmark run: the smallest, largest and mean
  duration of the timed trials and the population variance of the durations
  (go-cv/main.go, calculateStatistics).

  Durations are exact reals here. The specification functions below recurse
  on the prefix of a sequence (dropping its last element), so that they follow
  the left-to-right accumulation of the loops in the source.
 */
module Statistics {
  import opened RealArith

  /** The four numbers reported for a run. `variance` is the population
      variance; the reported standard deviation is its square root. */
  datatype Summary = Summary(min: real, max: real, mean: real, variance: real)

  /** Sum of the elements, accumulated from the left. */
  function Sum(s: seq<real>): real
  {
    if |s| == 0 then 0.0 else Sum(s[..|s| - 1]) + s[|s| - 1]
  }

  /** Sum of the squared deviations of the elements from `m`. */
  function SumSq(s: seq<real>, m: real): real
  {
    if |s| == 0 then 0.0 else SumSq(s[..|s| - 1], m) + Square(s[|s| - 1] - m)
  }

  /** Sum of the squares of the elements (the reference used to restate the variance). */
  function SumOfSquares(s: seq<real>): real
  {
    if |s| == 0 then 0.0 else SumOfSquares(s[..|s| - 1]) + Square(s[|s| - 1])
  }

  /** The sum of squares is the sum of squared deviations from 0. */
  lemma {:induction false} SumOfSquaresAtZero(s: seq<real>)
    ensures SumOfSquares(s) == SumSq(s, 0.0)
  {
    if |s| > 0 {
      SumOfSquaresAtZero(s[..|s| - 1]);
      assert s[|s| - 1] - 0.0 == s[|s| - 1];
    }
  }

  /** Smallest element: a member of `s` that no element undercuts. */
  function MinOf(s: seq<real>): (m: real)
    requires |s| > 0
    ensures m in s
    ensures forall i :: 0 <= i < |s| ==> m <= s[i]
  {
    if |s| == 1 then s[0]
    else
      var rest := MinOf(s[..|s| - 1]);
      if s[|s| - 1] < rest then s[|s| - 1] else rest
  }

  /** Largest element: a member of `s` that no element exceeds. */
  function MaxOf(s: seq<real>): (m: real)
    requires |s| > 0
    ensures m in s
    ensures forall i :: 0 <= i < |s| ==> s[i] <= m
  {
    if |s| == 1 then s[0]
    else
      var rest := MaxOf(s[..|s| - 1]);
      if s[|s| - 1] > rest then s[|s| - 1] else rest
  }

  function Mean(s: seq<real>): real
    requires |s| > 0
  {
    Sum(s) / (|s| as real)
  }

  /** Population variance: squared deviations from the mean, divided by N (not N - 1). */
  function Variance(s: seq<real>): real
    requires |s| > 0
  {
    SumSq(s, Mean(s)) / (|s| as real)
  }

  /** What a run of the given durations reports; all zeros for no durations. */
  function Stats(s: seq<real>): (r: Summary)
    ensures |s| == 0 ==> r == Summary(0.0, 0.0, 0.0, 0.0)
    ensures |s| > 0 ==> r.min in s && r.max in s
    ensures forall i :: 0 <= i < |s| ==> r.min <= s[i] <= r.max
    ensures r.min <= r.mean <= r.max
    ensures r.variance >= 0.0
  {
    if |s| == 0 then Summary(0.0, 0.0, 0.0, 0.0)
    else
      MeanWithinBounds(s);
      VarianceNonNegative(s);
      Summary(MinOf(s), MaxOf(s), Mean(s), Variance(s))
  }

  /** Every element lies in [lo, hi], so the sum lies in [N * lo, N * hi]. */
  lemma {:induction false} SumBounds(s: seq<real>, lo: real, hi: real)
    requires forall i :: 0 <= i < |s| ==> lo <= s[i] <= hi
    ensures (|s| as real) * lo <= Sum(s) <= (|s| as real) * hi
  {
    if |s| > 0 {
      SumBounds(s[..|s| - 1], lo, hi);
    }
  }

  /** Any bounds on all elements also bound the mean. */
  lemma MeanBetween(s: seq<real>, lo: real, hi: real)
    requires |s| > 0
    requires forall i :: 0 <= i < |s| ==> lo <= s[i] <= hi
    ensures lo <= Mean(s) <= hi
  {
    SumBounds(s, lo, hi);
    DivWithin(Sum(s), |s| as real, lo, hi);
  }

  /** The mean lies between the smallest and the largest element. */
  lemma MeanWithinBounds(s: seq<real>)
    requires |s| > 0
    ensures MinOf(s) <= Mean(s) <= MaxOf(s)
  {
    MeanBetween(s, MinOf(s), MaxOf(s));
  }

  /** A sum of squares is never negative. */
  lemma {:induction false} SumSqNonNegative(s: seq<real>, m: real)
    ensures SumSq(s, m) >= 0.0
  {
    if |s| > 0 {
      SumSqNonNegative(s[..|s| - 1], m);
      SquareSign(s[|s| - 1] - m);
    }
  }

  lemma VarianceNonNegative(s: seq<real>)
    requires |s| > 0
    ensures Variance(s) >= 0.0
  {
    SumSqNonNegative(s, Mean(s));
    DivWithin(SumSq(s, Mean(s)), |s| as real, 0.0, SumSq(s, Mean(s)));
  }

  /** The two-pass sum of squared deviations equals the one-pass reference
      sum of squares - 2 m sum + N m^2. */
  lemma {:induction false} SumSqExpanded(s: seq<real>, m: real)
    ensures SumSq(s, m) == SumOfSquares(s) - 2.0 * m * Sum(s) + (|s| as real) * m * m
  {
    if |s| > 0 {
      SumSqExpanded(s[..|s| - 1], m);
      SumSqExpandedStep(s, m);
    }
  }

  lemma SumSqExpandedStep(s: seq<real>, m: real)
    requires |s| > 0
    requires var p := s[..|s| - 1];
      SumSq(p, m) == SumOfSquares(p) - 2.0 * m * Sum(p) + (|p| as real) * m * m
    ensures SumSq(s, m) == SumOfSquares(s) - 2.0 * m * Sum(s) + (|s| as real) * m * m
  {
    var p, x := s[..|s| - 1], s[|s| - 1];
    assert SumSq(s, m) == SumSq(p, m) + Square(x - m);
    assert SumOfSquares(s) == SumOfSquares(p) + Square(x);
    assert Sum(s) == Sum(p) + x;
    ExpandStep(SumSq(p, m), SumOfSquares(p), Sum(p), |p| as real, x, m,
               SumSq(s, m), SumOfSquares(s), Sum(s), |s| as real);
  }

  /** Population variance = mean of the squares - square of the mean: for the
      mean m (m N = sum) and the variance v (v N = sum of squared deviations
      from m), v = (sum of squares) / N - m^2. */
  lemma VarianceFromMoments(s: seq<real>, m: real, v: real)
    requires |s| > 0
    requires m * (|s| as real) == Sum(s)
    requires v * (|s| as real) == SumSq(s, m)
    ensures v == SumOfSquares(s) / (|s| as real) - m * m
  {
    SumSqAroundMean(s, m);
    DivOut(v, |s| as real, SumOfSquares(s), m);
  }

  /** The mean is the m with m N = sum ... */
  lemma MeanTimesCount(s: seq<real>)
    requires |s| > 0
    ensures Mean(s) * (|s| as real) == Sum(s)
  {
  }

  /** ... and the variance the v with v N = sum of squared deviations from it,
      so VarianceFromMoments applies to Mean(s) and Variance(s). */
  lemma VarianceTimesCount(s: seq<real>)
    requires |s| > 0
    ensures Variance(s) * (|s| as real) == SumSq(s, Mean(s))
  {
  }

  /** The reported variance v of a run with mean m is the mean of the squares
      minus the square of the mean. */
  lemma VarianceMoments(s: seq<real>, m: real, v: real)
    requires |s| > 0 && m == Mean(s) && v == Variance(s)
    ensures v == SumOfSquares(s) / (|s| as real) - m * m
  {
    MeanTimesCount(s);
    VarianceTimesCount(s);
    VarianceFromMoments(s, m, v);
  }

  /** Around the mean m (m N = sum), the squared deviations add up to
      the sum of squares minus N m^2. */
  lemma SumSqAroundMean(s: seq<real>, m: real)
    requires m * (|s| as real) == Sum(s)
    ensures SumSq(s, m) == SumOfSquares(s) - (|s| as real) * (m * m)
  {
    SumSqExpanded(s, m);
    CancelCross(SumSq(s, m), SumOfSquares(s), Sum(s), |s| as real, m);
  }

  /** A sequence of N copies of x sums to N * x. */
  lemma {:induction false} SumConstant(s: seq<real>, x: real)
    requires forall i :: 0 <= i < |s| ==> s[i] == x
    ensures Sum(s) == (|s| as real) * x
  {
    if |s| > 0 {
      SumConstant(s[..|s| - 1], x);
    }
  }

  /** The squared deviations from m all vanish exactly when every element is m. */
  lemma {:induction false} SumSqZeroIff(s: seq<real>, m: real)
    ensures SumSq(s, m) == 0.0 <==> forall i :: 0 <= i < |s| ==> s[i] == m
  {
    if |s| > 0 {
      var p, x := s[..|s| - 1], s[|s| - 1];
      SumSqZeroIff(p, m);
      SumSqNonNegative(p, m);
      SquareSign(x - m);
      if forall i :: 0 <= i < |s| ==> s[i] == m {
        assert forall i :: 0 <= i < |p| ==> p[i] == m by {
          forall i | 0 <= i < |p| ensures p[i] == m { assert p[i] == s[i]; }
        }
      }
      if SumSq(s, m) == 0.0 {
        assert SumSq(s, m) == SumSq(p, m) + Square(x - m);
        assert x == m;
        assert SumSq(p, m) == 0.0;
        forall i | 0 <= i < |s| ensures s[i] == m {
          if i < |p| { assert s[i] == p[i]; }
        }
      }
    }
  }

  /** A run whose every duration is x reports x for min, max and mean, and no variance. */
  lemma ConstantInput(s: seq<real>, x: real)
    requires |s| > 0
    requires forall i :: 0 <= i < |s| ==> s[i] == x
    ensures Stats(s) == Summary(x, x, x, 0.0)
  {
    SumConstant(s, x);
    assert Mean(s) == x;
    SumSqZeroIff(s, x);
  }

  /** One duration is its own min, max and mean, with no variance. */
  lemma SingleInput(x: real)
    ensures Stats([x]) == Summary(x, x, x, 0.0)
  {
    ConstantInput([x], x);
  }

  /** The variance is zero exactly when all durations are equal. */
  lemma VarianceZeroIffConstant(s: seq<real>)
    requires |s| > 0
    ensures Stats(s).variance == 0.0 <==> forall i :: 0 <= i < |s| ==> s[i] == s[0]
  {
    if forall i :: 0 <= i < |s| ==> s[i] == s[0] {
      ConstantInput(s, s[0]);
    }
    if Stats(s).variance == 0.0 {
      var n, m := |s| as real, Mean(s);
      assert SumSq(s, m) == Variance(s) * n;
      SumSqZeroIff(s, m);
    }
  }

  /** `sd` is what `math.Sqrt` returns for the variance of `s`: the
      non-negative real whose square is that variance. */
  ghost predicate IsStdDevOf(sd: real, s: seq<real>)
  {
    sd >= 0.0 && Square(sd) == Stats(s).variance
  }

  /** The variance determines the standard deviation: at most one real qualifies. */
  lemma StdDevUnique(s: seq<real>, a: real, b: real)
    requires IsStdDevOf(a, s) && IsStdDevOf(b, s)
    ensures a == b
  {
    if a < b {
      SquareStrictlyIncreasing(a, b);
    } else if b < a {
      SquareStrictlyIncreasing(b, a);
    }
  }

  /** No durations: the standard deviation reported is zero. */
  lemma EmptyStdDev(sd: real)
    requires IsStdDevOf(sd, [])
    ensures sd == 0.0
  {
    StdDevUnique([], sd, 0.0);
  }

  /** The reported standard deviation is zero exactly when all durations are equal. */
  lemma StdDevZeroIffConstant(s: seq<real>, sd: real)
    requires |s| > 0
    requires IsStdDevOf(sd, s)
    ensures sd == 0.0 <==> forall i :: 0 <= i < |s| ==> s[i] == s[0]
  {
    VarianceZeroIffConstant(s);
    SquareSign(sd);
    if sd == 0.0 {
      assert Stats(s).variance == 0.0;
    } else {
      assert Stats(s).variance > 0.0;
    }
  }

  /** Accumulating one more duration into the running sum. */
  lemma SumSnoc(p: seq<real>, x: real)
    ensures Sum(p + [x]) == Sum(p) + x
  {
    assert (p + [x])[..|p|] == p;
  }

  /** Accumulating one more squared deviation into the running sum of squares. */
  lemma SumSqSnoc(p: seq<real>, x: real, m: real)
    ensures SumSq(p + [x], m) == SumSq(p, m) + Square(x - m)
  {
    assert (p + [x])[..|p|] == p;
  }

  /** Updating the running bounds with one more duration: a bound is replaced
      exactly when the new duration lies strictly beyond it. */
  lemma BoundsSnoc(p: seq<real>, x: real)
    requires |p| > 0
    ensures MinOf(p + [x]) == if x < MinOf(p) then x else MinOf(p)
    ensures MaxOf(p + [x]) == if x > MaxOf(p) then x else MaxOf(p)
  {
    assert (p + [x])[..|p|] == p;
  }

  /** One iteration of the first pass, on the prefix of length i + 1. */
  lemma FirstPassStep(s: seq<real>, i: nat)
    requires i < |s|
    ensures Sum(s[..i + 1]) == Sum(s[..i]) + s[i]
    ensures i > 0 ==> MinOf(s[..i + 1]) == if s[i] < MinOf(s[..i]) then s[i] else MinOf(s[..i])
    ensures i > 0 ==> MaxOf(s[..i + 1]) == if s[i] > MaxOf(s[..i]) then s[i] else MaxOf(s[..i])
  {
    assert s[..i + 1] == s[..i] + [s[i]];
    SumSnoc(s[..i], s[i]);
    if i > 0 {
      BoundsSnoc(s[..i], s[i]);
    }
  }

  /** One iteration of the second pass, on the prefix of length i + 1. */
  lemma SecondPassStep(s: seq<real>, i: nat, m: real)
    requires i < |s|
    ensures SumSq(s[..i + 1], m) == SumSq(s[..i], m) + Square(s[i] - m)
  {
    assert s[..i + 1] == s[..i] + [s[i]];
    SumSqSnoc(s[..i], s[i], m);
  }

  /** What the two passes leave behind is the summary of the run. */
  lemma PassesGiveStats(s: seq<real>, lo: real, hi: real, m: real, v: real)
    requires |s| > 0 && lo == MinOf(s) && hi == MaxOf(s)
    requires m == Sum(s) / (|s| as real) && v == SumSq(s, m) / (|s| as real)
    ensures Summary(lo, hi, m, v) == Stats(s)
  {
  }

  /** calculateStatistics: one pass for min, max and the sum, a second pass
      for the squared deviations from the mean. */
  method CalculateStatistics(times: array<real>) returns (min: real, max: real, mean: real, variance: real)
    ensures Summary(min, max, mean, variance) == Stats(times[..])
    ensures times.Length > 0 ==> mean == Sum(times[..]) / (times.Length as real)
    ensures times.Length > 0 ==> variance == SumSq(times[..], mean) / (times.Length as real)
    ensures times.Length == 0 ==> min == 0.0 && max == 0.0 && mean == 0.0 && variance == 0.0
    ensures times.Length > 0 ==> min in times[..] && max in times[..]
    ensures forall i :: 0 <= i < times.Length ==> min <= times[i] <= max
    ensures min <= mean <= max
    ensures variance >= 0.0
  {
    if times.Length == 0 {
      return 0.0, 0.0, 0.0, 0.0;
    }
    ghost var s := times[..];
    var n := times.Length;

    min, max := times[0], times[0];
    var sum := 0.0;
    for i := 0 to n
      invariant i == 0 ==> min == s[0] && max == s[0]
      invariant i > 0 ==> min == MinOf(s[..i]) && max == MaxOf(s[..i])
      invariant sum == Sum(s[..i])
    {
      var t := times[i];
      FirstPassStep(s, i);
      if t < min {
        min := t;
      }
      if t > max {
        max := t;
      }
      sum := sum + t;
    }
    assert s[..n] == s;
    mean := sum / (n as real);

    var varianceSum := 0.0;
    for i := 0 to n
      invariant varianceSum == SumSq(s[..i], mean)
    {
      var t := times[i];
      SecondPassStep(s, i, mean);
      varianceSum := varianceSum + Square(t - mean);
    }
    variance := varianceSum / (n as real);
    PassesGiveStats(s, min, max, mean, variance);
  }
}
