# Benchmark run statistics

The coin-segmentation benchmark runs an image pipeline many times, records the
duration of each run in microseconds, and summarises the durations with
`calculateStatistics`: the minimum, the maximum, the arithmetic mean and the
population standard deviation (squared deviations divided by N, not N - 1).
An empty list of durations yields four zeros.

This project models that summary in Dafny.

- `real_arith.dfy` (module `RealArith`): `Square`, the model of squaring a
  deviation, and small facts about products, squares and quotients of reals.
- `statistics.dfy` (module `Statistics`): the specification functions `Sum`,
  `SumSq`, `MinOf`, `MaxOf`, `Mean`, `Variance` and `Stats`, the lemmas
  about them, and the imperative `CalculateStatistics`. It reads the durations
  from an `array<real>` (the Go slice) in two loops, like the source, and is
  proved equal to `Stats` of the array's contents. It has no `modifies`
  clause, so it cannot change the durations it is given.
- `scenarios.dfy` (module `Scenarios`): worked runs with their exact results.

Durations are exact reals. The source rounds at every `float64` addition
and division; the model does not (see "Left out").

The method returns the variance, not the standard deviation: Dafny's reals
have no square root. The standard deviation is described instead by the
predicate `IsStdDevOf(sd, s)`: `sd` is non-negative and its square is the
variance. The lemmas show that at most one such `sd` exists, that it is 0 for
an empty run, and that it is 0 exactly when all durations are equal.

## Model

| member | source | states |
|---|---|---|
| Statistics.CalculateStatistics | go-cv/main.go:98-126 | The two loops compute exactly `Stats` of the durations. For an empty slice all four results are 0. Otherwise min and max are durations that occur and bound every duration, the mean is the sum divided by N and lies between them, and the variance is the sum of squared deviations from that mean divided by N, never negative. The durations are left unchanged. |
| Statistics.Stats | go-cv/main.go:99-122 | The summary of a run. Empty run: all zeros. Non-empty run: min and max occur in the run, every duration lies between them, the mean lies between them, and the variance is non-negative. |
| Statistics.MinOf | go-cv/main.go:104-109 | The running minimum, started at the first duration, is a duration of the run and no duration is smaller. |
| Statistics.MaxOf | go-cv/main.go:104-112 | The running maximum, started at the first duration, is a duration of the run and no duration is larger. |
| Statistics.BoundsSnoc | go-cv/main.go:106-112 | One more duration replaces the minimum exactly when it is strictly smaller, and the maximum exactly when it is strictly larger; otherwise the bound stays. |
| Statistics.FirstPassStep | go-cv/main.go:106-113 | One iteration of the first loop over the prefix of length i + 1: the sum grows by the i-th duration, and each bound is replaced exactly when the i-th duration lies strictly beyond it. |
| Statistics.SecondPassStep | go-cv/main.go:119-120 | One iteration of the second loop over the prefix of length i + 1: the sum of squared deviations grows by the i-th duration's squared deviation from the mean. |
| Statistics.SumSnoc | go-cv/main.go:113 | Accumulating one more duration adds it to the running sum. |
| Statistics.SumSqSnoc | go-cv/main.go:119-120 | Accumulating one more duration adds its squared deviation from the mean to the running sum of squares. |
| Statistics.SumBounds | go-cv/main.go:105-113 | If every duration lies in [lo, hi], the sum lies in [N·lo, N·hi]. |
| Statistics.MeanBetween | go-cv/main.go:115 | If every duration lies in [lo, hi], so does the mean of a non-empty run. |
| Statistics.MeanWithinBounds | go-cv/main.go:104-115 | The mean lies between the minimum and the maximum. |
| Statistics.SumSqNonNegative | go-cv/main.go:118-121 | A sum of squared deviations is never negative. |
| Statistics.VarianceNonNegative | go-cv/main.go:122 | The variance is never negative, so its square root is defined. |
| Statistics.SumSqExpanded | go-cv/main.go:118-121 | Sum of (x - m)² equals sum of x² minus 2·m·(sum of x) plus N·m², for any centre m. |
| Statistics.SumSqExpandedStep | go-cv/main.go:120 | The expansion above is kept when one more duration is accumulated. |
| Statistics.SumSqAroundMean | go-cv/main.go:115-121 | Around the mean, the sum of squared deviations is the sum of squares minus N·mean². |
| Statistics.VarianceFromMoments | go-cv/main.go:115-122 | For any m and v with m·N = sum and v·N = sum of squared deviations from m, v is the mean of the squares minus m². |
| Statistics.VarianceMoments | go-cv/main.go:115-122 | For the mean m and the variance v of a non-empty run, v equals the mean of the squares minus m², so the two-pass variance agrees with the one-pass formula. |
| Statistics.SumOfSquaresAtZero | go-cv/main.go:118-121 | The sum of squares is the sum of squared deviations from 0, so the one-pass reference and the two-pass sum are the same accumulation. |
| Statistics.SumConstant | go-cv/main.go:113 | The sum of N equal durations x is N·x. |
| Statistics.SumSqZeroIff | go-cv/main.go:118-121 | The sum of squared deviations from m is 0 if and only if every duration equals m. |
| Statistics.ConstantInput | go-cv/main.go:98-126 | A run of equal durations x reports min = max = mean = x and variance 0. |
| Statistics.SingleInput | go-cv/main.go:98-126 | A run of one duration x reports min = max = mean = x and variance 0. |
| Statistics.VarianceZeroIffConstant | go-cv/main.go:115-122 | The variance is 0 if and only if all durations are equal. |
| Statistics.StdDevUnique | go-cv/main.go:123 | At most one non-negative number squares to the variance, so the standard deviation is determined by the run. |
| Statistics.EmptyStdDev | go-cv/main.go:99-101 | For an empty run the standard deviation is 0. |
| Statistics.StdDevZeroIffConstant | go-cv/main.go:122-123 | The standard deviation is 0 if and only if all durations are equal. |
| Scenarios.OneToFive | go-cv/main.go:98-126 | Durations 1, 2, 3, 4, 5 give min 1, max 5, mean 3 and variance 2. |
| Scenarios.AllTens | go-cv/main.go:98-126 | Durations 10, 10, 10 give 10, 10, 10 and variance 0. |
| Scenarios.Textbook | go-cv/main.go:98-126 | Durations 2, 4, 4, 4, 5, 5, 7, 9 give min 2, max 9, mean 5 and variance 4 (division by N, not N - 1). |
| Scenarios.TextbookStdDev | go-cv/main.go:122-123 | For that run the standard deviation is exactly 2. |

## Left out

- Statistics.CalculateStatistics: returns the variance instead of `stdDev`, the square root of the variance (go-cv/main.go:123), because Dafny's reals have no square root; the standard deviation is described by `IsStdDevOf` and the lemmas about it.
- Floating point: `float64` rounding of sums and quotients, `math.Pow` and `math.Sqrt` are modelled as exact real arithmetic. NaN and infinite durations cannot occur in the model.
- The conversion of each measured `time.Duration` to a `float64` count of microseconds (go-cv/main.go:83-84) is left out: the model starts from the list of durations.
- `segmentCoins` (go-cv/main.go:13-64) is OpenCV image processing through foreign calls and is not part of this model.
- `main` (go-cv/main.go:66-96): reading the image, the timing loop, the clock and the printing are I/O and are left out.
- The C++ benchmark computes the same summary (c++/src/benchmark_coins.cpp:73-84) and is not part of this model. It matches the Go code except on an empty run: it has no empty-input guard, so it dereferences the minimum and maximum of an empty vector and divides by zero, where the Go code returns four zeros.
- The Python benchmark (python/benchmark.py:52-66) computes no statistics of its own: it leaves timing and summarising to the pytest-benchmark plugin, checks that 24 coins are found and shows the image. It is not part of this model.
