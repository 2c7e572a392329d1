/**
  Worked examples of what a benchmark run reports, computed through the
  append lemmas of the Statistics module one duration at a time.
 */
module Scenarios {
  import opened RealArith
  import opened Statistics

  /** Durations 1..5: min 1, max 5, mean 3, population variance 2
      (so the standard deviation is the square root of 2). */
  const OneToFiveRun: seq<real> := [1.0, 2.0, 3.0, 4.0, 5.0]

  lemma OneToFivePrefixes()
    ensures OneToFiveRun == [1.0, 2.0, 3.0, 4.0] + [5.0]
    ensures [1.0, 2.0, 3.0, 4.0] == [1.0, 2.0, 3.0] + [4.0]
    ensures [1.0, 2.0, 3.0] == [1.0, 2.0] + [3.0]
    ensures [1.0, 2.0] == [1.0] + [2.0]
    ensures [1.0] == [] + [1.0]
  {
  }

  lemma OneToFiveSums()
    ensures Sum(OneToFiveRun) == 15.0 && SumSq(OneToFiveRun, 3.0) == 10.0
  {
    OneToFivePrefixes();
    SumSnoc([], 1.0); SumSnoc([1.0], 2.0); SumSnoc([1.0, 2.0], 3.0);
    SumSnoc([1.0, 2.0, 3.0], 4.0); SumSnoc([1.0, 2.0, 3.0, 4.0], 5.0);
    SumSqSnoc([], 1.0, 3.0); SumSqSnoc([1.0], 2.0, 3.0); SumSqSnoc([1.0, 2.0], 3.0, 3.0);
    SumSqSnoc([1.0, 2.0, 3.0], 4.0, 3.0); SumSqSnoc([1.0, 2.0, 3.0, 4.0], 5.0, 3.0);
  }

  lemma OneToFiveBounds()
    ensures MinOf(OneToFiveRun) == 1.0 && MaxOf(OneToFiveRun) == 5.0
  {
    OneToFivePrefixes();
    BoundsSnoc([1.0], 2.0); BoundsSnoc([1.0, 2.0], 3.0);
    BoundsSnoc([1.0, 2.0, 3.0], 4.0); BoundsSnoc([1.0, 2.0, 3.0, 4.0], 5.0);
  }

  lemma OneToFive()
    ensures Stats(OneToFiveRun) == Summary(1.0, 5.0, 3.0, 2.0)
  {
    OneToFiveSums();
    OneToFiveBounds();
    assert Mean(OneToFiveRun) == 3.0;
  }

  /** Three equal durations of 10: everything is 10 and nothing varies. */
  lemma AllTens()
    ensures Stats([10.0, 10.0, 10.0]) == Summary(10.0, 10.0, 10.0, 0.0)
  {
    ConstantInput([10.0, 10.0, 10.0], 10.0);
  }

  /** The textbook population example: mean 5 and variance 32 / 8 = 4.
      Dividing by N - 1 would have given 32 / 7 instead. */
  const TextbookRun: seq<real> := [2.0, 4.0, 4.0, 4.0, 5.0, 5.0, 7.0, 9.0]

  /** The textbook run, built up one duration at a time. */
  lemma TextbookPrefixes()
    ensures TextbookRun == [2.0, 4.0, 4.0, 4.0, 5.0, 5.0, 7.0] + [9.0]
    ensures [2.0, 4.0, 4.0, 4.0, 5.0, 5.0, 7.0] == [2.0, 4.0, 4.0, 4.0, 5.0, 5.0] + [7.0]
    ensures [2.0, 4.0, 4.0, 4.0, 5.0, 5.0] == [2.0, 4.0, 4.0, 4.0, 5.0] + [5.0]
    ensures [2.0, 4.0, 4.0, 4.0, 5.0] == [2.0, 4.0, 4.0, 4.0] + [5.0]
    ensures [2.0, 4.0, 4.0, 4.0] == [2.0, 4.0, 4.0] + [4.0]
    ensures [2.0, 4.0, 4.0] == [2.0, 4.0] + [4.0]
    ensures [2.0, 4.0] == [2.0] + [4.0]
    ensures [2.0] == [] + [2.0]
  {
  }

  lemma TextbookSum()
    ensures Sum(TextbookRun) == 40.0
  {
    TextbookPrefixes();
    SumSnoc([], 2.0); SumSnoc([2.0], 4.0); SumSnoc([2.0, 4.0], 4.0); SumSnoc([2.0, 4.0, 4.0], 4.0);
    SumSnoc([2.0, 4.0, 4.0, 4.0], 5.0); SumSnoc([2.0, 4.0, 4.0, 4.0, 5.0], 5.0);
    SumSnoc([2.0, 4.0, 4.0, 4.0, 5.0, 5.0], 7.0); SumSnoc([2.0, 4.0, 4.0, 4.0, 5.0, 5.0, 7.0], 9.0);
  }

  lemma TextbookSumSq()
    ensures SumSq(TextbookRun, 5.0) == 32.0
  {
    TextbookPrefixes();
    SumSqSnoc([], 2.0, 5.0); SumSqSnoc([2.0], 4.0, 5.0); SumSqSnoc([2.0, 4.0], 4.0, 5.0);
    SumSqSnoc([2.0, 4.0, 4.0], 4.0, 5.0); SumSqSnoc([2.0, 4.0, 4.0, 4.0], 5.0, 5.0);
    SumSqSnoc([2.0, 4.0, 4.0, 4.0, 5.0], 5.0, 5.0); SumSqSnoc([2.0, 4.0, 4.0, 4.0, 5.0, 5.0], 7.0, 5.0);
    SumSqSnoc([2.0, 4.0, 4.0, 4.0, 5.0, 5.0, 7.0], 9.0, 5.0);
  }

  lemma TextbookBounds()
    ensures MinOf(TextbookRun) == 2.0 && MaxOf(TextbookRun) == 9.0
  {
    TextbookPrefixes();
    BoundsSnoc([2.0], 4.0); BoundsSnoc([2.0, 4.0], 4.0); BoundsSnoc([2.0, 4.0, 4.0], 4.0);
    BoundsSnoc([2.0, 4.0, 4.0, 4.0], 5.0); BoundsSnoc([2.0, 4.0, 4.0, 4.0, 5.0], 5.0);
    BoundsSnoc([2.0, 4.0, 4.0, 4.0, 5.0, 5.0], 7.0); BoundsSnoc([2.0, 4.0, 4.0, 4.0, 5.0, 5.0, 7.0], 9.0);
  }

  lemma Textbook()
    ensures Stats(TextbookRun) == Summary(2.0, 9.0, 5.0, 4.0)
  {
    TextbookSum();
    TextbookBounds();
    assert Mean(TextbookRun) == 5.0;
    TextbookSumSq();
  }

  /** For the textbook example the standard deviation is exactly 2. */
  lemma TextbookStdDev(sd: real)
    requires IsStdDevOf(sd, TextbookRun)
    ensures sd == 2.0
  {
    Textbook();
    assert Square(2.0) == 4.0;
    StdDevUnique(TextbookRun, sd, 2.0);
  }
}
