/**
 * The statistics helper: the exact integer sum of a data set, its mean, and
 * the population variance that the standard deviation is the square root of.
 * Floating point is idealised as Dafny's `real`; the final square root is not
 * modelled, so the results here are the square of the reported deviation.
 */
module Calculations {
  import opened Types

  /** Sum of the values, accumulated front to back as the source's range loop does. */
  function SumOf(values: seq<int>): int
  {
    if |values| == 0 then 0 else SumOf(values[..|values| - 1]) + values[|values| - 1]
  }

  /** `sum`: the accumulation loop; the accumulator is the sum of the prefix seen so far. */
  method Sum(values: seq<int>) returns (result: int)
    ensures result == SumOf(values)
    ensures |values| == 0 ==> result == 0
  {
    result := 0;
    for i := 0 to |values|
      invariant result == SumOf(values[..i])
    {
      assert values[..i + 1][..i] == values[..i];
      result := result + values[i];
    }
    assert values[..|values|] == values;
  }

  /** The sum distributes over concatenation. */
  lemma {:induction false} SumOfAppend(a: seq<int>, b: seq<int>)
    ensures SumOf(a + b) == SumOf(a) + SumOf(b)
    decreases |b|
  {
    if |b| == 0 {
      assert a + b == a;
    } else {
      var b' := b[..|b| - 1];
      assert (a + b)[..|a + b| - 1] == a + b';
      SumOfAppend(a, b');
    }
  }

  /** A data set of n copies of c sums to n * c. */
  lemma {:induction false} SumOfConstant(values: seq<int>, c: int)
    requires forall i :: 0 <= i < |values| ==> values[i] == c
    ensures SumOf(values) == |values| * c
    decreases |values|
  {
    if |values| > 0 {
      SumOfConstant(values[..|values| - 1], c);
    }
  }

  /** `calculateMean`: the sum divided by the item count. */
  function Mean(sum: int, itemsCount: int): (mean: real)
    requires itemsCount != 0
    ensures mean * itemsCount as real == sum as real
  {
    sum as real / itemsCount as real
  }

  function Square(x: real): real
  {
    x * x
  }

  /** Sum of squared deviations of the values from `mean`, front to back. */
  function SquaredDeviations(values: seq<int>, mean: real): real
  {
    if |values| == 0 then 0.0
    else SquaredDeviations(values[..|values| - 1], mean) + Square(values[|values| - 1] as real - mean)
  }

  /**
   * Population variance: the squared deviations from the mean, divided by
   * the number of values (n, not n - 1).
   */
  function Variance(values: seq<int>): real
    requires |values| > 0
  {
    SquaredDeviations(values, Mean(SumOf(values), |values|)) / |values| as real
  }

  /**
   * `calculateStdDev` up to the final square root. `None` stands for the NaN
   * that the source produces for an empty data set (0 / 0).
   */
  method CalculateVariance(values: seq<int>) returns (v: Option<real>)
    ensures v.None? <==> |values| == 0
    ensures v.Some? ==> v.value == Variance(values)
  {
    var itemsCount := |values|;
    var total := Sum(values);
    if itemsCount == 0 {
      return None;
    }
    var mean := Mean(total, itemsCount);
    var result := 0.0;
    for i := 0 to itemsCount
      invariant result == SquaredDeviations(values[..i], mean)
    {
      assert values[..i + 1][..i] == values[..i];
      result := result + Square(values[i] as real - mean);
    }
    assert values[..itemsCount] == values;
    v := Some(result / itemsCount as real);
  }

  /** A sum of squares is never negative. */
  lemma {:induction false} SquaredDeviationsNonNegative(values: seq<int>, mean: real)
    ensures SquaredDeviations(values, mean) >= 0.0
    decreases |values|
  {
    if |values| > 0 {
      SquaredDeviationsNonNegative(values[..|values| - 1], mean);
    }
  }

  /** The squared deviations vanish exactly when every value equals `mean`. */
  lemma {:induction false} SquaredDeviationsZero(values: seq<int>, mean: real)
    ensures SquaredDeviations(values, mean) == 0.0 <==>
      forall i :: 0 <= i < |values| ==> values[i] as real == mean
    decreases |values|
  {
    if |values| > 0 {
      var init := values[..|values| - 1];
      var d := values[|values| - 1] as real - mean;
      SquaredDeviationsZero(init, mean);
      SquaredDeviationsNonNegative(init, mean);
      SquareZero(d);
      assert SquaredDeviations(values, mean) == SquaredDeviations(init, mean) + Square(d);
      if SquaredDeviations(values, mean) == 0.0 {
        assert Square(d) == 0.0 && d == 0.0;
        forall i | 0 <= i < |values| ensures values[i] as real == mean {
          if i < |init| {
            assert init[i] == values[i];
          }
        }
      } else {
        assert SquaredDeviations(init, mean) != 0.0 || d != 0.0;
      }
    }
  }

  /** A non-zero number is recovered by dividing its square by itself. */
  lemma SquareOverSelf(d: real)
    requires d != 0.0
    ensures Square(d) / d == d
  {
  }

  /** A square is non-negative, and zero only for zero. */
  lemma SquareZero(d: real)
    ensures Square(d) >= 0.0
    ensures Square(d) == 0.0 <==> d == 0.0
  {
    if d != 0.0 {
      SquareOverSelf(d);
    }
  }

  /** The variance, and hence the standard deviation, is never negative. */
  lemma VarianceNonNegative(values: seq<int>)
    requires |values| > 0
    ensures Variance(values) >= 0.0
  {
    SquaredDeviationsNonNegative(values, Mean(SumOf(values), |values|));
  }

  /** The variance is zero if and only if all values are equal. */
  lemma VarianceZeroIffConstant(values: seq<int>)
    requires |values| > 0
    ensures Variance(values) == 0.0 <==>
      forall i :: 0 <= i < |values| ==> values[i] == values[0]
  {
    var n := |values|;
    var mean := Mean(SumOf(values), n);
    SquaredDeviationsZero(values, mean);
    if forall i :: 0 <= i < n ==> values[i] == values[0] {
      SumOfConstant(values, values[0]);
      assert mean == values[0] as real;
    } else {
      var j :| 0 <= j < n && values[j] != values[0];
      assert values[j] as real != mean || values[0] as real != mean;
    }
  }

  /** Normalisation is by n: the values 1..5 have variance 2, not the sample variance 2.5. */
  lemma VarianceOfOneToFive()
    ensures Variance([1, 2, 3, 4, 5]) == 2.0
  {
    var s := [1, 2, 3, 4, 5];
    assert s[..4] == [1, 2, 3, 4];
    assert [1, 2, 3, 4][..3] == [1, 2, 3];
    assert [1, 2, 3][..2] == [1, 2];
    assert [1, 2][..1] == [1];
    assert [1][..0] == [];
    assert SumOf([1]) == 1;
    assert SumOf([1, 2]) == 3;
    assert SumOf([1, 2, 3]) == 6;
    assert SumOf([1, 2, 3, 4]) == 10;
    assert SumOf(s) == 15;
    assert Mean(15, 5) == 3.0;
    assert SquaredDeviations([1], 3.0) == 4.0;
    assert SquaredDeviations([1, 2], 3.0) == 5.0;
    assert SquaredDeviations([1, 2, 3], 3.0) == 5.0;
    assert SquaredDeviations([1, 2, 3, 4], 3.0) == 6.0;
    assert SquaredDeviations(s, 3.0) == 10.0;
  }
}
