/** Z-score normalisation of the two numeric features.  The statistics are
    the population ones numpy computes (divide by the count, not count - 1).
    A standard deviation is not computed here (exact reals have no square
    root); it is characterised as the non-negative root of the variance. */
module Normalization {
  import opened LinAlg

  /** xs.mean() */
  function Mean(xs: seq<real>): real
    requires |xs| > 0
  {
    Sum(xs) / |xs| as real
  }

  function Deviations(xs: seq<real>, mean: real): seq<real>
  {
    AddScalar(xs, -mean)
  }

  /** Mean squared deviation from the mean: the square of xs.std(). */
  function PopVariance(xs: seq<real>): real
    requires |xs| > 0
  {
    var d := Deviations(xs, Mean(xs));
    Dot(d, d) / |xs| as real
  }

  /** sd is what xs.std() returns: the non-negative root of PopVariance. */
  predicate IsPopStd(xs: seq<real>, sd: real)
    requires |xs| > 0
  {
    sd >= 0.0 && sd * sd == PopVariance(xs)
  }

  /** (x - mean) / std, the transform of model.py lines 55 and 202-203 */
  function Normalize(x: real, mean: real, std: real): (z: real)
    requires std != 0.0
    ensures z * std + mean == x
  {
    (x - mean) / std
  }

  /** Normalisation loses nothing: two inputs with the same normalised value
      are equal, and every real is the normalised value of some input. */
  lemma {:induction false} NormalizeBijective(x: real, y: real, z: real, mean: real, std: real)
    requires std != 0.0
    ensures Normalize(x, mean, std) == Normalize(y, mean, std) ==> x == y
    ensures Normalize(z * std + mean, mean, std) == z
  {
    assert (z * std + mean - mean) / std == z * std / std;
  }

  /** One column normalised entry by entry; every entry maps back to its input. */
  function NormalizeColumn(xs: seq<real>, mean: real, std: real): (zs: seq<real>)
    requires std != 0.0
    ensures |zs| == |xs|
    ensures forall i :: 0 <= i < |xs| ==> zs[i] * std + mean == xs[i]
  {
    seq(|xs|, i requires 0 <= i < |xs| => Normalize(xs[i], mean, std))
  }

  lemma {:induction false} NormalizeColumnIsScaledDeviation(xs: seq<real>, mean: real, std: real)
    requires std != 0.0
    ensures NormalizeColumn(xs, mean, std) == Scale(1.0 / std, Deviations(xs, mean))
  {
    var zs := NormalizeColumn(xs, mean, std);
    var s := Scale(1.0 / std, Deviations(xs, mean));
    forall i | 0 <= i < |xs| ensures zs[i] == s[i] {
      assert (xs[i] - mean) / std == 1.0 / std * (xs[i] + -mean);
    }
  }

  /** Deviations from the mean sum to zero. */
  lemma {:induction false} DeviationsSumToZero(xs: seq<real>)
    requires |xs| > 0
    ensures Sum(Deviations(xs, Mean(xs))) == 0.0
  {
    var m := |xs| as real;
    SumAddScalar(xs, -Mean(xs));
    assert m * Mean(xs) == Sum(xs);
  }

  /** The normalised training column has mean 0 ... */
  lemma {:induction false} NormalizedMeanIsZero(xs: seq<real>, std: real)
    requires |xs| > 0 && std != 0.0
    ensures Mean(NormalizeColumn(xs, Mean(xs), std)) == 0.0
  {
    NormalizeColumnIsScaledDeviation(xs, Mean(xs), std);
    SumScale(1.0 / std, Deviations(xs, Mean(xs)));
    DeviationsSumToZero(xs);
  }

  /** ... and, when std is the population standard deviation, variance 1. */
  lemma {:induction false} NormalizedVarianceIsOne(xs: seq<real>, std: real)
    requires |xs| > 0 && std != 0.0 && IsPopStd(xs, std)
    ensures PopVariance(NormalizeColumn(xs, Mean(xs), std)) == 1.0
  {
    hide Dot, Scale, AddScalar, Sum, NormalizeColumn;
    var d := Deviations(xs, Mean(xs));
    var zs := NormalizeColumn(xs, Mean(xs), std);
    NormalizedMeanIsZero(xs, std);
    NormalizeColumnIsScaledDeviation(xs, Mean(xs), std);
    DotScaleBoth(1.0 / std, d);
    DeviationsFromZero(zs);
    VarianceArithmetic(Dot(d, d), Dot(zs, zs), |xs| as real, std);
  }

  lemma {:induction false} DeviationsFromZero(xs: seq<real>)
    ensures Deviations(xs, 0.0) == xs
  {
  }

  /** Scaling deviations whose mean square is std² by 1/std gives mean square 1. */
  lemma {:induction false} VarianceArithmetic(dd: real, zz: real, m: real, std: real)
    requires m > 0.0 && std != 0.0 && std * std == dd / m
    requires zz == (1.0 / std) * (1.0 / std) * dd
    ensures zz / m == 1.0
  {
    assert dd == m * (std * std);
    assert (1.0 / std) * (1.0 / std) * (std * std) == 1.0;
  }
}
