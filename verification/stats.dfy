/** Normalisation and rolling statistics: `zNormalize` and `movstd` of
    matrixprofile/matrixprofile.go. */
module Stats {
  import opened Results
  import opened Series
  import opened Primitives

  /** What `zNormalize` hands back: an error for empty input (no buffer), the
      mean-centred buffer together with the zero-std error, or the
      z-normalised buffer. */
  datatype ZNorm = NoData | Constant(centered: seq<real>) | Scaled(values: seq<real>)

  /** The population standard deviation of a non-empty series, as computed
      by `math.Sqrt` in the model. */
  function StdDev(ts: seq<real>, num: Numerics): real
    requires |ts| > 0
  {
    num.root(PopVariance(ts))
  }

  /** zNormalize: subtract the mean, then divide by the population standard
      deviation unless that deviation is zero. */
  function ZNormalize(ts: seq<real>, num: Numerics): (r: ZNorm)
    requires num.Valid()
    ensures r.NoData? <==> |ts| == 0
    ensures r.Constant? <==> |ts| > 0 && IsConstant(ts)
    ensures r.Constant? ==> r.centered == Zeros(|ts|)
    ensures r.Scaled? ==>
              && |r.values| == |ts|
              && StdDev(ts, num) > 0.0
              && forall i :: 0 <= i < |ts| ==> r.values[i] * StdDev(ts, num) == ts[i] - Mean(ts)
  {
    if |ts| == 0 then NoData
    else
      var out := Center(ts, Mean(ts));
      var std := num.root(SumSq(out) / |out| as real);
      DeviationFacts(ts, num);
      if std == 0.0 then Constant(out)
      else Scaled(seq(|ts|, i requires 0 <= i < |ts| => out[i] / std))
  }

  lemma {:induction false} DeviationFacts(ts: seq<real>, num: Numerics)
    requires num.Valid() && |ts| > 0
    ensures PopVariance(ts) >= 0.0
    ensures StdDev(ts, num) >= 0.0
    ensures Sq(StdDev(ts, num)) == PopVariance(ts)
    ensures StdDev(ts, num) == 0.0 <==> IsConstant(ts)
    ensures IsConstant(ts) ==> Center(ts, Mean(ts)) == Zeros(|ts|)
  {
    var c := Center(ts, Mean(ts));
    SumSqNonNegative(c);
    QuotientNonNegative(SumSq(c), |ts|, PopVariance(ts));
    RootZeroIff(num, PopVariance(ts));
    ConstantIffZeroVariance(ts);
    ConstantIffCenteredZero(ts);
  }

  lemma QuotientNonNegative(a: real, n: int, q: real)
    requires a >= 0.0 && n > 0 && q == a / n as real
    ensures q >= 0.0
  {
  }

  /** Proof helper: ZNormalize's last ensures, rewritten with the centred
      series `Center(ts, Mean(ts))` that the lemmas about sums work on. */
  lemma {:induction false} ZNormalizeScales(ts: seq<real>, num: Numerics)
    requires num.Valid() && ZNormalize(ts, num).Scaled?
    ensures |ZNormalize(ts, num).values| == |Center(ts, Mean(ts))|
    ensures forall i :: 0 <= i < |ts| ==>
              ZNormalize(ts, num).values[i] * StdDev(ts, num) == Center(ts, Mean(ts))[i]
  {
  }

  /** A successful normalisation has mean 0 ... */
  lemma {:induction false} ZNormalizeCentres(ts: seq<real>, num: Numerics)
    requires num.Valid() && ZNormalize(ts, num).Scaled?
    ensures Sum(ZNormalize(ts, num).values) == 0.0
  {
    var z := ZNormalize(ts, num).values;
    ZNormalizeScales(ts, num);
    ScaledSum(z, Center(ts, Mean(ts)), StdDev(ts, num));
    CenteredSumIsZero(ts);
    CancelFactor(Sum(z), 0.0, StdDev(ts, num));
  }

  /** ... and population variance 1: its squares sum to its length. */
  lemma {:induction false} ZNormalizeUnitVariance(ts: seq<real>, num: Numerics)
    requires num.Valid() && ZNormalize(ts, num).Scaled?
    ensures SumSq(ZNormalize(ts, num).values) == |ts| as real
  {
    var z := ZNormalize(ts, num).values;
    var c := Center(ts, Mean(ts));
    var s := StdDev(ts, num);
    ZNormalizeScales(ts, num);
    ScaledSumSq(z, c, s);
    DeviationFacts(ts, num);
    SqPositive(s);
    UnitAlgebra(SumSq(z), Sq(s), SumSq(c), |ts|, PopVariance(ts));
  }

  lemma CancelFactor(x: real, y: real, k: real)
    requires k != 0.0 && x * k == y * k
    ensures x == y
  {
  }

  /** If z * v = q and v = q / n with v non-zero, then z = n. */
  lemma UnitAlgebra(z: real, sq: real, q: real, n: int, v: real)
    requires n > 0 && z * sq == q && sq == v && v == q / n as real && v != 0.0
    ensures z == n as real
  {
    assert q == v * n as real;
    CancelFactor(z, n as real, v);
  }

  /** movstd: the rolling population standard deviation over every window of
      length m, from one pass of running sums and running sums of squares. */
  function MovStd(ts: seq<real>, m: int, num: Numerics): (r: Result<seq<real>>)
    ensures m <= 1 ==> r == Failure(WindowTooShort)
    ensures 1 < m && m >= |ts| ==> r == Failure(WindowTooLong)
    ensures r.Success? <==> 1 < m < |ts|
    ensures r.Success? ==> |r.value| == |ts| - m + 1
  {
    if m <= 1 then Failure(WindowTooShort)
    else if m >= |ts| then Failure(WindowTooLong)
    else
      var c := Cumulative(ts);
      var csqr := Cumulative(Squares(ts));
      // float64(m*m) in the source is written Sq(m) here
      Success(seq(|ts| - m + 1, i requires 0 <= i < |ts| - m + 1 =>
                    num.root(MomentVariance(Delta(csqr, i, m), Delta(c, i, m), m))))
  }

  /** Each rolling value is the standard deviation of its own window. */
  lemma {:induction false} MovStdIsWindowStd(ts: seq<real>, m: int, num: Numerics)
    requires 1 < m < |ts|
    ensures MovStd(ts, m, num).Success?
    ensures forall i :: 0 <= i <= |ts| - m ==>
              MovStd(ts, m, num).value[i] == StdDev(ts[i..i + m], num)
  {
    forall i | 0 <= i <= |ts| - m
      ensures MovStd(ts, m, num).value[i] == StdDev(ts[i..i + m], num)
    {
      MovStdAt(ts, m, num, i);
    }
  }

  lemma {:induction false} MovStdAt(ts: seq<real>, m: int, num: Numerics, i: int)
    requires 1 < m < |ts| && 0 <= i <= |ts| - m
    ensures MovStd(ts, m, num).Success?
    ensures MovStd(ts, m, num).value[i] == StdDev(ts[i..i + m], num)
  {
    WindowMoments(ts, m, i);
  }

  /** The running sums of `movstd` give a window's variance. */
  lemma {:induction false} WindowMoments(ts: seq<real>, m: int, i: int)
    requires 1 < m < |ts| && 0 <= i <= |ts| - m
    ensures PopVariance(ts[i..i + m]) ==
            MomentVariance(Delta(Cumulative(Squares(ts)), i, m), Delta(Cumulative(ts), i, m), m)
  {
    var w := ts[i..i + m];
    assert |w| == m;
    WindowSumFromPrefix(ts, i, m);
    WindowSumSqFromPrefix(ts, i, m);
    VarianceFromSums(w);
  }

  /** Every window of a constant series has standard deviation 0. */
  lemma {:induction false} MovStdOfConstant(ts: seq<real>, m: int, num: Numerics)
    requires num.Valid() && 1 < m < |ts| && IsConstant(ts)
    ensures forall i :: 0 <= i <= |ts| - m ==> MovStd(ts, m, num).value[i] == 0.0
  {
    MovStdIsWindowStd(ts, m, num);
    forall i | 0 <= i <= |ts| - m
      ensures MovStd(ts, m, num).value[i] == 0.0
    {
      var w := ts[i..i + m];
      assert IsConstant(w);
      DeviationFacts(w, num);
    }
  }
}
