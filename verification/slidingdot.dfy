/** `slidingDotProduct` and `multComplexSlice` of
    matrixprofile/matrixprofile.go: the dot product of a query with every
    window of a series, computed as one circular convolution through the
    FFT. */
module SlidingDot {
  import opened Results
  import opened Series
  import opened Primitives

  /** multComplexSlice: the element-wise product of two spectra. */
  function MultComplexSlice(a: seq<Complex>, b: seq<Complex>): (r: Result<seq<Complex>>)
    ensures r.Success? <==> |a| == |b|
    ensures r.Failure? ==> r.error == LengthMismatch
    ensures r.Success? ==>
              |r.value| == |a| && forall i :: 0 <= i < |a| ==> r.value[i] == Mul(a[i], b[i])
  {
    if |a| != |b| then Failure(LengthMismatch) else Success(Pointwise(a, b))
  }

  /** The query reversed into the front of a zero buffer of length n
      (`qpad[i] = q[m-i-1]`). */
  function ReversePadded(q: seq<real>, n: int): (r: seq<real>)
    requires |q| <= n
    ensures |r| == n
  {
    seq(n, i requires 0 <= i < n => if i < |q| then q[|q| - 1 - i] else 0.0)
  }

  /** slidingDotProduct: for every offset i of t, the correlation term
      `dot[m-1+i] / n` of the circular convolution of t with the reversed,
      zero-padded query. The length check comes before the shortness check. */
  function SlidingDotProduct(q: seq<real>, t: seq<real>, num: Numerics): (r: Result<seq<real>>)
    requires num.Valid()
    ensures 2 * |q| >= |t| ==> r == Failure(QueryTooLong)
    ensures 2 * |q| < |t| && |q| < 2 ==> r == Failure(QueryTooShort)
    ensures r.Success? <==> 2 <= |q| && 2 * |q| < |t|
    ensures r.Success? ==> |r.value| == |t| - |q| + 1
  {
    var m := |q|;
    var n := |t|;
    if m * 2 >= n then Failure(QueryTooLong)
    else if m < 2 then Failure(QueryTooShort)
    else
      var tf := num.fwd(t);
      var qf := num.fwd(ReversePadded(q, n));
      match MultComplexSlice(tf, qf)
      case Failure(e) =>
        // both spectra have n/2+1 coefficients, so this error cannot occur
        assert false; Failure(e)
      case Success(f) =>
        var dot := num.inv(n, f);
        Success(seq(n - m + 1, i requires 0 <= i < n - m + 1 => dot[m - 1 + i] / n as real))
  }

  // ------------------------------------------------------------------ lemmas

  /** Terms of the convolution sum past the query contribute nothing. */
  lemma {:induction false} ConvolutionTail(x: seq<real>, y: seq<real>, k: int, m: int, J: int)
    requires 0 <= k < |x| && |x| == |y| && 0 <= m <= J <= |y|
    requires forall j :: m <= j < |y| ==> y[j] == 0.0
    ensures ConvSum(x, y, k, J) == ConvSum(x, y, k, m)
  {
    if J > m {
      ConvolutionTail(x, y, k, m, J - 1);
      assert y[J - 1] == 0.0;
    }
  }

  /** The first J terms of the convolution at k = m-1+i are the dot product
      of the last J query values with the last J values of window i. */
  lemma {:induction false} ConvolutionHead(q: seq<real>, t: seq<real>, i: int, J: int)
    requires 0 < |q| <= |t| && 0 <= i <= |t| - |q| && 0 <= J <= |q|
    ensures ConvSum(t, ReversePadded(q, |t|), |q| - 1 + i, J) ==
            Dot(q[|q| - J..], t[i + |q| - J..i + |q|])
  {
    var m := |q|;
    var y := ReversePadded(q, |t|);
    if J > 0 {
      ConvolutionHead(q, t, i, J - 1);
      var w := t[i + m - J..i + m];
      var p := i + m - J;
      assert y[J - 1] == q[m - J..][0];
      assert t[p] == w[0];
      assert q[m - J..][1..] == q[m - (J - 1)..];
      assert w[1..] == t[i + m - (J - 1)..i + m];
    } else {
      assert q[m..] == [];
    }
  }

  /** The padded buffer holds the query reversed, followed by zeros. */
  lemma {:induction false} ReversePaddedShape(q: seq<real>, n: int)
    requires |q| <= n
    ensures Reverse(ReversePadded(q, n)[..|q|]) == q
    ensures forall j :: |q| <= j < n ==> ReversePadded(q, n)[j] == 0.0
  {
    var r := ReversePadded(q, n)[..|q|];
    forall j | 0 <= j < |q|
      ensures r[j] == q[|q| - 1 - j]
    {
    }
    ReverseIndex(r);
  }

  /** Multiplying spectra convolves signals: the inverse transform of the
      product `multComplexSlice` forms from two equally long signals' spectra
      is n times their circular convolution at every index. */
  lemma {:induction false} MultComplexSliceConvolves(x: seq<real>, y: seq<real>, num: Numerics, k: int)
    requires num.Valid() && num.ConvolutionLaw()
    requires |x| == |y| && 0 <= k < |x|
    ensures MultComplexSlice(num.fwd(x), num.fwd(y)).Success?
    ensures |num.inv(|x|, MultComplexSlice(num.fwd(x), num.fwd(y)).value)| == |x|
    ensures num.inv(|x|, MultComplexSlice(num.fwd(x), num.fwd(y)).value)[k] ==
            |x| as real * ConvSum(x, y, k, |x|)
  {
    var f := Pointwise(num.fwd(x), num.fwd(y));
    assert |f| == |x| / 2 + 1;
  }

  /** The inverse transform of the product of the spectra of the series and
      the padded query, read at k = m-1+i, is n times the convolution sum. */
  lemma {:induction false} CorrelationAt(q: seq<real>, t: seq<real>, num: Numerics, i: int)
    requires num.Valid() && num.ConvolutionLaw()
    requires 0 < |q| <= |t| && 0 <= i <= |t| - |q|
    ensures |num.inv(|t|, Pointwise(num.fwd(t), num.fwd(ReversePadded(q, |t|))))| == |t|
    ensures num.inv(|t|, Pointwise(num.fwd(t), num.fwd(ReversePadded(q, |t|))))[|q| - 1 + i] ==
            |t| as real * ConvSum(t, ReversePadded(q, |t|), |q| - 1 + i, |t|)
  {
    MultComplexSliceConvolves(t, ReversePadded(q, |t|), num, |q| - 1 + i);
  }

  /** That convolution sum is the dot product with window i. */
  lemma {:induction false} ConvolutionIsWindowDot(q: seq<real>, t: seq<real>, i: int)
    requires 0 < |q| <= |t| && 0 <= i <= |t| - |q|
    ensures ConvSum(t, ReversePadded(q, |t|), |q| - 1 + i, |t|) == Dot(q, t[i..i + |q|])
  {
    var m := |q|;
    var y := ReversePadded(q, |t|);
    ReversePaddedShape(q, |t|);
    ConvolutionTail(t, y, m - 1 + i, m, |t|);
    ConvolutionHead(q, t, i, m);
    assert q[m - m..] == q;
  }

  /** Entry i of the sliding dot product is the dot product of the query
      with window i of the series. */
  lemma {:induction false} SlidingDotProductAt(q: seq<real>, t: seq<real>, num: Numerics, i: int)
    requires num.Valid() && num.ConvolutionLaw()
    requires SlidingDotProduct(q, t, num).Success?
    requires 0 <= i <= |t| - |q|
    ensures SlidingDotProduct(q, t, num).value[i] == Dot(q, t[i..i + |q|])
  {
    var dot := num.inv(|t|, Pointwise(num.fwd(t), num.fwd(ReversePadded(q, |t|))));
    CorrelationAt(q, t, num, i);
    ConvolutionIsWindowDot(q, t, i);
    CancelScale(|t|, ConvSum(t, ReversePadded(q, |t|), |q| - 1 + i, |t|), dot[|q| - 1 + i]);
  }

  lemma CancelScale(n: int, x: real, y: real)
    requires n > 0 && y == n as real * x
    ensures y / n as real == x
  {
  }

  /** The sliding dot product is the dot product with every window. */
  lemma {:induction false} SlidingDotProductIsWindowDot(q: seq<real>, t: seq<real>, num: Numerics)
    requires num.Valid() && num.ConvolutionLaw()
    requires SlidingDotProduct(q, t, num).Success?
    ensures forall i :: 0 <= i <= |t| - |q| ==>
              SlidingDotProduct(q, t, num).value[i] == Dot(q, t[i..i + |q|])
  {
    forall i | 0 <= i <= |t| - |q|
      ensures SlidingDotProduct(q, t, num).value[i] == Dot(q, t[i..i + |q|])
    {
      SlidingDotProductAt(q, t, num, i);
    }
  }
}
