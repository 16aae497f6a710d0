/** The numeric collaborators the package does not implement itself: the
    gonum FFT (`fourier.NewFFT(n).Coefficients` / `.Sequence`), `math.Sqrt`,
    and the floating-point conversion of a correlation into a distance
    (`math.Sqrt(math.Abs(2 * (m - dot/std)))`). They are taken as
    parameters; `Valid` states the laws the model relies on. */
module Primitives {
  import opened ExtReal
  import opened Series

  /** A `complex128` value, with exact real parts. */
  datatype Complex = Complex(re: real, im: real)

  function Mul(a: Complex, b: Complex): Complex
  {
    Complex(a.re * b.re - a.im * b.im, a.re * b.im + a.im * b.re)
  }

  /** Element-wise product of two equally long complex vectors. */
  function Pointwise(a: seq<Complex>, b: seq<Complex>): (r: seq<Complex>)
    requires |a| == |b|
    ensures |r| == |a|
  {
    seq(|a|, i requires 0 <= i < |a| => Mul(a[i], b[i]))
  }

  datatype Numerics = Numerics(
    /** `fft.Coefficients(nil, s)` for an FFT of size |s| */
    fwd: seq<real> -> seq<Complex>,
    /** `fourier.NewFFT(n).Sequence(nil, f)`: the unnormalised inverse transform */
    inv: (nat, seq<Complex>) -> seq<real>,
    /** `math.Sqrt` */
    root: real -> real,
    /** line 157 of Mass: the distance for query length m, dot product and window std */
    dist: (int, real, real) -> Ext)
  {
    /** The shape laws of gonum's real FFT (n/2+1 coefficients, n samples
        back) and the square-root law of `math.Sqrt` on non-negative input. */
    ghost predicate Valid()
    {
      && (forall s: seq<real> :: |fwd(s)| == |s| / 2 + 1)
      && (forall n: nat, f: seq<Complex> :: |f| == n / 2 + 1 ==> |inv(n, f)| == n)
      && (forall x: real :: 0.0 <= x ==> 0.0 <= root(x) && Sq(root(x)) == x)
    }

    /** The convolution theorem for the unnormalised transform pair: the
        inverse transform of the product of two spectra is n times the
        circular convolution of the two signals. */
    ghost predicate ConvolutionLaw()
    {
      forall x: seq<real>, y: seq<real>, k: int {:trigger ConvSum(x, y, k, |x|)} ::
        0 <= k < |x| && |x| == |y| && |fwd(x)| == |fwd(y)| &&
        0 <= k < |inv(|x|, Pointwise(fwd(x), fwd(y)))| ==>
          inv(|x|, Pointwise(fwd(x), fwd(y)))[k] == |x| as real * ConvSum(x, y, k, |x|)
    }
  }

  /** A square root vanishes exactly at zero. */
  lemma RootZeroIff(num: Numerics, x: real)
    requires num.Valid() && 0.0 <= x
    ensures num.root(x) == 0.0 <==> x == 0.0
  {
    var r := num.root(x);
    assert Sq(r) == x;
    if r != 0.0 {
      SqPositive(r);
    }
  }
}
