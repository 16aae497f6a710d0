/** Exact real arithmetic on series: sums, squares, the arithmetic mean,
    centring, population variance, dot products and the running
    (cumulative) sums that `movstd` builds. These are the reference
    definitions the operations of the package are proved against. */
module Series {

  function Sum(s: seq<real>): real
  {
    if |s| == 0 then 0.0 else s[0] + Sum(s[1..])
  }

  function Sq(x: real): real
  {
    x * x
  }

  function Squares(s: seq<real>): (r: seq<real>)
    ensures |r| == |s|
  {
    seq(|s|, i requires 0 <= i < |s| => Sq(s[i]))
  }

  function SumSq(s: seq<real>): real
  {
    Sum(Squares(s))
  }

  /** `stat.Mean(s, nil)`: the unweighted arithmetic mean. */
  function Mean(s: seq<real>): real
    requires |s| > 0
  {
    Sum(s) / |s| as real
  }

  /** Every element shifted by `-c`. */
  function Center(s: seq<real>, c: real): (r: seq<real>)
    ensures |r| == |s|
  {
    seq(|s|, i requires 0 <= i < |s| => s[i] - c)
  }

  /** Population variance: the mean squared deviation from the mean (denominator n). */
  function PopVariance(s: seq<real>): real
    requires |s| > 0
  {
    SumSq(Center(s, Mean(s))) / |s| as real
  }

  predicate IsConstant(s: seq<real>)
  {
    forall i, j :: 0 <= i < |s| && 0 <= j < |s| ==> s[i] == s[j]
  }

  function Zeros(n: nat): (r: seq<real>)
    ensures |r| == n
  {
    seq(n, _ => 0.0)
  }

  /** Dot product of two equally long vectors. */
  function Dot(x: seq<real>, y: seq<real>): real
    requires |x| == |y|
  {
    if |x| == 0 then 0.0 else x[0] * y[0] + Dot(x[1..], y[1..])
  }

  /** The running-sum array of `movstd`: element 0 is 0, element i is element
      i-1 plus `s[i-1]`. */
  function Cumulative(s: seq<real>): (c: seq<real>)
    ensures |c| == |s| + 1
    ensures c[0] == 0.0
    ensures c[|s|] == Sum(s)
  {
    if |s| == 0 then [0.0]
    else
      var init := s[..|s| - 1];
      var c := Cumulative(init);
      SumAppend(init, s[|s| - 1]);
      assert init + [s[|s| - 1]] == s;
      c + [s[|s| - 1] + c[|s| - 1]]
  }

  function Reverse(s: seq<real>): (r: seq<real>)
    ensures |r| == |s|
  {
    if |s| == 0 then [] else Reverse(s[1..]) + [s[0]]
  }

  /** The first J terms of the circular convolution of x and y at k:
      the sum over j < J of y[j] * x[(k - j) mod n], for 0 <= k < n. */
  function ConvSum(x: seq<real>, y: seq<real>, k: int, J: int): real
    requires 0 <= k < |x| && |x| == |y| && 0 <= J <= |y|
  {
    if J == 0 then 0.0
    else
      var j := J - 1;
      ConvSum(x, y, k, j) + y[j] * x[if j <= k then k - j else k - j + |x|]
  }

  /** The difference of two running sums `m` apart: `c[i+m] - c[i]`. */
  function Delta(c: seq<real>, i: int, m: int): real
    requires 0 <= i && 0 <= m && i + m < |c|
  {
    c[i + m] - c[i]
  }

  // ---------------------------------------------------------------- lemmas

  /** Reverse puts element i at position |s|-1-i. */
  lemma {:induction false} ReverseIndex(s: seq<real>)
    ensures forall i :: 0 <= i < |s| ==> Reverse(s)[i] == s[|s| - 1 - i]
  {
    if |s| > 0 {
      ReverseIndex(s[1..]);
    }
  }

  lemma {:induction false} SumAppend(s: seq<real>, x: real)
    ensures Sum(s + [x]) == Sum(s) + x
  {
    if |s| == 0 {
      assert s + [x] == [x];
    } else {
      assert (s + [x])[1..] == s[1..] + [x];
      SumAppend(s[1..], x);
    }
  }

  lemma {:induction false} SumConcat(s: seq<real>, t: seq<real>)
    ensures Sum(s + t) == Sum(s) + Sum(t)
  {
    if |s| == 0 {
      assert s + t == t;
    } else {
      assert (s + t)[1..] == s[1..] + t;
      SumConcat(s[1..], t);
    }
  }

  /** The running sums satisfy the prefix-sum invariant: element i is the sum
      of the first i samples. */
  lemma {:induction false} CumulativeIsPrefixSum(s: seq<real>, i: int)
    requires 0 <= i <= |s|
    ensures Cumulative(s)[i] == Sum(s[..i])
  {
    if |s| == 0 {
      assert s[..i] == [];
    } else {
      var init := s[..|s| - 1];
      if i < |s| {
        CumulativeIsPrefixSum(init, i);
        assert s[..i] == init[..i];
      } else {
        CumulativeIsPrefixSum(init, |s| - 1);
        assert init[..|s| - 1] == init;
        assert s[..i] == init + [s[|s| - 1]];
        SumAppend(init, s[|s| - 1]);
      }
    }
  }

  /** Differencing the running sums `m` apart yields the sum of the window. */
  lemma {:induction false} WindowSumFromPrefix(s: seq<real>, i: int, m: int)
    requires 0 <= i && 0 <= m && i + m <= |s|
    ensures Delta(Cumulative(s), i, m) == Sum(s[i..i + m])
  {
    CumulativeIsPrefixSum(s, i);
    CumulativeIsPrefixSum(s, i + m);
    SumOfPrefix(s, i, i + m);
  }

  /** The sum of a longer prefix splits at a shorter one. */
  lemma {:induction false} SumOfPrefix(s: seq<real>, i: int, j: int)
    requires 0 <= i <= j <= |s|
    ensures Sum(s[..j]) == Sum(s[..i]) + Sum(s[i..j])
  {
    assert s[..j] == s[..i] + s[i..j];
    SumConcat(s[..i], s[i..j]);
  }

  /** The same for the running sums of squares. */
  lemma {:induction false} WindowSumSqFromPrefix(s: seq<real>, i: int, m: int)
    requires 0 <= i && 0 <= m && i + m <= |s|
    ensures Delta(Cumulative(Squares(s)), i, m) == SumSq(s[i..i + m])
  {
    WindowSumFromPrefix(Squares(s), i, m);
    SquaresSlice(s, i, i + m);
  }

  lemma {:induction false} SquaresSlice(s: seq<real>, i: int, j: int)
    requires 0 <= i <= j <= |s|
    ensures Squares(s)[i..j] == Squares(s[i..j])
  {
  }

  lemma {:induction false} SquaresTail(s: seq<real>)
    requires |s| > 0
    ensures Squares(s)[1..] == Squares(s[1..])
  {
    SquaresSlice(s, 1, |s|);
    assert s[1..|s|] == s[1..];
  }

  lemma {:induction false} SumSqNonNegative(s: seq<real>)
    ensures SumSq(s) >= 0.0
  {
    if |s| > 0 {
      SquaresTail(s);
      SumSqNonNegative(s[1..]);
    }
  }

  lemma ProductPositive(x: real, y: real, t: real)
    requires x > 0.0 && y > 0.0 && t == x * y
    ensures t > 0.0
  {
  }

  lemma SquareOfNonZero(x: real, t: real)
    requires x != 0.0 && t == x * x
    ensures t > 0.0
  {
    if x > 0.0 {
      ProductPositive(x, x, t);
    } else {
      ProductPositive(-x, -x, t);
    }
  }

  /** One non-zero term makes a sum of squares strictly positive. */
  lemma {:induction false} SumSqPositive(s: seq<real>, k: int)
    requires 0 <= k < |s| && s[k] != 0.0
    ensures SumSq(s) > 0.0
  {
    SquaresTail(s);
    SumSqNonNegative(s[1..]);
    assert SumSq(s) == Squares(s)[0] + SumSq(s[1..]);
    if k == 0 {
      SquareOfNonZero(s[0], Squares(s)[0]);
    } else {
      assert s[1..][k - 1] == s[k];
      SumSqPositive(s[1..], k - 1);
      assert Squares(s)[0] >= 0.0;
    }
  }

  /** A sum of squares vanishes exactly when every term does. */
  lemma {:induction false} SumSqZeroIff(s: seq<real>)
    ensures SumSq(s) == 0.0 <==> forall i :: 0 <= i < |s| ==> s[i] == 0.0
  {
    if forall i :: 0 <= i < |s| ==> s[i] == 0.0 {
      assert Squares(s) == Zeros(|s|);
      SumConstant(Squares(s), 0.0);
    } else {
      var k :| 0 <= k < |s| && s[k] != 0.0;
      SumSqPositive(s, k);
    }
  }

  lemma {:induction false} SumConstant(s: seq<real>, c: real)
    requires forall i :: 0 <= i < |s| ==> s[i] == c
    ensures Sum(s) == |s| as real * c
  {
    if |s| > 0 {
      SumConstant(s[1..], c);
    }
  }

  /** Shifting every element by `-c` lowers the sum by `n*c`. */
  lemma {:induction false} SumCenter(s: seq<real>, c: real)
    ensures Sum(Center(s, c)) == Sum(s) - |s| as real * c
  {
    if |s| > 0 {
      assert Center(s, c)[1..] == Center(s[1..], c);
      SumCenter(s[1..], c);
    }
  }

  /** The sum of squared deviations from c of n values whose sum of
      squares is q and whose sum is s: q - 2cs + nc^2. */
  function Expansion(q: real, s: real, c: real, n: real): real
  {
    q - 2.0 * c * s + n * Sq(c)
  }

  /** Expanding the square: sum (x - c)^2 = sum x^2 - 2 c sum x + n c^2. */
  lemma {:induction false} SumSqCenter(s: seq<real>, c: real)
    ensures SumSq(Center(s, c)) == Expansion(SumSq(s), Sum(s), c, |s| as real)
  {
    if |s| > 0 {
      var d := Center(s, c);
      assert d[1..] == Center(s[1..], c);
      SquaresTail(d);
      SquaresTail(s);
      SumSqCenter(s[1..], c);
      var n' := |s[1..]| as real;
      assert |s| as real == n' + 1.0;
      assert Sq(s[0] - c) == Sq(s[0]) - 2.0 * c * s[0] + Sq(c);
      assert (n' + 1.0) * Sq(c) == n' * Sq(c) + Sq(c);
    }
  }

  /** The deviations from the mean sum to zero. */
  lemma {:induction false} CenteredSumIsZero(s: seq<real>)
    requires |s| > 0
    ensures Sum(Center(s, Mean(s))) == 0.0
  {
    SumCenter(s, Mean(s));
  }

  lemma SqPositive(x: real)
    requires x != 0.0
    ensures Sq(x) > 0.0
  {
    SquareOfNonZero(x, Sq(x));
  }

  /** The variance of n values from their sum of squares q and their sum s:
      q/n - s^2/n^2. */
  function MomentVariance(q: real, s: real, n: int): real
    requires n > 0
  {
    SqPositive(n as real);
    q / n as real - Sq(s) / Sq(n as real)
  }

  /** The one-pass formula of `movstd`: the population variance of a window
      is (sum of squares)/m minus (sum)^2/m^2. */
  lemma {:induction false} VarianceFromSums(s: seq<real>)
    requires |s| > 0
    ensures PopVariance(s) == MomentVariance(SumSq(s), Sum(s), |s|)
  {
    SumSqCenter(s, Mean(s));
    VarianceAlgebra(|s|, Sum(s), SumSq(s), Mean(s), SumSq(Center(s, Mean(s))), PopVariance(s));
  }

  /** The algebra behind `VarianceFromSums`: with c = S/n and
      d = Q - 2cS + nc^2, d/n = Q/n - S^2/n^2. */
  lemma VarianceAlgebra(k: int, S: real, Q: real, c: real, d: real, v: real)
    requires k > 0
    requires c == S / k as real && d == Expansion(Q, S, c, k as real) && v == d / k as real
    ensures v == MomentVariance(Q, S, k)
  {
    var n := k as real;
    SqPositive(n);
    assert c * n == S;
    assert n * Sq(c) == S * c;
    assert d == Q - c * S;
    assert (Q - c * S) / n == Q / n - Sq(c);
    SquareOverSquare(S, n);
  }

  lemma SquareOverSquare(S: real, n: real)
    requires n > 0.0
    ensures Sq(n) > 0.0
    ensures Sq(S) / Sq(n) == Sq(S / n)
  {
    SqPositive(n);
    var c := S / n;
    assert c * n == S;
    DivTwice(S * S, n);
    assert S * S / n == S * c;
    assert S * c / n == c * c;
  }

  lemma DivTwice(x: real, n: real)
    requires n > 0.0
    ensures x / (n * n) == (x / n) / n
  {
    assert (x / (n * n)) * n == x / n;
  }

  /** A series is constant exactly when every deviation from its mean is zero. */
  lemma {:induction false} ConstantIffCenteredZero(s: seq<real>)
    requires |s| > 0
    ensures IsConstant(s) <==> forall i :: 0 <= i < |s| ==> Center(s, Mean(s))[i] == 0.0
  {
    var d := Center(s, Mean(s));
    if IsConstant(s) {
      SumConstant(s, s[0]);
      assert Mean(s) == s[0];
    }
    if forall i :: 0 <= i < |s| ==> d[i] == 0.0 {
      forall i, j | 0 <= i < |s| && 0 <= j < |s| ensures s[i] == s[j] {
        assert d[i] == 0.0 && d[j] == 0.0;
      }
    }
  }

  /** A series is constant exactly when its population variance is zero. */
  lemma {:induction false} ConstantIffZeroVariance(s: seq<real>)
    requires |s| > 0
    ensures IsConstant(s) <==> PopVariance(s) == 0.0
  {
    ConstantIffCenteredZero(s);
    SumSqZeroIff(Center(s, Mean(s)));
  }

  lemma SqOfProduct(a: real, k: real, b: real)
    requires a * k == b
    ensures Sq(a) * Sq(k) == Sq(b)
  {
  }

  lemma Distribute(a: real, b: real, k: real)
    ensures (a + b) * k == a * k + b * k
  {
  }

  /** If every v[i] * k is c[i], the sums scale alike. */
  lemma {:induction false} ScaledSum(v: seq<real>, c: seq<real>, k: real)
    requires |v| == |c|
    requires forall i :: 0 <= i < |v| ==> v[i] * k == c[i]
    ensures Sum(v) * k == Sum(c)
  {
    if |v| > 0 {
      ScaledSum(v[1..], c[1..], k);
      Distribute(v[0], Sum(v[1..]), k);
    }
  }

  /** ... and so do the sums of squares, by the square of the factor. */
  lemma {:induction false} ScaledSumSq(v: seq<real>, c: seq<real>, k: real)
    requires |v| == |c|
    requires forall i :: 0 <= i < |v| ==> v[i] * k == c[i]
    ensures SumSq(v) * Sq(k) == SumSq(c)
  {
    SquaresScaled(v, c, k);
    ScaledSum(Squares(v), Squares(c), Sq(k));
  }

  lemma {:induction false} SquaresScaled(v: seq<real>, c: seq<real>, k: real)
    requires |v| == |c|
    requires forall i :: 0 <= i < |v| ==> v[i] * k == c[i]
    ensures forall i :: 0 <= i < |v| ==> Squares(v)[i] * Sq(k) == Squares(c)[i]
  {
    forall i | 0 <= i < |v|
      ensures Squares(v)[i] * Sq(k) == Squares(c)[i]
    {
      SqOfProduct(v[i], k, c[i]);
    }
  }
}
