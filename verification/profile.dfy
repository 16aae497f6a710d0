/** `Stmp` and `Stamp` of matrixprofile/matrixprofile.go: the matrix profile
    of a self-join (b nil) or an AB-join, built by folding distance profiles
    into a running minimum. Stmp visits every offset in order; Stamp visits a
    prefix of a random permutation, which is a parameter here. */
module Profile {
  import opened Results
  import opened ExtReal
  import opened Series
  import opened Primitives
  import opened Distance
  import opened Fold

  /** The two slices Stmp and Stamp return: the profile values and, for each,
      the offset of the query that produced it. */
  datatype MatrixProfile = MatrixProfile(mp: seq<Ext>, idx: seq<int>)

  /** n - m + 1 with n the length of the target series: the length of the
      profile and of the permutation, and Stmp's number of queries. As
      written the queries are windows of `a` even when `b` is given. */
  function Count(a: seq<real>, b: Option<seq<real>>, m: int): (r: int)
    ensures b.None? ==> r == |a| - m + 1
    ensures b.Some? ==> r == |b.value| - m + 1
  {
    |Target(a, b)| - m + 1
  }

  /** Go's int(x) for a float64 x: truncation toward zero. */
  function TruncToInt(x: real): (r: int)
    ensures 0.0 <= x ==> 0 <= r && r as real <= x < r as real + 1.0
    ensures x < 0.0 ==> r <= 0 && r as real - 1.0 < x <= r as real
  {
    if x >= 0.0 then x.Floor else -((-x).Floor)
  }

  /** Every query at the given offsets has a distance profile. */
  predicate AllProfiled(a: seq<real>, b: Option<seq<real>>, m: int, offs: seq<int>, num: Numerics)
    requires num.Valid()
  {
    forall t :: 0 <= t < |offs| ==> DistanceProfile(a, b, m, offs[t], num).Success?
  }

  /** The t-th visited query is the first whose distance profile fails. */
  predicate FirstFailure(a: seq<real>, b: Option<seq<real>>, m: int, offs: seq<int>, num: Numerics, t: int)
    requires num.Valid()
  {
    0 <= t < |offs| && DistanceProfile(a, b, m, offs[t], num).Failure? &&
    AllProfiled(a, b, m, offs[..t], num)
  }

  /** The distance profile of the query at offset o; a failing query has
      none, which the builders never fold since they stop at it. */
  function ProfileOf(a: seq<real>, b: Option<seq<real>>, m: int, o: int, num: Numerics): seq<Ext>
    requires num.Valid()
  {
    var r := DistanceProfile(a, b, m, o, num);
    if r.Success? then r.value else []
  }

  /** The distance profiles of the queries at the given offsets, in visit order. */
  function Profiles(a: seq<real>, b: Option<seq<real>>, m: int, offs: seq<int>, num: Numerics)
    : (r: seq<seq<Ext>>)
    requires num.Valid()
    ensures |r| == |offs|
  {
    seq(|offs|, t requires 0 <= t < |offs| => ProfileOf(a, b, m, offs[t], num))
  }

  /** The inner loop of lines 234-239 (287-292): fold one distance profile p,
      from the query at offset o, into the running profile. No entry grows. */
  method FoldIn(ghost ps: seq<seq<Ext>>, ghost offs: seq<int>, mp: seq<Ext>, idx: seq<int>, p: seq<Ext>, o: int)
    returns (mp': seq<Ext>, idx': seq<int>)
    requires Folded(ps, offs, mp, idx) && |p| == |mp|
    ensures |mp'| == |mp| && |idx'| == |mp|
    ensures Folded(ps + [p], offs + [o], mp', idx')
    ensures forall j :: 0 <= j < |mp| ==> Le(mp'[j], mp[j])
  {
    FoldedNeverNaN(ps, offs, mp, idx);
    mp', idx' := mp, idx;
    for j := 0 to |p|
      invariant |mp'| == |mp| && |idx'| == |mp|
      invariant forall k :: 0 <= k < j ==> (mp'[k], idx'[k]) == Pick(mp[k], idx[k], p[k], o)
      invariant forall k :: j <= k < |mp| ==> mp'[k] == mp[k] && idx'[k] == idx[k]
      invariant forall k :: 0 <= k < j ==> Le(mp'[k], mp[k])
    {
      PickNeverIncreases(mp[j], idx[j], p[j], o);
      if Le(p[j], mp'[j]) {
        mp' := mp'[j := p[j]];
        idx' := idx'[j := o];
      }
    }
    FoldStep(ps, offs, mp, idx, p, o, mp', idx');
  }

  /** The loop of lines 226-240 (279-293) over the given offsets: each query's
      distance profile is computed and folded in; the first failing one
      ends the run with its error. */
  method Sweep(a: seq<real>, b: Option<seq<real>>, m: int, offs: seq<int>, num: Numerics)
    returns (r: Result<MatrixProfile>)
    requires num.Valid() && Count(a, b, m) >= 0
    ensures r.Success? <==> AllProfiled(a, b, m, offs, num)
    ensures r.Failure? ==>
              exists t :: FirstFailure(a, b, m, offs, num, t) &&
                          r.error == DistanceProfile(a, b, m, offs[t], num).error
    ensures r.Success? ==>
              |r.value.mp| == Count(a, b, m) &&
              Folded(Profiles(a, b, m, offs, num), offs, r.value.mp, r.value.idx)
  {
    var n := Count(a, b, m);
    var mp := seq(n, _ => Inf);
    var idx := seq(n, _ => MaxInt64);
    ghost var ps: seq<seq<Ext>> := [];
    for i := 0 to |offs|
      invariant AllProfiled(a, b, m, offs[..i], num)
      invariant ps == Profiles(a, b, m, offs[..i], num)
      invariant |mp| == n && Folded(ps, offs[..i], mp, idx)
    {
      var profile := DistanceProfile(a, b, m, offs[i], num);
      if profile.Failure? {
        assert FirstFailure(a, b, m, offs, num, i);
        return Failure(profile.error);
      }
      var p := profile.value;
      if |p| != |mp| {
        // distanceProfile's output always has n - m + 1 entries
        assert false;
        return Failure(ProfileLengthMismatch);
      }
      mp, idx := FoldIn(ps, offs[..i], mp, idx, p, offs[i]);
      ProfilesSnoc(a, b, m, offs, i, num);
      AllProfiledSnoc(a, b, m, offs, i, num);
      ps := ps + [p];
    }
    assert offs[..|offs|] == offs;
    return Success(MatrixProfile(mp, idx));
  }

  /** Both series are usable: `a` is non-empty and `b` is nil or non-empty. */
  predicate Present(a: seq<real>, b: Option<seq<real>>)
  {
    |a| > 0 && b != Some([])
  }

  /** Stmp: checks the series, allocates n - m + 1 entries (a negative
      length panics) and folds the queries at offsets 0, 1, ..., n - m in
      order. Each profile entry is the minimum over all queries, and its
      index the largest offset attaining it. */
  method Stmp(a: seq<real>, b: Option<seq<real>>, m: int, num: Numerics)
    returns (r: Result<MatrixProfile>)
    requires num.Valid()
    ensures |a| == 0 ==> r == Failure(EmptyFirst)
    ensures |a| > 0 && b == Some([]) ==> r == Failure(EmptySecond)
    ensures Present(a, b) && Count(a, b, m) < 0 ==> r == Failure(Panic)
    ensures r.Success? <==>
              Present(a, b) && Count(a, b, m) >= 0 &&
              AllProfiled(a, b, m, Range(Count(a, b, m)), num)
    ensures Present(a, b) && Count(a, b, m) >= 0 && r.Failure? ==>
              exists i :: FirstFailure(a, b, m, Range(Count(a, b, m)), num, i) &&
                          r.error == DistanceProfile(a, b, m, i, num).error
    ensures r.Success? ==>
              |r.value.mp| == Count(a, b, m) && |r.value.idx| == Count(a, b, m) &&
              forall j :: 0 <= j < Count(a, b, m) ==>
                IsBest(Column(Profiles(a, b, m, Range(Count(a, b, m)), num), j),
                       Range(Count(a, b, m)), r.value.mp[j], r.value.idx[j])
  {
    if |a| == 0 {
      return Failure(EmptyFirst);
    }
    if b == Some([]) {
      return Failure(EmptySecond);
    }
    var n := Count(a, b, m);
    if n < 0 {
      return Failure(Panic);
    }
    r := Sweep(a, b, m, Range(n), num);
    if r.Success? {
      FoldedIsBest(Profiles(a, b, m, Range(n), num), Range(n), r.value.mp, r.value.idx);
    }
  }

  /** The number of permuted offsets Stamp visits: int(float64(n - m + 1) * sample). */
  function Samples(n: int, sample: real): (r: int)
    ensures 0.0 <= n as real * sample ==> 0 <= r && r as real <= n as real * sample < r as real + 1.0
    ensures n as real * sample < 0.0 ==> r <= 0
    ensures sample == 1.0 ==> r == n
    ensures 0 <= n && 0.0 <= sample <= 1.0 ==> 0 <= r <= n
  {
    var x := n as real * sample;
    FractionBounds(n as real, sample, x);
    TruncToInt(x)
  }

  /** The whole of a count is the count, and a fraction of at most one of a
      non-negative count lies between zero and the count. */
  lemma FractionBounds(n: real, sample: real, x: real)
    requires x == n * sample
    ensures sample == 1.0 ==> x == n
    ensures 0.0 <= n && 0.0 <= sample <= 1.0 ==> 0.0 <= x <= n
  {
    if 0.0 <= n && 0.0 <= sample <= 1.0 {
      assert n * sample <= n * 1.0;
    }
  }

  /** The offsets Stamp visits before it stops or runs off the end of perm. */
  function Visited(perm: seq<int>, k: int): (r: seq<int>)
    ensures |r| <= |perm| && (0 <= k <= |perm| ==> |r| == k)
    ensures r == perm[..|r|]
    ensures k <= 0 ==> r == []
    ensures k >= |perm| ==> r == perm
  {
    if k <= 0 then [] else if k <= |perm| then perm[..k] else perm
  }

  /** Stamp: like Stmp, but visits the offsets perm[0], perm[1], ... (what
      rand.Perm returned) and stops after Samples(n - m + 1, sample) of them.
      Reading perm beyond its end is Go's index-out-of-range panic. */
  method Stamp(a: seq<real>, b: Option<seq<real>>, m: int, sample: real, perm: seq<int>, num: Numerics)
    returns (r: Result<MatrixProfile>)
    requires num.Valid()
    ensures sample == 0.0 ==> r == Failure(ZeroSample)
    ensures sample != 0.0 && |a| == 0 ==> r == Failure(EmptyFirst)
    ensures sample != 0.0 && |a| > 0 && b == Some([]) ==> r == Failure(EmptySecond)
    ensures sample != 0.0 && Present(a, b) && Count(a, b, m) < 0 ==> r == Failure(Panic)
    ensures r.Success? <==>
              sample != 0.0 && Present(a, b) && Count(a, b, m) >= 0 &&
              Samples(Count(a, b, m), sample) <= |perm| &&
              AllProfiled(a, b, m, Visited(perm, Samples(Count(a, b, m), sample)), num)
    ensures sample != 0.0 && Present(a, b) && Count(a, b, m) >= 0 &&
            !AllProfiled(a, b, m, Visited(perm, Samples(Count(a, b, m), sample)), num) ==>
              r.Failure? &&
              exists t :: FirstFailure(a, b, m, Visited(perm, Samples(Count(a, b, m), sample)), num, t) &&
                          r.error == DistanceProfile(a, b, m, perm[t], num).error
    ensures sample != 0.0 && Present(a, b) && Count(a, b, m) >= 0 &&
            AllProfiled(a, b, m, Visited(perm, Samples(Count(a, b, m), sample)), num) &&
            Samples(Count(a, b, m), sample) > |perm| ==>
              r == Failure(Panic)
    ensures r.Success? ==>
              var visited := Visited(perm, Samples(Count(a, b, m), sample));
              |r.value.mp| == Count(a, b, m) && |r.value.idx| == Count(a, b, m) &&
              forall j :: 0 <= j < Count(a, b, m) ==>
                IsBest(Column(Profiles(a, b, m, visited, num), j), visited, r.value.mp[j], r.value.idx[j])
  {
    if sample == 0.0 {
      return Failure(ZeroSample);
    }
    if |a| == 0 {
      return Failure(EmptyFirst);
    }
    if b == Some([]) {
      return Failure(EmptySecond);
    }
    var n := Count(a, b, m);
    if n < 0 {
      return Failure(Panic);
    }
    var k := Samples(n, sample);
    var visited := Visited(perm, k);
    r := Sweep(a, b, m, visited, num);
    if r.Success? {
      if k > |perm| {
        return Failure(Panic);
      }
      FoldedIsBest(Profiles(a, b, m, visited, num), visited, r.value.mp, r.value.idx);
    }
  }

  /** Stamp with sample 1.0 over a permutation visits every offset, so its
      profile equals Stmp's; only the index may differ, on ties. `full` and
      `sampled` are the results of Stmp and Stamp: on success each is pinned
      down by the minimum it takes over its visit order (see IsBestUnique). */
  method FullSampleAgrees(a: seq<real>, b: Option<seq<real>>, m: int, perm: seq<int>, num: Numerics)
    returns (full: Result<MatrixProfile>, sampled: Result<MatrixProfile>)
    requires num.Valid() && Count(a, b, m) >= 0 && IsPermutation(perm, Count(a, b, m))
    ensures full.Success? <==> Present(a, b) && AllProfiled(a, b, m, Range(Count(a, b, m)), num)
    ensures full.Success? ==>
              |full.value.mp| == Count(a, b, m) && |full.value.idx| == Count(a, b, m) &&
              forall j :: 0 <= j < Count(a, b, m) ==>
                IsBest(Column(Profiles(a, b, m, Range(Count(a, b, m)), num), j),
                       Range(Count(a, b, m)), full.value.mp[j], full.value.idx[j])
    ensures sampled.Success? <==> Present(a, b) && AllProfiled(a, b, m, perm, num)
    ensures sampled.Success? ==>
              |sampled.value.mp| == Count(a, b, m) && |sampled.value.idx| == Count(a, b, m) &&
              forall j :: 0 <= j < Count(a, b, m) ==>
                IsBest(Column(Profiles(a, b, m, perm, num), j),
                       perm, sampled.value.mp[j], sampled.value.idx[j])
    ensures full.Success? <==> sampled.Success?
    ensures full.Success? ==> full.value.mp == sampled.value.mp
  {
    full := Stmp(a, b, m, num);
    sampled := Stamp(a, b, m, 1.0, perm, num);
    var n := Count(a, b, m);
    assert Samples(n, 1.0) == n;
    assert Visited(perm, n) == perm;
    PermutedProfiled(a, b, m, perm, num);
    if full.Success? {
      PermutedProfiles(a, b, m, perm, num);
      ReorderedSameProfile(Profiles(a, b, m, Range(n), num), Range(n), full.value.mp, full.value.idx,
                           Profiles(a, b, m, perm, num), perm, sampled.value.mp, sampled.value.idx, perm);
    }
  }

  // ------------------------------------------------------------------ lemmas

  /** Visiting one more offset appends its distance profile. */
  lemma {:induction false} ProfilesSnoc(a: seq<real>, b: Option<seq<real>>, m: int, offs: seq<int>, i: int, num: Numerics)
    requires num.Valid() && 0 <= i < |offs|
    ensures offs[..i + 1] == offs[..i] + [offs[i]]
    ensures Profiles(a, b, m, offs[..i + 1], num) ==
            Profiles(a, b, m, offs[..i], num) + [ProfileOf(a, b, m, offs[i], num)]
  {
    TakeOneMore(offs, i);
  }

  /** All visited queries succeed exactly when the earlier ones and the new
      one do. */
  lemma {:induction false} AllProfiledSnoc(a: seq<real>, b: Option<seq<real>>, m: int, offs: seq<int>, i: int, num: Numerics)
    requires num.Valid() && 0 <= i < |offs|
    ensures AllProfiled(a, b, m, offs[..i + 1], num) <==>
            AllProfiled(a, b, m, offs[..i], num) && DistanceProfile(a, b, m, offs[i], num).Success?
  {
    var front, ext := offs[..i], offs[..i + 1];
    if AllProfiled(a, b, m, front, num) && DistanceProfile(a, b, m, offs[i], num).Success? {
      forall t | 0 <= t <= i
        ensures DistanceProfile(a, b, m, ext[t], num).Success?
      {
        if t < i {
          assert ext[t] == front[t];
        }
      }
    }
    if AllProfiled(a, b, m, ext, num) {
      forall t | 0 <= t < i
        ensures DistanceProfile(a, b, m, front[t], num).Success?
      {
        assert ext[t] == front[t];
      }
      assert ext[i] == offs[i];
    }
  }

  lemma {:induction false} TakeOneMore(s: seq<int>, i: int)
    requires 0 <= i < |s|
    ensures s[..i + 1] == s[..i] + [s[i]]
  {
    assert s[..i + 1] == s[..i] + [s[i]];
  }

  /** The query window of `a` at offset i exists and is constant. */
  predicate ConstantWindow(a: seq<real>, i: int, m: int)
  {
    0 <= i && 0 <= m && i + m <= |a| && IsConstant(a[i..i + m])
  }

  /** For n = Count(a, b, m) >= 1, every query succeeds exactly when the
      window fits the target twice over, the last query still lies inside
      `a`, and no query window is constant. In an AB-join the queries come
      from `a` but their number from `b`, so `b` may not be longer than `a`. */
  lemma {:induction false} AllProfiledIff(a: seq<real>, b: Option<seq<real>>, m: int, num: Numerics)
    requires num.Valid() && Count(a, b, m) >= 1
    ensures AllProfiled(a, b, m, Range(Count(a, b, m)), num) <==>
              2 <= m && 2 * m < |Target(a, b)| && |Target(a, b)| <= |a| &&
              forall i :: 0 <= i < Count(a, b, m) ==> !ConstantWindow(a, i, m)
  {
    if AllProfiled(a, b, m, Range(Count(a, b, m)), num) {
      ProfiledHasShape(a, b, m, num);
    }
    if 2 <= m && 2 * m < |Target(a, b)| && |Target(a, b)| <= |a| &&
       forall i :: 0 <= i < Count(a, b, m) ==> !ConstantWindow(a, i, m) {
      ShapeIsProfiled(a, b, m, num);
    }
  }

  lemma {:induction false} ProfiledHasShape(a: seq<real>, b: Option<seq<real>>, m: int, num: Numerics)
    requires num.Valid() && Count(a, b, m) >= 1
    requires AllProfiled(a, b, m, Range(Count(a, b, m)), num)
    ensures 2 <= m && 2 * m < |Target(a, b)| && |Target(a, b)| <= |a|
    ensures forall i :: 0 <= i < Count(a, b, m) ==> !ConstantWindow(a, i, m)
  {
    var n := Count(a, b, m);
    var offs := Range(n);
    assert DistanceProfile(a, b, m, offs[n - 1], num).Success?;
    forall i | 0 <= i < n
      ensures !ConstantWindow(a, i, m)
    {
      assert DistanceProfile(a, b, m, offs[i], num).Success?;
    }
  }

  lemma {:induction false} ShapeIsProfiled(a: seq<real>, b: Option<seq<real>>, m: int, num: Numerics)
    requires num.Valid() && Count(a, b, m) >= 1
    requires 2 <= m && 2 * m < |Target(a, b)| && |Target(a, b)| <= |a|
    requires forall i :: 0 <= i < Count(a, b, m) ==> !ConstantWindow(a, i, m)
    ensures AllProfiled(a, b, m, Range(Count(a, b, m)), num)
  {
    var n := Count(a, b, m);
    var offs := Range(n);
    forall t | 0 <= t < n
      ensures DistanceProfile(a, b, m, offs[t], num).Success?
    {
      assert !ConstantWindow(a, t, m);
    }
  }

  /** Over a permutation of the offsets, every query succeeds exactly when
      every query of Stmp's order does. */
  lemma {:induction false} PermutedProfiled(a: seq<real>, b: Option<seq<real>>, m: int, perm: seq<int>, num: Numerics)
    requires num.Valid() && Count(a, b, m) >= 0 && IsPermutation(perm, Count(a, b, m))
    ensures AllProfiled(a, b, m, Range(Count(a, b, m)), num) <==> AllProfiled(a, b, m, perm, num)
  {
    var n := Count(a, b, m);
    var offs := Range(n);
    if AllProfiled(a, b, m, offs, num) {
      forall t | 0 <= t < n
        ensures DistanceProfile(a, b, m, perm[t], num).Success?
      {
        assert offs[perm[t]] == perm[t];
      }
    }
    if AllProfiled(a, b, m, perm, num) {
      forall i | 0 <= i < n
        ensures DistanceProfile(a, b, m, offs[i], num).Success?
      {
        assert i in perm;
      }
    }
  }

  /** The distance profiles visited in the order perm are Stmp's profiles
      reordered by perm. */
  lemma {:induction false} PermutedProfiles(a: seq<real>, b: Option<seq<real>>, m: int, perm: seq<int>, num: Numerics)
    requires num.Valid() && Count(a, b, m) >= 0 && IsPermutation(perm, Count(a, b, m))
    ensures Reordered(Profiles(a, b, m, Range(Count(a, b, m)), num), Profiles(a, b, m, perm, num), perm)
  {
    var n := Count(a, b, m);
    var ps, qs := Profiles(a, b, m, Range(n), num), Profiles(a, b, m, perm, num);
    forall t | 0 <= t < n
      ensures qs[t] == ps[perm[t]]
    {
      assert Range(n)[perm[t]] == perm[t];
    }
  }
}
