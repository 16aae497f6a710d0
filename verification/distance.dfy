/** `Mass` and `distanceProfile` of matrixprofile/matrixprofile.go: the
    distance from one query to every window of a target series, with the
    exclusion zone that hides trivial matches in a self-join. */
module Distance {
  import opened Results
  import opened ExtReal
  import opened Series
  import opened Primitives
  import opened Stats
  import opened SlidingDot

  /** Mass: Mueen's similarity search. The query is z-normalised, the target's
      rolling standard deviations and the sliding dot products are computed,
      and each pair is turned into a distance. The shortness check comes
      before the length check (the reverse of `slidingDotProduct`). */
  function Mass(q: seq<real>, t: seq<real>, num: Numerics): (r: Result<seq<Ext>>)
    requires num.Valid()
    ensures |q| < 2 ==> r == Failure(QueryTooShort)
    ensures 2 <= |q| && 2 * |q| >= |t| ==> r == Failure(QueryTooLong)
    ensures 2 <= |q| && 2 * |q| < |t| && IsConstant(q) ==> r == Failure(ZeroStd)
    ensures r.Success? <==> 2 <= |q| && 2 * |q| < |t| && !IsConstant(q)
    ensures r.Success? ==> |r.value| == |t| - |q| + 1
  {
    var m := |q|;
    var n := |t|;
    if m < 2 then Failure(QueryTooShort)
    else if m * 2 >= n then Failure(QueryTooLong)
    else
      // the error branches marked unreachable below are the ones the earlier
      // checks on m and n rule out
      match ZNormalize(q, num)
      case NoData => assert false; Failure(EmptyData)
      case Constant(_) => Failure(ZeroStd)
      case Scaled(qnorm) =>
        match MovStd(t, m, num)
        case Failure(e) => assert false; Failure(e)
        case Success(std) =>
          match SlidingDotProduct(qnorm, t, num)
          case Failure(e) => assert false; Failure(e)
          case Success(dot) =>
            if |std| != |dot| then assert false; Failure(StdDotMismatch)
            else Success(Distances(num, m, dot, std))
  }

  /** Line 157 of Mass applied to every offset. */
  function Distances(num: Numerics, m: int, dot: seq<real>, std: seq<real>): (r: seq<Ext>)
    requires |dot| == |std|
    ensures |r| == |dot|
  {
    seq(|dot|, i requires 0 <= i < |dot| => num.dist(m, dot[i], std[i]))
  }

  /** The distance at offset i depends only on the dot product and the
      window deviation at that same offset. */
  lemma DistancesAt(num: Numerics, m: int, dot: seq<real>, std: seq<real>, i: int)
    requires |dot| == |std| && 0 <= i < |dot|
    ensures Distances(num, m, dot, std)[i] == num.dist(m, dot[i], std[i])
  {
  }

  /** The series the query is compared against: `b`, or `a` itself when `b`
      is nil (a self-join). */
  function Target(a: seq<real>, b: Option<seq<real>>): (r: seq<real>)
    ensures b.None? ==> r == a
    ensures b.Some? ==> r == b.value
  {
    if b.None? then a else b.value
  }

  /** Offset i lies in the exclusion zone [idx - m/2, idx + m/2) of the query
      at idx. */
  predicate InZone(idx: int, m: int, i: int)
  {
    idx - m / 2 <= i < idx + m / 2
  }

  /** The self-join step of distanceProfile: every entry from
      max(0, idx - m/2) up to, but excluding, min(len, idx + m/2) becomes +Inf. */
  function Exclude(profile: seq<Ext>, idx: int, m: int): (r: seq<Ext>)
    requires 0 <= m
    ensures |r| == |profile|
    ensures forall i :: 0 <= i < |profile| ==>
              r[i] == if InZone(idx, m, i) then Inf else profile[i]
  {
    var start := if idx - m / 2 > 0 then idx - m / 2 else 0;
    var end := if idx + m / 2 < |profile| then idx + m / 2 else |profile|;
    seq(|profile|, i requires 0 <= i < |profile| => if start <= i < end then Inf else profile[i])
  }

  /** distanceProfile: the query is the window of `a` at idx; a nil `b` means
      a self-join, which adds the exclusion zone. Go's slice expression
      a[idx:idx+m] panics on a negative idx (low < 0) or a negative m
      (low > high). */
  function DistanceProfile(a: seq<real>, b: Option<seq<real>>, m: int, idx: int, num: Numerics)
    : (r: Result<seq<Ext>>)
    requires num.Valid()
    ensures idx + m > |a| ==> r == Failure(IndexOutOfRange)
    ensures idx + m <= |a| && (idx < 0 || m < 0) ==> r == Failure(Panic)
    ensures 0 <= idx && 0 <= m && idx + m <= |a| ==>
              r.Failure? == Mass(a[idx..idx + m], Target(a, b), num).Failure? &&
              (r.Failure? ==> r.error == Mass(a[idx..idx + m], Target(a, b), num).error)
    ensures r.Success? <==>
              0 <= idx && idx + m <= |a| && 2 <= m && 2 * m < |Target(a, b)| &&
              !IsConstant(a[idx..idx + m])
    ensures r.Success? ==> |r.value| == |Target(a, b)| - m + 1
    ensures r.Success? ==>
              forall i :: 0 <= i < |r.value| ==>
                r.value[i] == if b.None? && InZone(idx, m, i) then Inf
                              else Mass(a[idx..idx + m], Target(a, b), num).value[i]
  {
    if idx + m > |a| then Failure(IndexOutOfRange)
    else if idx < 0 || m < 0 then Failure(Panic)
    else
      var profile :- Mass(a[idx..idx + m], Target(a, b), num);
      if b.None? then Success(Exclude(profile, idx, m)) else Success(profile)
  }

  // ------------------------------------------------------------------ lemmas

  /** The zone of a query of length at least 2 always covers the query's own
      offset: a window never matches itself in a self-join. */
  lemma {:induction false} SelfJoinHidesQuery(a: seq<real>, m: int, idx: int, num: Numerics)
    requires num.Valid() && 0 <= idx && idx + m <= |a| && 2 <= m && 2 * m < |a|
    requires !IsConstant(a[idx..idx + m])
    ensures DistanceProfile(a, None, m, idx, num).Success?
    ensures idx < |DistanceProfile(a, None, m, idx, num).value|
    ensures DistanceProfile(a, None, m, idx, num).value[idx] == Inf
  {
    assert InZone(idx, m, idx);
  }

  /** Entry i of Mass is the distance computed from the dot product of the
      normalised query with window i and that window's standard deviation. */
  lemma {:induction false} MassComparesWindows(q: seq<real>, t: seq<real>, num: Numerics, i: int)
    requires num.Valid() && num.ConvolutionLaw()
    requires 2 <= |q| && 2 * |q| < |t| && !IsConstant(q) && 0 <= i <= |t| - |q|
    ensures Mass(q, t, num).Success? && ZNormalize(q, num).Scaled?
    ensures Mass(q, t, num).value[i] ==
            num.dist(|q|, Dot(ZNormalize(q, num).values, t[i..i + |q|]), StdDev(t[i..i + |q|], num))
  {
    var m := |q|;
    var qn := ZNormalize(q, num).values;
    MovStdAt(t, m, num, i);
    SlidingDotProductAt(qn, t, num, i);
    var std := MovStd(t, m, num).value;
    var dot := SlidingDotProduct(qn, t, num).value;
    assert Mass(q, t, num) == Success(Distances(num, m, dot, std));
    DistancesAt(num, m, dot, std, i);
  }
}
