/** The running-minimum fold shared by `Stmp` and `Stamp` in
    matrixprofile/matrixprofile.go. The profile starts at +Inf, the index at
    the MaxInt64 sentinel, and each distance profile is folded in with a
    non-strict `<=`, so that on a tie the later profile wins. Distance profiles
    are abstract here: `ps[t]` is the profile of the query at offset `offs[t]`. */
module Fold {
  import opened Results
  import opened ExtReal

  /** The update of one column at lines 235-238 (and 288-291): the new value
      replaces the current one when `v <= best`. */
  function Pick(best: Ext, at: int, v: Ext, o: int): (r: (Ext, int))
    ensures Le(v, best) ==> r == (v, o)
    ensures !Le(v, best) ==> r == (best, at)
    ensures v.NaN? || best.NaN? ==> r == (best, at)
  {
    if Le(v, best) then (v, o) else (best, at)
  }

  /** The offsets 0, 1, ..., n-1: Stmp's visit order. */
  function Range(n: nat): (r: seq<int>)
    ensures |r| == n && forall i :: 0 <= i < n ==> r[i] == i
  {
    seq(n, i => i)
  }

  /** Column j of a sequence of profiles: the values seen at output index j. */
  function Column(ps: seq<seq<Ext>>, j: int): (r: seq<Ext>)
    requires 0 <= j && forall t :: 0 <= t < |ps| ==> j < |ps[t]|
    ensures |r| == |ps|
  {
    seq(|ps|, t requires 0 <= t < |ps| => ps[t][j])
  }

  /** One column folded in visit order from the initial (+Inf, MaxInt64). */
  function ColumnFold(vals: seq<Ext>, offs: seq<int>): (r: (Ext, int))
    requires |vals| == |offs|
    ensures |vals| == 0 ==> r == (Inf, MaxInt64)
    ensures r == (Inf, MaxInt64) || exists t :: 0 <= t < |vals| && r == (vals[t], offs[t])
    decreases |vals|
  {
    if |vals| == 0 then (Inf, MaxInt64)
    else
      var prev := ColumnFold(vals[..|vals| - 1], offs[..|offs| - 1]);
      Pick(prev.0, prev.1, vals[|vals| - 1], offs[|offs| - 1])
  }

  // ----------------------------------------------- the independent meaning

  /** No value of the column can win a `<=` comparison: all are NaN. */
  predicate AllNaN(vals: seq<Ext>)
  {
    forall t :: 0 <= t < |vals| ==> vals[t].NaN?
  }

  /** best is `<=` every comparable value of the column. */
  predicate IsMin(vals: seq<Ext>, best: Ext)
  {
    forall t :: 0 <= t < |vals| && !vals[t].NaN? ==> Le(best, vals[t])
  }

  /** Position t holds best, comes from offset at, and no later position
      holds best again. */
  predicate LastAt(vals: seq<Ext>, offs: seq<int>, best: Ext, at: int, t: int)
    requires |vals| == |offs|
  {
    0 <= t < |vals| && vals[t] == best && offs[t] == at &&
    forall u :: t < u < |vals| ==> vals[u] != best
  }

  /** What the fold is meant to compute for one column: +Inf and the sentinel
      when nothing is comparable, otherwise the minimum of the comparable
      values and the offset of its last occurrence in visit order. */
  predicate IsBest(vals: seq<Ext>, offs: seq<int>, best: Ext, at: int)
    requires |vals| == |offs|
  {
    if AllNaN(vals) then best == Inf && at == MaxInt64
    else IsMin(vals, best) && exists t :: 0 <= t < |vals| && LastAt(vals, offs, best, at, t)
  }

  /** A matrix profile and index agree, column by column, with the fold of
      the profiles ps visited at offsets offs. */
  predicate Folded(ps: seq<seq<Ext>>, offs: seq<int>, mp: seq<Ext>, idx: seq<int>)
  {
    |ps| == |offs| && |idx| == |mp| &&
    (forall t :: 0 <= t < |ps| ==> |ps[t]| == |mp|) &&
    forall j :: 0 <= j < |mp| ==> (mp[j], idx[j]) == ColumnFold(Column(ps, j), offs)
  }

  // ------------------------------------------------------------------ lemmas

  /** The profile never increases: a fold step returns a value `<=` the
      current one, unless the current one is NaN (which the fold never holds). */
  lemma PickNeverIncreases(best: Ext, at: int, v: Ext, o: int)
    requires !best.NaN?
    ensures Le(Pick(best, at, v, o).0, best)
    ensures !Pick(best, at, v, o).0.NaN?
  {
    if !Le(v, best) {
      LeReflexive(best);
    }
  }

  /** The fold computes the minimum and the last offset that attains it. */
  lemma {:induction false} ColumnFoldIsBest(vals: seq<Ext>, offs: seq<int>)
    requires |vals| == |offs|
    ensures IsBest(vals, offs, ColumnFold(vals, offs).0, ColumnFold(vals, offs).1)
    decreases |vals|
  {
    if |vals| > 0 {
      var n := |vals| - 1;
      var front, offsFront := vals[..n], offs[..n];
      var prev := ColumnFold(front, offsFront);
      ColumnFoldIsBest(front, offsFront);
      var v, o := vals[n], offs[n];
      assert forall t :: 0 <= t < n ==> vals[t] == front[t];
      if Le(v, prev.0) {
        LeNeverNaN(v, prev.0);
        LeReflexive(v);
        assert !AllNaN(vals) by { assert !vals[n].NaN?; }
        forall t | 0 <= t < |vals| && !vals[t].NaN?
          ensures Le(v, vals[t])
        {
          if t < n {
            assert !AllNaN(front) by { assert !front[t].NaN?; }
            LeTransitive(v, prev.0, vals[t]);
          }
        }
        assert LastAt(vals, offs, v, o, n);
      } else if AllNaN(front) {
        assert vals[n].NaN?;
        assert AllNaN(vals);
      } else {
        var t :| 0 <= t < |front| && LastAt(front, offsFront, prev.0, prev.1, t);
        assert Le(prev.0, prev.0) by { assert !front[t].NaN?; }
        LeNeverNaN(prev.0, prev.0);
        if !v.NaN? {
          LeTotal(v, prev.0);
        }
        assert v != prev.0;
        assert LastAt(vals, offs, prev.0, prev.1, t);
        assert !AllNaN(vals) by { assert !vals[t].NaN?; }
      }
    }
  }

  /** IsBest pins the pair down: two pairs that both meet it are equal. */
  lemma {:induction false} IsBestUnique(vals: seq<Ext>, offs: seq<int>, b1: Ext, a1: int, b2: Ext, a2: int)
    requires |vals| == |offs|
    requires IsBest(vals, offs, b1, a1) && IsBest(vals, offs, b2, a2)
    ensures b1 == b2 && a1 == a2
  {
    if !AllNaN(vals) {
      var t1 :| 0 <= t1 < |vals| && LastAt(vals, offs, b1, a1, t1);
      var t2 :| 0 <= t2 < |vals| && LastAt(vals, offs, b2, a2, t2);
      assert Le(b1, vals[t2]) && Le(b2, vals[t1]);
      LeAntisymmetric(b1, b2);
      assert vals[t1] == vals[t2];
    }
  }

  /** The minimum depends only on which values occur, not on their order or
      offsets: visiting the same profiles in another order (Stamp's
      permutation) yields the same profile value, although the index may
      differ on ties. */
  lemma {:induction false} BestValueOrderFree(v1: seq<Ext>, o1: seq<int>, b1: Ext, a1: int,
                                              v2: seq<Ext>, o2: seq<int>, b2: Ext, a2: int)
    requires |v1| == |o1| && |v2| == |o2|
    requires forall x :: x in v1 <==> x in v2
    requires IsBest(v1, o1, b1, a1) && IsBest(v2, o2, b2, a2)
    ensures b1 == b2
  {
    forall t | 0 <= t < |v1| && !v1[t].NaN?
      ensures !AllNaN(v2)
    {
      assert v1[t] in v2;
    }
    forall t | 0 <= t < |v2| && !v2[t].NaN?
      ensures !AllNaN(v1)
    {
      assert v2[t] in v1;
    }
    if !AllNaN(v1) {
      var t1 :| 0 <= t1 < |v1| && LastAt(v1, o1, b1, a1, t1);
      var t2 :| 0 <= t2 < |v2| && LastAt(v2, o2, b2, a2, t2);
      assert v1[t1] in v2;
      assert v2[t2] in v1;
      var u2 :| 0 <= u2 < |v2| && v2[u2] == b1;
      var u1 :| 0 <= u1 < |v1| && v1[u1] == b2;
      assert Le(b1, v1[u1]) && Le(b2, v2[u2]);
      LeAntisymmetric(b1, b2);
    }
  }

  /** With offsets 0, 1, 2, ... (Stmp's visit order) the index is the largest
      offset attaining the minimum. */
  lemma {:induction false} LargestOffsetWins(vals: seq<Ext>, best: Ext, at: int)
    requires IsBest(vals, Range(|vals|), best, at) && !AllNaN(vals)
    ensures 0 <= at < |vals| && vals[at] == best
    ensures forall u :: at < u < |vals| ==> vals[u] != best
    ensures IsMin(vals, best)
  {
    var t :| 0 <= t < |vals| && LastAt(vals, Range(|vals|), best, at, t);
    assert t == at;
  }

  /** Folding one more profile extends each column by that profile's entry. */
  lemma {:induction false} FoldStep(ps: seq<seq<Ext>>, offs: seq<int>, mp: seq<Ext>, idx: seq<int>,
                                    p: seq<Ext>, o: int, mp': seq<Ext>, idx': seq<int>)
    requires Folded(ps, offs, mp, idx) && |p| == |mp|
    requires |mp'| == |mp| && |idx'| == |mp|
    requires forall j :: 0 <= j < |mp| ==> (mp'[j], idx'[j]) == Pick(mp[j], idx[j], p[j], o)
    ensures Folded(ps + [p], offs + [o], mp', idx')
  {
    var ps', offs' := ps + [p], offs + [o];
    assert ps'[..|ps|] == ps && offs'[..|offs|] == offs;
    forall j | 0 <= j < |mp'|
      ensures (mp'[j], idx'[j]) == ColumnFold(Column(ps', j), offs')
    {
      assert Column(ps', j)[..|ps|] == Column(ps, j);
    }
  }

  /** A folded profile meets IsBest in every column. */
  lemma {:induction false} FoldedIsBest(ps: seq<seq<Ext>>, offs: seq<int>, mp: seq<Ext>, idx: seq<int>)
    requires Folded(ps, offs, mp, idx)
    ensures forall j :: 0 <= j < |mp| ==> IsBest(Column(ps, j), offs, mp[j], idx[j])
  {
    forall j | 0 <= j < |mp|
      ensures IsBest(Column(ps, j), offs, mp[j], idx[j])
    {
      ColumnFoldIsBest(Column(ps, j), offs);
    }
  }

  /** The running profile never holds NaN: +Inf at the start, and a NaN never
      wins a comparison. */
  lemma {:induction false} ColumnFoldNeverNaN(vals: seq<Ext>, offs: seq<int>)
    requires |vals| == |offs|
    ensures !ColumnFold(vals, offs).0.NaN?
    decreases |vals|
  {
    if |vals| > 0 {
      var n := |vals| - 1;
      ColumnFoldNeverNaN(vals[..n], offs[..n]);
      var prev := ColumnFold(vals[..n], offs[..n]);
      PickNeverIncreases(prev.0, prev.1, vals[n], offs[n]);
    }
  }

  lemma {:induction false} FoldedNeverNaN(ps: seq<seq<Ext>>, offs: seq<int>, mp: seq<Ext>, idx: seq<int>)
    requires Folded(ps, offs, mp, idx)
    ensures forall j :: 0 <= j < |mp| ==> !mp[j].NaN?
  {
    forall j | 0 <= j < |mp|
      ensures !mp[j].NaN?
    {
      ColumnFoldNeverNaN(Column(ps, j), offs);
    }
  }

  /** What rand.Perm(n) returns: every offset of 0..n-1 exactly once. */
  predicate IsPermutation(perm: seq<int>, n: nat)
  {
    |perm| == n &&
    (forall t :: 0 <= t < n ==> 0 <= perm[t] < n) &&
    (forall s, t :: 0 <= s < t < n ==> perm[s] != perm[t]) &&
    (forall i :: 0 <= i < n ==> i in perm)
  }

  /** qs holds the profiles of ps in the order perm. */
  predicate Reordered(ps: seq<seq<Ext>>, qs: seq<seq<Ext>>, perm: seq<int>)
  {
    IsPermutation(perm, |ps|) && |qs| == |ps| &&
    forall t :: 0 <= t < |qs| ==> qs[t] == ps[perm[t]]
  }

  /** Reordering the profiles keeps the values of every column. */
  lemma {:induction false} ReorderedColumn(ps: seq<seq<Ext>>, qs: seq<seq<Ext>>, perm: seq<int>, j: int)
    requires Reordered(ps, qs, perm)
    requires 0 <= j && forall t :: 0 <= t < |ps| ==> j < |ps[t]|
    ensures forall x :: x in Column(ps, j) <==> x in Column(qs, j)
  {
    var c1, c2 := Column(ps, j), Column(qs, j);
    forall i | 0 <= i < |ps|
      ensures c1[i] in c2
    {
      assert i in perm;
      var t :| 0 <= t < |perm| && perm[t] == i;
      assert c2[t] == c1[i];
    }
    forall t | 0 <= t < |qs|
      ensures c2[t] in c1
    {
      assert c1[perm[t]] == c2[t];
    }
  }

  /** Folding the same profiles in a permuted order gives the same profile
      values; only the indices may differ, on ties. */
  lemma {:induction false} ReorderedSameProfile(ps: seq<seq<Ext>>, o1: seq<int>, mp1: seq<Ext>, idx1: seq<int>,
                                                qs: seq<seq<Ext>>, o2: seq<int>, mp2: seq<Ext>, idx2: seq<int>,
                                                perm: seq<int>)
    requires Reordered(ps, qs, perm) && |o1| == |ps| && |o2| == |qs|
    requires |mp1| == |mp2| && |idx1| == |mp1| && |idx2| == |mp2|
    requires forall t :: 0 <= t < |ps| ==> |ps[t]| == |mp1|
    requires forall j :: 0 <= j < |mp1| ==> IsBest(Column(ps, j), o1, mp1[j], idx1[j])
    requires forall j :: 0 <= j < |mp2| ==> IsBest(Column(qs, j), o2, mp2[j], idx2[j])
    ensures mp1 == mp2
  {
    forall j | 0 <= j < |mp1|
      ensures mp1[j] == mp2[j]
    {
      ReorderedColumn(ps, qs, perm, j);
      BestValueOrderFree(Column(ps, j), o1, mp1[j], idx1[j], Column(qs, j), o2, mp2[j], idx2[j]);
    }
  }
}
