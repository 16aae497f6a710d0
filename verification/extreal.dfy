/** Distances as float64 values: finite reals, +Inf (the "no match" value
    and the exclusion-zone value) and NaN (what the distance formula yields
    for 0/0). Only the comparison `<=` is used by the profile builders. */
module ExtReal {

  datatype Ext = Fin(v: real) | Inf | NaN

  /** IEEE-754 `x <= y` restricted to this type: false whenever NaN is involved. */
  predicate Le(x: Ext, y: Ext)
  {
    match (x, y)
    case (Fin(a), Fin(b)) => a <= b
    case (Fin(_), Inf) => true
    case (Inf, Inf) => true
    case _ => false
  }

  /** On non-NaN values `Le` is a total order. */
  lemma LeReflexive(x: Ext)
    requires !x.NaN?
    ensures Le(x, x)
  {
  }

  lemma LeTransitive(x: Ext, y: Ext, z: Ext)
    requires Le(x, y) && Le(y, z)
    ensures Le(x, z)
  {
  }

  lemma LeTotal(x: Ext, y: Ext)
    requires !x.NaN? && !y.NaN?
    ensures Le(x, y) || Le(y, x)
  {
  }

  lemma LeAntisymmetric(x: Ext, y: Ext)
    requires Le(x, y) && Le(y, x)
    ensures x == y
  {
  }

  lemma LeNeverNaN(x: Ext, y: Ext)
    requires Le(x, y)
    ensures !x.NaN? && !y.NaN?
  {
  }
}
