/**
 * Real vectors as sequences: the dot product and the sum that every linear
 * expression of the model (objectives, constraint left-hand sides, loads)
 * is built from.
 */
module Vectors {

  /** Sum of `a[i] * x[i]`, pairing entries up to the shorter length. */
  function Dot(a: seq<real>, x: seq<real>): real
  {
    if |a| == 0 || |x| == 0 then 0.0 else a[0] * x[0] + Dot(a[1..], x[1..])
  }

  /** Sum of the entries of `x`. */
  function Sum(x: seq<real>): real
  {
    if |x| == 0 then 0.0 else x[0] + Sum(x[1..])
  }

  predicate NonNegative(x: seq<real>)
  {
    forall j :: 0 <= j < |x| ==> x[j] >= 0.0
  }

  /** A dot product with all-one coefficients is the plain sum. */
  lemma {:induction false} DotOnes(a: seq<real>, x: seq<real>)
    requires |a| == |x|
    requires forall j :: 0 <= j < |a| ==> a[j] == 1.0
    ensures Dot(a, x) == Sum(x)
  {
    if |a| > 0 {
      DotOnes(a[1..], x[1..]);
    }
  }

  /** Appending one coefficient and one value adds their product. */
  lemma {:induction false} DotAppend(a: seq<real>, x: seq<real>, c: real, v: real)
    requires |a| == |x|
    ensures Dot(a + [c], x + [v]) == Dot(a, x) + c * v
  {
    if |a| == 0 {
      assert (a + [c])[1..] == [];
    } else {
      assert (a + [c])[1..] == a[1..] + [c];
      assert (x + [v])[1..] == x[1..] + [v];
      DotAppend(a[1..], x[1..], c, v);
    }
  }

  lemma {:induction false} SumAppend(x: seq<real>, v: real)
    ensures Sum(x + [v]) == Sum(x) + v
  {
    if |x| == 0 {
      assert (x + [v])[1..] == [];
    } else {
      assert (x + [v])[1..] == x[1..] + [v];
      SumAppend(x[1..], v);
    }
  }

  /** When every product term vanishes, so does the dot product. */
  lemma {:induction false} DotZero(a: seq<real>, x: seq<real>)
    requires forall j :: 0 <= j < |a| && j < |x| ==> a[j] * x[j] == 0.0
    ensures Dot(a, x) == 0.0
  {
    if |a| > 0 && |x| > 0 {
      DotZero(a[1..], x[1..]);
    }
  }

  /** When only entry `k` of `x` is non-zero, the dot product is that one term. */
  lemma {:induction false} DotSingle(a: seq<real>, x: seq<real>, k: nat)
    requires |a| == |x| && k < |a|
    requires forall j :: 0 <= j < |x| && j != k ==> x[j] == 0.0
    ensures Dot(a, x) == a[k] * x[k]
  {
    if k == 0 {
      DotZero(a[1..], x[1..]);
    } else {
      DotSingle(a[1..], x[1..], k - 1);
    }
  }

  lemma {:induction false} DotNonNegative(a: seq<real>, x: seq<real>)
    requires NonNegative(a) && NonNegative(x)
    ensures Dot(a, x) >= 0.0
  {
    if |a| > 0 && |x| > 0 {
      DotNonNegative(a[1..], x[1..]);
    }
  }

  /** With non-negative entries, each term is a lower bound of the dot product. */
  lemma {:induction false} DotAtLeastTerm(a: seq<real>, x: seq<real>, k: nat)
    requires |a| == |x| && k < |a|
    requires NonNegative(a) && NonNegative(x)
    ensures Dot(a, x) >= a[k] * x[k]
  {
    if k == 0 {
      DotNonNegative(a[1..], x[1..]);
    } else {
      assert a[0] * x[0] >= 0.0;
      DotAtLeastTerm(a[1..], x[1..], k - 1);
    }
  }
}
