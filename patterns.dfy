/**
 * Cutting patterns and the pattern pool (the rows of the `pattern` matrix in
 * optimization/cg.py): how much roll width a pattern uses, how many copies of
 * a piece a weighted choice of patterns supplies, and when demand is covered.
 */
module Patterns {
  import opened Vectors
  import opened DataGen

  /** How many copies of each piece one roll cut this way yields. */
  type Pattern = seq<nat>

  function Reals(y: Pattern): (r: seq<real>)
    ensures |r| == |y|
  {
    seq(|y|, i requires 0 <= i < |y| => y[i] as real)
  }

  /** Roll width used: `sum_i widths[i] * y[i]`. */
  function Load(y: Pattern, widths: seq<real>): real
  {
    Dot(widths, Reals(y))
  }

  /** The pricing objective of a pattern: `sum_i duals[i] * y[i]`. */
  function Gain(duals: seq<real>, y: Pattern): real
  {
    Dot(duals, Reals(y))
  }

  /** A feasible pattern over the first `n` pieces: it fits in one roll. */
  predicate Fits(y: Pattern, data: DataCs, n: nat)
  {
    && n <= |data.pieces|
    && |y| == n
    && Load(y, Widths(data, n)) <= data.W
  }

  /** Every row of the pool has one count per piece. */
  predicate Rectangular(pool: seq<Pattern>, n: nat)
  {
    forall p :: 0 <= p < |pool| ==> |pool[p]| == n
  }

  /** Column `i` of the pool matrix: `pattern[p, i]` for every row `p`. */
  function Column(pool: seq<Pattern>, i: nat): (c: seq<real>)
    ensures |c| == |pool|
  {
    seq(|pool|, p requires 0 <= p < |pool| => if i < |pool[p]| then pool[p][i] as real else 0.0)
  }

  /** Copies of piece `i` cut when pattern `p` is used `x[p]` times. */
  function Supply(pool: seq<Pattern>, x: seq<real>, i: nat): real
  {
    Dot(Column(pool, i), x)
  }

  predicate Covers(pool: seq<Pattern>, x: seq<real>, demands: seq<int>)
  {
    forall i :: 0 <= i < |demands| ==> Supply(pool, x, i) >= demands[i] as real
  }

  /** Every entry is 0 or 1: each pattern is used at most once. */
  predicate Binary(x: seq<real>)
  {
    forall p :: 0 <= p < |x| ==> x[p] == 0.0 || x[p] == 1.0
  }

  /** A new pattern that is not used changes no piece's supply. */
  lemma CoversAppendUnused(pool: seq<Pattern>, a: Pattern, x: seq<real>, demands: seq<int>)
    requires |x| == |pool| && |demands| <= |a|
    requires Covers(pool, x, demands)
    ensures Covers(pool + [a], x + [0.0], demands)
  {
    forall i | 0 <= i < |demands|
      ensures Supply(pool + [a], x + [0.0], i) == Supply(pool, x, i)
    {
      assert Column(pool + [a], i) == Column(pool, i) + [a[i] as real];
      DotAppend(Column(pool, i), x, a[i] as real, 0.0);
    }
  }
}
