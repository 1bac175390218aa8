/**
 * The solver-backed steps of optimization/cg.py: the seed pool
 * (`generate_pattern`), the restricted master LP (`master_problem`), the
 * knapsack pricing problem (`pricing_problem`) and the final 0/1 master
 * (`master_problem_integer`). Each step builds its program exactly as the
 * source hands it to the solver, makes one oracle call, and maps the reply to
 * the step's result.
 */
module CuttingStock {
  import opened Wrappers
  import opened Vectors
  import opened DataGen
  import opened Solver
  import opened Patterns

  /** The pricing tolerance: a pattern is returned only when its value exceeds 1 + 1e-8. */
  const Eps: real := 0.00000001

  // ---------------------------------------------------------------- seed pool

  lemma FloorFits(W: real, w: real)
    requires W > 0.0 && w > 0.0
    ensures (W / w).Floor >= 0
    ensures (W / w).Floor as real * w <= W
    ensures W < ((W / w).Floor + 1) as real * w
  {
    var q := W / w;
    var k := q.Floor;
    assert q * w == W;
    assert k as real <= q < (k + 1) as real;
    MulLe(k as real, q, w);
    MulLt(q, (k + 1) as real, w);
    assert W < (k + 1) as real * w;
  }

  lemma MulLe(a: real, b: real, c: real)
    requires a <= b && c > 0.0
    ensures a * c <= b * c
  {
  }

  /** One copy or more of a width that fits means the width itself fits. */
  lemma OneCopy(k: real, w: real, W: real)
    requires k >= 1.0 && w > 0.0 && k * w <= W
    ensures w <= W
  {
  }

  lemma MulLt(a: real, b: real, c: real)
    requires a < b && c > 0.0
    ensures a * c < b * c
  {
  }

  /** `floor(W / w_i)`: the largest number of copies of piece `i` one roll holds. */
  function SeedCount(data: DataCs, i: nat): (k: nat)
    requires WellFormed(data) && i < |data.pieces|
    ensures k as real * data.pieces[i].w <= data.W
    ensures data.W < (k + 1) as real * data.pieces[i].w
  {
    FloorFits(data.W, data.pieces[i].w);
    (data.W / data.pieces[i].w).Floor
  }

  /** Row `i` of the seed matrix: `floor(W / w_i)` copies of piece `i`, none of the others. */
  function SeedRow(data: DataCs, n: nat, i: nat): Pattern
    requires WellFormed(data) && i < n <= |data.pieces|
  {
    seq(n, j requires 0 <= j < n => if j == i then SeedCount(data, i) else 0)
  }

  function Seed(data: DataCs, n: nat): seq<Pattern>
    requires WellFormed(data) && n <= |data.pieces|
  {
    seq(n, i requires 0 <= i < n => SeedRow(data, n, i))
  }

  /** `generate_pattern`: a zero `n x n` matrix whose diagonal is filled in place. */
  method GeneratePattern(nbPiece: nat, data: DataCs) returns (pattern: array2<nat>)
    requires WellFormed(data) && nbPiece <= |data.pieces|
    ensures pattern.Length0 == nbPiece && pattern.Length1 == nbPiece
    ensures forall i, j :: 0 <= i < nbPiece && 0 <= j < nbPiece ==>
      pattern[i, j] == if i == j then SeedCount(data, i) else 0
  {
    pattern := new nat[nbPiece, nbPiece]((i, j) => 0);
    for i := 0 to nbPiece
      invariant forall r, c :: 0 <= r < nbPiece && 0 <= c < nbPiece ==>
        pattern[r, c] == if r == c && r < i then SeedCount(data, r) else 0
    {
      pattern[i, i] := SeedCount(data, i);
    }
  }

  /** The rows of a matrix, as the pool value the rest of the algorithm reads. */
  function Rows(m: array2<nat>): seq<Pattern>
    reads m
  {
    seq(m.Length0, i requires 0 <= i < m.Length0 reads m =>
      seq(m.Length1, j requires 0 <= j < m.Length1 reads m => m[i, j]))
  }

  /** Every seed row is a feasible pattern: `floor(W / w_i) * w_i <= W`. */
  lemma SeedRowsFit(data: DataCs, n: nat)
    requires WellFormed(data) && n <= |data.pieces|
    ensures Rectangular(Seed(data, n), n)
    ensures forall p :: 0 <= p < n ==> Fits(Seed(data, n)[p], data, n)
  {
    forall p | 0 <= p < n
      ensures Fits(Seed(data, n)[p], data, n)
    {
      var row := SeedRow(data, n, p);
      DotSingle(Widths(data, n), Reals(row), p);
    }
  }

  // ------------------------------------------------------------ master problem

  /**
   * Minimise `sum_p x_p` subject to `sum_p pool[p][i] * x_p >= demands[i]` for
   * every piece `i`, each `x_p` a variable of kind `v`.
   */
  function CoveringProgram(pool: seq<Pattern>, demands: seq<int>, v: Var): Program
  {
    Program(
      seq(|pool|, _ => v),
      seq(|pool|, _ => 1.0),
      Minimize,
      seq(|demands|, i requires 0 <= i < |demands| => Constraint(Column(pool, i), AtLeast, demands[i] as real)))
  }

  /** The master LP: `NumVar(0, infinity)` per pattern. */
  function MasterLp(pool: seq<Pattern>, demands: seq<int>): (r: Program)
    ensures IsCoveringForm(r) && |r.vars| == |pool| && |r.constraints| == |demands|
  {
    CoveringProgram(pool, demands, Var(0.0, Infinite, false))
  }

  /** The final master: `IntVar(0, 1)` per pattern. */
  function MasterBip(pool: seq<Pattern>, demands: seq<int>): Program
  {
    CoveringProgram(pool, demands, Var(0.0, Finite(1.0), true))
  }

  /** The feasible points of a covering program: per-variable bounds and every demand covered. */
  lemma CoveringMeaning(pool: seq<Pattern>, demands: seq<int>, v: Var)
    ensures forall x :: IsFeasible(CoveringProgram(pool, demands, v), x) <==>
      && |x| == |pool|
      && (forall p :: 0 <= p < |x| ==> WithinBounds(v, x[p]))
      && Covers(pool, x, demands)
    ensures forall x {:trigger ObjectiveValue(CoveringProgram(pool, demands, v), x)} ::
      |x| == |pool| ==> ObjectiveValue(CoveringProgram(pool, demands, v), x) == Sum(x)
  {
    var prog := CoveringProgram(pool, demands, v);
    forall x
      ensures IsFeasible(prog, x) <==>
        |x| == |pool| && (forall p :: 0 <= p < |x| ==> WithinBounds(v, x[p])) && Covers(pool, x, demands)
    {
      if IsFeasible(prog, x) {
        forall i | 0 <= i < |demands|
          ensures Supply(pool, x, i) >= demands[i] as real
        {
          assert Holds(prog.constraints[i], x);
        }
      }
      if |x| == |pool| && (forall p :: 0 <= p < |x| ==> WithinBounds(v, x[p])) && Covers(pool, x, demands) {
        forall k | 0 <= k < |prog.constraints|
          ensures Holds(prog.constraints[k], x)
        {
          assert Supply(pool, x, k) >= demands[k] as real;
        }
      }
    }
    forall x | |x| == |pool|
      ensures ObjectiveValue(prog, x) == Sum(x)
    {
      DotOnes(seq(|pool|, _ => 1.0), x);
    }
  }

  /** The master LP's feasible points are exactly the non-negative covering vectors. */
  lemma MasterLpMeaning(pool: seq<Pattern>, demands: seq<int>)
    ensures forall x :: IsFeasible(MasterLp(pool, demands), x) <==>
      |x| == |pool| && NonNegative(x) && Covers(pool, x, demands)
    ensures forall x {:trigger ObjectiveValue(MasterLp(pool, demands), x)} ::
      |x| == |pool| ==> ObjectiveValue(MasterLp(pool, demands), x) == Sum(x)
  {
    CoveringMeaning(pool, demands, Var(0.0, Infinite, false));
  }

  /** An `IntVar(0, 1)` takes exactly the values 0 and 1. */
  lemma ZeroOneVar()
    ensures forall x: real :: WithinBounds(Var(0.0, Finite(1.0), true), x) <==> x == 0.0 || x == 1.0
  {
  }

  /** The final master's feasible points are exactly the 0/1 covering vectors. */
  lemma MasterBipMeaning(pool: seq<Pattern>, demands: seq<int>)
    ensures forall x :: IsFeasible(MasterBip(pool, demands), x) <==>
      |x| == |pool| && Binary(x) && Covers(pool, x, demands)
    ensures forall x {:trigger ObjectiveValue(MasterBip(pool, demands), x)} ::
      |x| == |pool| ==> ObjectiveValue(MasterBip(pool, demands), x) == Sum(x)
  {
    var v := Var(0.0, Finite(1.0), true);
    CoveringMeaning(pool, demands, v);
    ZeroOneVar();
    forall x
      ensures IsFeasible(MasterBip(pool, demands), x) <==>
        |x| == |pool| && Binary(x) && Covers(pool, x, demands)
    {
      assert (forall p :: 0 <= p < |x| ==> WithinBounds(v, x[p])) <==> Binary(x);
    }
  }

  datatype MasterResult =
    | MasterSolved(duals: seq<real>, objective: real, primals: seq<real>)
    | MasterUnsolved(status: Status)

  /**
   * `master_problem`: on OPTIMAL, one dual per piece, the LP optimum and one
   * primal per pattern; otherwise the solver's status.
   */
  function MasterProblem(pattern: seq<Pattern>, data: DataCs, nbPiece: nat, glop: Oracle): (r: MasterResult)
    requires nbPiece <= |data.pieces| && Rectangular(pattern, nbPiece)
    requires Sound(glop) && GivesDuals(glop)
    ensures r.MasterSolved? <==> glop(MasterLp(pattern, Demands(data, nbPiece))).status == Optimal
    ensures r.MasterUnsolved? ==> r.status == glop(MasterLp(pattern, Demands(data, nbPiece))).status
    ensures r.MasterSolved? ==>
      && |r.duals| == nbPiece
      && |r.primals| == |pattern|
      && NonNegative(r.primals)
      && Covers(pattern, r.primals, Demands(data, nbPiece))
      && r.objective == Sum(r.primals)
    ensures r.MasterSolved? ==> forall x {:trigger Covers(pattern, x, Demands(data, nbPiece))} ::
      |x| == |pattern| && NonNegative(x) && Covers(pattern, x, Demands(data, nbPiece)) ==> r.objective <= Sum(x)
  {
    var demands := Demands(data, nbPiece);
    var reply := Solve(glop, MasterLp(pattern, demands));
    if reply.status == Optimal then
      MasterLpMeaning(pattern, demands);
      MasterSolved(reply.duals, reply.objective, reply.values)
    else
      MasterUnsolved(reply.status)
  }

  /** Adding a column never raises the master's LP optimum. */
  lemma MasterBoundMonotone(pool: seq<Pattern>, a: Pattern, data: DataCs, n: nat, glop: Oracle)
    requires n <= |data.pieces| && Rectangular(pool, n) && |a| == n
    requires Sound(glop) && GivesDuals(glop)
    requires Rectangular(pool + [a], n)
    requires MasterProblem(pool, data, n, glop).MasterSolved?
    requires MasterProblem(pool + [a], data, n, glop).MasterSolved?
    ensures MasterProblem(pool + [a], data, n, glop).objective <= MasterProblem(pool, data, n, glop).objective
  {
    var demands := Demands(data, n);
    var x := MasterProblem(pool, data, n, glop).primals;
    CoversAppendUnused(pool, a, x, demands);
    SumAppend(x, 0.0);
  }

  /**
   * When GLOP's duals are dual feasible, the duals `master_problem` returns
   * are non-negative and price no pattern of the pool above 1, the cost of a
   * roll.
   */
  lemma MasterDualsFeasible(pattern: seq<Pattern>, data: DataCs, nbPiece: nat, glop: Oracle)
    requires nbPiece <= |data.pieces| && Rectangular(pattern, nbPiece)
    requires Sound(glop) && GivesDuals(glop) && DualFeasible(glop)
    requires MasterProblem(pattern, data, nbPiece, glop).MasterSolved?
    ensures NonNegative(MasterProblem(pattern, data, nbPiece, glop).duals)
    ensures forall p :: 0 <= p < |pattern| ==> Gain(MasterProblem(pattern, data, nbPiece, glop).duals, pattern[p]) <= 1.0
  {
    var demands := Demands(data, nbPiece);
    var prog := MasterLp(pattern, demands);
    var duals := MasterProblem(pattern, data, nbPiece, glop).duals;
    assert duals == glop(prog).duals;
    forall p | 0 <= p < |pattern|
      ensures Gain(duals, pattern[p]) <= 1.0
    {
      assert VarColumn(prog, p) == Reals(pattern[p]);
      assert Dot(duals, VarColumn(prog, p)) <= prog.objective[p];
    }
  }

  // ----------------------------------------------------------- pricing problem

  /** Maximise `sum_i duals[i] * y_i` subject to `sum_i w_i * y_i <= W`, `y_i` integer `>= 0`. */
  function KnapsackIp(data: DataCs, duals: seq<real>): Program
    requires |duals| <= |data.pieces|
  {
    Program(
      seq(|duals|, _ => Var(0.0, Infinite, true)),
      duals,
      Maximize,
      [Constraint(Widths(data, |duals|), AtMost, data.W)])
  }

  /** The solver's integral values as counts. */
  function ToCounts(v: seq<real>): (y: Pattern)
    requires NonNegative(v)
    ensures |y| == |v|
  {
    seq(|v|, i requires 0 <= i < |v| => v[i].Floor as nat)
  }

  /** The knapsack's feasible points are exactly the patterns that fit in one roll. */
  lemma KnapsackMeaning(data: DataCs, duals: seq<real>)
    requires |duals| <= |data.pieces|
    ensures forall x :: IsFeasible(KnapsackIp(data, duals), x) ==>
      NonNegative(x) && Reals(ToCounts(x)) == x && Fits(ToCounts(x), data, |duals|)
    ensures forall y :: Fits(y, data, |duals|) ==> IsFeasible(KnapsackIp(data, duals), Reals(y))
  {
    var prog := KnapsackIp(data, duals);
    forall x | IsFeasible(prog, x)
      ensures NonNegative(x) && Reals(ToCounts(x)) == x && Fits(ToCounts(x), data, |duals|)
    {
      assert forall j :: 0 <= j < |x| ==> WithinBounds(prog.vars[j], x[j]);
      assert Reals(ToCounts(x)) == x;
      assert Holds(prog.constraints[0], x);
    }
    forall y | Fits(y, data, |duals|)
      ensures IsFeasible(prog, Reals(y))
    {
      assert Holds(prog.constraints[0], Reals(y));
    }
  }

  /**
   * `pricing_problem`: a new pattern exactly when the knapsack solve is
   * OPTIMAL with value above 1 + 1e-8; the pattern fits in a roll and is a
   * best one for the given duals.
   */
  function PricingProblem(data: DataCs, dualVariables: seq<real>, scip: Oracle): (r: Option<Pattern>)
    requires |dualVariables| <= |data.pieces| && Sound(scip)
    ensures r.Some? <==>
      && scip(KnapsackIp(data, dualVariables)).status == Optimal
      && scip(KnapsackIp(data, dualVariables)).objective > 1.0 + Eps
    ensures r.Some? ==>
      && Fits(r.value, data, |dualVariables|)
      && Gain(dualVariables, r.value) > 1.0 + Eps
      && forall y :: Fits(y, data, |dualVariables|) ==> Gain(dualVariables, y) <= Gain(dualVariables, r.value)
  {
    var reply := Solve(scip, KnapsackIp(data, dualVariables));
    if reply.status == Optimal && reply.objective > 1.0 + Eps then
      KnapsackMeaning(data, dualVariables);
      Some(ToCounts(reply.values))
    else
      None
  }

  /**
   * When the knapsack solve is OPTIMAL and no pattern comes back, no pattern
   * that fits in a roll has value above 1 + 1e-8 (no negative reduced cost).
   */
  lemma PricingNoneMeansConverged(data: DataCs, duals: seq<real>, scip: Oracle)
    requires |duals| <= |data.pieces| && Sound(scip)
    requires scip(KnapsackIp(data, duals)).status == Optimal
    requires PricingProblem(data, duals, scip).None?
    ensures forall y :: Fits(y, data, |duals|) ==> Gain(duals, y) <= 1.0 + Eps
  {
    KnapsackMeaning(data, duals);
    var prog := KnapsackIp(data, duals);
    var reply := Solve(scip, prog);
    forall y | Fits(y, data, |duals|)
      ensures Gain(duals, y) <= 1.0 + Eps
    {
      assert IsFeasible(prog, Reals(y));
    }
  }

  // ---------------------------------------------------- integer master problem

  datatype IntegerResult =
    | IntegerSolved(objective: real, usage: seq<real>)
    | IntegerUnsolved(status: Status)

  /**
   * `master_problem_integer`: on OPTIMAL, a 0/1 usage per pattern that covers
   * every demand with the fewest patterns; otherwise the solver's status.
   */
  function MasterProblemInteger(pattern: seq<Pattern>, data: DataCs, nbPiece: nat, cbc: Oracle): (r: IntegerResult)
    requires nbPiece <= |data.pieces| && Rectangular(pattern, nbPiece)
    requires Sound(cbc)
    ensures r.IntegerSolved? <==> cbc(MasterBip(pattern, Demands(data, nbPiece))).status == Optimal
    ensures r.IntegerUnsolved? ==> r.status == cbc(MasterBip(pattern, Demands(data, nbPiece))).status
    ensures r.IntegerSolved? ==>
      && |r.usage| == |pattern|
      && Binary(r.usage)
      && Covers(pattern, r.usage, Demands(data, nbPiece))
      && r.objective == Sum(r.usage)
    ensures r.IntegerSolved? ==> forall u {:trigger Covers(pattern, u, Demands(data, nbPiece))} ::
      |u| == |pattern| && Binary(u) && Covers(pattern, u, Demands(data, nbPiece)) ==> r.objective <= Sum(u)
  {
    var demands := Demands(data, nbPiece);
    var reply := Solve(cbc, MasterBip(pattern, demands));
    if reply.status == Optimal then
      MasterBipMeaning(pattern, demands);
      IntegerSolved(reply.objective, reply.values)
    else
      IntegerUnsolved(reply.status)
  }

  // ------------------------------------------------------------------ examples

  /** Widths 40 and 30 on a roll of 100 seed the pool with [[2, 0], [0, 3]]. */
  lemma SeedExample()
    ensures var data := DataCs([Piece(40.0, 2), Piece(30.0, 3)], 100.0);
      WellFormed(data) && Seed(data, 2) == [[2, 0], [0, 3]]
  {
    var data := DataCs([Piece(40.0, 2), Piece(30.0, 3)], 100.0);
    assert SeedCount(data, 0) == 2;
    assert SeedCount(data, 1) == 3;
    assert Seed(data, 2)[0] == [2, 0];
    assert Seed(data, 2)[1] == [0, 3];
  }

  /**
   * The final master uses each pattern at most once: one piece of width 60
   * with demand 2 on a roll of 100 is covered by the LP (two rolls of the seed
   * row) but by no 0/1 choice, so the integer solve cannot be OPTIMAL.
   */
  lemma BinaryCoverCanFail(cbc: Oracle)
    requires Sound(cbc)
    ensures var data := DataCs([Piece(60.0, 2)], 100.0);
      && WellFormed(data)
      && Covers(Seed(data, 1), [2.0], Demands(data, 1))
      && MasterProblemInteger(Seed(data, 1), data, 1, cbc).IntegerUnsolved?
  {
    var data := DataCs([Piece(60.0, 2)], 100.0);
    assert SeedCount(data, 0) == 1;
    assert SeedRow(data, 1, 0) == [1];
    var pool := Seed(data, 1);
    assert pool == [[1]];
    assert Column(pool, 0) == [1.0];
    assert Demands(data, 1) == [2];
    DotSingle(Column(pool, 0), [2.0], 0);
    forall u | |u| == 1 && Binary(u)
      ensures !Covers(pool, u, Demands(data, 1))
    {
      DotSingle(Column(pool, 0), u, 0);
      assert Supply(pool, u, 0) == u[0] < 2.0;
    }
  }

  /**
   * For one piece of width 60 on a roll of 100, a dual in [0, 1] prices no
   * pattern above 1 + 1e-8, so pricing returns nothing.
   */
  lemma OnePiecePricingStops(duals: seq<real>, scip: Oracle)
    requires |duals| == 1 && 0.0 <= duals[0] <= 1.0 && Sound(scip)
    ensures PricingProblem(DataCs([Piece(60.0, 2)], 100.0), duals, scip).None?
  {
    var data := DataCs([Piece(60.0, 2)], 100.0);
    assert Widths(data, 1) == [60.0];
    forall y | Fits(y, data, 1)
      ensures Gain(duals, y) <= 1.0
    {
      assert Reals(y) == [y[0] as real];
      DotSingle(Widths(data, 1), Reals(y), 0);
      DotSingle(duals, Reals(y), 0);
      assert y[0] == 0 || y[0] == 1;
    }
  }
}
