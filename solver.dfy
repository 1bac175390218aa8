/**
 * The linear-solver interface the column generation talks to (OR-Tools'
 * pywraplp): a program is a list of bounded, possibly integer variables, a
 * linear objective with a direction, and linear constraints. A solver is an
 * oracle from programs to replies; what an OPTIMAL reply guarantees is the
 * oracle's contract, `Sound`.
 */
module Solver {
  import opened Vectors

  /** pywraplp.Solver result statuses. */
  datatype Status = Optimal | Feasible | Infeasible | Unbounded | Abnormal | ModelInvalid | NotSolved

  datatype Sense = Minimize | Maximize

  datatype Relation = AtMost | AtLeast

  /** An upper bound, possibly `solver.infinity()`. */
  datatype Bound = Finite(value: real) | Infinite

  /** `NumVar(lower, upper)` when `integer` is false, `IntVar(lower, upper)` when true. */
  datatype Var = Var(lower: real, upper: Bound, integer: bool)

  /** `sum_j coefficients[j] * x[j]` compared with `rhs`. */
  datatype Constraint = Constraint(coefficients: seq<real>, relation: Relation, rhs: real)

  datatype Program = Program(vars: seq<Var>, objective: seq<real>, sense: Sense, constraints: seq<Constraint>)

  /**
   * What `Solve()` leaves behind: the status, `solution_value()` of every
   * variable, `Objective().Value()`, and `dual_value()` of every constraint.
   */
  datatype Reply = Reply(status: Status, values: seq<real>, objective: real, duals: seq<real>)

  type Oracle = Program -> Reply

  predicate IsIntegral(v: real)
  {
    v == v.Floor as real
  }

  predicate WithinBounds(v: Var, value: real)
  {
    && v.lower <= value
    && (v.upper.Finite? ==> value <= v.upper.value)
    && (v.integer ==> IsIntegral(value))
  }

  predicate Holds(c: Constraint, x: seq<real>)
  {
    match c.relation
    case AtMost => Dot(c.coefficients, x) <= c.rhs
    case AtLeast => Dot(c.coefficients, x) >= c.rhs
  }

  predicate IsFeasible(prog: Program, x: seq<real>)
  {
    && |x| == |prog.vars|
    && (forall j :: 0 <= j < |x| ==> WithinBounds(prog.vars[j], x[j]))
    && (forall k :: 0 <= k < |prog.constraints| ==> Holds(prog.constraints[k], x))
  }

  function ObjectiveValue(prog: Program, x: seq<real>): real
  {
    Dot(prog.objective, x)
  }

  predicate NoWorse(sense: Sense, a: real, b: real)
  {
    match sense
    case Minimize => a <= b
    case Maximize => a >= b
  }

  /** `x` is feasible and no feasible point has a better objective. */
  ghost predicate IsOptimal(prog: Program, x: seq<real>)
  {
    && IsFeasible(prog, x)
    && forall y :: IsFeasible(prog, y) ==> NoWorse(prog.sense, ObjectiveValue(prog, x), ObjectiveValue(prog, y))
  }

  /** An OPTIMAL reply carries an optimal point and its objective value. */
  ghost predicate Answers(prog: Program, r: Reply)
  {
    r.status == Optimal ==> IsOptimal(prog, r.values) && r.objective == ObjectiveValue(prog, r.values)
  }

  /** The contract every solver of the model (GLOP, SCIP, CBC) is trusted to keep. */
  ghost predicate Sound(oracle: Oracle)
  {
    forall prog {:trigger Answers(prog, oracle(prog))} :: Answers(prog, oracle(prog))
  }

  /** An LP solver (GLOP) also reports one dual value per constraint. */
  ghost predicate GivesDuals(oracle: Oracle)
  {
    forall prog :: oracle(prog).status == Optimal ==> |oracle(prog).duals| == |prog.constraints|
  }

  /** Column `j` of the constraint matrix: the coefficient of variable `j` in every constraint. */
  function VarColumn(prog: Program, j: nat): (c: seq<real>)
    ensures |c| == |prog.constraints|
  {
    seq(|prog.constraints|, k requires 0 <= k < |prog.constraints| =>
      var a := prog.constraints[k].coefficients; if j < |a| then a[j] else 0.0)
  }

  /** Minimise over `NumVar(0, inf)` variables subject to `>=` constraints only. */
  predicate IsCoveringForm(prog: Program)
  {
    && prog.sense == Minimize
    && |prog.objective| == |prog.vars|
    && (forall j :: 0 <= j < |prog.vars| ==> prog.vars[j] == Var(0.0, Infinite, false))
    && (forall k :: 0 <= k < |prog.constraints| ==> prog.constraints[k].relation == AtLeast)
  }

  /**
   * An LP solver's duals of an OPTIMAL covering-form program are dual
   * feasible: non-negative, and no variable's column is priced above its
   * objective coefficient.
   */
  ghost predicate DualFeasible(oracle: Oracle)
  {
    forall prog :: IsCoveringForm(prog) && oracle(prog).status == Optimal ==>
      && NonNegative(oracle(prog).duals)
      && forall j :: 0 <= j < |prog.vars| ==> Dot(oracle(prog).duals, VarColumn(prog, j)) <= prog.objective[j]
  }

  /** `solver.Solve()`: one call to the oracle; on OPTIMAL the reply is an optimum. */
  function Solve(oracle: Oracle, prog: Program): (r: Reply)
    requires Sound(oracle)
    ensures r.status == Optimal ==> IsFeasible(prog, r.values) && r.objective == ObjectiveValue(prog, r.values)
    ensures r.status == Optimal ==>
      forall y :: IsFeasible(prog, y) ==> NoWorse(prog.sense, r.objective, ObjectiveValue(prog, y))
  {
    assert Answers(prog, oracle(prog));
    oracle(prog)
  }
}
