/**
 * The column-generation driver `main_gc` of optimization/cg.py: seed the
 * pool, then alternate the master LP and the pricing knapsack, appending each
 * priced pattern as a new row, until pricing returns nothing (then solve the
 * 0/1 master), a solve is not OPTIMAL, or the iteration cap is spent.
 */
module ColumnGeneration {
  import opened Wrappers
  import opened Vectors
  import opened DataGen
  import opened Solver
  import opened Patterns
  import opened CuttingStock

  /** The three solvers `main_gc` calls: GLOP (master LP), SCIP (pricing), CBC (final master). */
  datatype Solvers = Solvers(glop: Oracle, scip: Oracle, cbc: Oracle)

  ghost predicate Trusted(s: Solvers)
  {
    Sound(s.glop) && GivesDuals(s.glop) && Sound(s.scip) && Sound(s.cbc)
  }

  /** How `main_gc` ends: its return value or the exception it raises. */
  datatype GcOutcome =
    | Solved(objective: real, usage: seq<real>)  // returns (final_objective, final_solution_vector)
    | MasterNotOptimal                           // RuntimeError: master problem not optimal
    | IntegerNotOptimal                          // RuntimeError: final integer problem not optimal
    | IterationLimit                             // ValueError: no convergence within nb_rouleaux rounds

  /** The outcome together with the pattern matrix as it stood at the exit. */
  datatype GcExit = GcExit(outcome: GcOutcome, pool: seq<Pattern>)

  /** The iteration budget: `while iter_count < nb_rouleaux` runs at most this many rounds. */
  function Fuel(nbRouleaux: int): nat
  {
    if nbRouleaux < 0 then 0 else nbRouleaux
  }

  /**
   * The loop of `main_gc` from a given pool with `fuel` rounds left; every
   * row it appends is as wide as the others.
   */
  function Run(data: DataCs, n: nat, s: Solvers, pool: seq<Pattern>, fuel: nat): (e: GcExit)
    requires n <= |data.pieces| && Rectangular(pool, n) && Trusted(s)
    ensures Rectangular(e.pool, n)
    decreases fuel, 1
  {
    if fuel == 0 then GcExit(IterationLimit, pool) else Round(data, n, s, pool, fuel)
  }

  /**
   * One pass of the loop body, `fuel` rounds being left: solve the master; if
   * it is OPTIMAL, price; with no new pattern, solve the 0/1 master and stop;
   * otherwise append the pattern and go on with one round fewer.
   */
  function Round(data: DataCs, n: nat, s: Solvers, pool: seq<Pattern>, fuel: nat): (e: GcExit)
    requires n <= |data.pieces| && Rectangular(pool, n) && Trusted(s) && fuel > 0
    ensures Rectangular(e.pool, n)
    decreases fuel, 0
  {
    var m := MasterProblem(pool, data, n, s.glop);
    if m.MasterUnsolved? then
      GcExit(MasterNotOptimal, pool)
    else
      var next := PricingProblem(data, m.duals, s.scip);
      if next.None? then
        var f := MasterProblemInteger(pool, data, n, s.cbc);
        if f.IntegerSolved? then GcExit(Solved(f.objective, f.usage), pool) else GcExit(IntegerNotOptimal, pool)
      else
        Run(data, n, s, pool + [next.value], fuel - 1)
  }

  /**
   * `main_gc`: the seed matrix, then the master/pricing loop. It is the loop
   * `Run` from the seed with `nb_rouleaux` rounds; `pool` is the matrix at exit.
   */
  method MainGc(data: DataCs, nbPiece: nat, nbRouleaux: int, s: Solvers) returns (outcome: GcOutcome, ghost pool: seq<Pattern>)
    requires WellFormed(data) && nbPiece <= |data.pieces| && Trusted(s)
    ensures outcome == Run(data, nbPiece, s, Seed(data, nbPiece), Fuel(nbRouleaux)).outcome
    ensures pool == Run(data, nbPiece, s, Seed(data, nbPiece), Fuel(nbRouleaux)).pool
  {
    var seed := GeneratePattern(nbPiece, data);
    var pattern := Rows(seed);
    SeedMatrixRows(seed, data, nbPiece);
    var maxIter := nbRouleaux;
    var iterCount := 0;
    ghost var exit := Run(data, nbPiece, s, pattern, Fuel(maxIter));
    while iterCount < maxIter
      invariant 0 <= iterCount <= Fuel(maxIter)
      invariant |pattern| == nbPiece + iterCount
      invariant Rectangular(pattern, nbPiece)
      invariant EndsIn(data, nbPiece, s, pattern, Fuel(maxIter) - iterCount, exit)
    {
      var m := MasterProblem(pattern, data, nbPiece, s.glop);
      if m.MasterUnsolved? {
        RunMasterFails(data, nbPiece, s, pattern, Fuel(maxIter) - iterCount);
        return MasterNotOptimal, pattern;
      }
      var newPattern := PricingProblem(data, m.duals, s.scip);
      if newPattern.None? {
        var f := MasterProblemInteger(pattern, data, nbPiece, s.cbc);
        RunPricingStops(data, nbPiece, s, pattern, Fuel(maxIter) - iterCount);
        if f.IntegerSolved? {
          return Solved(f.objective, f.usage), pattern;
        } else {
          return IntegerNotOptimal, pattern;
        }
      }
      RunContinues(data, nbPiece, s, pattern, Fuel(maxIter) - iterCount, newPattern.value);
      pattern := pattern + [newPattern.value];
      iterCount := iterCount + 1;
    }
    return IterationLimit, pattern;
  }

  /** The loop from `pool` with `fuel` rounds left ends in `e`. */
  ghost predicate EndsIn(data: DataCs, n: nat, s: Solvers, pool: seq<Pattern>, fuel: nat, e: GcExit)
    requires n <= |data.pieces| && Rectangular(pool, n) && Trusted(s)
  {
    Run(data, n, s, pool, fuel) == e
  }

  /** A round whose master solve is not OPTIMAL ends the loop with that pool. */
  lemma RunMasterFails(data: DataCs, n: nat, s: Solvers, pool: seq<Pattern>, fuel: nat)
    requires n <= |data.pieces| && Rectangular(pool, n) && Trusted(s) && fuel > 0
    requires MasterProblem(pool, data, n, s.glop).MasterUnsolved?
    ensures Run(data, n, s, pool, fuel) == GcExit(MasterNotOptimal, pool)
  {
  }

  /** A round whose pricing finds no pattern ends the loop with the 0/1 master's answer. */
  lemma RunPricingStops(data: DataCs, n: nat, s: Solvers, pool: seq<Pattern>, fuel: nat)
    requires n <= |data.pieces| && Rectangular(pool, n) && Trusted(s) && fuel > 0
    requires MasterProblem(pool, data, n, s.glop).MasterSolved?
    requires PricingProblem(data, MasterProblem(pool, data, n, s.glop).duals, s.scip).None?
    ensures var f := MasterProblemInteger(pool, data, n, s.cbc);
      Run(data, n, s, pool, fuel) == GcExit(if f.IntegerSolved? then Solved(f.objective, f.usage) else IntegerNotOptimal, pool)
  {
  }

  /** A round whose pricing returns `y` goes on from `pool + [y]` with one round fewer. */
  lemma RunContinues(data: DataCs, n: nat, s: Solvers, pool: seq<Pattern>, fuel: nat, y: Pattern)
    requires n <= |data.pieces| && Rectangular(pool, n) && Trusted(s) && fuel > 0
    requires MasterProblem(pool, data, n, s.glop).MasterSolved?
    requires PricingProblem(data, MasterProblem(pool, data, n, s.glop).duals, s.scip) == Some(y)
    ensures Rectangular(pool + [y], n)
    ensures Run(data, n, s, pool, fuel) == Run(data, n, s, pool + [y], fuel - 1)
  {
  }

  /**
   * The pool grows by at most one row per round, the rows present at the
   * start stay the first rows, and the cap is the exit exactly when every
   * round appended a row.
   */
  lemma {:induction false} RunGrowth(data: DataCs, n: nat, s: Solvers, pool: seq<Pattern>, fuel: nat)
    requires n <= |data.pieces| && Rectangular(pool, n) && Trusted(s)
    ensures var e := Run(data, n, s, pool, fuel);
      && |pool| <= |e.pool| <= |pool| + fuel
      && e.pool[..|pool|] == pool
      && (e.outcome.IterationLimit? <==> |e.pool| == |pool| + fuel)
    decreases fuel
  {
    if fuel > 0 {
      assert Run(data, n, s, pool, fuel) == Round(data, n, s, pool, fuel);
      var m := MasterProblem(pool, data, n, s.glop);
      if m.MasterSolved? {
        var next := PricingProblem(data, m.duals, s.scip);
        if next.Some? {
          var pool' := pool + [next.value];
          RunGrowth(data, n, s, pool', fuel - 1);
          var e := Run(data, n, s, pool', fuel - 1);
          assert pool'[..|pool|] == pool;
          assert e.pool[..|pool|] == e.pool[..|pool'|][..|pool|];
        }
      }
    }
  }

  /** The matrix `generate_pattern` fills holds the seed rows. */
  lemma SeedMatrixRows(m: array2<nat>, data: DataCs, n: nat)
    requires WellFormed(data) && n <= |data.pieces|
    requires m.Length0 == n && m.Length1 == n
    requires forall i, j :: 0 <= i < n && 0 <= j < n ==> m[i, j] == if i == j then SeedCount(data, i) else 0
    ensures Rows(m) == Seed(data, n)
  {
    forall i | 0 <= i < n
      ensures Rows(m)[i] == Seed(data, n)[i]
    {
      assert forall j :: 0 <= j < n ==> Rows(m)[i][j] == SeedRow(data, n, i)[j];
    }
  }

  /**
   * What `main_gc` guarantees at its exit (the run `MainGc` equals): the
   * seed rows come first, at most `nb_rouleaux` rows were added, every row
   * fits in a roll, and a returned solution is a 0/1 cover of the demand.
   */
  lemma MainGcExit(data: DataCs, n: nat, s: Solvers, fuel: nat)
    requires WellFormed(data) && n <= |data.pieces| && Trusted(s)
    ensures var e := Run(data, n, s, Seed(data, n), fuel);
      && n <= |e.pool| <= n + fuel && e.pool[..n] == Seed(data, n)
      && (forall p :: 0 <= p < |e.pool| ==> Fits(e.pool[p], data, n))
      && (e.outcome.Solved? ==>
            |e.outcome.usage| == |e.pool| && Binary(e.outcome.usage) && Covers(e.pool, e.outcome.usage, Demands(data, n)))
  {
    SeedRowsFit(data, n);
    RunGrowth(data, n, s, Seed(data, n), fuel);
    RunRowsFit(data, n, s, Seed(data, n), fuel);
    RunSolvedMeetsDemand(data, n, s, Seed(data, n), fuel);
  }

  /** Every row ever appended is a pattern that fits in one roll. */
  lemma {:induction false} RunRowsFit(data: DataCs, n: nat, s: Solvers, pool: seq<Pattern>, fuel: nat)
    requires n <= |data.pieces| && Rectangular(pool, n) && Trusted(s)
    requires forall p :: 0 <= p < |pool| ==> Fits(pool[p], data, n)
    ensures forall p :: 0 <= p < |Run(data, n, s, pool, fuel).pool| ==> Fits(Run(data, n, s, pool, fuel).pool[p], data, n)
    decreases fuel
  {
    if fuel > 0 {
      assert Run(data, n, s, pool, fuel) == Round(data, n, s, pool, fuel);
      var m := MasterProblem(pool, data, n, s.glop);
      if m.MasterSolved? {
        var next := PricingProblem(data, m.duals, s.scip);
        if next.Some? {
          var pool' := pool + [next.value];
          assert forall p :: 0 <= p < |pool'| ==> Fits(pool'[p], data, n);
          RunContinues(data, n, s, pool, fuel, next.value);
          RunRowsFit(data, n, s, pool', fuel - 1);
        }
      }
    }
  }

  /**
   * Why the loop stopped, read on the pool at exit: a non-OPTIMAL master;
   * or pricing found nothing and the 0/1 master was or was not OPTIMAL.
   */
  lemma {:induction false} RunExitMeaning(data: DataCs, n: nat, s: Solvers, pool: seq<Pattern>, fuel: nat)
    requires n <= |data.pieces| && Rectangular(pool, n) && Trusted(s)
    ensures var e := Run(data, n, s, pool, fuel);
      && (e.outcome.MasterNotOptimal? ==> MasterProblem(e.pool, data, n, s.glop).MasterUnsolved?)
      && (e.outcome.Solved? || e.outcome.IntegerNotOptimal? ==>
            && MasterProblem(e.pool, data, n, s.glop).MasterSolved?
            && PricingProblem(data, MasterProblem(e.pool, data, n, s.glop).duals, s.scip).None?)
      && (e.outcome.IntegerNotOptimal? ==> MasterProblemInteger(e.pool, data, n, s.cbc).IntegerUnsolved?)
      && (e.outcome.Solved? ==>
            MasterProblemInteger(e.pool, data, n, s.cbc) == IntegerSolved(e.outcome.objective, e.outcome.usage))
    decreases fuel
  {
    if fuel > 0 {
      var m := MasterProblem(pool, data, n, s.glop);
      if m.MasterSolved? {
        var next := PricingProblem(data, m.duals, s.scip);
        if next.Some? {
          RunExitMeaning(data, n, s, pool + [next.value], fuel - 1);
        }
      }
    }
  }

  /**
   * A returned solution uses each pattern of the final matrix 0 or 1 times,
   * meets every demand, counts the rolls used, and no 0/1 covering choice over
   * that matrix uses fewer.
   */
  lemma RunSolvedMeetsDemand(data: DataCs, n: nat, s: Solvers, pool: seq<Pattern>, fuel: nat)
    requires n <= |data.pieces| && Rectangular(pool, n) && Trusted(s)
    ensures var e := Run(data, n, s, pool, fuel);
      e.outcome.Solved? ==>
        && |e.outcome.usage| == |e.pool|
        && Binary(e.outcome.usage)
        && Covers(e.pool, e.outcome.usage, Demands(data, n))
        && e.outcome.objective == Sum(e.outcome.usage)
        && forall u {:trigger Covers(e.pool, u, Demands(data, n))} :: |u| == |e.pool| && Binary(u) && Covers(e.pool, u, Demands(data, n)) ==>
             e.outcome.objective <= Sum(u)
  {
    RunExitMeaning(data, n, s, pool, fuel);
  }

  /**
   * Convergence: when the loop reaches the integer step and the last pricing
   * solve was OPTIMAL, no pattern that fits in a roll prices above 1 + 1e-8
   * under the final master's duals.
   */
  lemma RunConverged(data: DataCs, n: nat, s: Solvers, pool: seq<Pattern>, fuel: nat)
    requires n <= |data.pieces| && Rectangular(pool, n) && Trusted(s)
    ensures var e := Run(data, n, s, pool, fuel);
      e.outcome.Solved? || e.outcome.IntegerNotOptimal? ==>
        && MasterProblem(e.pool, data, n, s.glop).MasterSolved?
        && var duals := MasterProblem(e.pool, data, n, s.glop).duals;
           s.scip(KnapsackIp(data, duals)).status == Optimal ==>
             forall y :: Fits(y, data, n) ==> Gain(duals, y) <= 1.0 + Eps
  {
    RunExitMeaning(data, n, s, pool, fuel);
    var e := Run(data, n, s, pool, fuel);
    if e.outcome.Solved? || e.outcome.IntegerNotOptimal? {
      var duals := MasterProblem(e.pool, data, n, s.glop).duals;
      if s.scip(KnapsackIp(data, duals)).status == Optimal {
        PricingNoneMeansConverged(data, duals, s.scip);
      }
    }
  }

  /** A piece wider than the roll is never cut by a pattern that fits. */
  lemma WidePieceNeverCut(data: DataCs, n: nat, y: Pattern, i: nat)
    requires WellFormed(data) && i < n
    requires Fits(y, data, n) && data.pieces[i].w > data.W
    ensures y[i] == 0
  {
    var widths := Widths(data, n);
    var w := data.pieces[i].w;
    assert widths[i] == w;
    DotAtLeastTerm(widths, Reals(y), i);
    assert Reals(y)[i] == y[i] as real;
    assert Load(y, widths) >= w * (y[i] as real);
    if y[i] >= 1 {
      OneCopy(y[i] as real, w, data.W);
    }
  }

  /** Patterns that fit supply no copies of a piece wider than the roll. */
  lemma WidePieceNoSupply(data: DataCs, n: nat, pool: seq<Pattern>, x: seq<real>, i: nat)
    requires WellFormed(data) && i < n <= |data.pieces|
    requires forall p :: 0 <= p < |pool| ==> Fits(pool[p], data, n)
    requires data.pieces[i].w > data.W
    ensures Supply(pool, x, i) == 0.0
  {
    forall p | 0 <= p < |pool|
      ensures Column(pool, i)[p] == 0.0
    {
      WidePieceNeverCut(data, n, pool[p], i);
    }
    DotZero(Column(pool, i), x);
  }

  /**
   * A demanded piece wider than the roll makes the first master solve
   * non-OPTIMAL: `main_gc` raises RuntimeError instead of rejecting the instance.
   */
  lemma WideDemandedPieceStopsRun(data: DataCs, n: nat, s: Solvers, pool: seq<Pattern>, fuel: nat, i: nat)
    requires WellFormed(data) && n <= |data.pieces| && Rectangular(pool, n) && Trusted(s)
    requires forall p :: 0 <= p < |pool| ==> Fits(pool[p], data, n)
    requires i < n && data.pieces[i].w > data.W && data.pieces[i].d > 0 && fuel > 0
    ensures Run(data, n, s, pool, fuel) == GcExit(MasterNotOptimal, pool)
  {
    var m := MasterProblem(pool, data, n, s.glop);
    if m.MasterSolved? {
      WidePieceNoSupply(data, n, pool, m.primals, i);
      assert false;
    }
  }

  /** `floor(W / w_i)` is 0 for a piece wider than the roll. */
  lemma WideSeedCountZero(data: DataCs, i: nat)
    requires WellFormed(data) && i < |data.pieces| && data.pieces[i].w > data.W
    ensures SeedCount(data, i) == 0
  {
    var k := SeedCount(data, i);
    if k >= 1 {
      OneCopy(k as real, data.pieces[i].w, data.W);
    }
  }

  /** From the seed pool: a demanded piece wider than the roll ends `main_gc` with RuntimeError. */
  lemma WidePieceFailsFromSeed(data: DataCs, n: nat, s: Solvers, nbRouleaux: int, i: nat)
    requires WellFormed(data) && n <= |data.pieces| && Trusted(s)
    requires i < n && data.pieces[i].w > data.W && data.pieces[i].d > 0 && nbRouleaux > 0
    ensures Run(data, n, s, Seed(data, n), Fuel(nbRouleaux)).outcome == MasterNotOptimal
    ensures Seed(data, n)[i] == seq(n, j => 0)
  {
    SeedRowsFit(data, n);
    WideDemandedPieceStopsRun(data, n, s, Seed(data, n), Fuel(nbRouleaux), i);
    WideSeedCountZero(data, i);
    assert forall j :: 0 <= j < n ==> Seed(data, n)[i][j] == 0;
  }

  /**
   * The instance the 0/1 master cannot cover (one piece of width 60, demand
   * 2, roll 100): with GLOP's duals dual feasible, the single dual is at most
   * 1, so no pattern prices above 1 + 1e-8, pricing returns nothing at once
   * and the integer solve fails; `main_gc` raises `RuntimeError`.
   */
  lemma BinaryCoverStopsRun(s: Solvers, fuel: nat)
    requires Trusted(s) && DualFeasible(s.glop) && fuel > 0
    ensures var data := DataCs([Piece(60.0, 2)], 100.0);
      var e := Run(data, 1, s, Seed(data, 1), fuel);
      e.outcome.MasterNotOptimal? || e.outcome.IntegerNotOptimal?
  {
    var data := DataCs([Piece(60.0, 2)], 100.0);
    assert SeedCount(data, 0) == 1;
    assert SeedRow(data, 1, 0) == [1];
    var pool := Seed(data, 1);
    assert pool == [[1]];
    assert Run(data, 1, s, pool, fuel) == Round(data, 1, s, pool, fuel);
    var m := MasterProblem(pool, data, 1, s.glop);
    if m.MasterSolved? {
      MasterDualsFeasible(pool, data, 1, s.glop);
      assert Reals(pool[0]) == [1.0];
      DotSingle(m.duals, [1.0], 0);
      assert Gain(m.duals, pool[0]) == m.duals[0];
      OnePiecePricingStops(m.duals, s.scip);
      BinaryCoverCanFail(s.cbc);
    }
  }
}
