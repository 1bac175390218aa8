# Column generation for one-dimensional cutting stock

A Dafny model of the column-generation driver in `optimization/cg.py` of
Cutting_Stock_CG. A roll of width `W` is cut into pieces. Piece `i` has width
`w_i` and demand `d_i`. A *pattern* says how many copies of each piece one
roll yields. The driver works as follows:

- `generate_pattern` seeds the pool with one pattern per piece. Row `i` holds
  `floor(W / w_i)` copies of piece `i` and nothing else.
- `main_gc` then alternates two solves:
  - the master LP `master_problem` (GLOP) chooses how often to use each pattern;
  - the knapsack `pricing_problem` (SCIP) finds a pattern whose value under
    the master's duals exceeds `1 + 1e-8`.
- Each such pattern is appended to the pool as a new row.
- When pricing returns nothing, the 0/1 master `master_problem_integer` (CBC)
  gives the answer.
- A non-OPTIMAL master or integer solve raises `RuntimeError`. Running out of
  `nb_rouleaux` rounds raises `ValueError`.

The three solvers are oracles: function-typed parameters of type
`Solver.Oracle`, mapping an LP/MIP `Program` to a `Reply` (status, values,
objective, duals). Nothing is assumed about them beyond the contract `Sound`:
on OPTIMAL the values are a feasible point of the program, no feasible point
is better, and the objective is the value of that point. The LP oracle also
satisfies `GivesDuals`: it returns one dual per constraint. The model builds
each program the way the source hands it to `pywraplp`:

- variables with bounds and integrality;
- an objective vector and a sense;
- one linear constraint per `solver.Add`.

Lemmas then read the feasible set of each program back in the problem's own
terms. The master LP's feasible points are the non-negative covering vectors.
The knapsack's are the patterns that fit in a roll. The final master's are the
0/1 covering vectors.

Modules, one file each:

- `Wrappers`: `Option`.
- `Vectors`: dot product and sum over reals, with lemmas.
- `DataGen`: the `Piece` and `data_cs` records.
- `Solver`: programs, replies and the oracle contract.
- `Patterns`: patterns, the pool matrix, load, supply and covering.
- `CuttingStock`: `generate_pattern` and the three solver-backed steps.
- `ColumnGeneration`: the `main_gc` loop and its properties.

`generate_pattern` is a method that fills a zero `array2` in place.
`main_gc` is a method with the source's `while` loop. It is proved equal to
the recursive specification `Run`, which unfolds one loop body per step
through `Round`. The pool is a value (`seq<Pattern>`): `np.vstack` builds a
new matrix on every round. The pool at exit is returned as a ghost
out-parameter so that properties of the final matrix can be stated.

Points where the model follows the code rather than the prose around it:

- `master_problem_integer` declares its variables `IntVar(0, 1)`, so each
  pattern is used at most once. `CuttingStock.BinaryCoverCanFail` shows an
  instance the LP covers but no 0/1 choice does: one piece of width 60, demand
  2, roll 100. `ColumnGeneration.BinaryCoverStopsRun` proves that on this
  instance, when `nb_rouleaux > 0`, `main_gc` ends with `RuntimeError` instead
  of an answer (with `nb_rouleaux <= 0` the loop never runs and it raises
  `ValueError`). That proof
  also assumes GLOP's duals are dual feasible (`Solver.DualFeasible`): they are
  non-negative and price no pool pattern above 1. The loop's other results do
  not assume this.
- `pricing_problem` returns `None` both when the knapsack optimum is at most
  `1 + 1e-8` and when the knapsack solve is not OPTIMAL. `main_gc` treats both
  as convergence. So the convergence lemma (`ColumnGeneration.RunConverged`)
  concludes "no improving pattern" only when the last pricing status was
  OPTIMAL.
- A piece wider than the roll gets a zero seed row. No pattern that fits can
  cut it. So if it is among the first `nb_piece` pieces and is demanded, the
  first master LP is infeasible, and when `nb_rouleaux > 0` `main_gc` raises
  `RuntimeError` (`ColumnGeneration.WidePieceFailsFromSeed`).
- `main.py` calls a `branch_and_price` that `optimization/cg.py` does not
  define. Only `main_gc` is modelled.

## Model

| member | source | states |
|---|---|---|
| CuttingStock.FloorFits | optimization/cg.py:11 | `floor(W / w)` copies of width `w` fit in `W`, and one more copy does not |
| CuttingStock.SeedCount | optimization/cg.py:11 | the seed count of piece `i` is a natural `k` with `k * w_i <= W < (k + 1) * w_i`, i.e. `floor(W / w_i)` |
| CuttingStock.SeedRow | optimization/cg.py:9-11 | seed row `i` of `n`: `floor(W / w_i)` at position `i` and 0 at every other position |
| CuttingStock.Seed | optimization/cg.py:9-11 | the seed pool: the `n` seed rows in order, the pool `main_gc` starts from |
| CuttingStock.GeneratePattern | optimization/cg.py:6-13 | the seed matrix is `nb_piece x nb_piece`, entry `[i, i]` is `floor(W / w_i)` and every other entry is 0 |
| ColumnGeneration.SeedMatrixRows | optimization/cg.py:9-13 | the rows of the filled matrix are exactly the seed pool `Seed(data, n)` that the loop starts from |
| CuttingStock.SeedRowsFit | optimization/cg.py:7-11 | every seed row has `nb_piece` entries and fits in one roll (its load is at most `W`): the seed is a feasible initial pool |
| CuttingStock.SeedExample | optimization/cg.py:9-11 | widths 40 and 30 on a roll of 100 give the seed `[[2, 0], [0, 3]]` |
| Solver.Solve | optimization/cg.py:51 | each `Solve()` call (GLOP here, SCIP at optimization/cg.py:90, CBC at optimization/cg.py:131): on OPTIMAL the reply's values are feasible, its objective is the value of those values, and no feasible point has a better objective |
| Solver.DualFeasible | optimization/cg.py:55 | the assumption about GLOP's `dual_value()`s: for an OPTIMAL covering-form LP (minimise, `NumVar(0, inf)` variables, `>=` constraints), the duals are non-negative and no variable's constraint column is priced above its objective coefficient |
| CuttingStock.CoveringProgram | optimization/cg.py:36-48 | the covering program: one variable of the given kind per pattern, objective coefficient 1 for each, minimised, and one `>=` constraint per piece whose coefficients are that piece's column of the pattern matrix and whose right-hand side is its demand |
| CuttingStock.MasterLp | optimization/cg.py:37-48 | the master LP: the covering program over `NumVar(0, inf)` variables, one per pattern and one constraint per piece; it is in covering form |
| CuttingStock.MasterBip | optimization/cg.py:117-128 | the final master: the covering program over `IntVar(0, 1)` variables |
| CuttingStock.CoveringMeaning | optimization/cg.py:37-48 | a point is feasible for the covering program iff it has one entry per pattern, each entry is within the variable bounds, and `sum_p pattern[p, i] * x_p >= d_i` for every piece; its objective is `sum_p x_p` |
| CuttingStock.MasterLpMeaning | optimization/cg.py:37-48 | the master LP's feasible points are exactly the non-negative covering vectors with one entry per pattern; its objective is their sum |
| CuttingStock.ZeroOneVar | optimization/cg.py:117 | a value is within an `IntVar(0, 1)` iff it is 0 or 1 |
| CuttingStock.MasterBipMeaning | optimization/cg.py:117-128 | the final master's feasible points are exactly the 0/1 covering vectors with one entry per pattern; its objective is their sum |
| CuttingStock.MasterProblem | optimization/cg.py:16-59 | solved iff GLOP reports OPTIMAL, otherwise the result carries GLOP's status; when solved: one dual per piece, one non-negative primal per pattern, the primals cover every demand, the objective is their sum, and no non-negative covering vector has a smaller sum |
| CuttingStock.MasterDualsFeasible | optimization/cg.py:51-56 | when GLOP's duals are dual feasible, the duals `master_problem` returns are non-negative and price every pool pattern at most 1, the cost of a roll |
| CuttingStock.MasterBoundMonotone | optimization/cg.py:36-56 | appending a pattern never raises the master LP's optimum |
| CuttingStock.KnapsackIp | optimization/cg.py:79-88 | the knapsack: one `IntVar(0, inf)` per dual, the duals as objective coefficients, maximised, and the single constraint `sum_i w_i * y_i <= W` |
| CuttingStock.ToCounts | optimization/cg.py:94 | the pattern built from the knapsack's solution values: one count per value, namely its floor |
| CuttingStock.KnapsackMeaning | optimization/cg.py:79-88 | every feasible point of the knapsack is a non-negative integral vector whose counts fit in one roll, and every pattern that fits is a feasible point |
| CuttingStock.PricingProblem | optimization/cg.py:62-96 | a pattern comes back iff SCIP reports OPTIMAL and the optimum exceeds `1 + 1e-8` (`1e-8` is the constant `CuttingStock.Eps`, optimization/cg.py:93); that pattern has one count per dual, fits in a roll, is worth more than `1 + 1e-8` under the duals, and no fitting pattern is worth more |
| CuttingStock.PricingNoneMeansConverged | optimization/cg.py:92-96 | if the knapsack solve is OPTIMAL and no pattern comes back, every pattern that fits is worth at most `1 + 1e-8` under the duals |
| CuttingStock.MasterProblemInteger | optimization/cg.py:99-137 | solved iff CBC reports OPTIMAL, otherwise the result carries CBC's status; when solved: one 0/1 entry per pattern, every demand covered, the objective is the number of patterns used, and no 0/1 covering choice uses fewer |
| CuttingStock.BinaryCoverCanFail | optimization/cg.py:117-128 | for one piece of width 60, demand 2 and a roll of 100, the seed pool is covered by using its row twice, but the 0/1 master cannot be OPTIMAL |
| CuttingStock.OnePiecePricingStops | optimization/cg.py:79-96 | for one piece of width 60 on a roll of 100, a dual between 0 and 1 prices no fitting pattern above `1 + 1e-8`, so pricing returns nothing |
| Patterns.CoversAppendUnused | optimization/cg.py:168 | a covering vector stays covering after a new row is appended and given usage 0 |
| ColumnGeneration.Fuel | optimization/cg.py:144-147 | the number of rounds `while iter_count < max_iter` can run: `nb_rouleaux`, or 0 when it is negative |
| ColumnGeneration.Run | optimization/cg.py:147-171 | the loop from a rectangular pool with `fuel` rounds left ends with a rectangular pool |
| ColumnGeneration.Round | optimization/cg.py:148-169 | one loop body from a rectangular pool ends with a rectangular pool |
| ColumnGeneration.RunMasterFails | optimization/cg.py:148-154 | a round whose master solve is not OPTIMAL ends the loop at once with `RuntimeError` and the current pool |
| ColumnGeneration.RunPricingStops | optimization/cg.py:156-166 | a round whose pricing returns nothing ends the loop with the 0/1 master's answer when it is OPTIMAL, and with `RuntimeError` otherwise |
| ColumnGeneration.RunContinues | optimization/cg.py:156-169 | a round whose pricing returns `y` continues from the pool with `y` appended as a row, with one round fewer |
| ColumnGeneration.MainGc | optimization/cg.py:140-171 | the outcome of `main_gc` and its matrix at exit are those of the loop specification `Run`, started from the seed pool with `max(nb_rouleaux, 0)` rounds |
| ColumnGeneration.RunGrowth | optimization/cg.py:147-171 | the pool grows by at most one row per round, the starting rows stay its first rows, and the exit is the iteration cap exactly when every round appended a row |
| ColumnGeneration.RunRowsFit | optimization/cg.py:156-168 | if every starting row fits in a roll, every row of the pool at exit fits in a roll |
| ColumnGeneration.RunExitMeaning | optimization/cg.py:148-166 | the exit read on the final pool: `RuntimeError` from the master means the master solve is not OPTIMAL; an answer or the integer `RuntimeError` means the master was OPTIMAL and pricing returned nothing; the answer is the 0/1 master's result and the integer error means that solve was not OPTIMAL |
| ColumnGeneration.RunSolvedMeetsDemand | optimization/cg.py:158-164 | a returned solution has one 0/1 entry per final pattern, covers every demand, its objective counts the patterns used, and no 0/1 covering choice over the final pool uses fewer |
| ColumnGeneration.RunConverged | optimization/cg.py:156-160 | when the loop reaches the integer step, the final master was OPTIMAL, and if the last pricing solve was OPTIMAL, no fitting pattern is worth more than `1 + 1e-8` under the final duals |
| ColumnGeneration.MainGcExit | optimization/cg.py:143-171 | from the seed: the seed rows come first, at most `nb_rouleaux` rows are added, every row fits in a roll, and a returned solution is a 0/1 cover of the demand over the final pool |
| ColumnGeneration.BinaryCoverStopsRun | optimization/cg.py:147-166 | on the one-piece instance (width 60, demand 2, roll 100), if the solvers are sound and GLOP's duals are dual feasible, the loop from the seed with at least one round raises `RuntimeError`: from the master, or from the 0/1 master after pricing returns nothing |
| ColumnGeneration.WideSeedCountZero | optimization/cg.py:11 | a piece wider than the roll has seed count `floor(W / w_i) = 0` |
| ColumnGeneration.WidePieceNeverCut | optimization/cg.py:88 | a pattern that fits in a roll cuts no copy of a piece wider than the roll |
| ColumnGeneration.WidePieceNoSupply | optimization/cg.py:48 | a pool of fitting patterns supplies no copy of a piece wider than the roll, whatever the usage |
| ColumnGeneration.WideDemandedPieceStopsRun | optimization/cg.py:148-154 | with a demanded piece wider than the roll and a pool of fitting rows, the first master solve is not OPTIMAL and the loop raises `RuntimeError` |
| ColumnGeneration.WidePieceFailsFromSeed | optimization/cg.py:143-154 | from the seed, a demanded piece wider than the roll gets an all-zero seed row and `main_gc` ends with `RuntimeError` from the master |

## Left out

- The internals of GLOP, SCIP and CBC (`pywraplp`). Each is an oracle constrained only on OPTIMAL replies; non-OPTIMAL statuses carry no further facts.
- LP duality: `GivesDuals` only says GLOP returns one dual per constraint. Dual feasibility (`DualFeasible`) is a separate assumption, and only `MasterDualsFeasible` and `BinaryCoverStopsRun` use it. Strong duality (the duals' value equals the LP optimum) is not modelled, so no lemma relates the pricing threshold to the LP optimum.
- Solver creation failure (`if not solver: raise RuntimeError`, optimization/cg.py:32-33, 75-76, 112-113): creating a solver is I/O outside the model.
- Floating point: widths, duals and objectives are exact reals, and `1e-8` is the exact constant `Eps`. Solver rounding noise is not modelled. Pricing's `solution_value()` entries are integral on OPTIMAL, and they become pattern counts through `Floor`.
- `print` diagnostics (optimization/cg.py:58, 136, 159, 163) and the unused `nb_rouleaux` parameter of `master_problem` (optimization/cg.py:19).
- The pool is a value, not a numpy matrix in place: `np.vstack` allocates a new matrix each round, so there is no aliasing to model.
- `IndexError` paths: `nb_piece` larger than the number of pieces (`requires nbPiece <= |data.pieces|`), duals longer than the piece list, and pool rows narrower than `nb_piece` (`Rectangular`). `main_gc` never produces the last two from a valid call. A negative `nb_piece`, for which `np.zeros` at optimization/cg.py:9 raises `ValueError`, is excluded too: `nbPiece` is a `nat`.
- Zero or negative widths or roll width (`ZeroDivisionError` or meaningless floors): `WellFormed` requires `W > 0` and every `w_i > 0`.
- Random instance generation and string formatting in data_gen/data_generator.py, the benchmark harness main.py, the one-shot MILP in optimization/classic_milp.py, and the older script GC.py.
- Solver time and memory: a call that never returns is not modelled, since every oracle call yields a reply.
