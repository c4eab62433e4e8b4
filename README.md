# mathematical-optimization in Dafny

A model of the numerical core of the C library *mathematical-optimization*,
which minimises a smooth function f: R^n -> R given by the caller as a pair
of C callbacks (the value and the gradient). The model covers four layers:

- **Kernels.** The vector kernels of `src/mymath.c` and `src/myvector.c`: dot
  product, the Manhattan, Euclidean and infinity norms, `x + alpha y`, copy
  and zero. The identity matrix of `src/mymatrix.c`. The successive
  over-relaxation (SOR) solver and Gauss-Seidel. These are methods over Dafny
  arrays with loop invariants. Each is proved equal to a specification
  function on sequences (`Vectors`, `Matrices`, `MyMath.Sor`), and the
  properties the code relies on are lemmas about those functions.
- **Evaluation component.** The evaluation wrapper of
  `src/non_linear_component.c` is the class `NonLinearComponent.Component`.
  Its fields are the last value f, the step alpha and the two evaluation
  counters. Its methods evaluate through the caller's objective and gradient
  and report NaN.
- **Line searches.** These are the Armijo, Wolfe and strong Wolfe searches
  (`src/armijo.c`, `src/wolfe.c`, `src/strong_wolfe.c`), `src/backtracking_wolfe.c`
  and the five routines of `src/line_search.c`. All of them share one
  trial-step loop. `LineSearchComponent.RunSearch` is that loop as a method
  over the component. `LineSearchComponent.Search` specifies it, as the
  recursive function `Run` over the remaining trials. Each C routine is a
  thin method that fixes a `Rule`: the first step, the shrink or grow factor,
  the trial cap, the acceptance test, and whether a NaN gradient aborts.
- **Optimisers.** These are the quasi-Newton method of `src/quasi_newton.c`,
  its older copy `src/quasi_newton_bfgs.c`, and the Fletcher-Reeves nonlinear
  conjugate gradient method of `src/conjugate_gradient.c`.
  - The two quasi-Newton files share one iteration. It is written once, in
    `QuasiNewtonLoop`, and each file maps its exits to its own status
    constants.
  - Both optimisers have the same structure. There is a specification
    function for one iteration (`Iteration`) and a fuel-bounded loop over at
    most `upper_iter` iterations (`Loop`/`Optimise`).
  - Methods work on the arrays x, g, d, b and the work vectors, and are
    proved to leave exactly the state those functions compute.
  - The matrix update formulas live in `QuasiNewtonFormula`, with the secant
    equations proved: H y = s after an H update and B s = y after a B update.

C doubles are modelled as mathematical reals. The caller's objective returns
`Double = Num(real) | NaN`, so the NaN checks of the C code have something to
test. The gradient callback is a function from x and an index to a `Double`.

## Model

| member | source | states |
|---|---|---|
| Vectors.Dot | src/mymath.c:22-33 | specification of dot_product: the sum of x_i y_i over all i; its properties are the SumProd lemmas below |
| Vectors.SumAbs | src/mymath.c:48-61 | specification of manhattan_norm's running sum of \|x_i\| |
| Vectors.MaxAbs | src/mymath.c:78-94 | specification of infinity_norm's running maximum, starting from \|x_0\| |
| Vectors.NormInf | src/mymath.c:78-94 | specification of infinity_norm and norm_infty: the maximum \|x_i\| (characterised by NormInfIsMaximum and NormInfZero) |
| Vectors.Step | src/mymath.c:35-46 | x + alpha y entrywise, with the length of x (the trial point of every line search) |
| Vectors.Neg | src/quasi_newton.c:326 | -v entrywise, with the length of v |
| Vectors.Sub | src/quasi_newton.c:243-246 | x - y entrywise, with the length of x (the s and y of the updates) |
| Vectors.SumProdSymmetric | src/mymath.c:22-33 | the partial dot product is symmetric in its two vectors |
| Vectors.DotSymmetric | src/mymath.c:22-33 | dot(x, y) == dot(y, x) |
| Vectors.SumSquaresNonNegative | src/mymath.c:63-76 | the sum of squares under the square root of the Euclidean norm is never negative |
| Vectors.ProductSigns | src/mymath.c:22-33 | a product of two same-signed factors is non-negative, and positive when both are non-zero |
| Vectors.SumProdSameSigns | src/mymath.c:22-33 | a dot product over entries with pairwise equal signs is non-negative, and positive when some pair of entries are both non-zero |
| Vectors.DotSelfPositive | src/mymath.c:22-33 | x·x > 0 for every non-zero x |
| Vectors.SumAbsNonNegative | src/mymath.c:48-61 | the Manhattan norm is non-negative |
| Vectors.SumAbsBound | src/mymath.c:48-61 | every \|x_i\| is at most the Manhattan norm |
| Vectors.MaxAbsBound | src/mymath.c:78-94 | every \|x_i\| among the first k entries is at most the running maximum |
| Vectors.MaxAbsAttained | src/mymath.c:78-94 | the running maximum equals \|x_j\| for some scanned j |
| Vectors.NormInfIsMaximum | src/mymath.c:78-94 | the infinity norm is non-negative, bounds every \|x_i\| and equals some \|x_k\| |
| Vectors.NormInfZero | src/myvector.c:60-71 | the infinity norm is 0 exactly for the zero vector |
| Vectors.NormInfOfUnit | test/test_mymath.c:80-93 | a unit vector, with +1 or -1 in one place, has infinity norm 1 |
| Vectors.StepAlongZero | src/mymath.c:35-46 | x + alpha·0 == x for every alpha |
| Vectors.StepZero | src/mymath.c:35-46 | x + 0·y == x |
| Vectors.StepSub | src/quasi_newton.c:243-246 | s = (x + alpha d) - x equals alpha d entrywise |
| Vectors.SumProdPrefix | src/mymath.c:22-33 | a partial dot product depends only on the prefixes it has read |
| Vectors.SumProdLinear | src/mymath.c:35-46 | (x + c z)·y == x·y + c (z·y), which is the slope of f along a trial step |
| Vectors.SumProdScale | src/mymath.c:22-33 | (c z)·y == c (z·y) |
| Vectors.SumProdNeg | src/mymath.c:22-33 | x·(-y) == -(x·y) |
| Vectors.SumProdZero | src/mymath.c:22-33 | 0·y == 0 |
| Vectors.RampDotOnes | test/test_mymath.c:35-51 | closed form of the dot product of the test ramp (c, c+1, ...) with the all-ones vector |
| Vectors.DotTestValues | test/test_mymath.c:35-51 | the two dot products test_mymath.c checks are 15 and 45 |
| Matrices.Identity | src/mymatrix.c:27-40 | specification of identity_matrix: an n x n matrix, 1 on the diagonal and 0 elsewhere |
| Matrices.MatVec | src/quasi_newton.c:343-349 | the matrix-vector product, one dot product per row, of length n |
| Matrices.IdentityRowSum | src/mymatrix.c:27-40 | row i of the identity picks out v_i |
| Matrices.IdentityMatVec | src/mymatrix.c:27-40 | I v == v |
| Matrices.IdentitySymmetric | src/mymatrix.c:27-40 | the identity is symmetric |
| MyMath.OffDiagonalResidual | src/mymath.c:135-139 | b_i minus the off-diagonal part of row i times x |
| MyMath.Relaxed | src/mymath.c:140-141 | the over-relaxed value x_i + omega (residual / a_ii - x_i) |
| MyMath.Sweep | src/mymath.c:133-147 | specification of one pass of the row loop: rows i.. relaxed in order, stopping at a zero pivot, with the running maximum change; its properties are SweepFrame, SweepStops, SweepOrder, SweepChange and SweepChangeAttained |
| MyMath.Sor | src/mymath.c:117-150 | specification of successive_over_relaxation: sweeps until the change is at most epsilon or a pivot is zero, at most `sweeps` times; keeps the length of x; its meaning is stated by SorLastSweep and the lemmas after it |
| MyMath.DotProduct | src/mymath.c:22-33 | the loop returns the dot product of x and y |
| MyMath.UpdateStepVector | src/mymath.c:35-46 | x_temp holds x + alpha y entrywise, read from the inputs before the write |
| MyMath.ManhattanNorm | src/mymath.c:48-61 | returns the sum of \|x_i\|, which is non-negative |
| MyMath.EuclideanNorm | src/mymath.c:63-76 | returns sqrt of x·x, with sqrt the caller's square root |
| MyMath.InfinityNorm | src/mymath.c:78-94 | returns max \|x_i\| |
| MyMath.SweepFrame | src/mymath.c:133-147 | a sweep keeps the length of x and leaves the rows before its start untouched |
| MyMath.SweepStops | src/mymath.c:133-143 | a sweep meets only non-zero pivots before it stops; a zero pivot at row r leaves rows r.. as they were |
| MyMath.SweepOrder | src/mymath.c:134-141 | Gauss-Seidel order: each updated row relaxes against the already updated earlier rows and the old later rows |
| MyMath.SweepChange | src/mymath.c:134-146 | the sweep's norm bounds \|x_new_k - x_old_k\| for every row it covers |
| MyMath.SweepChangeAttained | src/mymath.c:134-146 | the sweep's norm is the initial 0 or the change of some row, so it is the maximum change |
| MyMath.SorLastSweep | src/mymath.c:117-150 | SATISFIED holds exactly when the last sweep finished with change <= epsilon; FAILED holds exactly when it hit a zero pivot; x is that sweep's result |
| MyMath.SorSatisfiedSmallChange | src/mymath.c:144-149 | on SATISFIED, no entry moved by more than epsilon in the last sweep |
| MyMath.SorSatisfiedInOrder | src/mymath.c:132-149 | on SATISFIED, every row of x is the relaxed value of the last sweep, in Gauss-Seidel order, and every pivot is non-zero |
| MyMath.SorFailedZeroDiagonal | src/mymath.c:133-143 | on FAILED there is a zero pivot a_rr; the rows before r were already updated, and x_r onwards kept their old values |
| MyMath.SorNonZeroDiagonal | src/mymath.c:133-143 | with no zero diagonal entry, SOR never returns FAILED |
| MyMath.IdentitySweep | src/mymath.c:133-147 | with the identity and omega 1, a sweep copies b into x row by row |
| MyMath.GaussSeidelIdentity | src/mymath.c:101-115 | Gauss-Seidel with the identity from x = 0 ends SATISFIED with x = b, as test/test_mymath.c:124-160 expects |
| MyMath.Residual | src/mymath.c:135-139 | returns b_i - sum_{j != i} a_ij x_j |
| MyMath.RelaxRow | src/mymath.c:140-141 | only x_i changes, to x_i + omega (residual / a_ii - x_i) |
| MyMath.SweepOnce | src/mymath.c:133-147 | one sweep in place: x and the change norm are the results of the sweep function; ok is false exactly at a zero pivot |
| MyMath.SuccessiveOverRelaxation | src/mymath.c:117-150 | status and final x are those of the SOR specification |
| MyMath.GaussSeidel | src/mymath.c:101-115 | Gauss-Seidel is SOR with omega = 1 |
| MyVector.CopyVector | src/myvector.c:25-30 | x ends as the old contents of y |
| MyVector.DotProduct | src/myvector.c:32-40 | returns the dot product |
| MyVector.ZeroVector | src/myvector.c:42-47 | every entry becomes 0 |
| MyVector.UpdateStepVector | src/myvector.c:49-58 | x_temp holds x + alpha y |
| MyVector.NormInfty | src/myvector.c:60-71 | returns max \|x_i\| |
| MyMatrix.IdentityMatrix | src/mymatrix.c:27-40 | the n x n block becomes the identity and no other cell changes |
| NonLinearComponent.AfterFunction | src/non_linear_component.c:57-58 | a value evaluation stores f and adds 1 to iteration_f only |
| NonLinearComponent.AfterGradient | src/non_linear_component.c:73-74 | a gradient evaluation adds 1 to iteration_g only |
| NonLinearComponent.Component.constructor | src/non_linear_component.c:35-49 | counters 0, f = 0, alpha = 0, the caller's function object |
| NonLinearComponent.Component.Function | src/non_linear_component.c:51-63 | stores f(x), counts one call, and reports FUNCTION_NAN exactly when f(x) is NaN |
| NonLinearComponent.Component.FillGradient | src/non_linear_component.c:73 | every non-NaN gradient component is written to g; with no NaN, g is the whole gradient |
| NonLinearComponent.Component.FirstNaN | src/non_linear_component.c:75-79 | reports FUNCTION_NAN exactly when some component of the gradient is NaN |
| NonLinearComponent.Component.Gradient | src/non_linear_component.c:65-81 | fills g, counts one gradient call, and reports FUNCTION_NAN exactly when some entry is NaN |
| NonLinearComponent.Component.FunctionGradient | src/non_linear_component.c:83-104 | counts both calls, and reports FUNCTION_NAN exactly when f or some gradient entry is NaN |
| NonLinearComponent.AfterFunctions | src/non_linear_component.c:57-58 | the counters after a run of objective calls, one AfterFunction per value |
| NonLinearComponent.AfterGradients | src/non_linear_component.c:73-74 | the counters after k gradient calls |
| NonLinearComponent.FunctionCalls | src/non_linear_component.c:51-63 | k objective calls add exactly k to iteration_f, leave iteration_g and alpha unchanged, and leave f as the last value returned |
| NonLinearComponent.GradientCalls | src/non_linear_component.c:65-81 | k gradient calls add exactly k to iteration_g and change no other field |
| LineSearchComponent.DefaultLineSearchParameter | src/line_search_component.c:12-22 | sets step_width 1, xi 0.001, tau 0.5, sigma 0.2, decreasing 0.5 and increasing 2.1, and leaves the other fields as they were |
| LineSearchComponent.TrialPoint | src/wolfe.c:49 | x_temp = x + beta d, of the length of x |
| LineSearchComponent.Judge | src/wolfe.c:49-61 | specification of one trial of the loop body: NaN aborts, a failed Armijo decrease shrinks, then for the Wolfe tests the gradient NaN, curvature and absolute-value branches in the code's order; JudgeAcceptable, JudgeAbort and JudgeBacktrack state what it means |
| LineSearchComponent.Acceptable | src/strong_wolfe.c:55-66 | the acceptance condition as one formula: the Armijo decrease and, for the Wolfe tests, a NaN-free gradient meeting the code's bounds |
| LineSearchComponent.AfterTrial | src/wolfe.c:49-56 | the evaluations one trial makes: one objective call, and one gradient call exactly when the Armijo test passed under a Wolfe rule |
| LineSearchComponent.Run | src/wolfe.c:48-64 | specification of the for loop with `left` trials to go: SATISFIED with alpha = beta on Accept, FUNCTION_NAN on Abort, FAILED when no trials remain, otherwise the next width; characterised by RunTrials and RunCounters |
| LineSearchComponent.Search | src/wolfe.c:42-64 | specification of a whole line search: f(x) first, NaN there returns FUNCTION_NAN, then Run from the rule's first step with its cap; characterised by SearchOutcome |
| LineSearchComponent.Trials | src/armijo.c:48-58 | the sequence of steps the loop tries, in order; its shape is stated by RunTrials, FixedTrials and SearchBacktrackingTrials |
| LineSearchComponent.PositiveOrOne | src/backtracking_wolfe.c:34 | the first step is the given width when positive, else 1, and always positive |
| LineSearchComponent.ArmijoBound | src/armijo.c:53 | the sufficient-decrease bound is f(x) + xi beta g·d |
| LineSearchComponent.JudgeAcceptable | src/wolfe.c:53-61 | a trial is accepted exactly when its acceptance conditions hold |
| LineSearchComponent.JudgeAbort | src/wolfe.c:50-56 | a trial aborts exactly on a NaN value, or on a NaN gradient when the gradient is evaluated and a NaN gradient stops the search |
| LineSearchComponent.RunTrials | src/armijo.c:48-59 | the steps tried form a chain in which each rejected step is multiplied by its width; the status is SATISFIED or FUNCTION_NAN by the last verdict, FAILED when the cap is used up; alpha changes only on success |
| LineSearchComponent.RunCounters | src/wolfe.c:48-64 | iteration_f grows by the number of trials and iteration_g by the gradient evaluations; f is the value at the last trial |
| LineSearchComponent.GradientCallsBound | src/wolfe.c:53-56 | at most one gradient evaluation per trial, and none for the Armijo test |
| LineSearchComponent.RejectWidth | src/line_search.c:209-222 | a rejected step is scaled by the shrink or the grow factor of the rule |
| LineSearchComponent.GeometricPow | src/armijo.c:57 | after k shrinks the step is beta width^k |
| LineSearchComponent.FixedTrials | src/armijo.c:57 | with a fixed width the k-th trial step is the geometric term k |
| LineSearchComponent.SearchOutcome | src/wolfe.c:42-64 | NaN at x gives FUNCTION_NAN after one call; never STEP_WIDTH_FAILED; counter bounds; SATISFIED implies the acceptance test at alpha; FAILED uses every trial; alpha is unchanged unless SATISFIED |
| LineSearchComponent.SearchFirstAcceptable | src/armijo.c:48-58 | every trial before the last was unacceptable, so the accepted step is the first acceptable one |
| LineSearchComponent.SearchFixedTrials | src/armijo.c:42-57 | with a fixed width the trials are step_width width^k, and there are at most upper_iter of them |
| LineSearchComponent.SearchBacktrackingTrials | src/line_search.c:204-222 | in a backtracking search each next step follows the failed condition: shrink after a failed decrease, grow after a failed curvature test |
| LineSearchComponent.JudgeBacktrack | src/line_search.c:211-222 | a single rejected backtracking trial picks the width of the condition it failed |
| LineSearchComponent.SearchIgnoresGradientNaN | src/backtracking_wolfe.c:42-46 | when NaN gradients do not abort, FUNCTION_NAN means the value at the last trial was NaN |
| LineSearchComponent.Trial | src/wolfe.c:49-61 | one loop body: the verdict and the new component state are those of the specification; the Armijo test never writes g_temp |
| LineSearchComponent.RunSearch | src/wolfe.c:42-64 | the trial loop's status and final component state are those of Search |
| Armijo.DefaultArmijoParameter | src/armijo.c:14-23 | sets upper_iter 5000, initial_step 0.5, step_width 1, xi 0.001 and sigma 0.2, and leaves the rest |
| Armijo.ArmijoRule | src/armijo.c:42-57 | armijo's rule: Armijo test, fixed width initial_step, first step step_width, cap upper_iter, a NaN aborts |
| Armijo.ArmijoSearch | src/armijo.c:25-60 | armijo's status and component state are those of the shared search run with its rule; g_temp untouched |
| Armijo.ArmijoOutcome | src/armijo.c:44-59 | no gradient calls; SATISFIED implies f(x + alpha d) <= f(x) + xi alpha g·d; FAILED after exactly upper_iter trials, with alpha unchanged |
| Armijo.ArmijoTrials | src/armijo.c:42-57 | the trials are step_width initial_step^k, at most upper_iter of them |
| Wolfe.DefaultWolfeParameter | src/wolfe.c:14-23 | the same five defaults as armijo |
| Wolfe.WolfeRule | src/wolfe.c:42-62 | wolfe's rule: Wolfe test, fixed width initial_step, first step step_width, cap upper_iter, a NaN gradient aborts |
| Wolfe.WolfeSearch | src/wolfe.c:25-65 | wolfe's status and component state are those of the shared search run with its rule |
| Wolfe.WolfeOutcome | src/wolfe.c:48-64 | SATISFIED implies the Armijo decrease and sigma g·d <= g(x + alpha d)·d with a NaN-free gradient; at most one gradient call per trial; FAILED after upper_iter trials |
| Wolfe.WolfeNaN | src/wolfe.c:50-56 | FUNCTION_NAN exactly when the last trial's value is NaN, or its gradient is evaluated and has a NaN |
| Wolfe.WolfeTrials | src/wolfe.c:42-62 | the trials are step_width initial_step^k, at most upper_iter of them |
| StrongWolfe.DefaultStrongWolfeParameter | src/strong_wolfe.c:16-25 | the same five defaults as armijo |
| StrongWolfe.StrongWolfeRule | src/strong_wolfe.c:44-68 | strong_wolfe's rule: strong Wolfe test, fixed width initial_step, first step step_width, cap upper_iter, a NaN gradient aborts |
| StrongWolfe.StrongWolfeSearch | src/strong_wolfe.c:27-71 | strong_wolfe's status and component state are those of the shared search run with its rule |
| StrongWolfe.StrongWolfeOutcome | src/strong_wolfe.c:55-66 | SATISFIED implies the Armijo decrease, the Wolfe curvature condition and the code's absolute-value test -sigma g·d <= \|g(x + alpha d)·d\| |
| StrongWolfe.StrongWolfeTrials | src/strong_wolfe.c:44-68 | the trials are step_width initial_step^k, at most upper_iter of them |
| BacktrackingWolfe.BacktrackingWolfeRule | src/backtracking_wolfe.c:33-58 | backtracking_wolfe's rule: Wolfe test, widths decreasing/increasing, first step step_width or 1, cap 10000, the gradient's status ignored |
| BacktrackingWolfe.BacktrackingWolfeSearch | src/backtracking_wolfe.c:18-63 | status and component state are those of the shared search with the backtracking rule |
| BacktrackingWolfe.BacktrackingWolfeFirst | src/backtracking_wolfe.c:33-34 | tau has no effect on the result, and the first trial is step_width when positive, else 1 |
| BacktrackingWolfe.BacktrackingWolfeOutcome | src/backtracking_wolfe.c:40-62 | SATISFIED implies the Armijo decrease and the Wolfe curvature condition; FAILED after 10000 trials, with alpha unchanged |
| BacktrackingWolfe.BacktrackingWolfeNaN | src/backtracking_wolfe.c:42-46 | FUNCTION_NAN comes only from a NaN value, because the gradient's status is ignored |
| BacktrackingWolfe.BacktrackingWolfeSteps | src/backtracking_wolfe.c:45-58 | each next step is decreasing x beta after a failed decrease, increasing x beta after a failed curvature test |
| LineSearch.CappedRule | src/line_search.c:41-62 | the rule shared by the five routines of line_search.c: the given test and widths, first step step_width or 1, cap 10000, the gradient's status ignored |
| LineSearch.LineSearchArmijo | src/line_search.c:18-63 | status and component state are those of the shared search with the Armijo test, factor tau and cap 10000 |
| LineSearch.LineSearchWolfe | src/line_search.c:65-114 | the same with the Wolfe test |
| LineSearch.LineSearchStrongWolfe | src/line_search.c:116-169 | the same with the strong Wolfe test |
| LineSearch.LineSearchBacktrackingWolfe | src/line_search.c:171-227 | the same with the Wolfe test and the decreasing/increasing widths |
| LineSearch.LineSearchBacktrackingStrongWolfe | src/line_search.c:229-291 | the same with the strong Wolfe test and the decreasing/increasing widths |
| LineSearch.CappedOutcome | src/line_search.c:41-62 | between 1 and 10000 trials starting at step_width (or 1); FUNCTION_NAN only from a NaN value; FAILED after 10000 trials; alpha unchanged unless SATISFIED |
| LineSearch.CappedAccepts | src/line_search.c:52-57 | SATISFIED implies the Armijo decrease, plus the curvature test of the chosen variant |
| LineSearch.CappedTauTrials | src/line_search.c:47-58 | with a fixed tau the k-th trial is first x tau^k |
| LineSearch.CappedBacktrackSteps | src/line_search.c:262-286 | each next backtracking step has the factor of the condition that failed |
| LineSearchChoice.KindRule | src/include/quasi_newton.h:16-25 | whichever of armijo, wolfe or strong_wolfe is passed, its rule takes step_width, upper_iter, initial_step, xi and sigma from the parameter and aborts on a NaN gradient |
| LineSearchChoice.CallLineSearch | src/quasi_newton.c:211-212 | the call through line_search_t has the chosen search's status and component state |
| LineSearchChoice.ChosenSearchOutcome | src/quasi_newton.c:211-221 | any chosen search returns only FUNCTION_NAN, SATISFIED or FAILED; SATISFIED implies the Armijo decrease; a NaN at x gives FUNCTION_NAN |
| LineSearchChoice.ChosenSearchZeroDirection | src/quasi_newton.c:211-221 | along d = 0 the first trial is accepted: SATISFIED with alpha = step_width, or FAILED when upper_iter is 0 |
| QuasiNewtonFormula.SelectFormula | src/quasi_newton.c:296-315 | the formula the parameter's letter chooses (its two cases are stated by SelectFormulaCases) |
| QuasiNewtonFormula.HDirection | src/quasi_newton.c:366-383 | specification of the H direction search: d = -H g, of length n |
| QuasiNewtonFormula.BDirection | src/quasi_newton.c:317-330 | specification of the B direction search: SOR on B d = -g, started from the old d |
| QuasiNewtonFormula.SelectFormulaCases | src/quasi_newton.c:296-315 | 'b' or 'B' selects the B formula; every other letter selects H |
| QuasiNewtonFormula.HDirectionIdentity | src/quasi_newton.c:366-383 | with H = I the direction is -g |
| QuasiNewtonFormula.HDirectionZero | src/quasi_newton.c:366-383 | with H = 0 the direction is 0 |
| QuasiNewtonFormula.HDirectionDescent | src/quasi_newton.c:366-383 | with positive definite H and g != 0, d = -H g is a descent direction: g·d < 0 |
| QuasiNewtonFormula.BDirectionZeroFails | src/quasi_newton.c:317-330 | with B = 0, solving B d = -g by SOR fails at the first pivot and leaves d as it was |
| QuasiNewtonFormula.HUpdate | src/quasi_newton.c:385-418 | the updated H is n x n, and the work vector has length n |
| QuasiNewtonFormula.BUpdate | src/quasi_newton.c:332-364 | specification of the B update: an n x n matrix and the work vector B s; its guards and secant equation are stated by BUpdateWhen and BSecant |
| QuasiNewtonFormula.HUpdateWhen | src/quasi_newton.c:408-417 | H is updated exactly when s·y > 0, else NOT_UPDATE with H unchanged; the work vector holds H y |
| QuasiNewtonFormula.BUpdateWhen | src/quasi_newton.c:355-363 | B is updated exactly when s·y > 0 and s·Bs != 0; NOT_UPDATE exactly when s·y <= 0; otherwise B is unchanged; the work vector holds B s |
| QuasiNewtonFormula.HRow | src/quasi_newton.c:409-414 | each updated row of H is the old row plus two scaled vectors, s and H y |
| QuasiNewtonFormula.HSecantRow | src/quasi_newton.c:409-414 | each updated row dotted with y gives s_i |
| QuasiNewtonFormula.HSecant | src/quasi_newton.c:385-418 | secant equation of the inverse update: H' y == s |
| QuasiNewtonFormula.BRow | src/quasi_newton.c:356-360 | each updated row of B is the old row plus two scaled vectors, Bs and y |
| QuasiNewtonFormula.BSecantRow | src/quasi_newton.c:356-360 | each updated row dotted with s gives y_i |
| QuasiNewtonFormula.BSecant | src/quasi_newton.c:332-364 | secant equation of the direct update: B' s == y |
| QuasiNewtonFormula.UpdateSymmetric | src/quasi_newton.c:355-362 | both updates keep a symmetric matrix symmetric |
| QuasiNewtonFormula.UpdateFor | src/quasi_newton.c:248-257 | the update of the chosen formula, an n x n matrix and a work vector of length n |
| QuasiNewtonFormula.DirectionSearchH | src/quasi_newton.c:366-383 | d holds -H g |
| QuasiNewtonFormula.Negate | src/quasi_newton.c:326 | g becomes -g entrywise |
| QuasiNewtonFormula.DirectionSearchB | src/quasi_newton.c:317-330 | d and the status are those of SOR on B d = -g started from the old d; g ends as it began |
| QuasiNewtonFormula.MatVecInto | src/quasi_newton.c:343-349 | w holds m v |
| QuasiNewtonFormula.TwoDots | src/quasi_newton.c:403-406 | returns the two dot products the update needs |
| QuasiNewtonFormula.AddHIncrement | src/quasi_newton.c:409-414 | every entry of H receives the inverse-update increment (s·y, y·Hy form) |
| QuasiNewtonFormula.UpdateMatrixH | src/quasi_newton.c:385-418 | the status, the new H and the work vector are those of the H update |
| QuasiNewtonFormula.AddBIncrement | src/quasi_newton.c:356-360 | every entry of B receives the direct-update increment (s·Bs, s·y form) |
| QuasiNewtonFormula.UpdateMatrixB | src/quasi_newton.c:332-364 | the status, the new B and the work vector are those of the B update |
| QuasiNewtonLoop.Direction | src/quasi_newton.c:206-209 | the direction search of the chosen formula; the H formula always reports success; d has length n |
| QuasiNewtonLoop.Iteration | src/quasi_newton.c:205-260 | specification of one loop body: direction search, then Proceed; keeps the shapes of the state; its meaning is stated by IterationConverged, IterationContinues, IterationSecant and IterationStops |
| QuasiNewtonLoop.Proceed | src/quasi_newton.c:211-240 | the line search, the trial point, its gradient and the convergence test, in the code's order; keeps the shapes of the state |
| QuasiNewtonLoop.Advance | src/quasi_newton.c:242-260 | s, y, the matrix update and the move to the trial point; a zero-curvature B update stops the loop |
| QuasiNewtonLoop.Loop | src/quasi_newton.c:204-261 | specification of the for loop with `left` iterations to go, returning the last exit; its meaning is stated by LoopSymmetric, LoopGradientHeld, LoopExits and LoopConverged |
| QuasiNewtonLoop.Resume | src/quasi_newton.c:204-261 | one pass, then return on a stop or go on with one iteration fewer |
| QuasiNewtonLoop.Optimise | src/quasi_newton.c:204 | the loop run for upper_iter iterations, none when upper_iter <= 0 |
| QuasiNewtonLoop.IterationConverged | src/quasi_newton.c:237-240 | a converged iteration leaves x, g and the matrix as they were, and the gradient at x + alpha d is NaN-free with infinity norm below the tolerance |
| QuasiNewtonLoop.IterationContinues | src/quasi_newton.c:223-260 | a continuing iteration moves to x + alpha d with the Armijo decrease, stores the gradient there (norm >= tolerance), and updates the matrix from s and y (updated exactly when s·y > 0) |
| QuasiNewtonLoop.IterationSecant | src/quasi_newton.c:248-257 | after an update, the new H satisfies H y = s and the new B satisfies B s = y |
| QuasiNewtonLoop.IterationIgnoresDirection | src/quasi_newton.c:206-209 | with the H formula, the previous d has no influence on the iteration |
| QuasiNewtonLoop.IterationStops | src/quasi_newton.c:211-240 | every stop except the zero-curvature one leaves x, g and the matrix unchanged |
| QuasiNewtonLoop.LoopSymmetric | src/quasi_newton.c:204-261 | a symmetric start matrix stays symmetric through the whole loop |
| QuasiNewtonLoop.IterationGradientHeld | src/quasi_newton.c:227-260 | g stays the gradient at x from one iteration to the next |
| QuasiNewtonLoop.LoopGradientHeld | src/quasi_newton.c:204-261 | at the loop's end g is the gradient at x |
| QuasiNewtonLoop.LoopIgnoresStartDirection | src/quasi_newton.c:158-168 | with the H formula, whatever the malloc'd d held does not influence the run |
| QuasiNewtonLoop.IterationFromZeroMatrix | src/quasi_newton_bfgs.c:196-251 | from H = 0 the iterate and the matrix never change, and a continuing iteration reports NOT_UPDATE |
| QuasiNewtonLoop.LoopFromZeroMatrix | src/quasi_newton_bfgs.c:196-251 | from H = 0 the whole loop keeps x and H, and ends converged, with NOT_UPDATE, or with a line-search NaN or failure |
| QuasiNewtonLoop.IterationExits | src/quasi_newton.c:206-257 | an iteration never stops on a SOR success, and never continues after a zero-curvature update |
| QuasiNewtonLoop.LoopDirectionExit | src/quasi_newton.c:206-209 | the loop never ends with a SOR-success exit |
| QuasiNewtonLoop.LoopLastUpdate | src/quasi_newton.c:248-257 | the loop never runs out of iterations with a zero-curvature last update |
| QuasiNewtonLoop.LoopExits | src/quasi_newton.c:204-261 | both of the above together |
| QuasiNewtonLoop.LoopConverged | src/quasi_newton.c:233-240 | a converged loop ends where the gradient at x + alpha d has infinity norm below the tolerance |
| QuasiNewtonLoop.PassOf | src/quasi_newton.c:204-261 | a pass reports a stop exactly when the iteration stopped |
| QuasiNewtonLoop.Differences | src/quasi_newton.c:243-246 | s = x_temp - x and y = g_temp - g |
| QuasiNewtonLoop.Iterate | src/quasi_newton.c:205-260 | one pass over the arrays leaves exactly the state of the iteration function |
| QuasiNewtonLoop.SearchAlong | src/quasi_newton.c:211-240 | line search, trial point, gradient and convergence test leave the state the specification computes |
| QuasiNewtonLoop.UpdateAndMove | src/quasi_newton.c:242-260 | s, y, the matrix update and the copies into x and g leave the state the specification computes |
| QuasiNewtonLoop.LoopBody | src/quasi_newton.c:205-260 | one body of the for loop advances the loop specification by one iteration |
| QuasiNewtonLoop.RunIterations | src/quasi_newton.c:204-261 | the for loop's exit and final arrays are those of Optimise for upper_iter iterations |
| QuasiNewton.StatusOf | src/quasi_newton.c:206-257 | how each loop exit maps to a status, in both directions; SATISFIED for convergence and also for an exhausted loop whose last update succeeded (line 248) |
| QuasiNewton.Solve | src/quasi_newton.c:155-261 | specification of quasi_newton once x and b are chosen: the memory, function, parameter and initial-gradient checks, then Start and Optimise; keeps the shapes of x and b; its meaning is stated by SatisfiedMeans, NoIterations and DefaultsStartSteepest |
| QuasiNewton.DefaultQuasiNewtonParameter | src/quasi_newton.c:287-294 | formula 'h', tolerance 1e-8, upper_iter 5000 |
| QuasiNewton.Configure | src/quasi_newton.c:188 | the formula comes from the parameter's letter, and the rest is passed through |
| QuasiNewton.Start | src/quasi_newton.c:199-203 | the loop starts at x0 with the given matrix, g = the gradient at x0, and one gradient call counted |
| QuasiNewton.QuasiNewton | src/quasi_newton.c:85-285 | for a NULL x the start is 0, and for a NULL b the identity; the status, and the caller's x and b, are those of Solve |
| QuasiNewton.CheckedRun | src/quasi_newton.c:170-194 | the function-object and parameter checks, in the code's order, then the run |
| QuasiNewton.Minimise | src/quasi_newton.c:199-261 | the initial gradient, then the loop in the workspace, with the status of Solve |
| QuasiNewton.IterateInWorkspace | src/quasi_newton.c:162-168 | the loop over the work arrays ends in the state Optimise computes |
| QuasiNewton.SatisfiedMeans | src/quasi_newton.c:237-257 | SATISFIED means memory, functions and a parameter were present, and the loop converged or ran out after a successful update |
| QuasiNewton.SatisfiedExit | src/quasi_newton.c:237-257 | SATISFIED from any exit other than a successful direction search means convergence or an exhausted loop after an update |
| QuasiNewton.DefaultsStartSteepest | src/quasi_newton.c:142-151 | with the default parameter and identity b, the first direction is -g |
| QuasiNewton.HIgnoresStorage | src/quasi_newton.c:158-168 | with the H formula, the uninitialised d does not affect the result |
| QuasiNewton.NoIterations | src/quasi_newton.c:204 | with upper_iter <= 0 the loop body never runs: x and b are untouched and the status is the unassigned one |
| QuasiNewtonBfgs.Solve | src/quasi_newton_bfgs.c:151-251 | specification of quasi_newton_bfgs once x and b are chosen: the memory, function, parameter and initial-gradient checks, then the shared loop; keeps the shapes of x and b; its meaning is stated by FailedMeansSorFailed, SameIterates and the zero-default lemmas |
| QuasiNewtonBfgs.DefaultQuasiNewtonBfgsParameter | src/quasi_newton_bfgs.c:277-284 | formula 'h', tolerance 1e-8, upper_iter 5000 |
| QuasiNewtonBfgs.StatusOf | src/quasi_newton_bfgs.c:196-247 | how each loop exit maps to a status, in both directions: SATISFIED, FAILED from SOR, FUNCTION_NAN, NOT_UPDATE, LINE_SEARCH_FAILED |
| QuasiNewtonBfgs.DefaultMatrix | src/quasi_newton_bfgs.c:131-152 | a NULL b becomes the n x n zero matrix, not the identity |
| QuasiNewtonBfgs.QuasiNewtonBfgs | src/quasi_newton_bfgs.c:96-275 | for a NULL x the start is 0, and for a NULL b the zero matrix; the status, x and b are those of Solve |
| QuasiNewtonBfgs.CheckedRun | src/quasi_newton_bfgs.c:166-189 | the function-object and parameter checks, in the code's order, then the run |
| QuasiNewtonBfgs.ZeroFill | src/quasi_newton_bfgs.c:144-148 | every entry of the allocated matrix becomes 0 |
| QuasiNewtonBfgs.Minimise | src/quasi_newton_bfgs.c:192-251 | the initial gradient, then the loop, with the status of Solve |
| QuasiNewtonBfgs.IterateInWorkspace | src/quasi_newton_bfgs.c:153-164 | the loop over the work arrays ends in the state Optimise computes |
| QuasiNewtonBfgs.FailedMeansSorFailed | src/quasi_newton_bfgs.c:198-200 | FAILED only comes from the SOR direction search, so only with the B formula |
| QuasiNewtonBfgs.HNeverFails | src/quasi_newton_bfgs.c:356-373 | with the H formula the loop never ends with a direction failure |
| QuasiNewtonBfgs.SameIterates | src/quasi_newton_bfgs.c:196-251 | from the same inputs quasi_newton_bfgs and quasi_newton reach the same x and matrix, with corresponding statuses |
| QuasiNewtonBfgs.ZeroDefaultStalls | src/quasi_newton_bfgs.c:144-148 | with b NULL and the H formula, x is never moved and the matrix stays zero |
| QuasiNewtonBfgs.ZeroDefaultFailsB | src/quasi_newton_bfgs.c:144-148 | with b NULL and the B formula, the first SOR meets a zero pivot and the run ends FAILED with x untouched |
| QuasiNewtonBfgs.IdentityStartDescends | src/quasi_newton.c:142-151 | by contrast, from the identity the first H direction is -g, a descent direction when g != 0 |
| ConjugateGradient.DefaultConjugateGradientParameter | src/conjugate_gradient.c:184-190 | tolerance 1e-8, upper_iter 5000 |
| ConjugateGradient.FletcherReeves | src/conjugate_gradient.c:151-157 | beta (g·g) == g_temp·g_temp |
| ConjugateGradient.FletcherReevesNonNegative | src/conjugate_gradient.c:151-157 | beta >= 0, and beta == 0 exactly when the new gradient is 0 |
| ConjugateGradient.NextDirectionSlope | src/conjugate_gradient.c:159-161 | g_temp·d_new == beta (g_temp·d) - g_temp·g_temp, which is negative after an exact line search with g_temp != 0 |
| ConjugateGradient.Start | src/conjugate_gradient.c:108-115 | the loop starts at x0 with g its gradient and d = -g |
| ConjugateGradient.StartDescends | src/conjugate_gradient.c:113-115 | the first direction has slope -g·g, negative when g != 0 |
| ConjugateGradient.StatusOf | src/include/conjugate_gradient.h:16-25 | the exits map to SATISFIED, FUNCTION_NAN, LINE_SEARCH_FAILED, the unassigned status and a division by zero, in both directions |
| ConjugateGradient.Configure | src/conjugate_gradient.c:89 | the caller's functions, line search and tolerance |
| ConjugateGradient.NextDirection | src/conjugate_gradient.c:159-161 | d' = -g' + beta d, of length n; its slope is stated by NextDirectionSlope |
| ConjugateGradient.Iteration | src/conjugate_gradient.c:117-164 | specification of one loop body: line search, trial point, gradient, convergence test, beta and the new direction; keeps the shapes of the state |
| ConjugateGradient.Loop | src/conjugate_gradient.c:116-166 | specification of the for loop with `left` iterations to go; its meaning is stated by LoopKept and LoopConverged |
| ConjugateGradient.Optimise | src/conjugate_gradient.c:116 | the loop run for upper_iter iterations, none when upper_iter <= 0 |
| ConjugateGradient.Solve | src/conjugate_gradient.c:70-166 | specification of conjugate_gradient once x is chosen: the memory, function, parameter and initial-gradient checks, then Start and Optimise; keeps the length of x; its meaning is stated by SatisfiedMeans, NeverDividesByZero and NoIterations |
| ConjugateGradient.IterationContinues | src/conjugate_gradient.c:118-164 | a continuing iteration moves to x + alpha d with the Armijo decrease, keeps g the gradient there (norm >= tolerance), and sets d to the Fletcher-Reeves direction |
| ConjugateGradient.IterationConverged | src/conjugate_gradient.c:144-147 | a converged iteration leaves x, g and d as they were, with the gradient at x + alpha d NaN-free and below the tolerance |
| ConjugateGradient.IterationKept | src/conjugate_gradient.c:140-157 | with a positive tolerance the iteration never divides by g·g = 0, and the invariant carries on |
| ConjugateGradient.LoopKept | src/conjugate_gradient.c:116-166 | the whole loop never divides by zero |
| ConjugateGradient.NeverDividesByZero | src/conjugate_gradient.c:151-157 | with a positive tolerance conjugate_gradient never divides by zero |
| ConjugateGradient.LoopConverged | src/conjugate_gradient.c:140-147 | a converged loop ends where the gradient at x + alpha d is below the tolerance |
| ConjugateGradient.SatisfiedMeans | src/conjugate_gradient.c:144-147 | SATISFIED means the inputs were present and the final gradient norm is below the tolerance |
| ConjugateGradient.NoIterations | src/conjugate_gradient.c:116 | with upper_iter <= 0 the loop never runs: x untouched, status unassigned |
| ConjugateGradient.PassOf | src/conjugate_gradient.c:116-166 | a pass reports a stop, with its exit, exactly when the iteration stopped |
| ConjugateGradient.SteepestDirection | src/conjugate_gradient.c:113-115 | d holds -g |
| ConjugateGradient.SquaredNorms | src/conjugate_gradient.c:151-156 | returns g·g and g_temp·g_temp |
| ConjugateGradient.UpdateDirection | src/conjugate_gradient.c:159-161 | d holds -g_temp + beta d_old |
| ConjugateGradient.Iterate | src/conjugate_gradient.c:117-164 | one pass over the arrays leaves exactly the state of the iteration function |
| ConjugateGradient.RunIterations | src/conjugate_gradient.c:116-166 | the for loop's exit and final arrays are those of Optimise for upper_iter iterations |
| ConjugateGradient.ConjugateGradient | src/conjugate_gradient.c:39-182 | for a NULL x the start is 0; the status and the caller's x are those of Solve |
| ConjugateGradient.Minimise | src/conjugate_gradient.c:107-166 | the initial gradient, d = -g and the loop, with the status of Solve |

## Left out

- I/O: `print_iteration_info`, `print_result_info` and `src/print_message.c` only print. The drivers (`driver*.c`) and `test/test_line_search.c` are programs, not library code, and are not modelled.
- Memory: every `malloc` failure of an optimiser is the single boolean parameter `outOfMemory`, checked before anything else. `free`, the leaks on early `goto result` paths and the layout of the work storage are not modelled.
- Storage contents: the direction d comes from `malloc` and is uninitialised. It is the parameter `dStart`. With the H formula d is overwritten before it is read, as stated by `QuasiNewtonLoop.LoopIgnoresStartDirection` and `QuasiNewton.HIgnoresStorage`. With the B formula, SOR starts from it.
- IEEE arithmetic
  - Doubles are unbounded exact reals. Rounding, overflow and infinities are not modelled.
  - NaN exists only in the caller's objective and gradient (`Double`).
  - The NaN tests the quasi-Newton helpers apply to values they compute themselves, such as `Hg[i] != Hg[i]` and `sBs != sBs`, can never fire under real arithmetic.
- sqrt: `euclidean_norm` takes the square root as the parameter `sqrt`, because the C library's `sqrt` works on doubles.
- The caller's callbacks: the objective and the gradient are uninterpreted Dafny functions in the function object. `evaluate_function` and `evaluate_gradient`, which `src/line_search.c` and `src/backtracking_wolfe.c` call, are declared in `src/include/non_linear_component.h` but defined in no file of the library. They are modelled by the component's `Function` and `Gradient` methods.
- NonLinearComponent.Component.FillGradient: for a NaN component of the gradient, the entry of g is left unconstrained, where C writes the NaN itself. Only a NaN-free gradient determines g completely.
- SOR iteration count: `successive_over_relaxation` loops until it succeeds or fails, with no bound. The model takes a fuel parameter `sweeps` and reports the model-only status `SweepLimit` when the fuel runs out, which the optimisers report as `SorSweepLimit`.
- Status constants the code uses but no header defines:
  - `quasi_newton.c` uses `NON_LINEAR_FUNCTION_OBJECT_NAN`, `NON_LINEAR_OUT_OF_MEMORY`, `NON_LINEAR_NO_FUNCTION`, `NON_LINEAR_NO_PARAMETER`, `NON_LINEAR_LINE_SEARCH_FAILED` and `NON_LINEAR_NOT_UPDATE`, which `src/include/non_linear_component.h` does not define.
  - `wolfe.c` also tests `NON_LINEAR_FUNCTION_OBJECT_NAN`.
  - The model reads each of them as the status its name describes; the object NaN is read as `NON_LINEAR_FUNCTION_NAN`.
- Header mismatches
  - `quasi_newton.c` calls `initialize_non_linear_component` with four arguments; the model uses the three-argument definition.
  - The struct in `src/include/quasi_newton_bfgs.h` lacks `formula` and `upper_iter`, which the code reads; the model gives the parameter both fields.
- Integer widths: the model uses unbounded integers, and the iteration caps of Armijo, Wolfe, strong Wolfe and `quasi_newton_bfgs` are `nat`s. In `armijo.c:36`, `strong_wolfe.c:38` and `quasi_newton_bfgs.c:107` the loop counter `iter` is an `unsigned int`, so `iter <= upper_iter` converts a negative `upper_iter` to a huge unsigned bound (and -1 to one the counter can never pass). Those negative bounds are not modelled: they would need 32-bit wrap-around of the counter. `wolfe.c:36` uses a signed counter, where a negative `upper_iter` would mean zero trials and LINE_SEARCH_FAILED; the `nat` cap leaves that case out too. The declaration of `LineSearchParameter`, which holds the line searches' `upper_iter`, is not part of this model; `QuasiNewtonBFGSParameter` in `src/include/quasi_newton_bfgs.h` has no `upper_iter` field at all. `quasi_newton` and `conjugate_gradient` use a signed `int` counter and bound, and their model handles a negative `upper_iter` as zero iterations.
- Line-search choice: `line_search_t` has the signature of `armijo`, `wolfe` and `strong_wolfe` only. The optimisers choose among those three (`LineSearchChoice.LineSearchKind`). The routines of `src/line_search.c` and `backtracking_wolfe` cannot be passed to them and are modelled on their own.
- `check_line_search` (`src/line_search.c:302-311`) lies inside the `#if 0` block of lines 293-313, so it is not compiled; it is not modelled.
- Statuses that exist only in the model:
  - `Unassigned`: the uninitialised `status` variable that `quasi_newton`, `quasi_newton_bfgs` and `conjugate_gradient` return when the loop runs zero times, or runs out without setting it.
  - `DivisionByZero`: a B update with s·y > 0 and s·Bs = 0, and a conjugate-gradient iteration with g·g = 0. In C these divide by zero.
- Empty problems: n >= 1 is required everywhere, because the kernels read `x[0]` before their loops (`infinity_norm`, `norm_infty`).
- `vector_delete`, `matrix_delete` and the other helpers of `src/include/myvector.h` that only allocate or free memory are not modelled.
- SATISFIED exit: the optimisers return SATISFIED before the final `memcpy`, so the caller's x holds the iterate before the last step. The model reproduces this; `QuasiNewtonLoop.IterationConverged` and `ConjugateGradient.IterationConverged` state it.
- Convergence theory (global convergence, rates) is not claimed. The lemmas are about single iterations and loop invariants.
- QuasiNewton.Solve, QuasiNewtonBfgs.Solve and ConjugateGradient.Solve: their own contracts state only the shapes of the result. What they mean is stated by the lemmas beside them and by the methods that are proved equal to them.
