# benchmark_tv in Dafny

A model of the core of `benchmark_tv`, a benchopt benchmark of total-variation (TV)
regularised image restoration. It covers:

- the per-channel finite-difference gradient `grad_rgb` of a channel-first image;
- the objective, which stores the problem, hands it to the solvers and measures
  anisotropic and isotropic TV;
- the five solvers: ADMM, Chambolle-Pock, Condat-Vu, Douglas-Rachford and
  Forward-Backward. The model includes each one's skip rule, `set_objective`, step size,
  fixed-count iteration, final objective and result name.

Layout:

- `tensor.dfy` (module `Tensor`): tensors as the solvers see them.
  A tensor is a flat `seq<real>`, combined entry by entry.
- `deepinv.dfy` (module `DeepInv`): the library operators, gathered in one `Library`
  value of uninterpreted functions:
  - the gradient `nabla` and its adjoint;
  - the TV and L12 priors' prox and value;
  - the L2 data term's value, gradient and prox;
  - the forward operator;
  - the optimiser step.
- `iteration.dfy` (module `Iteration`): `Iterate(step, s, n)`, the n-fold application
  of a step, and the lemma that a fixed point of the step stays fixed.
- `solver_common.dfy` (module `SolverCommon`): the skip rule and the result record that
  all solvers share.
- One module per solver. Each defines a `Config`, a `Step` and an `Objective`, plus a
  class `Solver` whose `Run` is a `for` loop. ADMM, Chambolle-Pock, Condat-Vu and
  Douglas-Rachford also define a state datatype and its `Init`; their loops are proved
  to compute `Iterate(StepMap(config), Init(...), nIter)`. Forward-Backward's state is
  the image itself, and its loop is proved to compute `Iterate(StepMap(config), y, nIter)`.
- `matrix_op.dfy` (module `MatrixOp`): `GradRgb` on an `array3<real>`, filled in place
  one channel at a time, proved against the entry functions `GradH` and `GradV`.
- `objective.dfy` (module `TvObjective`): the TV values as sums over the image, and the
  class `Objective`.

## Model

| member | source | states |
|---|---|---|
| SolverCommon.SkipAnisotropic | solvers/ADMM.py:22-25 | skips exactly when isotropy is "anisotropic", with the message "solver does not work with anisotropic regularization"; otherwise no skip and no message |
| MatrixOp.GradRgb | benchmark_utils/matrix_op.py:4-13 | gh and gv are new arrays of u's shape; needs three channels; every entry of gh (gv) is the row (column) forward difference of channels 0..2, zero on the padded last row (column) and zero on every channel from 3 on |
| MatrixOp.FillRowDifferences | benchmark_utils/matrix_op.py:10 | channel c becomes the row differences of u's channel c padded with a zero last row; the other channels are unchanged |
| MatrixOp.FillColumnDifferences | benchmark_utils/matrix_op.py:11 | channel c becomes the column differences padded with a zero last column; the other channels are unchanged |
| MatrixOp.PaddingIsZero | benchmark_utils/matrix_op.py:8-11 | the last row of gh, the last column of gv and all channels from 3 on are zero |
| MatrixOp.ConstantChannelHasZeroGradient | benchmark_utils/matrix_op.py:10-11 | a channel holding one value has zero gradient in both directions |
| MatrixOp.GradLinear | benchmark_utils/matrix_op.py:10-11 | the gradient of a*u + b*w is a times that of u plus b times that of w, in both directions |
| TvObjective.Term | objective.py:42-48 | each summand, abs(gh) + abs(gv) or a root of gh^2 + gv^2, is nonnegative when the root is |
| TvObjective.RowSum | objective.py:44 | a row's sum is nonnegative when the root is, and zero when all its summands are |
| TvObjective.ChannelSum | objective.py:44 | a channel's sum is nonnegative when the root is, and zero when all its summands are |
| TvObjective.ImageSum | objective.py:48 | the sum over every entry is nonnegative when the root is, and zero when all summands are |
| TvObjective.AnisotropicTvValue | objective.py:46-48 | for an image of at least three channels, the sum of abs(gh) + abs(gv) over the image is never negative |
| TvObjective.IsotropicTvValue | objective.py:42-44 | for an image of at least three channels, the sum of sqrt(gh^2 + gv^2) is never negative when sqrt returns nonnegative values |
| TvObjective.ConstantImageHasZeroTv | objective.py:42-48 | an image constant within each of channels 0..2 has zero anisotropic and zero isotropic TV |
| TvObjective.Objective.constructor | objective.py:13-18 | the objective holds the grid point reg, delta, isotropy, data_fit it was created for |
| TvObjective.Objective.SetData | objective.py:21-26 | stores A, y, Anorm2, x_true and type_A, and writes nothing else |
| TvObjective.Objective.EvaluateResult | objective.py:28-29 | the score is the reported objective value, unchanged |
| TvObjective.Objective.GetOneResult | objective.py:31-32 | the template result is all zero and has y's shape |
| TvObjective.Objective.GetObjective | objective.py:34-40 | hands over the stored A, Anorm2 and y with the objective's reg, data_fit and isotropy |
| TvObjective.Objective.SaveFinalResults | objective.py:50-52 | four artefacts: the title name + ", type_A = " + type_A, then y, x_true and u |
| TvObjective.SetDataThenGetObjective | objective.py:21-40 | after set_data, get_objective returns exactly the A, Anorm2 and y that were set |
| Admm.GridGammaPositive | solvers/ADMM.py:20 | every grid value of gamma is positive, so `Run`'s requires gamma != 0 holds on the grid (used by `Admm.SetObjectiveThenRun`) and `Func` is nonnegative there |
| Admm.Func | solvers/ADMM.py:10-15 | the loss 0.5 * sum((L(x) - yk + vk)^2) + sum((A(x) - y)^2) / (2 gamma) is nonnegative for positive gamma and zero when both residuals vanish |
| Admm.DualUnchangedIff | solvers/ADMM.py:53-55 | the dual update leaves vk unchanged exactly when the new yk equals L of the new xk |
| Admm.Solver.constructor | solvers/ADMM.py:20 | the solver holds the gamma of its grid point |
| Admm.Solver.Skip | solvers/ADMM.py:22-25 | skips exactly the anisotropic problems, with the source's message |
| Admm.Solver.SetObjective | solvers/ADMM.py:27-30 | stores A, reg, y, data_fit and isotropy and writes nothing else |
| Admm.Solver.Run | solvers/ADMM.py:32-59 | out is the nIter-th iterate from xk = yk = vk = 0; each iteration runs the optimiser step on the loss at the current yk and vk, then yk := prox(vk + L(xk), reg/gamma), then vk := vk + L(xk) - yk; zero iterations give the zero image; obj is the data term plus reg times the L12 value of L(out) |
| Admm.SetObjectiveThenRun | solvers/ADMM.py:20-59 | for every grid gamma, a fresh solver after set_objective can run, and its output and objective are the ADMM iterate and objective of the problem passed in |
| Admm.Solver.GetResult | solvers/ADMM.py:61-63 | the name is "ADMM DeepInv[gamma=" + gamma + "]", with the output and the objective |
| ChambollePock.StepSize | solvers/ChambollePock.py:40-41 | tau * (8 * gamma) == tau_mult |
| ChambollePock.GridStepSizeWithinBound | solvers/ChambollePock.py:12-15 | on every grid point, gamma > 0 and tau * gamma * 8 == tau_mult < 1 |
| ChambollePock.FixedPointIff | solvers/ChambollePock.py:43-49 | a state is left unchanged by an iteration exactly when xk is its own data prox and vk its own dual prox of vk + gamma * L(xk) |
| ChambollePock.Solver.constructor | solvers/ChambollePock.py:12-15 | the solver holds the tau_mult and gamma of its grid point |
| ChambollePock.Solver.Skip | solvers/ChambollePock.py:17-20 | skips exactly the anisotropic problems, with the source's message |
| ChambollePock.Solver.SetObjective | solvers/ChambollePock.py:22-25 | stores A, reg, y, data_fit and isotropy and writes nothing else |
| ChambollePock.Solver.Run | solvers/ChambollePock.py:27-53 | tau is tau_mult / (8 gamma); out is the nIter-th iterate from xk = y, vk = L(y), where one iteration takes the data prox of xk - tau L*(vk) and then the dual prox of vk + gamma L(2 xk - x_prev); zero iterations give y; obj is the data term plus reg times the L12 value of L(out) |
| ChambollePock.SetObjectiveThenRun | solvers/ChambollePock.py:12-53 | for every grid point, a fresh solver after set_objective can run, with tau == tau_mult / (8 gamma) and the Chambolle-Pock iterate of the problem passed in |
| ChambollePock.Solver.GetResult | solvers/ChambollePock.py:55-57 | the name embeds tau and gamma as "Chambolle-Pock[tau=…,gamma=…]" |
| CondatVu.StepSize | solvers/CondatVu.py:40-41 | tau * (Anorm2 / 2 + 8 * gamma) == tau_mult |
| CondatVu.GridStepSizeWithinBound | solvers/CondatVu.py:12-15 | on every grid point with Anorm2 >= 0, the denominator Anorm2/2 + 8 gamma is positive and tau * (Anorm2/2 + 8 gamma) == tau_mult < 1 |
| CondatVu.FixedPointIff | solvers/CondatVu.py:45-53 | a state is left unchanged exactly when xk is its own explicit primal step and vk its own dual prox of vk + gamma * L(xk) |
| CondatVu.Solver.constructor | solvers/CondatVu.py:12-15 | the solver holds its grid point and has no Anorm2 yet |
| CondatVu.Solver.Skip | solvers/CondatVu.py:17-20 | skips exactly the anisotropic problems, with the source's message |
| CondatVu.Solver.SetObjectiveAsWritten | solvers/CondatVu.py:22-25 | stores A, reg, y, data_fit and isotropy and leaves Anorm2 as it was |
| CondatVu.Solver.SetObjective | solvers/CondatVu.py:22-25 | the corrected set_objective: also stores Anorm2 |
| CondatVu.Solver.Run | solvers/CondatVu.py:27-57 | needs a stored Anorm2; tau is tau_mult / (Anorm2/2 + 8 gamma); out is the nIter-th iterate from xk = y, vk = L(y), where one iteration sets xk := xk - tau grad(xk) - tau L*(vk), both at the old state, then takes the dual prox of vk + gamma L(2 xk - x_prev); zero iterations give y; obj is the data term plus reg times the L12 value of L(out) |
| CondatVu.Solver.GetResult | solvers/CondatVu.py:59-61 | the name embeds tau and gamma as "Condat-Vu[tau=…,gamma=…]" |
| CondatVu.AsWrittenRunUnreachable | solvers/CondatVu.py:22-41 | a fresh solver after set_objective as written has no Anorm2, so run cannot proceed |
| CondatVu.SetObjectiveThenRun | solvers/CondatVu.py:22-57 | with the corrected set_objective, run is callable on every grid point and uses the Anorm2 passed in |
| DouglasRachford.GridGammaPositive | solvers/DouglasRachford.py:11-13 | every grid value of gamma is positive, so both proxes take a positive step; the model's `Run` has no precondition on gamma |
| DouglasRachford.ReflectionFixedPoint | solvers/DouglasRachford.py:43-44 | when the data prox's output is no longer than vk and tvProx(2 xk - vk, reg * gamma) equals the new xk, vk is unchanged |
| DouglasRachford.FixedPointIff | solvers/DouglasRachford.py:38-44 | for shape-preserving proxes, a state is left unchanged exactly when xk is the data prox of vk and the TV prox of 2 xk - vk is xk |
| DouglasRachford.Solver.constructor | solvers/DouglasRachford.py:11-13 | the solver holds the gamma of its grid point |
| DouglasRachford.Solver.Skip | solvers/DouglasRachford.py:15-18 | skips exactly the anisotropic problems, with the source's message |
| DouglasRachford.Solver.SetObjective | solvers/DouglasRachford.py:20-23 | stores A, reg, y, data_fit and isotropy and writes nothing else |
| DouglasRachford.Solver.Run | solvers/DouglasRachford.py:25-47 | out is the nIter-th iterate from xk = vk = y, where one iteration sets xk := dataProx(vk, gamma) and then vk := vk + tvProx(2 xk - vk, reg * gamma) - xk; zero iterations give y; obj is the data term plus reg times the TV value of out itself |
| DouglasRachford.Solver.GetResult | solvers/DouglasRachford.py:49-51 | the name is "Douglas-Rachford[gamma=" + gamma + "]" |
| ForwardBackward.StepSize | solvers/ForwardBackward.py:37 | gamma * Anorm2 == gamma_mult |
| ForwardBackward.GridStepSizeWithinBound | solvers/ForwardBackward.py:11-13 | for every grid value and Anorm2 > 0, gamma * Anorm2 == gamma_mult < 2 and 0 < gamma < 2 / Anorm2 |
| ForwardBackward.FixedPointIsKept | solvers/ForwardBackward.py:39-41 | a point that is the TV prox of its own gradient step stays put for any number of iterations |
| ForwardBackward.Solver.constructor | solvers/ForwardBackward.py:11-13 | the solver holds the gamma_mult of its grid point |
| ForwardBackward.Solver.Skip | solvers/ForwardBackward.py:15-18 | skips exactly the anisotropic problems, with the source's message |
| ForwardBackward.Solver.SetObjective | solvers/ForwardBackward.py:20-24 | stores A, reg, y, data_fit, isotropy and Anorm2 and writes nothing else |
| ForwardBackward.Solver.Run | solvers/ForwardBackward.py:26-45 | gamma is gamma_mult / Anorm2; out is the nIter-th iterate from xk = y, where one iteration is the gradient step xk - gamma grad(xk) followed by the TV prox with gamma * reg; zero iterations give y; obj is the data term plus reg times the TV value of out |
| ForwardBackward.Solver.GetResult | solvers/ForwardBackward.py:47-49 | the name is "Forward-Backward[gamma=" + gamma + "]" |

## Left out

- The deepinv and torch operators are uninterpreted fields of `DeepInv.Library`. This covers the TV gradient and its adjoint, the prox and value of the TV and L12 priors, the L2 data term, and `A.operator`/`A.physics`. No adjoint identity, prox property, norm bound or convergence is claimed. `benchmark_utils/deepinv_funcs` is not part of this model.
- ADMM's inner step, `torch.optim.SGD` with its autograd closure, is one abstract step `sgdStep(xk, loss)`. Its arguments are the current `xk` and the closure's loss, `Func` evaluated at the current `yk` and `vk`. It is a function of those alone, so it stands for the source's step only as far as the step depends on nothing else; see the `Admm.Solver.Run` line below.
- Device selection, `.clone()`, `.detach()` and `.to(device)` are identity copies.
- Floating point: scalars are exact `real`s, so rounding and overflow are not modelled. `np.sqrt` is an abstract function. Two properties are assumed of it, each only where stated: it is nonnegative on nonnegative arguments (for the TV bounds), and it maps 0 to 0 (for `TvObjective.ConstantImageHasZeroTv`).
- Python's float formatting in results names is an abstract `show: real -> string`.
- Tensor shapes: the solvers see tensors as flat sequences. Pointwise operations on tensors of different lengths read the shorter one as zero past its end; the source would broadcast or fail there.
- Attributes that Python creates on first assignment (`out`, `obj`, `tau`, `gamma` and the fields `set_objective` writes) start with default values in the model. The one exception is Condat-Vu's Anorm2, which is an explicit `Option`.
- The `Skip` members take the same arguments as the source but read only `isotropy`, as the source does.
- The benchopt harness is not modelled: `BaseSolver`, `BaseObjective`, `safe_import_context`, parameter sweeping, `requirements` and the call order. The solvers' grids appear only as constants: the step-size lemmas and the `GridGammaPositive` lemmas range over them. The objective's grid (reg, delta, isotropy, data_fit) is not modelled; an `Objective` is created for any one point of it.
- TvObjective.IsotropicTvValue: nonnegativity is stated for a root that is nonnegative on nonnegative arguments, not for `np.sqrt` itself.
- DouglasRachford.FixedPointIff: the equivalence is stated for proxes that keep the tensor's length, which deepinv's do but the model cannot see.
- Admm.Solver.Run: the source never detaches `yk` or `vk`. `yk = prior.prox(vk + L(xk), …)` (solvers/ADMM.py:53) and the in-place `vk += L(xk) - yk` (solvers/ADMM.py:55) both put the history of `xk` into the autograd graph of `yk` and `vk`. With `retain_graph=True` (solvers/ADMM.py:47), `loss.backward` from the second iteration on also differentiates through that history. So the real optimiser step depends on past iterates and on the iteration number, not only on the current state. The model's `Step` depends on the current state alone and does not capture this. The model states no property of the step itself, so nothing proved relies on the difference.
- Admm.DualUnchangedIff: stated for a prox and a gradient whose outputs have the dual variable's length.
- DouglasRachford.ReflectionFixedPoint: stated for a data prox whose output is no longer than vk, which deepinv's prox is but the model cannot see.
- Preconditions that exclude inputs on which the source raises or produces non-finite values:
  - `ForwardBackward.Solver.Run` requires Anorm2 != 0. At that value `self.gamma_mult / self.Anorm2` (solvers/ForwardBackward.py:37) raises ZeroDivisionError for a float Anorm2 and gives inf for a tensor.
  - `Admm.Solver.Run` and `ChambollePock.Solver.Run` require gamma != 0. Chambolle-Pock divides by gamma at solvers/ChambollePock.py:41 before its loop, which raises ZeroDivisionError for a float. ADMM divides by gamma only inside the loop (solvers/ADMM.py:53), so it raises only when n_iter >= 1; with n_iter == 0 the source accepts gamma == 0 and the model does not. Every grid value is nonzero (`Admm.GridGammaPositive`, `ChambollePock.GridStepSizeWithinBound`).
  - `CondatVu.Solver.Run` requires, through `CanRun`, a nonzero Anorm2 / 2 + 8 gamma and gamma != 0. A zero denominator at solvers/CondatVu.py:41 raises ZeroDivisionError for floats and gives inf for a tensor Anorm2. gamma == 0 raises ZeroDivisionError at solvers/CondatVu.py:52-53, but only once the loop runs, so with n_iter == 0 the source accepts it and the model does not. `CondatVu.GridStepSizeWithinBound` shows the denominator is positive on the grid for Anorm2 >= 0, and no grid gamma is 0.
  - `MatrixOp.GradRgb`, `TvObjective.AnisotropicTvValue` and `TvObjective.IsotropicTvValue` require at least three channels. With fewer, `u[c]` at benchmark_utils/matrix_op.py:10 raises IndexError.

## Findings

| source | as written | input that shows it | evidently intended | confidence | as-written member | corrected member |
|---|---|---|---|---|---|---|
| solvers/CondatVu.py:22-41 | `set_objective` never stores `Anorm2`, but `run` reads `self.Anorm2` to compute tau | any grid point, e.g. tau_mult = 0.1, gamma = 1, with set_objective then run: the attribute is missing | `set_objective` stores `self.Anorm2 = Anorm2`, as Forward-Backward's does | not executed | CondatVu.AsWrittenRunUnreachable | CondatVu.SetObjectiveThenRun |
