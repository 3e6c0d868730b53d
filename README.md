# BCLP gradient descent, modelled in Dafny

This project models the band-constrained Lp-norm (BCLP) optimiser of
`vamtoolbox/backup/BCLP_20221026.py`. The optimiser computes a sinogram
(angular exposure values) whose back-projected dose, seen through a
material response model, stays within `eps` of a target volume. The model
covers the bookkeeping around the numbers:

- the performance log `LogPerf`: fixed-size metric arrays of `n_iter + 1`
  slots, an iteration counter and iteration times;
- the derived-state cache of `BCLPNorm`: dose, mapped dose, error from the
  target, error from the band and the violation mask, each stamped with the
  iteration it was computed at;
- the loss and its gradient;
- the constraint step (optional discretisation, then a clamp into
  `[glb, gub]`);
- the reshaping between the flattened and the native ("cylindrical")
  sinogram shape;
- the gradient-descent loop with its callback, and `minimizeBCLP`, which
  wires them together.

Modules, one concern each:

- `Optional`: `Option`, which stands for numpy's NaN "unset" marker and for
  `bit_depth = None`.
- `SinogramShape`: numpy arrays as a shape plus row-major data, and
  `checkSinogramShape`.
- `Constraints`: `imposeSinogramConstraints`, i.e. `np.clip` after the
  optional `discretize`.
- `BclpSpec`: the optimisation as values.
  - `Problem` holds the options and the collaborators.
  - `Derive` gives the five derived quantities of a sinogram.
  - `Loss` and `LossGradient` are the loss and its gradient.
  - `Step` is one pass of the loop.
  - `Trace` is the run of `n` iterations, sequenced as the source sequences
    them.
- `PerfLog`: class `LogPerf`. The loss and iteration-time arrays are Dafny
  arrays written slot by slot; the norm arrays, which nothing writes, are
  sequences of unset slots.
- `Bclp`: class `BclpNorm`, whose cache fields and stamps are updated in place,
  and `MinimizeBclp`. The methods are proved against the `BclpSpec`
  functions.

Collaborators whose code is not part of this model are modelled as function
values with only the size contracts the optimiser relies on (`WellPosed`):

- the projector (`P.forward`, `P.backward`);
- the response model (`map`, `map_inv`, `dmapdf`);
- `util.data.filterSinogram` and `util.data.discretize`;
- numpy's real power.

Clock readings (`time.perf_counter()`) are parameters.

How the run behaves, as the code is written:

- The cache is keyed on the iteration counter `curr_iter`, not on the
  sinogram. So the `computeLoss` that follows each step reuses the
  quantities cached by the gradient call before the step.
- As a result, log slot k >= 1 holds the loss of the sinogram from before
  step k, and slot 1 repeats slot 0 (`RecordedLossLags`,
  `FirstStepRepeatsInitialLoss`).
- Likewise, the dose returned by `minimizeBCLP` is that of the sinogram
  before the last step.

`minimizeBCLP` calls `checkSinogramShape(g_opt)` with its default
`"flattened"` (line 245), so the returned sinogram is 1-D: `MinimizeBclp`
ensures `|gOpt.shape| == 1`.

## Model

| member | source | states |
|---|---|---|
| SinogramShape.CheckSinogramShape | vamtoolbox/backup/BCLP_20221026.py:202-212 | elements are never reordered; "flattened" gives at most one dimension; "cylindrical" gives a 1-D array the shape `g0_shape`; a 1-D input to "flattened", an N-D input to "cylindrical" and any other `desired_shape` come back unchanged; the only failure is a cylindrical reshape to a shape of another size |
| SinogramShape.FlattenThenCylindrical | vamtoolbox/backup/BCLP_20221026.py:202-212 | flattening an array and reshaping it to its own shape gives back the same array |
| SinogramShape.CylindricalThenFlatten | vamtoolbox/backup/BCLP_20221026.py:202-212 | a flattened array with as many elements as `g0_shape` survives the trip to the native shape and back |
| Constraints.Clip | vamtoolbox/backup/BCLP_20221026.py:198 | `np.clip` of one element: within `[lo, hi]` when `lo <= hi`, the identity inside the range, `hi` when the bounds cross, always one of `x`, `lo`, `hi` |
| Constraints.ClipAll | vamtoolbox/backup/BCLP_20221026.py:198 | element-wise clip, same length |
| Constraints.MaxOf | vamtoolbox/backup/BCLP_20221026.py:196 | `np.amax`: an element of the array, and no smaller than any element |
| Constraints.Discretized | vamtoolbox/backup/BCLP_20221026.py:195-196 | keeps the length; that discretisation happens only when a bit depth is set, over `[0, max(g)]`, is stated by the ensures of `ImposeSinogramConstraints` |
| Constraints.ImposeSinogramConstraints | vamtoolbox/backup/BCLP_20221026.py:194-200 | keeps the shape; every element is the clip of the (possibly discretised) input element; within `[glb, gub]` when `glb <= gub`, all `gub` when the bounds cross |
| Constraints.ImposeIdempotent | vamtoolbox/backup/BCLP_20221026.py:194-200 | without discretisation, imposing the constraints twice equals imposing them once |
| Constraints.ImposeKeepsFeasible | vamtoolbox/backup/BCLP_20221026.py:198 | without discretisation, a sinogram already within the bounds is unchanged |
| Constraints.ClipAllAddsNoLevels | vamtoolbox/backup/BCLP_20221026.py:198 | clipping never increases the number of distinct values |
| Constraints.ImposeAddsNoLevels | vamtoolbox/backup/BCLP_20221026.py:194-200 | the constrained sinogram takes no more distinct values than the discretised one |
| BclpSpec.Flatten | vamtoolbox/backup/BCLP_20221026.py:179 | flattening a canonical sinogram keeps its elements and gives the 1-D shape of `np.product(g0_shape)` elements |
| BclpSpec.ToCylindrical | vamtoolbox/backup/BCLP_20221026.py:116 | a canonical sinogram read in the native shape keeps its elements |
| BclpSpec.DoseOf | vamtoolbox/backup/BCLP_20221026.py:116-117 | the dose has one value per voxel, and each voxel's dose times `n_angles` is the back-projection of the sinogram read in the native shape: the `tomogram_scale = 1/n_angles` of line 50 averages over the projections |
| Bclp.ProblemOf | vamtoolbox/backup/BCLP_20221026.py:60-71 | the problem carries the options under the source's names: `glb`/`gub` are `blb`/`bub`; target, weight, `eps`, `p`, `q`, learning rate, bit depth, response model and projector are passed through |
| BclpSpec.Abs | vamtoolbox/backup/BCLP_20221026.py:129 | `np.abs`: non-negative and equal to `x` or `-x` |
| BclpSpec.Sign | vamtoolbox/backup/BCLP_20221026.py:153 | `np.sign`: one of 1, -1, 0; zero exactly at zero; times `x` gives `abs(x)` |
| BclpSpec.PowAll | vamtoolbox/backup/BCLP_20221026.py:140 | element-wise power: same length, element i is `pow(base[i], exponent)` |
| BclpSpec.BandError | vamtoolbox/backup/BCLP_20221026.py:129 | `error_from_band[i] == abs(error_from_f_T[i]) - eps` |
| BclpSpec.Violations | vamtoolbox/backup/BCLP_20221026.py:133 | `v[i]` holds exactly when `error_from_band[i] > 0` |
| BclpSpec.Derive | vamtoolbox/backup/BCLP_20221026.py:115-134 | all five quantities have one entry per voxel; the mapped dose is the response of the dose; `error_from_f_T[i] == mapped[i] - target[i]`; `error_from_band[i] == abs(mapped[i] - target[i]) - eps`; `v[i]` exactly when that distance exceeds `eps` |
| BclpSpec.DeriveInOrder | vamtoolbox/backup/BCLP_20221026.py:115-134 | computing the quantities one after the other, in the source's order, gives `Derive` |
| BclpSpec.DeriveIgnoresShape | vamtoolbox/backup/BCLP_20221026.py:115-117 | the derived quantities depend only on the sinogram's elements, not on which canonical shape it comes in |
| BclpSpec.LossIntegrand | vamtoolbox/backup/BCLP_20221026.py:140 | `v * weight * error_from_band**p`: zero wherever `v[i]` is false, `weight[i] * error_from_band[i]**p` wherever it holds |
| BclpSpec.LossNonNegative | vamtoolbox/backup/BCLP_20221026.py:140-142 | with non-negative weights, and powers of non-negative bases non-negative, the loss is non-negative |
| BclpSpec.LossWithinBand | vamtoolbox/backup/BCLP_20221026.py:140-142 | when no voxel violates the band, the loss is `0 ** (q/p)` whatever the weights |
| BclpSpec.SumOfZeros | vamtoolbox/backup/BCLP_20221026.py:142 | a sum of zeros is zero |
| BclpSpec.SumNonNegative | vamtoolbox/backup/BCLP_20221026.py:142 | a sum of non-negative terms is non-negative |
| BclpSpec.GradientOperand | vamtoolbox/backup/BCLP_20221026.py:153 | zero wherever `v[i]` is false; otherwise `weight * error_from_band**(p-1) * sign(error_from_f_T) * dmapdf(dose)` at `i` |
| BclpSpec.LossGradient | vamtoolbox/backup/BCLP_20221026.py:153-158 | the gradient is flattened, and element i is `q * loss**((q-p)/q)` times element i of the forward projection of the operand |
| BclpSpec.GradientIgnoresLossWhenPEqualsQ | vamtoolbox/backup/BCLP_20221026.py:156 | with `p == q` the gradient does not depend on the loss it is scaled by |
| BclpSpec.Descend | vamtoolbox/backup/BCLP_20221026.py:183 | `g - learning_rate * grad` element by element, same shape |
| BclpSpec.Impose | vamtoolbox/backup/BCLP_20221026.py:194-200 | the constraints keep a canonical sinogram canonical and in its shape, within the bounds when `glb <= gub` |
| BclpSpec.Step | vamtoolbox/backup/BCLP_20221026.py:183-184 | one loop step keeps the sinogram flattened and canonical, within the bounds when `glb <= gub` |
| BclpSpec.InitialSinogram | vamtoolbox/backup/BCLP_20221026.py:102-105 | the initial sinogram has the projector's native shape and lies within the bounds when `glb <= gub` |
| BclpSpec.Trace | vamtoolbox/backup/BCLP_20221026.py:179-188 | a run of n iterations has n + 1 sinograms and n + 1 loss slots, every sinogram flattened and canonical |
| BclpSpec.TraceNext | vamtoolbox/backup/BCLP_20221026.py:182-188 | one more iteration appends the step from the last sinogram and the loss of that sinogram |
| BclpSpec.TraceExtends | vamtoolbox/backup/BCLP_20221026.py:182-188 | one more iteration leaves the earlier sinograms and losses as they were |
| BclpSpec.TracePrefix | vamtoolbox/backup/BCLP_20221026.py:182-188 | a shorter run is a prefix of a longer one |
| BclpSpec.TraceSteps | vamtoolbox/backup/BCLP_20221026.py:183-184 | sinogram k+1 is the step from sinogram k, with the gradient scaled by the loss in slot k |
| BclpSpec.RecordedLossLags | vamtoolbox/backup/BCLP_20221026.py:182-188 | loss slot 0 holds the loss of the initial sinogram and slot k >= 1 the loss of sinogram k-1 |
| BclpSpec.FirstStepRepeatsInitialLoss | vamtoolbox/backup/BCLP_20221026.py:108 | the loss recorded after the first step equals the initial loss |
| BclpSpec.TraceWithinBounds | vamtoolbox/backup/BCLP_20221026.py:184 | with `glb <= gub` and a start within the bounds, every sinogram of the run stays within the bounds |
| PerfLog.LogPerf.constructor | vamtoolbox/backup/BCLP_20221026.py:11-29 | counter 0; a fresh `loss` array of `n_iter + 1` unset slots; the eight norm arrays and `ver` are `n_iter + 1` unset slots each; a fresh array of `n_iter + 1` iteration times, all 0; no start time yet |
| PerfLog.LogPerf.StartTiming | vamtoolbox/backup/BCLP_20221026.py:31-32 | the start time becomes the clock reading |
| PerfLog.LogPerf.RecordIterTime | vamtoolbox/backup/BCLP_20221026.py:34-35 | only slot `curr_iter` of the iteration times changes, to the elapsed time |
| Bclp.BclpNorm.constructor | vamtoolbox/backup/BCLP_20221026.py:47-109 | the problem is `ProblemOf` the options; the log is fresh, started at `tStart` and timed; the initial sinogram is `InitialSinogram`; loss slot 0 holds its loss and every other slot is unset; iteration time 0 is the initialisation time and every later slot is 0; the norm arrays and `ver` are unset; the counter is 1; the cache is stamped 0 and derived from the initial sinogram |
| Bclp.BclpNorm.UpdateVariables | vamtoolbox/backup/BCLP_20221026.py:112-134 | every stamp ends at `curr_iter`; a call at an iteration the cache is already stamped with changes nothing, whatever sinogram it is given; otherwise the cache is `Derive` of the given sinogram |
| Bclp.BclpNorm.RefreshedChain | vamtoolbox/backup/BCLP_20221026.py:112-134 | the five stages, done in order, leave the cache valid and refreshed |
| Bclp.BclpNorm.RefreshDose | vamtoolbox/backup/BCLP_20221026.py:115-118 | a stale dose becomes the back-projection of the native-shaped sinogram scaled by `1/n_angles`; a fresh one is kept |
| Bclp.BclpNorm.RefreshMappedDose | vamtoolbox/backup/BCLP_20221026.py:120-122 | a stale mapped dose becomes the response of the dose; a fresh one is kept |
| Bclp.BclpNorm.RefreshErrorFromTarget | vamtoolbox/backup/BCLP_20221026.py:124-126 | a stale error becomes mapped dose minus target; a fresh one is kept |
| Bclp.BclpNorm.RefreshErrorFromBand | vamtoolbox/backup/BCLP_20221026.py:128-130 | a stale band error becomes `abs(error) - eps`; a fresh one is kept |
| Bclp.BclpNorm.RefreshViolations | vamtoolbox/backup/BCLP_20221026.py:132-134 | a stale mask becomes `error_from_band > 0`; a fresh one is kept |
| Bclp.BclpNorm.ComputeLoss | vamtoolbox/backup/BCLP_20221026.py:137-146 | refreshes the cache; returns the loss of the cached quantities and writes it into slot `curr_iter` only |
| Bclp.BclpNorm.PreviousLossSlot | vamtoolbox/backup/BCLP_20221026.py:156 | the slot `loss[curr_iter-1]` reads is in range of the loss array, even at `curr_iter == 0`, where Python's index -1 reads the last slot |
| Bclp.BclpNorm.ComputeLossGradient | vamtoolbox/backup/BCLP_20221026.py:150-159 | refreshes the cache; returns `LossGradient` of the cached quantities, scaled by the loss in slot `curr_iter - 1` |
| Bclp.BclpNorm.Callback | vamtoolbox/backup/BCLP_20221026.py:161-173 | writes the elapsed time into slot `curr_iter` and nowhere else, then advances `curr_iter` by exactly one |
| Bclp.BclpNorm.GradientStep | vamtoolbox/backup/BCLP_20221026.py:183-184 | the gradient at `g` refreshes the cache from `g`; the result is `Step` from `g` with the loss of the previous slot |
| Bclp.BclpNorm.ProgressStart | vamtoolbox/backup/BCLP_20221026.py:179 | the state after construction is the progress of zero iterations from the flattened initial sinogram |
| Bclp.BclpNorm.ProgressStep | vamtoolbox/backup/BCLP_20221026.py:182-188 | one pass takes the progress of i iterations to that of i + 1, and the new sinogram is entry i + 1 of the run |
| Bclp.BclpNorm.TimedStep | vamtoolbox/backup/BCLP_20221026.py:163 | closing one more iteration extends the recorded times by one slot |
| Bclp.BclpNorm.Iterate | vamtoolbox/backup/BCLP_20221026.py:182-188 | one loop pass (gradient, step, constraints, loss, callback) extends the progress and the times by one iteration |
| Bclp.BclpNorm.GradientDescent | vamtoolbox/backup/BCLP_20221026.py:177-190 | exactly `n_iter` iterations: the result is the last sinogram of `Trace`, flattened; `curr_iter` ends at `n_iter + 1`; every loss slot `0..n_iter` holds the loss `Trace` records; every time slot k holds `times[k]` less the start time; the cached dose is that of the sinogram before the last step |
| Bclp.BclpNorm.Finished | vamtoolbox/backup/BCLP_20221026.py:177-190 | after the loop, every loss and time slot `0..n_iter` is written, and the cached dose is that of the sinogram before the last step |
| Bclp.MinimizeBclp | vamtoolbox/backup/BCLP_20221026.py:216-250 | the returned sinogram is the last of `Trace` from the initial sinogram and is flattened; the dose is that of the sinogram before the last step; the log is valid, has every loss slot written as `Trace` records it, every time slot set to the clock reading less the start time, and its norm arrays and `ver` unset |

## Left out

- Timing: `time.perf_counter()` readings are parameters. `tStart` is the
  start of timing. `times[0]` closes the initialisation, and `times[k]`
  closes iteration k.
- Printing (`verbose` in `'time'` or `'plot'`), the target-range warning and
  `checkResponseTarget` are not modelled: they change no modelled state.
- The plotting observer `EvolvingPlot` is not modelled. `callback` calls
  `self.dp.update` at line 168 unconditionally, but `self.dp` exists only
  when `verbose == 'plot'` (lines 87-88). In the source, any other verbosity
  raises an attribute error on the first callback. The model treats the
  observer as a no-op under every verbosity.
- The norm arrays `l0_v` … `lf_all` and `ver` are created unset and never
  written. The source does not fill them either. So they are sequences of
  unset slots, not arrays, and writing into them in place is not modelled.
- The projector, the response model, `filterSinogram` and `discretize` are
  function values. Only the size contracts the optimiser relies on are
  assumed of them (`WellPosed`).
- Numerics: powers with real exponents and the `.astype('double')` cast are
  left abstract, and floating point is modelled as exact reals. NaN and
  infinity are not modelled, and unset log slots are `None`.
- `weight` is one value per voxel. A scalar weight broadcast by numpy is not
  modelled.
- `optim_alg` is stored but never used. The commented-out L-BFGS path and
  the `geometry.Sinogram` / `geometry.Reconstruction` wrappers are not
  modelled. `MinimizeBclp` returns their contents: the sinogram, the dose
  and the log.
- BclpSpec.WellPosed excludes four inputs on which the source raises an
  error or divides by zero: `n_angles == 0` (line 50, `ZeroDivisionError`),
  `p == 0` (line 142, `q/p`), `q == 0` (line 156, `(q-p)/q`; reached only
  when `n_iter >= 1`: with `n_iter == 0` the source runs, and the model still
  excludes `q == 0`), and a set
  `bit_depth` with a native shape holding no elements,
  `Product(sinoShape) == 0` (line 196, `np.amax` of an empty array raises
  `ValueError`). It also requires `|sinoShape| >= 1`, which excludes a 0-D
  native sinogram; the source runs on one without error, so that case is
  left out. `Bclp.MinimizeBclp` and every member that requires `WellPosed`
  therefore do not model those inputs.
- Bclp.Options declares `nIter` a `nat`, which excludes a negative
  `n_iter`. In the source, `n_iter == -1` gives empty log arrays, and the
  write of the initial loss into slot 0 (line 144) raises `IndexError`. A
  smaller `n_iter` makes `np.zeros` raise `ValueError` at line 14. Neither
  error path is modelled.
- BclpSpec.LossIntegrand and BclpSpec.GradientOperand select 0.0 where the
  mask `v` is false. numpy multiplies by the mask instead (lines 140 and
  153). With a non-integer `p`, an in-band voxel has `error_from_band < 0`,
  so `**p` or `**(p-1)` gives NaN, and `False * NaN` is NaN. The source's
  loss and gradient are then NaN where the model's are finite.
- Bclp.BclpNorm.ComputeLossGradient requires the loss slot it reads to be
  set. In the source an unset (NaN) slot would yield a NaN gradient, unless
  `p == q`: the exponent `(q-p)/q` is then 0, `nan ** 0.0` is 1, and the
  gradient stays finite (the case `GradientIgnoresLossWhenPEqualsQ` covers).
- PerfLog.LogPerf.RecordIterTime requires the start time to be set and
  `curr_iter <= n_iter`. Otherwise the source would record NaN, or raise an
  index error past the last slot. Bclp.BclpNorm.Callback and
  Bclp.BclpNorm.ComputeLoss carry the same bound on `curr_iter`.
- Bclp.BclpNorm.GradientStep and Bclp.BclpNorm.Iterate split the loop
  body into two methods. They are not separate operations of the source.
- In-place aliasing of the numpy cache arrays is not modelled. The source
  reassigns them wholesale, so they are sequence fields.
