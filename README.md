# PyEMMA estimation front ends, modelled in Dafny

This project models two parts of PyEMMA.

The first is the Markov-state-model estimation API
(`emma2/msm/estimation/api.py`). It looks at how a count matrix is stored
(scipy sparse, numpy dense, or neither). It then picks a numerical routine
from the `sparse` or `dense` sub-package, converts the argument to the
storage that routine needs, and converts the result back so that it is
stored like the input. The numerical routines are not modelled. A call is
described by the routine it selects, the matrix it passes and the storage of
its result (`MsmEstimation.CountCall`, `GraphCall`, `SubmatrixCall`,
`Estimation`). The three priors are defined entry by entry in their
docstrings and are modelled in full, with the warning that a non-dense input
draws.

The second is the TICA estimator (`pyemma/coordinates/transform/tica.py`),
in module `TicaTransform`. It covers:

- the constructor's check that `dim` and `var_cutoff` are not both set;
- `dimension()`, including numpy's `searchsorted` over a cumulative variance
  that may hold NaN;
- one estimation run as a `Tica` class with methods. The run checks its
  input, records the trajectories shorter than the lag, sizes the moment
  accumulator (`nsave`), feeds it every chunk in order, decomposes the
  moments and computes the cumulative kinetic variance (`cumvar`);
- the projection `_transform_array`, with the kinetic-map scaling.

Python exceptions are `Failure` values of `Wrappers.Result`. NaN is a
constructor of `TicaTransform.Float`. The streaming moment estimator
(`running_covar`) and the generalised eigensolver (`eig_corr`) are outside
the model. They enter `Tica.Estimate` as function parameters, so the
contracts state what is done with their results.

Where the documented behaviour and the code differ, the model follows the
code:

- A trajectory exactly as long as the lag is neither skipped (the skip test
  is `length < lag`) nor enough to make the data eligible (the test is
  `length > lag`). Eligibility also looks at the lengths at the configured
  stride, while skipping looks at the unstrided lengths.
- The `dim`/`var_cutoff` exclusion only notices a cutoff other than the
  default 0.95. A `dim` together with an explicit `var_cutoff=0.95` is
  accepted, and so is any `dim` below -1 with the default cutoff.
- The docstring says dimensions are included until the cumulative variance
  *exceeds* `var_cutoff`. `searchsorted` with side 'left' stops at the first
  entry that *reaches* it.

Files: `wrappers.dfy` (Option, Result), `msm_estimation.dfy` (module
`MsmEstimation`), `tica.dfy` (module `TicaTransform`).

## Model

| member | source | states |
|---|---|---|
| `MsmEstimation.CountMatrix` | emma2/msm/estimation/api.py:57-79 | the multi-trajectory routine is chosen exactly when `dtraj` is a Python `list`, whether it holds trajectories or is one trajectory written as a plain list of states; the single-trajectory routine otherwise; `lag` and `sliding` are passed on unchanged |
| `MsmEstimation.CountMatrixCores` | emma2/msm/estimation/api.py:104-109 | always raises `NotImplementedError`, whatever the arguments |
| `MsmEstimation.GraphArgument` | emma2/msm/estimation/api.py:141-146 | a connectivity routine receives the same entries; a dense matrix is converted to CSR, anything else is passed as it is |
| `MsmEstimation.ConnectedSets` | emma2/msm/estimation/api.py:120-146 | calls the sparse `connected_sets` routine with the converted matrix and the `directed` flag |
| `MsmEstimation.LargestConnectedSet` | emma2/msm/estimation/api.py:149-172 | calls the sparse `largest_connected_set` routine with the converted matrix and the `directed` flag |
| `MsmEstimation.LargestConnectedSubmatrix` | emma2/msm/estimation/api.py:175-205 | the routine gets a sparse matrix with the same entries: a dense input converted to CSR, a sparse one unchanged; the result is dense exactly when the input was dense, so a sparse or dense input gets back its own kind of storage |
| `MsmEstimation.IsConnected` | emma2/msm/estimation/api.py:212-235 | calls the sparse `is_connected` routine with the converted matrix and the `directed` flag |
| `MsmEstimation.Mapping` | emma2/msm/estimation/api.py:238-253 | always raises `NotImplementedError` |
| `MsmEstimation.PriorNeighbor` | emma2/msm/estimation/api.py:261-286 | entry (i, j) is `alpha` exactly when `C[i][j] + C[j][i] > 0`, else 0; no warning; the result is dense exactly when the input is dense, sparse otherwise |
| `MsmEstimation.PriorNeighborSymmetric` | emma2/msm/estimation/api.py:264-266 | the neighbour prior is symmetric, and it is non-zero only where `C + C^T` is positive |
| `MsmEstimation.PriorConst` | emma2/msm/estimation/api.py:289-313 | every entry is `alpha`; the result is always dense; one warning exactly when the input is not dense |
| `MsmEstimation.PriorRev` | emma2/msm/estimation/api.py:318-350 | entry (i, j) is `alpha` when `i <= j`, else 0; always dense; one warning exactly when the input is not dense |
| `MsmEstimation.DefaultPriorStrengths` | emma2/msm/estimation/api.py:261-350 | with their default strengths, the neighbour and constant priors put 0.001 where they put anything, and the reversible prior puts -1 on each entry of the upper triangle and 0 below it |
| `MsmEstimation.PriorRevTotal` | emma2/msm/estimation/api.py:322-331 | the reversible prior adds `alpha` to the n(n+1)/2 entries of the upper triangle and to nothing else: twice its total is `alpha n (n + 1)` |
| `MsmEstimation.SparseMode` | emma2/msm/estimation/api.py:420-425 | `issparse` is tested first, then `isdense`; any other storage raises `NotImplementedError` |
| `MsmEstimation.TransitionMatrix` | emma2/msm/estimation/api.py:360-463 | fails exactly for an unknown storage, or for a nonreversible estimate with a fixed `mu`. Otherwise the reversible estimator is used exactly when `reversible` is set, with or without `mu`. The nonreversible estimator is the sparse one exactly for sparse input. Every estimator sees the counts and `mu` unchanged. Only the sparse nonreversible estimator gets a sparse argument; the others get a dense one. The result is stored like the input |
| `TicaTransform.StoredVarCutoff` | pyemma/coordinates/transform/tica.py:113-120 | raises `ValueError` exactly when `dim != -1` and `var_cutoff` is not the default 0.95; otherwise stores 1.0 when `dim > -1` and the given cutoff when it is not |
| `TicaTransform.StoredVarCutoffExclusive` | pyemma/coordinates/transform/tica.py:113-120 | after a successful construction, `dim` is unset, or the stored cutoff is 1.0, or `dim` is below -1 with the default cutoff |
| `TicaTransform.Log2Floor` | pyemma/coordinates/transform/tica.py:226 | the integer part of `log2(n)`: `2^r <= n < 2^(r+1)` |
| `TicaTransform.NSave` | pyemma/coordinates/transform/tica.py:226 | `log(0)` raises `ValueError`. Otherwise the number of saved moments is at least 2; it is exactly 2 for fewer than 8 chunks, and above that it is the integer part of `log2(n_chunks)` |
| `TicaTransform.NSaveMonotone` | pyemma/coordinates/transform/tica.py:226 | more chunks never give fewer saved moments |
| `TicaTransform.SumSq` | pyemma/coordinates/transform/tica.py:245 | a sum of squares is never negative |
| `TicaTransform.CumVar` | pyemma/coordinates/transform/tica.py:245-246 | raises `IndexError` exactly for an empty eigenvalue vector, and otherwise has one entry per eigenvalue |
| `TicaTransform.CumVarAt` | pyemma/coordinates/transform/tica.py:245-246 | when some eigenvalue is non-zero, entry k is the share of the first k+1 squared eigenvalues in the total |
| `TicaTransform.ShareBounds` | pyemma/coordinates/transform/tica.py:245-246 | shares lie in [0, 1], grow with the number of leading eigenvalues, and the share of all of them is 1 |
| `TicaTransform.CumVarNormalized` | pyemma/coordinates/transform/tica.py:245-246 | with some non-zero eigenvalue, cumvar holds the share at every position; it is non-decreasing, lies in [0, 1] and ends in exactly 1 |
| `TicaTransform.CumVarAllZero` | pyemma/coordinates/transform/tica.py:245-246 | with all eigenvalues zero, every entry of cumvar is NaN (0/0) |
| `TicaTransform.CumVarSorted` | pyemma/coordinates/transform/tica.py:158 | every computed cumvar is sorted in numpy's order (numbers ascending, NaN last), as `searchsorted` requires |
| `TicaTransform.SearchSorted` | pyemma/coordinates/transform/tica.py:158 | `searchsorted(a, v)` with side 'left': every earlier entry is below `v`, and the entry at the result is not (NaN is never below) |
| `TicaTransform.SearchSortedSplits` | pyemma/coordinates/transform/tica.py:158 | on a sorted array, an entry is below `v` exactly when its index is before the result |
| `TicaTransform.EstimatedDimension` | pyemma/coordinates/transform/tica.py:155-159 | between 1 and the number of eigenvalues; all of them when `var_cutoff >= 1`; otherwise the entries before the last kept one are below the cutoff and, unless all are kept, the last kept one is not |
| `TicaTransform.DimensionReachesCutoff` | pyemma/coordinates/transform/tica.py:155-159 | with some non-zero eigenvalue and a cutoff below 1, the dimension is the smallest number of leading components whose share of the squared eigenvalues reaches `var_cutoff` |
| `TicaTransform.DimensionOfAllZero` | pyemma/coordinates/transform/tica.py:155-159 | with all eigenvalues zero and a cutoff below 1, one component is kept |
| `TicaTransform.SkippedIndices` | pyemma/coordinates/transform/tica.py:219-221 | exactly the indices of trajectories shorter than the lag, each once, in increasing order; all are skipped exactly when every trajectory is shorter than the lag |
| `TicaTransform.LagLengthNeitherSkippedNorEligible` | pyemma/coordinates/transform/tica.py:215-221 | a trajectory exactly as long as the lag is not skipped, and adding or removing it does not change whether the data is eligible |
| `TicaTransform.AllSkippedNotEligible` | pyemma/coordinates/transform/tica.py:215-221 | with stride 1, when every trajectory is skipped, the estimation is refused |
| `TicaTransform.Preflight` | pyemma/coordinates/transform/tica.py:208-217 | no error exactly when the input is admissible. Otherwise the first failing check gives the error: input dimension not positive, then `dim` above the input dimension (both `AssertionError`), then no strided trajectory longer than the lag (`ValueError`) |
| `TicaTransform.Transform` | pyemma/coordinates/transform/tica.py:275-279 | one output row per input row, each with `min(d, number of eigenvalues)` entries (numpy's clamped column slice) |
| `TicaTransform.KineticMapScalesColumns` | pyemma/coordinates/transform/tica.py:277-278 | with the kinetic map, column j is the plain projection's column j times eigenvalue j |
| `TicaTransform.MeanProjectsToZero` | pyemma/coordinates/transform/tica.py:275-276 | a data row equal to the mean projects to the origin |
| `TicaTransform.TransformShiftInvariant` | pyemma/coordinates/transform/tica.py:275 | shifting every data row and the mean by the same vector leaves the projection unchanged |
| `TicaTransform.RunningCovar.constructor` | pyemma/coordinates/transform/tica.py:228-229 | a new accumulator keeps `nsave` moments and has been given nothing |
| `TicaTransform.RunningCovar.Add` | pyemma/coordinates/transform/tica.py:232 | adding a chunk appends it to what the accumulator has been given |
| `TicaTransform.RunningCovar.AddAll` | pyemma/coordinates/transform/tica.py:231-232 | the chunk loop appends every chunk, in order |
| `TicaTransform.Accumulate` | pyemma/coordinates/transform/tica.py:228-232 | a fresh accumulator fed by the loop has been given exactly the source's chunks, in order |
| `TicaTransform.Tica.constructor` | pyemma/coordinates/transform/tica.py:113-128 | stores the parameters, with the cutoff `StoredVarCutoff` gives; not estimated; no skipped trajectories |
| `TicaTransform.Tica.New` | pyemma/coordinates/transform/tica.py:113-128 | construction fails with `ValueError` exactly when both `dim` and a non-default `var_cutoff` are given; otherwise the new object holds the given `lag`, `dim`, `kinetic_map`, `epsilon`, `mean` and `stride`, the cutoff 1.0 when `dim > -1` and the given one otherwise, no skipped trajectories, and is not estimated |
| `TicaTransform.Tica.Dimension` | pyemma/coordinates/transform/tica.py:148-165 | `dim` when it is above -1, or below -1 before estimation. After estimation it is the estimated dimension. Before estimation with `dim == -1`, it is the producer's dimension when the cutoff is 1.0, and a `RuntimeError` otherwise |
| `TicaTransform.Tica.EstimatedDimensionBounds` | pyemma/coordinates/transform/tica.py:148-165 | an estimated object always knows its dimension; it is never negative, and it lies between 1 and the number of eigenvalues when `dim` is unset |
| `TicaTransform.Tica.TransformArray` | pyemma/coordinates/transform/tica.py:262-279 | one row per input row, `min(dimension(), number of eigenvalues)` columns; without the kinetic map the entries are the leading columns of the plain projection of the mean-free data, with it each such column is scaled by its eigenvalue |
| `TicaTransform.Tica.Estimate` | pyemma/coordinates/transform/tica.py:201-260 | a failed check raises before anything changes. Once the checks pass, the skipped trajectories are recorded. Zero chunks raise `ValueError`; an exception of the moment estimator or the eigensolver is passed on; an empty eigenvalue vector raises `IndexError`. Success happens exactly when none of these occurs. A failure leaves the model as it was. A success stores the moments of all chunks in order, their eigen-decomposition and its cumvar, and marks the object estimated; the validity invariant is kept |
| `TicaTransform.Tica.EstimateFromChunks` | pyemma/coordinates/transform/tica.py:222-259 | the part after the checks: zero chunks raise `ValueError`, an exception of the moment estimator or the eigensolver is passed on, an empty eigenvalue vector raises `IndexError`, success otherwise; the model is stored only on success; the skipped trajectories are untouched |

## Left out

- The numerical routines of the `sparse` and `dense` sub-packages are not modelled: the count routines, the connectivity routines, and the reversible and nonreversible estimators. They are not part of this model. Each call is described by what it is given and how its result is stored.
- The keyword arguments passed through `**kwargs` to the reversible estimators are not modelled. Neither is the commented-out Java bridge, nor the logging and re-raising of a Java exception around the reversible estimator.
- `tmatrix_cov`, `log_likelihood`, `error_perturbation` and `tmatrix_sampler` are outside the modelled core.
- The aliases `cmatrix`, `cmatrix_cores`, `connected_cmatrix` and `tmatrix` forward their arguments unchanged. They are covered by the members they call.
- `MsmEstimation.PriorNeighbor`, `MsmEstimation.LargestConnectedSubmatrix`: an input that is neither dense nor sparse takes the non-dense path. The model assumes the sparse routine accepts it and returns a sparse result. What that routine really does with such an input is not part of this model.
- `MsmEstimation.PriorNeighbor`, `PriorConst`, `PriorRev`: a non-square count matrix is excluded by `requires`, because the priors are defined only for square matrices.
- The `running_covar` moment estimator and `eig_corr` are function parameters of `Tica.Estimate` that return a value or raise. An exception is taken as raised once the accumulated moments are asked for, not at the chunk where `add` would raise it; either way nothing else changes before it is passed on. Their numerics (mean removal, symmetrisation, the `epsilon` cut-off of small eigenvalues) are not modelled. The accumulator records only which chunks it was given, in order.
- `TicaTransform.NSave` uses an exact base-2 logarithm. The floating-point `log(n, 2)` of the source can round up to the next integer for chunk counts just below a large power of two (such as 2^k - 1 for large k), and then gives one more; that rounding is not modelled.
- Floating point is modelled as exact reals. The only exception is NaN, which appears when all eigenvalues are zero (0/0 in `cumvar`).
- `Tica.Estimate`: `_estimate` itself does not set `_estimated`. The base class sets it once `_estimate` returns, and the method includes that step.
- The number of trajectories (`_ntraj`) is taken to be the length of the unstrided length list the source reports. Progress reporting and the warning about skipped trajectories are left out. The re-assignment of `_skipped_trajs` to itself has no effect and is left out too.
- `describe()`, `feature_TIC_correlation`, `timescales`, the deprecated `mu` accessor and the property getters and setters of `mean`, `cov` and `cov_tau` are not modelled. The model's fields are read directly.
- The TICA parameters are constants of the object after construction. Changing them later through `set_params` is not modelled. A `mean` given to the constructor is stored in the model and overwritten by the estimated mean.
- The iterator, the chunking and the stride handling of the data source are not modelled. The source is described by its dimension, its unstrided and strided trajectory lengths, its chunk count and the chunks it yields.
- `TicaTransform.Tica.Dimension`: the data producer's dimension is a parameter (`producerDim`). It is consulted only before estimation, when all dimensions are requested.
- `TicaTransform.Tica.TransformArray`: the input rows are required to have one entry per feature, matching the mean and the eigenvectors. numpy's broadcasting of other shapes (such as a one-column input) is not modelled.
