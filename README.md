# fit-ellipsoid in Dafny

This is a verified model of the discrete core of fit-ellipsoid. fit-ellipsoid reads a
voxelised representative volume element (RVE), fits an ellipsoid to each grain,
summarises each phase's grains by equivalent diameter and aspect ratio, and scores the
RVE against reference size and shape distributions. A driver keeps the RVE of least
error.

- `points.dfy` (module `Points`): integer lattice points, lexicographic row order, and
  `np.unique(u, axis=0)` as `Unique`.
- `preprocessing.dfy` (module `Preprocessing`): `grains`, as the method `Grains`.
  - Its first loop is `GroupRecords`, which groups voxel records by grain ID in file order.
  - Its second loop expands every voxel into its eight corners, de-duplicates them, and
    takes the grain's phase from its first voxel.
  - Python's dictionary insertion order is kept as an explicit key sequence `order`.
- `ellipsoid.dfy` (module `Ellipsoid`):
  - The mean and covariance part of `fitEllipsoid` (`FitEllipsoid`, `Dispersion`), over `real`.
  - `fitPhase` as the method `FitPhase`, specified through per-grain summaries
    (`Summarize`, `SamplesOf`, `PhaseKeys`).
- `evaluate.dfy` (module `Evaluate`):
  - `RVE_difference` as the method `RVEDifference`. Its specification is `Difference`, a fold
    over the phases of `d` in dictionary order that yields the first exception the loop
    body raises.
  - The best-RVE loop as the method `SelectBest`. Its specification is `Driver`, a running
    minimum with a strict `<`.
- `wrappers.dfy`: `Option` and `Result`.

Library numerics are parameters, not interpreted:
- `Numerics` stands for the eigen-decomposition and volume scaling of the semi-axes, and
  for `np.cbrt`.
- `Stats` stands for `util.fit_lognorm`, `util.fit_beta`, `util.hellinger_lognorm` and
  `util.hellinger_beta`.

## Model

| member | source | states |
|---|---|---|
| Points.Unique | fitellipsoid/preprocessing.py:35 | `np.unique` of the rows: strictly increasing in lexicographic order, holding exactly the rows of the input, no longer than it |
| Points.Insert | fitellipsoid/preprocessing.py:35 | inserting a row into a sorted duplicate-free sequence keeps it sorted, adds exactly that row, and grows the length by at most one |
| Points.SortedDeterminedByElements | fitellipsoid/preprocessing.py:35 | two strictly sorted sequences with the same elements are equal, so `Unique` is the only possible result of `np.unique` |
| Points.SortedCard | fitellipsoid/preprocessing.py:35 | a strictly sorted sequence has no duplicates: its element count equals its length |
| Preprocessing.Grains | fitellipsoid/preprocessing.py:3-39 | fails exactly when some line has fewer than six fields, naming the first such line. Otherwise: the grain order is first appearance; each grain's records are its lines' records in file order; `vertices` and `phases` have the same keys as `RVE`; each grain's vertices are strictly sorted and are exactly the corners of its voxels, between 8 and 8 × voxel count of them; `phases[g]` is the phase of g's first record |
| Preprocessing.GroupRecords | fitellipsoid/preprocessing.py:16-22 | the first loop either fails on the first short line or returns the grain IDs by first appearance, with no repeats and the same keys as the map; each grain's list is its records in file order and is never empty |
| Preprocessing.GrainOrderMembers | fitellipsoid/preprocessing.py:18-22 | a grain ID is a key exactly when some line names it, and exactly when its record list is non-empty |
| Preprocessing.GrainOrderDistinct | fitellipsoid/preprocessing.py:19-22 | no grain ID is a key twice |
| Preprocessing.RecordsOfConcat | fitellipsoid/preprocessing.py:19-22 | records keep file order: the records of a concatenation of two files are those of the first part followed by those of the second |
| Preprocessing.FirstRecord | fitellipsoid/preprocessing.py:19-22 | the first line naming grain g creates g's list as that single record, and that record stays first in g's list |
| Preprocessing.RecordsCoverLines | fitellipsoid/preprocessing.py:16-22 | every line yields exactly one record: the grains' list lengths add up to the number of lines |
| Preprocessing.RecordCountStep | fitellipsoid/preprocessing.py:19-22 | one more line adds one record, to its own grain's list only |
| Preprocessing.ExpandStep | fitellipsoid/preprocessing.py:25-36 | each pass of the second loop keeps the invariant: every grain handled so far has its corners, sorted and without duplicates, between 8 and 8 × voxel count of them, and the phase of its first voxel; `vertices` and `phases` have the same keys |
| Preprocessing.ExpansionIsCorners | fitellipsoid/preprocessing.py:26-34 | the appended array has 8 rows per voxel, and a row appears in it exactly when it is a corner (x-dx, y-dy, z-dz), dx, dy, dz in {0, 1}, of some voxel |
| Preprocessing.CornerSetSize | fitellipsoid/preprocessing.py:27-34 | the eight corners of one voxel are pairwise distinct |
| Preprocessing.VertexCount | fitellipsoid/preprocessing.py:35 | a grain with at least one voxel keeps between 8 and 8 × voxel count distinct vertices |
| Ellipsoid.FitEllipsoid | fitellipsoid/ellipsoid.py:18-27 | the centre is the mean on each axis (the deviations of the vertex coordinates from it sum to zero); the dispersion matrix is 3 × 3 and symmetric with non-negative diagonal |
| Ellipsoid.Dispersion | fitellipsoid/ellipsoid.py:25-27 | entry (i, j) is the sample covariance of coordinates i and j; the matrix is symmetric with non-negative variances |
| Ellipsoid.Covariances | fitellipsoid/ellipsoid.py:25-27 | the covariance matrix of rows of equal length n ≥ 2 is square, symmetric, and has non-negative variances on its diagonal |
| Ellipsoid.CoSumsOfCovariances | fitellipsoid/ellipsoid.py:25-27 | the matrix of deviation product sums about the row means is n − 1 times the covariance matrix, entry by entry |
| Ellipsoid.QuadraticOfCoSums | fitellipsoid/ellipsoid.py:25-27 | for any direction v, `vᵀ S v` of the deviation product sums S equals the sum of squared deviations of the vertices projected on v |
| Ellipsoid.CovariancesPositiveSemidefinite | fitellipsoid/ellipsoid.py:25-27 | the covariance matrix is positive semi-definite: `vᵀ Σ v ≥ 0` for every direction v |
| Ellipsoid.DispersionPositiveSemidefinite | fitellipsoid/ellipsoid.py:25-32 | the dispersion matrix handed to `np.linalg.eig` is positive semi-definite: `vᵀ Σ v ≥ 0` for every direction v, which is why its eigenvalues, whose square roots become the semi-axes, are not negative |
| Ellipsoid.CovProperties | fitellipsoid/ellipsoid.py:25-27 | `np.cov(a, b)[0][1]` equals `np.cov(b, a)[0][1]`, and `np.cov(a, a)[0][1]` is never negative |
| Ellipsoid.DeviationsFromMeanCancel | fitellipsoid/ellipsoid.py:21-23 | deviations from `np.average` sum to zero |
| Ellipsoid.MeanBounds | fitellipsoid/ellipsoid.py:21-23 | the average lies between any lower and upper bounds of the values |
| Ellipsoid.CentreInBoundingBox | fitellipsoid/ellipsoid.py:21-23 | the fitted centre lies in the bounding box of the grain's vertices |
| Ellipsoid.NotSphereIff | fitellipsoid/ellipsoid.py:56 | the test `min(L)/max(L) < 1` holds exactly when the semi-axes are not all equal; an all-zero L gives NaN and fails the test |
| Ellipsoid.RatioBounds | fitellipsoid/ellipsoid.py:56-66 | `min(L)/max(L)` with positive `max(L)` lies in [0, 1] and is below 1 exactly when `min(L) < max(L)` |
| Ellipsoid.AspectRatio | fitellipsoid/ellipsoid.py:64-66 | `min(L)/max(L)` lies in [0, 1] and equals 1 exactly when all semi-axes are equal |
| Ellipsoid.Summarize | fitellipsoid/ellipsoid.py:54-66 | a grain is sampled exactly when its semi-axes are not all equal; it is sampled under its own phase, with ratio `min(L)/max(L)` in [0, 1) and diameter `np.cbrt(np.prod(L)) * 2 * res` |
| Ellipsoid.SamplesOf | fitellipsoid/ellipsoid.py:53-66 | the retained grains of phase p are sampled grains of that phase, taken from the grains seen |
| Ellipsoid.FitPhase | fitellipsoid/ellipsoid.py:38-68 | the keys are the phases with a sampled grain, by first appearance; `d` and `a` both have exactly those keys; for every phase, position j of `d[p]` and of `a[p]` holds the diameter and the ratio of the same grain, the j-th retained grain of phase p in grain order |
| Ellipsoid.PhaseSamplesShape | fitellipsoid/ellipsoid.py:53-66 | for every key p of the result, `d[p]` and `a[p]` have the same length, at least one, and every aspect ratio in `a[p]` lies in [0, 1) |
| Ellipsoid.TracksStep | fitellipsoid/ellipsoid.py:53-66 | each pass of the loop keeps the invariant: the keys are the sampled phases by first appearance, and `d[p]` and `a[p]` are the diameters and ratios of the sampled grains of phase p, in grain order; a skipped grain changes nothing |
| Ellipsoid.PhaseKeysMembers | fitellipsoid/ellipsoid.py:58-66 | a phase is a key exactly when one of its grains passed the sphere test |
| Ellipsoid.PhaseKeysDistinct | fitellipsoid/ellipsoid.py:58-66 | no phase is a key twice |
| Ellipsoid.SamplesOfMembers | fitellipsoid/ellipsoid.py:53-66 | the samples of phase p are exactly the retained grains of phase p |
| Ellipsoid.SamplesOfConcat | fitellipsoid/ellipsoid.py:53-66 | samples keep grain order: those of two runs of grains are the first run's followed by the second's |
| Evaluate.RVEDifference | evaluate.py:20-46 | the loop computes `Difference`: the phases of `d` in dictionary order, with each phase's weighted distances added, or the first exception the loop body raises |
| Evaluate.TotalStopsAtError | evaluate.py:36-42 | once the loop body raises, later phases do not change the outcome |
| Evaluate.FirstError | evaluate.py:36-42 | the accumulation fails exactly when the body fails on some phase, and then with the first failure |
| Evaluate.DifferenceFails | evaluate.py:36-44 | `RVE_difference` raises exactly when some phase of `d` faults (KeyError on `a[i]`, IndexError on `fraction[i-1]`), and then with the first such phase's exception; otherwise `E == (H_d + H_a)/2` |
| Evaluate.FitPhaseWellKeyed | fitellipsoid/ellipsoid.py:51-68 | the samples `fitPhase` returns list each phase once, and `d` and `a` have the same phases |
| Evaluate.OnlyIndexError | evaluate.py:36-42 | when `d` and `a` share their phases, `RVE_difference` raises exactly when some phase label is outside the range `fraction` can be indexed with, and then only IndexError |
| Evaluate.TotalByPhase | evaluate.py:36-42 | with distinct phase labels in 1..4, the accumulated sums do not depend on dictionary order |
| Evaluate.DifferenceByPhase | evaluate.py:36-42 | with phase labels in 1..4 that are present in both dictionaries, `H_d` (and likewise `H_a`) is the sum over phases 1..4 of `fraction[p-1]/sum(fraction)` times the phase's size (shape) distance; phases absent from `d` contribute nothing |
| Evaluate.WeightsSumToOne | evaluate.py:9-42 | the weights `fraction[i-1]/sum(fraction)` of the four phases sum to 1 |
| Evaluate.ShareBound | evaluate.py:39-42 | a phase's weighted distance lies between 0 and its weight when the distance lies in [0, 1] |
| Evaluate.DifferenceBounded | evaluate.py:36-44 | with distances in [0, 1], `H_d`, `H_a` and `E` all lie in [0, 1] |
| Evaluate.FirstMinimumUnique | evaluate.py:50-63 | the pair (`min_error`, `best_RVE`) described as the first minimum is unique |
| Evaluate.DriverStopsAtError | evaluate.py:52-58 | once an RVE's scoring raises, the later RVEs do not change the outcome |
| Evaluate.DriverFails | evaluate.py:52-58 | the loop raises exactly when some RVE's scoring raises, and then with the first one |
| Evaluate.DriverFindsFirstMinimum | evaluate.py:50-63 | `min_error` is the least of 1e10 and all errors seen; `best_RVE` is the first RVE (from 1) that reaches it, since `<` is strict; `best_RVE` stays 0 when no error is below 1e10 |
| Evaluate.MinErrorNonIncreasing | evaluate.py:61-62 | `min_error` never increases from one RVE to the next |
| Evaluate.SelectBest | evaluate.py:49-63 | the driver loop computes `Driver` over the scores of the RVEs in order |
| Evaluate.SelectionCorrect | evaluate.py:49-63 | the loop succeeds exactly when every RVE's scoring succeeds; otherwise it raises the first failing RVE's exception; on success it ends with the least error (at most 1e10) and the first RVE that reaches it |

## Left out

- Opening and reading the voxel file and converting fields with `int()`: each line is given already split, as a sequence of integers. A line with fewer than six fields raises IndexError in `grains`; the model returns `ShortLine` with that line's index. A non-integer field (ValueError) is not modelled.
- `np.linalg.eig`, `np.sqrt`, `np.cbrt` and the volume scaling in `fitEllipsoid` (fitellipsoid/ellipsoid.py:29-32) are the parameter `Numerics`. Its only assumption is that the semi-axes are non-negative. `DispersionPositiveSemidefinite` is the reason this holds, but eigenvalues are not modelled, so the two are not linked in the proof. The rotation matrix R is not modelled.
- Ellipsoid.FitEllipsoid: requires at least two vertices, since `np.cov` divides by n - 1. `Grains` proves that every grain has at least eight.
- Floating point: all arithmetic is over exact reals. Rounding, overflow and NaN are not modelled, except that an all-zero L is treated as failing `min(L)/max(L) < 1` (NaN compares false).
- `fitRVE` (fitellipsoid/ellipsoid.py:71-86) only chains preprocessing and `fitPhase`, so the driver takes each RVE's samples as input. As written, `fitRVE` calls `preprocessing.preprocess`, and preprocessing.py defines only `grains`.
- The driver's fixed `n = 10` RVEs, the data paths, `util.mkdr`, `util.graph_plot` and the console output (evaluate.py:53-56,59,66) are left out. The model takes any number of RVEs.
- `util.fit_lognorm`, `util.fit_beta`, `util.hellinger_lognorm` and `util.hellinger_beta` are the uninterpreted functions of `Stats`. fitellipsoid/util.py defines only `plot_ellipsoid`, so the four functions are not part of this model. `plot_ellipsoid` (plotting) is left out.
- Evaluate.RVEDifference: requires that the listed keys are phases of `d`. That is what iterating a dictionary guarantees. A missing `a[i]` and a label outside -3..4 are modelled as KeyError and IndexError.
- Phase labels follow Python list indexing: `fraction[i-1]` with a label in -3..0 wraps around to the end of the reference lists instead of raising. Only labels outside -3..4 raise IndexError. The order-free and bound lemmas assume labels in 1..4.
- Evaluate.DifferenceBounded: assumes that the Hellinger distances lie in [0, 1]. That is their mathematical range, but the library functions are not part of this model.
