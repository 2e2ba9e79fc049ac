# Pilot projects: coupled oscillators and a periodic 2D system, in Dafny

This project models the numeric and index-arithmetic core of two interactive physics
simulations, and proves properties of that model.

- **CoupledOscillators.** A chain of coupled harmonic oscillators is sampled in normal-mode coordinates. The samples are transformed to positions and drawn as line meshes and histograms.
- **Periodic2DSystem.** A quantum wave function lives on a periodic 2D grid. Particles are placed by Metropolis sampling and followed along their trajectories. Screenshots are written as 24-bit BMP files.

The GPU, window and interface layers are not modelled. What is modelled is the logic they call into:

- the Metropolis sampler;
- the DST and DSCT matrix builders;
- the Hermite polynomials and the oscillator helpers;
- the many-mode densities;
- the "most square" factorisations and the texture layouts;
- the per-thread slicing of the coordinate transform;
- the histogram;
- the wire-frame vertex and element builders;
- the BMP header;
- the initial normal-mode wave-function record;
- the two parameter records.

## How the model is built

- **One module per source file.** Each source file is one Dafny module: `Metropolis`, `OrthogonalTransforms`, `Harmonic`, `MultidimensionalHarmonic`, `CoupledSimulation`, `SimulationPilot`, `PeriodicSimulation`, `Histogram`, `ConfigsView`, `TrajectoriesWireFrame`, `Bmp`, `InitialNormalModeWaveFunction`, `CoupledParameters`, `PeriodicParameters`.
- **Small shared modules.**
  - `Complex`: complex numbers as pairs of reals.
  - `MathOps`: sin, cos, sqrt, exp and the rounding to float, passed in as function values.
  - `Layout`: row-major flat indexing.
  - `Factorisation`: `decompose`, which the source carries in two identical copies.
  - `WireFrame`: the mesh both view builders produce.
  - `Uniforms` and `UniformTable`: the tagged uniform values and the code-keyed `set`/`get` both parameter records share.
- **Numbers.** Doubles and floats are exact reals. `int` and `size_t` are unbounded integers, except where the width matters: the BMP header arithmetic is stated with 32-bit bounds and conversions.
- **Functions and methods.** Loops that fill buffers are methods with loop invariants, each paired with a functional reference definition.

## Model

| member | source | states |
|---|---|---|
| Metropolis.Propose | Periodic2DSystem/metropolis.cpp:36 | the proposal keeps the dimension, leaves a coordinate with zero step size or a draw of 0.5 unmoved, and with draws in [0, 1) moves coordinate k by at most delta[k]/2 |
| Metropolis.Advance | Periodic2DSystem/metropolis.cpp:38-46 | the accept/reject decision adds exactly one to accepted + rejected |
| Metropolis.Step | Periodic2DSystem/metropolis.cpp:34-46 | one iteration keeps the dimension and adds exactly one to accepted + rejected without lowering accepted. It consumes the size draws and at most one more. Afterwards prob_curr is the density of x_curr, or both are unchanged |
| Metropolis.Run | Periodic2DSystem/metropolis.cpp:33-48 | after `steps` iterations the counters have grown by `steps` in total and the draws used stay within budget. prob_curr == dist_func(x_curr) is kept whenever it held at the start |
| Metropolis.Snapshots | Periodic2DSystem/metropolis.cpp:33-37 | `steps` snapshots of x0's dimension are recorded, the first one being x0 |
| Metropolis.RecordAndPropose | Periodic2DSystem/metropolis.cpp:34-37 | the inner loop writes x_curr into entries base .. base+size-1 and leaves every entry before base as it was. It returns the proposal built from the next size draws |
| Metropolis.Iteration | Periodic2DSystem/metropolis.cpp:34-46 | one pass of the outer loop appends the current position to the recorded prefix and advances the chain by one step |
| Metropolis.Sample | Periodic2DSystem/metropolis.cpp:17-52 | the buffer has size*steps entries and is resized exactly when its length differed. It holds the snapshots laid end to end. The returned counters are those of the run and add up to steps + 1 |
| Metropolis.FlattenIndex | Periodic2DSystem/metropolis.cpp:35 | entry s*size + k of the buffer is coordinate k of snapshot s |
| Metropolis.CountersAddUp | Periodic2DSystem/metropolis.cpp:28-45 | accepted_count + rejection_count == steps + 1 because accepted_count starts at 1, and accepted_count >= 1 |
| Metropolis.SnapshotSuccessor | Periodic2DSystem/metropolis.cpp:35-46 | snapshot s+1 either repeats snapshot s (a rejection) or is a proposal built from it |
| Metropolis.ProposalClose | Periodic2DSystem/metropolis.cpp:36 | with draws in [0,1), proposal coordinate k lies in [x[k] - delta[k]/2, x[k] + delta[k]/2], strictly below the upper end when delta[k] > 0 |
| Metropolis.OffsetBounds | Periodic2DSystem/metropolis.cpp:36 | the displacement delta*(u - 0.5) lies in [-delta/2, delta/2), and is 0 when delta is 0 |
| Metropolis.ConsecutiveSnapshotsClose | Periodic2DSystem/metropolis.cpp:36-46 | consecutive snapshots differ in coordinate k by at most delta[k]/2, or not at all |
| Metropolis.FrozenCoordinate | Periodic2DSystem/metropolis.cpp:36 | a coordinate with delta[k] == 0 keeps x0's value in every snapshot |
| Metropolis.StepAcceptance | Periodic2DSystem/metropolis.cpp:39-46 | a step accepts iff prob_next >= prob_curr or the extra draw passes u <= prob_next/prob_curr. The extra draw is consumed iff prob_next < prob_curr. A rejection keeps x_curr and prob_curr; an acceptance moves to the proposal and its density |
| Metropolis.ConstantDensityAlwaysAccepts | Periodic2DSystem/metropolis.cpp:39-43 | with a constant density every proposal is accepted and the rejection counter never moves |
| Metropolis.OneStepConstantDensity | Periodic2DSystem/metropolis.cpp:28-45 | one step with a constant density returns accepted 2, rejected 0 |
| MathOps.Sqrt | CoupledOscillators/orthogonal_transforms.cpp:14 | sqrt of a positive argument is positive, so the divisions by it are defined |
| OrthogonalTransforms.DstElement | CoupledOscillators/orthogonal_transforms.cpp:13-15 | the entry is 2 sin(pi (i+1)(j+1)/(n+1)) / sqrt(2(n+1)), the angle depending on i and j only through their product |
| OrthogonalTransforms.DsctElement | CoupledOscillators/orthogonal_transforms.cpp:21-27 | row 0 holds the normalisation of each cosine vector and 0 in each sine vector |
| OrthogonalTransforms.DstSymmetric | CoupledOscillators/orthogonal_transforms.cpp:13-15 | dst_element(i, j, n) == dst_element(j, i, n) |
| OrthogonalTransforms.FrequencyBijection | CoupledOscillators/orthogonal_transforms.cpp:22 | the frequency k maps j in [0, n) one-to-one onto [-(n-1)/2, (n-1)/2] for odd n and [-n/2+1, n/2] for even n. Its inverse is given, and the range holds exactly n frequencies |
| OrthogonalTransforms.DsctNormCases | CoupledOscillators/orthogonal_transforms.cpp:23-25 | the normalisation is sqrt(1/n) exactly when k == 0, or when n is even and k == n/2 (j == n-1). Otherwise it is sqrt(2/n) |
| OrthogonalTransforms.DsctSineVectors | CoupledOscillators/orthogonal_transforms.cpp:21-27 | the vectors with negative frequency, the first (n-1)/2, use -sin; all others use cos, at angle 2*pi*i*k/n |
| OrthogonalTransforms.FillWithTranspose | CoupledOscillators/orthogonal_transforms.cpp:29-45 | the double loop writes a[r*n + c] and its transpose b[c*n + r] for every r, c < n, and no entry at or beyond n*n changes |
| OrthogonalTransforms.MakeDst | CoupledOscillators/orthogonal_transforms.cpp:29-36 | dst[i*n + j] is dst_element(i, j, n), idst[j*n + i] == dst[i*n + j], entries beyond n*n are untouched, and dst == idst on all n*n entries |
| OrthogonalTransforms.MakeDsct | CoupledOscillators/orthogonal_transforms.cpp:38-45 | basis vector j is row j (dsct[j*n + i] == dsct_element(i, j, n)) and idsct is its transpose; entries beyond n*n are untouched |
| OrthogonalTransforms.MakeDstFloat | CoupledOscillators/orthogonal_transforms.cpp:47-54 | the float overload has the same index pattern as the double one, with each element rounded to float, and again dst == idst |
| OrthogonalTransforms.MakeDsctFloat | CoupledOscillators/orthogonal_transforms.cpp:56-63 | the float overload has the same index pattern as the double one, with each element rounded to float |
| OrthogonalTransforms.ApplyTransformAsWritten | CoupledOscillators/orthogonal_transforms.cpp:65-75 | the result has x.size() entries, and entry i is x[i] times the sum of row i of the transform |
| OrthogonalTransforms.ApplyTransform | CoupledOscillators/orthogonal_transforms.cpp:65-75 | the corrected routine returns the matrix-vector product: entry i is the dot product of row i with x |
| OrthogonalTransforms.ApplyTransformSwapsNothing | CoupledOscillators/orthogonal_transforms.cpp:71 | on the exchange matrix applied to (1, 0), the routine as written gives (1, 0) while the product is (0, 1) |
| Harmonic.Factorial | CoupledOscillators/harmonic.cpp:17-26 | for a whole-number argument the loop returns n!, so factorial(0) == factorial(1) == 1 |
| Harmonic.ClosedFormsFollowRecurrence | CoupledOscillators/harmonic.cpp:53-102 | for 2 <= n <= 19 the hard-coded polynomial is 2x·H(n-1) - 2(n-1)·H(n-2) coefficient for coefficient, the relation the default branch applies from 20 on |
| Harmonic.ClosedFormDegree | CoupledOscillators/harmonic.cpp:53-100 | the hard-coded polynomial for H_n has no term of degree below 0 or above n |
| Harmonic.ClosedFormLeading | CoupledOscillators/harmonic.cpp:53-100 | every hard-coded polynomial has leading coefficient 2^n |
| Harmonic.ClosedFormParity | CoupledOscillators/harmonic.cpp:53-100 | every hard-coded polynomial has only powers of x with the parity of n |
| Harmonic.Hermite | CoupledOscillators/harmonic.cpp:33-103 | hermite(0, x) == 1 and hermite(1, x) == 2x; below n = 20 the value is the hard-coded polynomial, from 20 on the recurrence (the lemmas below state both) |
| Harmonic.HermiteClosed | CoupledOscillators/harmonic.cpp:52-100 | for n < 20 hermite(n, x) is the hard-coded polynomial of degree n evaluated at x |
| Harmonic.HermiteUnfold | CoupledOscillators/harmonic.cpp:101-102 | for n >= 20 hermite(n, x) == 2x·hermite(n-1, x) - 2(n-1)·hermite(n-2, x) |
| Harmonic.ClosedValueParity | CoupledOscillators/harmonic.cpp:52-100 | each hard-coded polynomial, evaluated, is an even function of x for even n and an odd one for odd n |
| Harmonic.RecurrenceValueParity | CoupledOscillators/harmonic.cpp:101-102 | the recurrence carries that parity from n-1 and n-2 to n |
| Harmonic.HermiteParity | CoupledOscillators/harmonic.cpp:33-103 | hermite(n, -x) == hermite(n, x) for even n and == -hermite(n, x) for odd n, at every n |
| Harmonic.TallThinSymmetric | CoupledOscillators/harmonic.cpp:110-113 | the tall-thin Gaussian takes the same value at x0 + d and x0 - d |
| Harmonic.StationaryState | CoupledOscillators/harmonic.cpp:117-133 | at omega == 0 the state is the tall-thin Gaussian centred on 0, real and (in exact reals) positive; otherwise it is the closed-form eigenstate of level n |
| Harmonic.CoherentState | CoupledOscillators/harmonic.cpp:148-164 | at omega == 0 the state is the tall-thin Gaussian centred on x0, real and (in exact reals) positive; otherwise the closed-form coherent state |
| Harmonic.SqueezedState | CoupledOscillators/harmonic.cpp:215-236 | at omega == 0 the state is the tall-thin Gaussian centred on x0, real and (in exact reals) positive; otherwise the propagated Gaussian, with or without its phase |
| Harmonic.SqueezedAvgX | CoupledOscillators/harmonic.cpp:259-267 | the mean position is x0 at zero frequency, and a state starting at rest at the origin stays there |
| Harmonic.SqueezedAvgP | CoupledOscillators/harmonic.cpp:269-277 | the mean momentum is 0 at zero frequency, and a state starting at rest at the origin keeps momentum 0 |
| Harmonic.TallThinGaussian | CoupledOscillators/harmonic.cpp:106-113 | the zero-frequency stand-in is a real amplitude, strictly positive in exact reals |
| Harmonic.ZeroFrequencyStates | CoupledOscillators/harmonic.cpp:117-221 | with omega == 0 the stationary, coherent and squeezed states are all the tall-thin Gaussian at their centre (the origin for the stationary state), whatever the level, time, momentum, width, mass and hbar |
| Harmonic.CoherentStandardDev | CoupledOscillators/harmonic.cpp:238-243 | omega == 0 gives the tall-thin width 0.01 without dividing by omega; otherwise the width is positive when hbar/(m omega) is |
| Harmonic.SqueezedStandardDev | CoupledOscillators/harmonic.cpp:245-257 | omega == 0 gives 0.01 without dividing by omega; every width returned is non-negative |
| Harmonic.WidthScale | CoupledOscillators/harmonic.cpp:256 | the divisor abs(2 m omega sigma0) is positive whenever none of its factors is zero |
| Harmonic.SqueezedMeansAtStart | CoupledOscillators/harmonic.cpp:259-277 | omega == 0 gives mean position x0 and mean momentum 0 at every time; at t = 0 the mean position is x0 and, for omega != 0, the mean momentum is p0/m |
| MultidimensionalHarmonic.ProdSkippingOutside | CoupledOscillators/multidimensional_harmonic.cpp:82-85 | the `k != i` filter skips nothing when i is not an index of the product |
| MultidimensionalHarmonic.ProdWithZero | CoupledOscillators/multidimensional_harmonic.cpp:14-17 | a single zero amplitude makes the accumulated product zero |
| MultidimensionalHarmonic.CoherentAmplitudes | CoupledOscillators/multidimensional_harmonic.cpp:15-16 | one factor per coordinate, factor i being coherent_state at x[i] with the i-th entries of x0, p0 and omega |
| MultidimensionalHarmonic.CoherentStateProd | CoupledOscillators/multidimensional_harmonic.cpp:9-18 | the density is abs(prod)^2 of the product of the per-coordinate coherent states, so it is >= 0, and it is 1 for zero coordinates |
| MultidimensionalHarmonic.SqueezedAmplitudes | CoupledOscillators/multidimensional_harmonic.cpp:55-58 | one factor per coordinate, factor i being squeezed_state at x[i] with the i-th entries of x0, p0, sigma0 and omega, called with eight arguments so the default omit_phase = true leaves the phase factor out |
| MultidimensionalHarmonic.SqueezedStateProd | CoupledOscillators/multidimensional_harmonic.cpp:49-60 | the density is abs(prod)^2 of the product of the per-coordinate squeezed states without phase factor, >= 0, and 1 for zero coordinates |
| MultidimensionalHarmonic.ToSizeT | CoupledOscillators/multidimensional_harmonic.cpp:31-37 | an int excitation passed as a size_t level becomes the value in [0, 2^64) congruent to it modulo 2^64, unchanged when already in range |
| MultidimensionalHarmonic.ToSizeTMinusOne | CoupledOscillators/multidimensional_harmonic.cpp:31-37 | the excitation -1 becomes the largest size_t value, 2^64 - 1 |
| MultidimensionalHarmonic.StationaryAmplitudes | CoupledOscillators/multidimensional_harmonic.cpp:35-37 | one factor per excitation entry, factor i being stationary_state of level excitations[i] at x[i] and omega[i], the int level converted to size_t modulo 2^64 |
| MultidimensionalHarmonic.StationaryStatesProd | CoupledOscillators/multidimensional_harmonic.cpp:29-39 | the loop runs over excitations, not x; the density is abs(prod)^2 of their stationary states, >= 0, and 1 with no excitations |
| MultidimensionalHarmonic.StationaryIgnoresTrailingCoordinates | CoupledOscillators/multidimensional_harmonic.cpp:35-37 | coordinates past the number of excitations do not affect the stationary product |
| MultidimensionalHarmonic.StationaryZeroFrequencyMode | CoupledOscillators/multidimensional_harmonic.cpp:36-37 | a mode at zero frequency contributes the tall-thin Gaussian at the origin, whatever its excitation |
| MultidimensionalHarmonic.SkippingZeroTermsIsExact | CoupledOscillators/multidimensional_harmonic.cpp:79-89 | leaving out the terms whose coefficient is zero gives the same sum as including them |
| MultidimensionalHarmonic.AllZeroCoefficients | CoupledOscillators/multidimensional_harmonic.cpp:75-90 | with every coefficient zero the superposition is zero |
| MultidimensionalHarmonic.LevelAmplitudes | CoupledOscillators/multidimensional_harmonic.cpp:77-87 | one amplitude per coordinate, the stationary state of the given level for that mode |
| MultidimensionalHarmonic.SingleExcitationsSum | CoupledOscillators/multidimensional_harmonic.cpp:71-91 | the density is abs(sum)^2 where term i is coeff[i] times the ground states of every other mode times the first excited state of mode i; it is >= 0 and 0 when all coefficients are |
| MultidimensionalHarmonic.ExcitationTerms | CoupledOscillators/multidimensional_harmonic.cpp:79-89 | the loop over modes adds exactly the terms with a nonzero coefficient, each coeff[i] times the other modes' ground states times mode i's first excited state |
| MultidimensionalHarmonic.GroundStates | CoupledOscillators/multidimensional_harmonic.cpp:76-78 | entry k is the ground-state amplitude of mode k |
| MultidimensionalHarmonic.ProductOfOthers | CoupledOscillators/multidimensional_harmonic.cpp:81-85 | the inner loop multiplies every ground state but the i-th, which is the product of the sequence with entry i removed |
| MultidimensionalHarmonic.ProdSkippingRemoves | CoupledOscillators/multidimensional_harmonic.cpp:82-84 | the product with index i skipped equals the product of the sequence with entry i removed |
| MultidimensionalHarmonic.CoherentStateProdDistFunc | CoupledOscillators/multidimensional_harmonic.cpp:21-27 | forwards the record's fields unchanged to coherent_state_prod |
| MultidimensionalHarmonic.StationaryStatesProdDistFunc | CoupledOscillators/multidimensional_harmonic.cpp:41-47 | forwards the record's fields unchanged to stationary_states_prod |
| MultidimensionalHarmonic.SqueezedStateProdDistFunc | CoupledOscillators/multidimensional_harmonic.cpp:62-69 | forwards the record's fields unchanged to squeezed_state_prod |
| MultidimensionalHarmonic.SingleExcitationsSumDistFunc | CoupledOscillators/multidimensional_harmonic.cpp:93-102 | forwards the record's fields unchanged to single_excitations_sum |
| CoupledSimulation.SqMatrixMul | CoupledOscillators/simulation.cpp:32-40 | for i < n, dst[i] becomes the dot product of row i of the n by n matrix with v; entries from n on are not touched, and n <= 0 changes nothing |
| CoupledSimulation.MatVecRowIsRowDot | CoupledOscillators/simulation.cpp:34-38 | c_sq_matrix_mul's row sum is the matrix-vector product that apply_transform is meant to compute |
| CoupledSimulation.Copy | CoupledOscillators/simulation.cpp:42-45 | the n entries from the destination pointer on become those of v, and every other entry keeps its value |
| CoupledSimulation.FrequencyIndexAndItsMax | CoupledOscillators/simulation.cpp:58-69 | periodic boundaries give maximum n/2; any other boundary type gives index i+1 and maximum n+1 |
| CoupledSimulation.FrequencyWithinMax | CoupledOscillators/simulation.cpp:58-69 | for every mode i < n, abs(frequency index) <= maximum; with zero endpoints the index is in [1, max-1] |
| CoupledSimulation.PeriodicMatchesDsct | CoupledOscillators/simulation.cpp:62-64 | with periodic boundaries the frequency index of mode i is the one labelling DSCT basis vector i |
| CoupledSimulation.Divide | CoupledOscillators/simulation.cpp:76-78 | IEEE division: a number for a nonzero divisor, NaN for 0/0, an infinity of the numerator's sign otherwise |
| CoupledSimulation.GetOmega | CoupledOscillators/simulation.cpp:71-82 | when the maximum frequency index is 0 (one periodic oscillator) the division gives NaN, or +infinity for the linear preset with a nonzero index |
| CoupledSimulation.OmegaInRange | CoupledOscillators/simulation.cpp:71-82 | for every mode of a chain (two or more oscillators when periodic) omega is a number; the linear preset gives a value in [0, pi], and frequency index 0 gives 0 under both presets |
| CoupledSimulation.PeriodicZeroMode | CoupledOscillators/simulation.cpp:62-78 | a periodic chain of n >= 2 oscillators has a zero-frequency mode at index n/2 (odd n) or n/2 - 1 (even n) |
| CoupledSimulation.TransformRow | CoupledOscillators/simulation.cpp:513-520 | one iteration replaces row k of the configurations by the matrix times that row and leaves every other entry alone |
| CoupledSimulation.RowsTransformedStep | CoupledOscillators/simulation.cpp:497-502 | transforming the next row extends the range of transformed rows by one |
| CoupledSimulation.UntouchedRow | CoupledOscillators/simulation.cpp:497-502 | the row a pass is about to transform still holds its original values |
| CoupledSimulation.TransformRows | CoupledOscillators/simulation.cpp:497-502 | one thread's loop transforms its rows in order, each with its original values, and nothing outside them |
| CoupledSimulation.Normals2PositionsSequential | CoupledOscillators/simulation.cpp:513-520 | without threads, the first numberOfMCSteps rows are each replaced by the matrix times the row, and every other entry is unchanged |
| CoupledSimulation.ThreadCount | CoupledOscillators/simulation.cpp:523-525 | the pass uses 2 threads (fewer than 100 rows) or THREAD_COUNT = 8 |
| CoupledSimulation.ThreadSlices | CoupledOscillators/simulation.cpp:526-534 | the threads' slices tile the rows exactly: contiguous, starting at 0, every slice but the last holding rows/threads rows, the last ending at the final row |
| CoupledSimulation.LastSliceFits | CoupledOscillators/simulation.cpp:531-534 | (threads-1)*per_thread <= rows, so the last thread's count is not negative and every slice lies within the buffer |
| CoupledSimulation.SliceOffset | CoupledOscillators/simulation.cpp:528-530 | the base pointer i*(count_per_thread*num_oscillators) is the start of thread i's first row |
| CoupledSimulation.Normals2PositionsThreaded | CoupledOscillators/simulation.cpp:522-543 | with threads, every whole row of the buffer is transformed exactly once and every entry past them is unchanged |
| CoupledSimulation.WholeRowsFit | CoupledOscillators/simulation.cpp:524-526 | the size()/n whole rows lie inside the buffer |
| CoupledSimulation.RowsTransformedUnique | CoupledOscillators/simulation.cpp:511-545 | the result is determined by the original buffer, so the threaded and sequential paths agree on the same number of rows |
| CoupledSimulation.ClickExcitation | CoupledOscillators/simulation.cpp:687-698 | only the clicked oscillator's excitation changes: up by one below 30 when adding energy, down by one above 0 otherwise; a click outside the chain changes nothing |
| CoupledSimulation.ClickKeepsRange | CoupledOscillators/simulation.cpp:692-697 | clicks keep every excitation number in [0, 30] |
| CoupledSimulation.ClickInverse | CoupledOscillators/simulation.cpp:692-697 | adding and then removing energy at one oscillator undoes the click unless it was at 30, and removing then adding undoes it unless it was at 0 |
| CoupledSimulation.AcceptanceRate | CoupledOscillators/simulation.cpp:247-249 | with at least one proposal the rate is a number in [0, 1]; with none it is 0/0, NaN |
| CoupledSimulation.AcceptanceRateAfterSampling | CoupledOscillators/simulation.cpp:247-249 | after a Metropolis run of any length the rate is accepted/(steps+1), a number in (0, 1] |
| CoupledSimulation.RateBounds | CoupledOscillators/simulation.cpp:247-249 | a positive accepted count gives a rate in (0, 1] equal to accepted/(accepted+rejected) |
| SimulationPilot.Candidates | CoupledOscillators/simulation_pilot.cpp:32-34 | each of d1, d2, d3 has width times height equal to n_large*n_small |
| SimulationPilot.FirstMinimal | CoupledOscillators/simulation_pilot.cpp:38-43 | the reference choice: an entry of the list whose width + height is no larger than any other's |
| SimulationPilot.GetDimensions | CoupledOscillators/simulation_pilot.cpp:29-44 | the layout holds n_large*n_small cells, is one of d1, d2, d3, and has the smallest width + height among them |
| SimulationPilot.GetDimensionsIsFirstMinimal | CoupledOscillators/simulation_pilot.cpp:38-43 | the if-chain returns the first candidate of least perimeter, so ties go to d1, then d2 |
| SimulationPilot.WidthIsMultiple | CoupledOscillators/simulation_pilot.cpp:32-34 | the width is a whole number of oscillator columns |
| SimulationPilot.LoadConfigToTexture | CoupledOscillators/simulation_pilot.cpp:129-149 | w/n blocks of n*h values each are uploaded; laid end to end they are the first (w/n)*n*h configuration values converted to float; afterwards prev is 0 and next is 1 |
| SimulationPilot.BlocksTileConfigs | CoupledOscillators/simulation_pilot.cpp:29-146 | with the layout get_dimensions(steps, n) the blocks cover exactly the steps*n configuration values: none is left over and none is read out of range |
| Factorisation.SquareCeilFrom | CoupledOscillators/simulation_pilot.cpp:10 | the first loop stops at the smallest i with i*i >= n |
| Factorisation.CubeCeilFrom | CoupledOscillators/simulation_pilot.cpp:20 | the first loop stops at the smallest i with i*i*i >= n |
| Factorisation.DivisorAtMost | CoupledOscillators/simulation_pilot.cpp:11 | counting down, the second loop stops at the largest divisor of n not above its start, which is at least 1 |
| Factorisation.Decompose | CoupledOscillators/simulation_pilot.cpp:7-15 | the two factors multiply to n, the first is the larger, and the second is positive exactly when n is |
| Factorisation.Decompose3 | CoupledOscillators/simulation_pilot.cpp:17-27 | the three factors multiply to n, the third divides n and is positive, and the first two are ordered |
| Factorisation.DecomposeMostSquare | CoupledOscillators/simulation_pilot.cpp:7-15 | for n >= 1 the smaller factor is the largest divisor whose square does not exceed n: the most nearly square factorisation |
| Factorisation.CoDivisorBound | CoupledOscillators/simulation_pilot.cpp:10-13 | when the ceiling does not divide n, no divisor with square at most n exceeds the quotient the loop settles on |
| Factorisation.Decompose3Third | CoupledOscillators/simulation_pilot.cpp:19-21 | the third factor is the largest divisor of n not above the cube-root ceiling |
| Factorisation.DecomposeZero | CoupledOscillators/simulation_pilot.cpp:7-27 | decompose(0) gives (1, 0) and decompose_3(0) gives (1, 0, 1) |
| Factorisation.DecomposeSquare | Periodic2DSystem/simulation.cpp:21-29 | a perfect square k*k decomposes into k by k |
| Factorisation.DefaultParticleGrid | Periodic2DSystem/simulation.cpp:21-29 | `decompose(65536)` is the 256 by 256 grid |
| PeriodicSimulation.ResetTrajectoriesDimensions | Periodic2DSystem/simulation.cpp:142-151 | the trajectory texture holds exactly number_of_particles texels, is at least as wide as high, and the wire frame is built for the same grid; the wave textures are untouched |
| PeriodicSimulation.TrajectoryGridMostSquare | Periodic2DSystem/simulation.cpp:142-145 | that grid is the most nearly square one holding every particle |
| PeriodicSimulation.ResetWaveFunctionDimensionsAsWritten | Periodic2DSystem/simulation.cpp:132-140 | both assignments target the width, so the width changes and the height keeps its old value |
| PeriodicSimulation.ResetWaveFunctionDimensions | Periodic2DSystem/simulation.cpp:132-140 | the intended update sets the wave textures to the given width and height and leaves the trajectory textures alone |
| PeriodicSimulation.ResetWaveFunctionDimensionsKeepsHeight | Periodic2DSystem/simulation.cpp:133-134 | resizing a 512 by 512 wave texture to 256 by 128 as written leaves 256 by 512, where 256 by 128 was meant |
| PeriodicSimulation.ParticleDelta | Periodic2DSystem/simulation.cpp:205-206 | the sampler's step is 1.5 wave-packet widths along both axes |
| PeriodicSimulation.ScaleConfigs | Periodic2DSystem/simulation.cpp:219-226 | particle i's x is scaled by the simulation width and its y by the height, each through float |
| PeriodicSimulation.SnapshotCoordinates | Periodic2DSystem/simulation.cpp:207-216 | particle i's two coordinates are entries 2i and 2i+1 of the sampled buffer |
| PeriodicSimulation.NewParticles | Periodic2DSystem/simulation.cpp:196-230 | the trajectory texture is resized only when its texel count differs from number_of_particles, and afterwards holds exactly that many; the uploaded buffer holds, for each particle, the scaled coordinates of Metropolis sample i started at the texture position with step 1.5 widths |
| PeriodicSimulation.TimeStep | Periodic2DSystem/simulation.cpp:400-438 | the buffers rotate (psi1, psi2, psi0); the counter goes 0 to 2 and otherwise up by one; the initial Euler step runs exactly on a fresh counter; the RK4 trajectory step runs on a fresh or odd counter |
| PeriodicSimulation.RotationPreservesBuffers | Periodic2DSystem/simulation.cpp:434-436 | the rotation keeps all three buffers in use, and three steps restore the original assignment |
| PeriodicSimulation.CounterAfterCalls | Periodic2DSystem/simulation.cpp:401-437 | from a fresh wave function, k >= 1 calls leave the counter at k + 1 |
| PeriodicSimulation.CounterFrom | Periodic2DSystem/simulation.cpp:401-437 | k calls from any counter c leave c + k, or k + 1 when c was 0 and k > 0 |
| PeriodicSimulation.RK4OnOddCalls | Periodic2DSystem/simulation.cpp:431-433 | from a fresh wave function, the RK4 trajectory update runs on exactly the odd-numbered calls |
| Histogram.Trunc | CoupledOscillators/histogram.cpp:8-9 | the double-to-int conversion truncates toward zero: the result is the integer part, rounded up for negative values |
| Histogram.AddDataPoint | CoupledOscillators/histogram.cpp:4-13 | only the bin j*dimensions.x + i gains val, and only when that flat index lies in the buffer; every other bin, the dimensions, the corner and the range are unchanged, and an out-of-buffer index changes nothing |
| Histogram.AddDataPointTotal | CoupledOscillators/histogram.cpp:11-12 | adding a point raises the histogram's total by val when its index lies in the buffer, and by nothing otherwise |
| Histogram.AddDataPointCommutes | CoupledOscillators/histogram.cpp:4-13 | points can be added in either order with the same histogram as result |
| Histogram.JustBelowLandsInFirstBin | CoupledOscillators/histogram.cpp:8-9 | truncation toward zero sends a point less than one bin below the corner to bin 0 rather than -1 |
| Histogram.BinIndex | CoupledOscillators/histogram.cpp:8-10 | a point inside a non-empty window gets a flat index in [0, dimensions.x * dimensions.y) |
| Histogram.GridIndexBound | CoupledOscillators/histogram.cpp:10 | row j < rows and column i < width give j*width + i in [0, width*rows) |
| Histogram.InsideWindowLandsInGrid | CoupledOscillators/histogram.cpp:8-10 | a point inside the window lands in the cell of its own column and row |
| Histogram.BinInRange | CoupledOscillators/histogram.cpp:8-9 | a value in [min, min + range) falls in a bin in [0, bins) |
| Histogram.ColumnNotChecked | CoupledOscillators/histogram.cpp:10-11 | only the flat index is bounds-checked: in a 2 by 2 histogram of [0, 1)^2 the point (1.25, 0.25), right of the window, is counted in the first cell of the second row |
| ConfigsView.RowSize | CoupledOscillators/configs_view.cpp:10 | the row size is size()/number_of_configs rounded down, and 0 for a negative count, which the unsigned division turns into a huge divisor |
| ConfigsView.PlainXFacts | CoupledOscillators/configs_view.cpp:14 | every sample's x, the middle of its cell, lies strictly inside (-1, 1) and grows with the column |
| ConfigsView.PlainRow | CoupledOscillators/configs_view.cpp:12-17 | one vertex per sample of the row, at the sample's value |
| ConfigsView.PlainLines | CoupledOscillators/configs_view.cpp:4-26 | every sample is a vertex and each sample after the first in its row is joined to the one before: rows*row_size vertices, rows*(row_size-1) segments, each joining consecutive vertices |
| ConfigsView.PlainLinesShape | CoupledOscillators/configs_view.cpp:4-26 | every segment of the plain view runs rightward and every vertex lies on screen |
| ConfigsView.PlainRowOrdered | CoupledOscillators/configs_view.cpp:12-15 | a plain row runs strictly left to right inside (-1, 1) |
| ConfigsView.PlainRowSteps | CoupledOscillators/configs_view.cpp:12-21 | each point of a plain row lies right of the one before |
| ConfigsView.PlainLinesFollowSamples | CoupledOscillators/configs_view.cpp:15 | vertex v is drawn at the height of sample v |
| ConfigsView.DisconnectedXFacts | CoupledOscillators/configs_view.cpp:38-43 | the two vertices per sample, at 0.26 and 0.74 of its cell, lie inside (-1, 1) in increasing order |
| ConfigsView.DisconnectedRow | CoupledOscillators/configs_view.cpp:36-50 | two vertices per sample, both at the sample's value |
| ConfigsView.DisconnectedLinesMesh | CoupledOscillators/configs_view.cpp:28-53 | a short segment per sample joining its two vertices, and no segment between samples |
| ConfigsView.DisconnectedLinesShape | CoupledOscillators/configs_view.cpp:28-53 | every segment of the disconnected view runs rightward and every vertex lies on screen |
| ConfigsView.DisconnectedLinesLevel | CoupledOscillators/configs_view.cpp:38-48 | every segment of the disconnected view is level |
| ConfigsView.DisconnectedRowOrdered | CoupledOscillators/configs_view.cpp:36-46 | a disconnected row runs strictly left to right inside (-1, 1) |
| ConfigsView.DisconnectedRowSteps | CoupledOscillators/configs_view.cpp:36-49 | the second vertex of each sample lies right of the first at the same height |
| ConfigsView.DisconnectedLinesFollowSamples | CoupledOscillators/configs_view.cpp:39-44 | vertices 2s and 2s+1 are drawn at the height of sample s |
| ConfigsView.BracketedXFacts | CoupledOscillators/configs_view.cpp:69 | sample c sits at c+1 of row_size+1 cells, strictly inside (-1, 1) and increasing with c |
| ConfigsView.EndValues | CoupledOscillators/configs_view.cpp:94-109 | the end vertices carry 0 with zero endpoints; with periodic ends the left one repeats the row's last sample and the right one its first |
| ConfigsView.BracketedRow | CoupledOscillators/configs_view.cpp:55-115 | each row has an end vertex at x = -1, the samples, and an end vertex at x = 1 |
| ConfigsView.BracketedLines | CoupledOscillators/configs_view.cpp:55-115 | every row gets row_size+2 vertices joined in one unbroken line of row_size+1 segments |
| ConfigsView.BracketedLinesShape | CoupledOscillators/configs_view.cpp:55-115 | every segment of the bracketed views runs rightward and every vertex lies on screen |
| ConfigsView.BracketedLinesShapeStep | CoupledOscillators/configs_view.cpp:93-113 | pushing one more bracketed row keeps the shape |
| ConfigsView.BracketedRowOrdered | CoupledOscillators/configs_view.cpp:94-109 | a bracketed row runs strictly left to right from x = -1 to x = 1 |
| ConfigsView.BracketedRowSteps | CoupledOscillators/configs_view.cpp:94-112 | each point of a bracketed row lies right of the one before |
| ConfigsView.BracketedRowEnds | CoupledOscillators/configs_view.cpp:63-78 | with zero ends a row runs from (-1, 0) to (1, 0); with periodic ends the leading vertex repeats the height of the last sample and the trailing vertex that of the first |
| ConfigsView.ConfigsViewWireFrame | CoupledOscillators/configs_view.cpp:117-151 | every view is a line mesh whose segments join existing vertices; a negative count draws nothing |
| ConfigsView.ConfigsViewShape | CoupledOscillators/configs_view.cpp:117-151 | whatever the view type, every segment runs rightward and every vertex lies on screen |
| ConfigsView.UnknownViewIsPlain | CoupledOscillators/configs_view.cpp:139-142 | a view type outside the enumeration draws the plain lines |
| Bmp.CRem | Periodic2DSystem/bmp.cpp:6-7 | C's remainder takes the sign of the dividend and is smaller than the divisor in size |
| Bmp.ToUInt32 | Periodic2DSystem/bmp.cpp:5 | conversion to unsigned int reduces modulo 2^32 and keeps values already in range |
| Bmp.ToInt32 | Periodic2DSystem/bmp.cpp:24 | conversion back to int is two's complement and inverts the unsigned conversion |
| Bmp.Int32RoundTrip | Periodic2DSystem/bmp.cpp:5-24 | an int converted to unsigned and back is unchanged |
| Bmp.RowByteSize | Periodic2DSystem/bmp.cpp:5-8 | for a non-negative width the row size is a multiple of 4, at least 3*width and less than 3*width + 4, and equals 3*width exactly when that is a multiple of 4 |
| Bmp.RowByteSizeRoundsUp | Periodic2DSystem/bmp.cpp:5-8 | the row size is 3*width rounded up to a multiple of 4 |
| Bmp.RowByteSizeMonotone | Periodic2DSystem/bmp.cpp:5-8 | a wider image never has shorter rows |
| Bmp.NewHeader | Periodic2DSystem/bmp.cpp:10-27 | the constructor's constants ('BM', zero padding, offset 54, header size 40, 1 plane, 24 bits, no compression, 100 by 100 resolution, 16777216 palette colours, 0 important colours), the given width and height, image size row_size*height and file size 54 plus that |
| Bmp.Le32RoundTrip | Periodic2DSystem/bmp.hpp:14-28 | a 32-bit field read back from its four little-endian bytes is unchanged |
| Bmp.Read32RoundTrip | Periodic2DSystem/bmp.hpp:14-28 | any four bytes are the encoding of the value they read as |
| Bmp.Le16RoundTrip | Periodic2DSystem/bmp.hpp:21-22 | a 16-bit field read back from its two bytes is unchanged |
| Bmp.Read16RoundTrip | Periodic2DSystem/bmp.hpp:21-22 | any two bytes are the encoding of the value they read as |
| Bmp.FileBlock | Periodic2DSystem/bmp.hpp:15-18 | the file header occupies 14 bytes |
| Bmp.InfoBlock | Periodic2DSystem/bmp.hpp:19-28 | the information header occupies 40 bytes |
| Bmp.Serialize | Periodic2DSystem/bmp.hpp:14-28 | the packed struct is 54 bytes and starts with the two signature characters |
| Bmp.Parse | Periodic2DSystem/bmp.hpp:14-28 | reading 54 bytes field by field gives values of each field's type |
| Bmp.ParseFileBlock | Periodic2DSystem/bmp.hpp:15-18 | the first 14 bytes give back the signature, file size, padding and data offset |
| Bmp.ParseInfoBlock | Periodic2DSystem/bmp.hpp:19-28 | the last 40 bytes give back every information-header field |
| Bmp.ParseSerialize | Periodic2DSystem/bmp.hpp:14-28 | reading back the bytes of a header gives the header |
| Bmp.SerializeParse | Periodic2DSystem/bmp.hpp:14-28 | every 54 bytes are the bytes of the header they read as |
| Bmp.HeaderSizesAgree | Periodic2DSystem/bmp.cpp:10-27 | the written header is data_offset = 54 bytes long, its information block is header_size = 40 bytes, and its file block holds 'BM', the file size, zero padding and offset 54 |
| TrajectoriesWireFrame.Trips | CoupledOscillators/trajectories_wire_frame.cpp:8-9 | a `for (i = 0; i < n; i++)` loop runs n times, and not at all for negative n |
| TrajectoriesWireFrame.PlainRow | CoupledOscillators/trajectories_wire_frame.cpp:9-18 | oscillator c of trajectory `row` is drawn at (c, row), each joined to the one before on the same level, to its left |
| TrajectoriesWireFrame.PlainLines | CoupledOscillators/trajectories_wire_frame.cpp:3-21 | rows*columns vertices and rows*(columns-1) segments, each joining consecutive vertices |
| TrajectoriesWireFrame.AppendOnGrid | CoupledOscillators/trajectories_wire_frame.cpp:8-12 | pushing the next row keeps every vertex v at (v % columns, v / columns) |
| TrajectoriesWireFrame.PlainLinesOnGrid | CoupledOscillators/trajectories_wire_frame.cpp:3-21 | vertex v of the plain view is oscillator v % columns of trajectory v / columns |
| TrajectoriesWireFrame.PlainLinesShape | CoupledOscillators/trajectories_wire_frame.cpp:3-21 | every segment of the plain view is level and runs rightward |
| TrajectoriesWireFrame.DisconnectedRow | CoupledOscillators/trajectories_wire_frame.cpp:29-38 | two vertices per oscillator, 0.24 left and right of its column, joined by one level rightward segment |
| TrajectoriesWireFrame.DisconnectedLinesMesh | CoupledOscillators/trajectories_wire_frame.cpp:23-42 | 2*rows*columns vertices and rows*columns segments, one per oscillator, none between oscillators |
| TrajectoriesWireFrame.AppendOnSplitGrid | CoupledOscillators/trajectories_wire_frame.cpp:28-34 | pushing the next row keeps vertices 2s and 2s+1 flanking column s % columns of row s / columns |
| TrajectoriesWireFrame.DisconnectedLinesOnGrid | CoupledOscillators/trajectories_wire_frame.cpp:23-42 | vertices 2s and 2s+1 flank oscillator s % columns of trajectory s / columns |
| TrajectoriesWireFrame.DisconnectedLinesShape | CoupledOscillators/trajectories_wire_frame.cpp:23-42 | every segment of the disconnected view is level and runs rightward |
| TrajectoriesWireFrame.EndpointsRow | CoupledOscillators/trajectories_wire_frame.cpp:50-65 | a row is (-1, row), each oscillator at (c, row), then (n, row), joined on one level; with a negative count the inner loop does not run but the closing vertex still sits at x = n |
| TrajectoriesWireFrame.EndpointsLines | CoupledOscillators/trajectories_wire_frame.cpp:44-68 | rows*(n+2) vertices and rows*(n+1) segments, each joining consecutive vertices |
| TrajectoriesWireFrame.AppendOnBracketedGrid | CoupledOscillators/trajectories_wire_frame.cpp:49-62 | pushing the next row keeps vertex v at x = v % (n+2) - 1 of row v / (n+2) |
| TrajectoriesWireFrame.EndpointsRowOnGrid | CoupledOscillators/trajectories_wire_frame.cpp:50-62 | with n >= 0, vertex c of a row sits at x = c - 1 |
| TrajectoriesWireFrame.EndpointsLinesOnGrid | CoupledOscillators/trajectories_wire_frame.cpp:44-68 | with n >= 0 the end vertices of every trajectory land at x = -1 and x = n, and oscillator c at x = c |
| TrajectoriesWireFrame.EndpointsLinesOnGridStep | CoupledOscillators/trajectories_wire_frame.cpp:49-66 | adding a row keeps the view with end vertices on that grid |
| TrajectoriesWireFrame.EndpointsLinesShape | CoupledOscillators/trajectories_wire_frame.cpp:44-68 | every segment is level, and runs rightward when the oscillator count is not negative |
| TrajectoriesWireFrame.NegativeCountKeepsEnds | CoupledOscillators/trajectories_wire_frame.cpp:50-65 | with a negative count a row is just (-1, row) and (n, row) joined by one segment that does not run rightward |
| TrajectoriesWireFrame.Trajectories | CoupledOscillators/trajectories_wire_frame.cpp:70-96 | every view is a line mesh whose segments join consecutive vertices; no trajectories give the empty mesh; without oscillators only the views with end vertices have vertices |
| TrajectoriesWireFrame.TrajectoriesShape | CoupledOscillators/trajectories_wire_frame.cpp:70-96 | every view's segments are level, and rightward except in the views with end vertices under a negative oscillator count |
| TrajectoriesWireFrame.TrajectoriesCounts | CoupledOscillators/trajectories_wire_frame.cpp:70-96 | vertex and segment counts of each view as products of the trajectory and oscillator counts |
| TrajectoriesWireFrame.ZeroEndpointsIsPeriodic | CoupledOscillators/trajectories_wire_frame.cpp:75-79 | the zero-endpoints and periodic views draw the same mesh |
| TrajectoriesWireFrame.UnknownViewIsPlain | CoupledOscillators/trajectories_wire_frame.cpp:84-87 | a view type outside the enumeration draws the plain lines |
| WireFrame.Flatten | CoupledOscillators/trajectories_wire_frame.cpp:11-15 | the float and element buffers hold both components of each vertex or segment in turn: pair i at 2i and 2i+1 |
| WireFrame.LinkCountClosed | CoupledOscillators/configs_view.cpp:18-21 | a row of n points linked all but the first adds n-1 segments; linked at odd positions it adds n/2 |
| WireFrame.RowSegments | CoupledOscillators/configs_view.cpp:18-22 | each pushed segment is (elem_count-1, elem_count) for a linked point of the row |
| WireFrame.AddPoints | CoupledOscillators/configs_view.cpp:12-23 | pushing a row appends its points to the vertices and keeps the earlier segments, adding one segment per linked point, each joining consecutive vertices |
| WireFrame.AddPointsRightward | CoupledOscillators/configs_view.cpp:12-23 | a row whose linked points each lie right of the one before keeps every segment rightward |
| WireFrame.AddPointsLevel | CoupledOscillators/trajectories_wire_frame.cpp:9-18 | a row whose linked points share the y of the one before keeps every segment level |
| WireFrame.AddPointsXsWithin | CoupledOscillators/configs_view.cpp:12-17 | pushing points with x in [lo, hi] keeps every x of the mesh in [lo, hi] |
| WireFrame.AddPointsShape | CoupledOscillators/configs_view.cpp:12-23 | pushing a rightward row within [lo, hi] onto such a mesh keeps it so |
| WireFrame.AcrossBounds | CoupledOscillators/configs_view.cpp:14 | x = -1 + 2 t/cells lies in [-1, 1] for t in [0, cells], strictly inside for t strictly inside |
| WireFrame.AcrossMonotone | CoupledOscillators/configs_view.cpp:14 | x grows with the position along the row |
| Layout.RowsIsProduct | CoupledOscillators/configs_view.cpp:15 | count rows of width entries take count*width entries |
| Layout.FlatIsProduct | CoupledOscillators/configs_view.cpp:15 | entry (row, column) sits at row*width + column |
| Layout.FlatBounds | CoupledOscillators/simulation.cpp:497-501 | an entry of one of the first rows rows lies inside them, and so does the rest of its row |
| Layout.FlatInjective | CoupledOscillators/simulation.cpp:497-501 | distinct (row, column) pairs have distinct indices |
| Layout.Unflatten | CoupledOscillators/simulation.cpp:526-534 | every index inside the first rows rows is the index of some (row, column) |
| Layout.FlatDivMod | CoupledOscillators/histogram.cpp:10 | the index row*width + column recovers row and column by division and remainder |
| Complex.Norm2 | CoupledOscillators/multidimensional_harmonic.cpp:17 | abs(z)*abs(z) is never negative |
| InitialNormalModeWaveFunction.Constant | CoupledOscillators/initial_normal_mode_wave_function.hpp:25-29 | an array of MAX_SIZE = 512 slots, every slot holding the value written |
| InitialNormalModeWaveFunction.Fill | CoupledOscillators/initial_normal_mode_wave_function.cpp:21-22 | the loop over all MAX_SIZE slots leaves every slot holding the value, whatever each held before |
| InitialNormalModeWaveFunction.Initial | CoupledOscillators/initial_normal_mode_wave_function.hpp:24-30 | a fresh record has all five arrays at MAX_SIZE slots and the size it was given |
| InitialNormalModeWaveFunction.Construct | CoupledOscillators/initial_normal_mode_wave_function.cpp:4-14 | construction stores the size as given and sets every slot: zero positions, momenta, excitations and coefficients, and unit squeezing factors |
| InitialNormalModeWaveFunction.Resize | CoupledOscillators/initial_normal_mode_wave_function.cpp:16-18 | resizing changes only the mode count; no array slot is touched |
| InitialNormalModeWaveFunction.ZeroExcitations | CoupledOscillators/initial_normal_mode_wave_function.cpp:20-23 | every excitation slot becomes 0, and nothing else changes |
| InitialNormalModeWaveFunction.ZeroCoefficients | CoupledOscillators/initial_normal_mode_wave_function.cpp:25-28 | every coefficient slot becomes 0, and nothing else changes |
| InitialNormalModeWaveFunction.SetSToOnes | CoupledOscillators/initial_normal_mode_wave_function.cpp:30-33 | every squeezing slot becomes 1, and nothing else changes |
| InitialNormalModeWaveFunction.RunZeroExcitations | CoupledOscillators/initial_normal_mode_wave_function.cpp:20-23 | the slot-by-slot loop computes the reset |
| InitialNormalModeWaveFunction.RunZeroCoefficients | CoupledOscillators/initial_normal_mode_wave_function.cpp:25-28 | the slot-by-slot loop computes the reset |
| InitialNormalModeWaveFunction.RunSetSToOnes | CoupledOscillators/initial_normal_mode_wave_function.cpp:30-33 | the slot-by-slot loop computes the reset |
| InitialNormalModeWaveFunction.ResetsIdempotent | CoupledOscillators/initial_normal_mode_wave_function.cpp:20-33 | running any reset twice is the same as running it once |
| InitialNormalModeWaveFunction.ResetsCommute | CoupledOscillators/initial_normal_mode_wave_function.cpp:16-33 | the resets and resize touch disjoint members, so any two of them commute |
| InitialNormalModeWaveFunction.InitialIsReset | CoupledOscillators/initial_normal_mode_wave_function.cpp:4-33 | a freshly constructed record is a fixed point of every reset, and resizing it gives the record constructed with the new size |
| InitialNormalModeWaveFunction.ResetsRestoreInitial | CoupledOscillators/initial_normal_mode_wave_function.cpp:4-33 | the three resets together bring every member except positions and momenta back to its constructed value |
| Uniforms.Retag | CoupledOscillators/parameters.hpp:114-193 | storing a uniform in a field and reading it back gives a uniform of the field's type, and a uniform already of that type comes back unchanged |
| UniformTable.Get | CoupledOscillators/parameters.hpp:184-232 | an unlisted code reads `Uniform(0)`; a listed code reads a uniform of its field's type, the stored field itself in a well-typed record |
| UniformTable.Set | CoupledOscillators/parameters.hpp:114-183 | an unlisted code leaves the record as it was; a listed code's field takes a value of its type; no other field changes; a well-typed record stays well typed |
| UniformTable.GetAfterSet | CoupledOscillators/parameters.hpp:114-232 | reading a listed code after setting it gives the value set, retyped as the field, and the value itself when already of that type |
| UniformTable.SetAfterGet | CoupledOscillators/parameters.hpp:114-232 | writing back what was read leaves a well-typed record unchanged |
| UniformTable.SetTwice | CoupledOscillators/parameters.hpp:114-183 | the second set of a code overrides the first |
| UniformTable.SetFrame | CoupledOscillators/parameters.hpp:114-232 | setting one code leaves what every other code reads unchanged |
| UniformTable.Other | CoupledOscillators/parameters.hpp:114-183 | every uniform type has a second value, so a set can be seen to change a field |
| UniformTable.SetAndGetListSameCodes | CoupledOscillators/parameters.hpp:114-232 | a code is ignored by every set exactly when get reads `Uniform(0)` for it however it is set |
| CoupledParameters.Initialiser | CoupledOscillators/parameters.hpp:26-68 | each field's initial value has the field's type |
| CoupledParameters.Set | CoupledOscillators/parameters.hpp:114-183 | only the 22 listed codes change the record, and only their own field; labels, drop-down lists and the image record never change; validity is kept |
| CoupledParameters.Get | CoupledOscillators/parameters.hpp:184-232 | a listed code reads a uniform of its field's type, any other code `Uniform(0)` |
| CoupledParameters.SetLabel | CoupledOscillators/parameters.hpp:233-269 | the 11 label codes write their label and nothing else; every other code changes nothing; the index is not read |
| CoupledParameters.GetAfterSet | CoupledOscillators/parameters.hpp:114-232 | reading a field back after setting it gives the value set, as the field's type |
| CoupledParameters.SetAfterGet | CoupledOscillators/parameters.hpp:114-232 | writing back what was read changes nothing |
| CoupledParameters.SetTwice | CoupledOscillators/parameters.hpp:114-183 | the second set of a code overrides the first |
| CoupledParameters.SetFrame | CoupledOscillators/parameters.hpp:114-269 | setting one code leaves every other code's value and every label as they were |
| CoupledParameters.SetAndGetListSameCodes | CoupledOscillators/parameters.hpp:114-232 | the codes set ignores are exactly the codes get reads as `Uniform(0)` whatever is set |
| CoupledParameters.SetLabelFrame | CoupledOscillators/parameters.hpp:233-269 | the string set writes no value a uniform code reads, nor any other label |
| CoupledParameters.CodesInDeclarationOrder | CoupledOscillators/parameters.hpp:69-113 | the 43 codes are 0 to 42, in the order the fields are declared |
| CoupledParameters.ValueCodesListed | CoupledOscillators/parameters.hpp:114-232 | exactly 22 distinct codes carry a uniform value |
| CoupledParameters.LabelCodesCarryNoValue | CoupledOscillators/parameters.hpp:233-269 | the codes the string set writes are declared and carry no uniform value |
| CoupledParameters.ListedCodesDeclared | CoupledOscillators/parameters.hpp:69-269 | every code either switch lists is declared in the enumeration |
| CoupledParameters.DefaultsValid | CoupledOscillators/parameters.hpp:26-68 | the field initialisers give a well-typed record with every label present |
| CoupledParameters.DefaultsRead | CoupledOscillators/parameters.hpp:26-68 | a fresh record reads each listed field's initialiser |
| CoupledParameters.DefaultSampling | CoupledOscillators/parameters.hpp:30-37 | a fresh record samples 64 oscillators with 20000 Monte Carlo steps of relative size 0.66 |
| CoupledParameters.DefaultWaveFunctionFamily | CoupledOscillators/parameters.hpp:51-54 | a fresh record starts from coherent states, not squeezed, stationary or single-excitation states |
| PeriodicParameters.Initialiser | Periodic2DSystem/parameters.hpp:32-61 | each field's initial value has the field's type |
| PeriodicParameters.Set | Periodic2DSystem/parameters.hpp:93-153 | only the 19 listed codes change the record, and only their own field; labels, text boxes, drop-down lists and the screenshot record never change; validity is kept |
| PeriodicParameters.Get | Periodic2DSystem/parameters.hpp:154-196 | a listed code reads a uniform of its field's type, any other code `Uniform(0)` |
| PeriodicParameters.SetLabel | Periodic2DSystem/parameters.hpp:197-209 | the two label codes write their label; USER_TEXT_ENTRY writes the text box at the index, which must exist, and no other; every other code changes nothing |
| PeriodicParameters.GetAfterSet | Periodic2DSystem/parameters.hpp:93-196 | reading a field back after setting it gives the value set, as the field's type |
| PeriodicParameters.SetAfterGet | Periodic2DSystem/parameters.hpp:93-196 | writing back what was read changes nothing |
| PeriodicParameters.SetTwice | Periodic2DSystem/parameters.hpp:93-153 | the second set of a code overrides the first |
| PeriodicParameters.SetFrame | Periodic2DSystem/parameters.hpp:93-209 | setting one code leaves every other code's value and every label as they were |
| PeriodicParameters.SetAndGetListSameCodes | Periodic2DSystem/parameters.hpp:93-196 | the codes set ignores are exactly the codes get reads as `Uniform(0)` whatever is set |
| PeriodicParameters.SetLabelFrame | Periodic2DSystem/parameters.hpp:197-209 | the string set writes no value a uniform code reads, nor any other label |
| PeriodicParameters.CodesInDeclarationOrder | Periodic2DSystem/parameters.hpp:62-92 | the 29 codes are 0 to 28, in the order the fields are declared |
| PeriodicParameters.ValueCodesListed | Periodic2DSystem/parameters.hpp:93-196 | exactly 19 distinct codes carry a uniform value |
| PeriodicParameters.LabelCodesCarryNoValue | Periodic2DSystem/parameters.hpp:197-209 | the codes the string set writes are declared and carry no uniform value |
| PeriodicParameters.ListedCodesDeclared | Periodic2DSystem/parameters.hpp:62-209 | every code either switch lists is declared in the enumeration |
| PeriodicParameters.DefaultsValid | Periodic2DSystem/parameters.hpp:32-61 | the field initialisers give a well-typed record with both labels present |
| PeriodicParameters.DefaultsRead | Periodic2DSystem/parameters.hpp:32-61 | a fresh record reads each listed field's initialiser |
| PeriodicParameters.DefaultValues | Periodic2DSystem/parameters.hpp:41-56 | a fresh record has one text box holding "0", a 512 by 512 wave grid, a time step of 0.3 and 65536 particles |
| PeriodicParameters.DefaultParticleGrid | Periodic2DSystem/simulation.cpp:21-29 | the particle count stored in the defaults table is laid out on a 256 by 256 grid |

## Left out

- **Floating point.** sin, cos, sqrt and exp are uninterpreted: only sqrt's positivity, exp's positivity, sin 0 = 0 and cos 0 = 1 are kept. These are facts about the exact real functions; the double `exp` underflows to 0 for arguments below about -745. Rounding is modelled only where the source narrows a double to a float, as an uninterpreted function. Orthonormality of the DST and DSCT, Gaussian values and other round-off facts are out of reach.
- MathOps.Sqrt: a negative argument gives 0 rather than NaN.
- **Harmonic wave functions at nonzero frequency.** The complex exponentials, fractional powers and the squeezed phase factor are parameters (`Formulas`). This includes its `remainder(...) < 1e-60` tests at CoupledOscillators/harmonic.cpp:166-202. Only the zero-frequency branches are stated.
- Harmonic.SqueezedStandardDev: at nonzero frequency it is only proved non-negative, because its value goes through the uninterpreted sqrt.
- Harmonic.ClosedFormsFollowRecurrence: the three-term recurrence is proved on the integer coefficients of the closed forms. It is not proved on the evaluated real polynomials.
- Harmonic.TallThinGaussian: strict positivity holds in exact reals only. In doubles the exponent -0.25*((x - x0)/0.01)^2 falls below about -745 once |x - x0| > 0.546, and `exp` then returns 0, so the amplitude is 0. The same applies to the zero-frequency branches of Harmonic.StationaryState, Harmonic.CoherentState and Harmonic.SqueezedState, whose `z.re > 0.0` is likewise a property of exact reals.
- Harmonic.Hermite: its own ensures gives only the two base values. The closed forms below n = 20 and the recurrence from n = 20 on are stated by Harmonic.HermiteClosed and Harmonic.HermiteUnfold, because an ensures that mentions Hermite's own recursive calls makes every proof that unfolds it too expensive.
- OrthogonalTransforms.DsctElement: states row 0 only. Other rows go through the uninterpreted sin and cos.
- **stationary_states_combination** (CoupledOscillators/harmonic.cpp:135-146) is not modelled. It is a loop of complex wave-function evaluations with no integer content of its own.
- **Threads.** The pthread fan-out of `normals2positions` is modelled through its slice arithmetic, with the slices transformed one after another. Thread creation and joining are not modelled. The slices are disjoint, so the order does not matter.
- CoupledSimulation.Normals2PositionsThreaded: proves every row transformed for every n >= 1. Each thread of the source multiplies into a fixed `double res[512]` (CoupledOscillators/simulation.cpp:496), so more than 512 oscillators overflow that buffer; the 512-entry bound is not modelled. The sliders cap the count at 256.
- **Sampler randomness.** `std::random_device` and the engine become an explicit, finite sequence of draws. Statistical properties such as convergence and detailed balance are not stated.
- Metropolis.Sample: requires enough draws for `steps` iterations, at `size + 1` per step. The source's engine never runs out.
- Metropolis.Run: requires the same draw budget as Metropolis.Sample.
- Metropolis.Sample: takes `steps` as a natural number. The source's `int steps` may be negative: with a non-empty x0, `size*steps` is then negative, `configs.resize` receives a huge `size_t` and throws, and with an empty x0 the call returns the counters 1 and 0. Neither case is modelled.
- Metropolis.Run: takes a natural step count, for the same reason as Metropolis.Sample.
- Metropolis.Snapshots: takes a natural step count, for the same reason as Metropolis.Sample.
- Histogram.AddDataPoint: requires both ranges to be nonzero. In the source a zero range gives an infinity or NaN, and converting that to int is undefined behaviour.
- Histogram.BinIndex: truncates the scaled coordinate as an unbounded integer. In the source a value too large for `int` is undefined behaviour.
- ConfigsView.ConfigsViewWireFrame: requires a nonzero number of configurations, the divisor of `row_size`. For the periodic view it also requires at least one sample per row: with an empty row the source reads the element before the row, which is out of bounds for the first row.
- ConfigsView.BracketedLines: requires at least one sample per row for periodic ends, for the same reason.
- Harmonic.CoherentStandardDev: at nonzero frequency requires a nonzero mass, which the source divides by. Harmonic.SqueezedStandardDev, Harmonic.SqueezedAvgX and Harmonic.SqueezedAvgP require the same, and the squeezed width also requires a nonzero initial width.
- Factorisation.Decompose: the arithmetic is unbounded. The source compares a signed `i*i` with an unsigned `n`, which is meaningful only while `i*i` fits in 31 bits.
- Bmp.NewHeader: requires the row size, the image size and the file size to fit in a signed 32-bit int. The source's int arithmetic would overflow otherwise.
- **print_bmp_header** writes with printf and is not modelled.
- Uniforms.Retag: reading a uniform as a type other than its tag gives the zero of the requested type. The source reinterprets the bytes. gl_wrappers.hpp, where `Uniform` is defined, is not part of this model.
- PeriodicParameters.SetLabel: USER_TEXT_ENTRY requires the box index to exist, as the source's unchecked `userTextEntry[index]` does. The other codes ignore the index.
- **Wire-frame renderer objects.** The GL attributes and drawing mode are not modelled, and neither are the float narrowing of the vertex coordinates or the line-divider, button and image-upload members of the parameter records.
- **Out of scope.** The OpenGL/GLSL frames and programs, `draw`, `view` and the `plot_*` functions are GPU work. Also out are the window loops in main.cpp, the ImGui and wasm wrappers, both sliders.js files and write_to_png.cpp (libpng file I/O). The Python scripts squeezed.py and squeezed_pilot.py are not part of the C++ program.
- **Interface handlers.** The cursor handling of `cursor_set_initial_wave_function` and `modify_boundaries` is not modelled, except the excitation click. It mixes cursor floats with transform calls.

## Findings

| source | as written | input that shows it | evidently intended | confidence | as-written member | corrected member |
|---|---|---|---|---|---|---|
| CoupledOscillators/orthogonal_transforms.cpp:71 | `apply_transform` adds `transform[i*n+j]*x[i]`, so entry i is x[i] times the sum of row i | the exchange matrix [0 1; 1 0] applied to (1, 0) gives (1, 0) | the matrix-vector product, adding `transform[i*n+j]*x[j]`, which gives (0, 1) | not executed | OrthogonalTransforms.ApplyTransformAsWritten, OrthogonalTransforms.ApplyTransformSwapsNothing | OrthogonalTransforms.ApplyTransform |
| Periodic2DSystem/simulation.cpp:133-134 | `reset_wave_function_dimensions` assigns `texel_dimensions2d[0]` to `width` twice, so the height is never updated | resizing a 512 by 512 wave texture to 256 by 128 leaves 256 by 512 | width and height set to the two given dimensions | not executed | PeriodicSimulation.ResetWaveFunctionDimensionsAsWritten, PeriodicSimulation.ResetWaveFunctionDimensionsKeepsHeight | PeriodicSimulation.ResetWaveFunctionDimensions |
