# Registration engine core: cached-matrix transform, gradient-descent loop, spectral optimizer settings

This project models three stateful pieces of the RegSeg registration engine
and proves properties about them in Dafny.

- **`Transform`** (`transform.dfy`) covers the bookkeeping of the cached-matrix
  transform, `CachedMatrixTransform`:
  - a write-once interpolation mode: UNKNOWN, then either GRID_MODE or
    POINTS_MODE, and it never changes from one to the other;
  - the list of evaluation points and its count;
  - the reference domain's physical extent, normalised so that the low corner is
    at most the high corner on every axis;
  - reading a per-point vector out of the per-dimension value vectors;
  - flattening a scalar or vector coefficient buffer into zero-padded
    per-dimension vectors.

  The mapping from grid index to physical point is an abstract function carried
  by the `Domain` value. The mapping from linear offset to grid index
  (`ComputeIndex`) is written out, and proved to be a bijection between the
  offsets below the pixel count and the cells of the region.
- **`Optimizer`** (`optimizer.dfy`) covers the configuration surface of
  `SpectralOptimizer`:
  - the seven stop-condition codes;
  - the inline "fill" setters for Alpha, Beta and GridSize;
  - the macro-generated setters, which store the value and mark the object
    modified only when the value changes.
- **`GradientDescent`** (`gradient_descent.dfy`) covers the gradient-descent
  control loop of `GradientDescentEnergyOptimizer`: its defaults, `Start`, the
  `while (!m_Stop)` loop of `Resume`, and `Iterate`.

  The energy functional, the convergence monitor's value, the gradient hooks and
  a `Stop()` arriving from another thread are oracles gathered in an
  `Environment`. The loop's state is a `Snapshot` value. `OnePass` and `Run` are
  functions that specify one pass and the whole loop; the imperative methods are
  proved equal to them. The body of the loop is split into three methods, one per
  stage (`LoopBody`, `MonitorAndIterate`, `IterateAndCheckBudget`), each with its
  own specification function. The lemmas about `Run` state:
  - the iteration count;
  - that each recorded exit has a matching stop condition and description note,
    and that an exception no catch site handles leaves the loop unrecorded;
  - the order of the checks in a pass.
- **`Exceptions`** (`exceptions.dfy`): the `Option`, `Result` and `Outcome` values
  that stand in for thrown exceptions.

The files modelled here do not show the class `GradientDescentEnergyOptimizer`
derives from. Its loop uses the stop flag, stop condition, description,
counters, convergence settings and learning rate that `SpectralOptimizer.h`
declares. It also uses members that header does not declare: the energy, the
current energy value, the gradient and the maximum physical step. The model
therefore makes an assumption. The optimizer object holds a `SpectralOptimizer`
settings object in its constant field `base`, and keeps the other members as
its own fields. The real base class is not part of this model.
`Modified()` is modelled as advancing the modification time stamp `mTime` by one.

## Model

| member | source | states |
|---|---|---|
| Transform.CachedMatrixTransform.constructor | Code/Modules/Transform/include/CachedMatrixTransform.hxx:63-73 | A new transform has no points, no image output, mode UNKNOWN and an empty value vector for each dimension |
| Transform.CachedMatrixTransform.GetPointValue | Code/Modules/Transform/include/CachedMatrixTransform.hxx:75-87 | Returns a Dimension-long vector whose component d is the value vector of dimension d at `id`, and changes nothing |
| Transform.CachedMatrixTransform.SetPhysicalDomainInformation | Code/Modules/Transform/include/CachedMatrixTransform.hxx:90-118 | Stores size, spacing, origin and direction. On every axis the stored low extent is at most the high extent, and the pair is the minimum and maximum of the two corner images (-0.5 and size-0.5 continuous indices) |
| Transform.CachedMatrixTransform.SetOutputReference | Code/Modules/Transform/include/CachedMatrixTransform.hxx:121-150 | In POINTS_MODE it is refused with nothing changed. Otherwise it sets GRID_MODE and image output, installs a zero field with the domain's geometry (a new field, so the transform is marked modified once), sets the point count to the pixel count, and appends every cell's physical location in linear-index order to the existing point list |
| Transform.ComputeIndexRoundTrip | Code/Modules/Transform/include/CachedMatrixTransform.hxx:146-147 | Every offset below the pixel count maps to a cell inside the region, and that cell's linear offset is the offset again |
| Transform.LinearOffsetRoundTrip | Code/Modules/Transform/include/CachedMatrixTransform.hxx:146-147 | Every cell inside the region has an offset below the pixel count, and the index of that offset is the cell again, so the enumeration visits every cell |
| Transform.GridLocationsAt | Code/Modules/Transform/include/CachedMatrixTransform.hxx:145-149 | Appended location i is the physical point of the cell at offset i, and that cell is inside the region |
| Transform.GridCellsDistinct | Code/Modules/Transform/include/CachedMatrixTransform.hxx:146-147 | Different offsets below the pixel count name different cells: no cell is enumerated twice |
| Transform.CachedMatrixTransform.SetOutputPoints | Code/Modules/Transform/include/CachedMatrixTransform.hxx:152-164 | In GRID_MODE it is refused with nothing changed. Otherwise the mode becomes POINTS_MODE, the point list is exactly the argument, the count is its length and the object is marked modified. Repeated calls in POINTS_MODE succeed |
| Transform.CachedMatrixTransform.Vectorize | Code/Modules/Transform/include/CachedMatrixTransform.hxx:167-180 | The result equals the reference definition `Vectorized`: the buffer's first NumberOfParameters entries, zero-padded to the pixel count |
| Transform.VectorizedAt | Code/Modules/Transform/include/CachedMatrixTransform.hxx:171-178 | The vectorized buffer is as long as the pixel count; entry r is the buffer's entry r below NumberOfParameters and 0 from there on |
| Transform.VectorizedIdentity | Code/Modules/Transform/include/CachedMatrixTransform.hxx:171-178 | When every pixel is a parameter, vectorizing returns the buffer unchanged |
| Transform.CachedMatrixTransform.VectorizeField | Code/Modules/Transform/include/CachedMatrixTransform.hxx:183-204 | The result equals `VectorizedField`: one vector per dimension, vector c being component c of each pixel below NumberOfParameters, zero-padded to the pixel count |
| Transform.VectorizedFieldRoundTrip | Code/Modules/Transform/include/CachedMatrixTransform.hxx:197-202 | With as many parameters as pixels, component d of pixel id read back from the per-dimension vectors (as GetPointValue reads them) is the field's own component |
| Optimizer.Code | Code/Modules/Optimizers/include/SpectralOptimizer.h:105-113 | Every stop condition has an integer code below 7 |
| Optimizer.FromCode | Code/Modules/Optimizers/include/SpectralOptimizer.h:105-113 | Every code 0..6 is the code of some stop condition |
| Optimizer.CodesDistinct | Code/Modules/Optimizers/include/SpectralOptimizer.h:105-113 | Two stop conditions have equal codes exactly when they are the same condition, and decoding a code gives back its condition |
| Optimizer.SizeFromDouble | Code/Modules/Optimizers/include/SpectralOptimizer.h:259 | A double strictly between -1 and 2^64 becomes the unsigned size that truncates it toward zero; a value in (-1, 0) becomes 0 |
| Optimizer.SpectralOptimizer.SetAlpha | Code/Modules/Optimizers/include/SpectralOptimizer.h:241-244 | Every one of the Dimension components of Alpha becomes v, and the object is marked modified |
| Optimizer.SpectralOptimizer.SetBeta | Code/Modules/Optimizers/include/SpectralOptimizer.h:246-249 | Every component of Beta becomes v, and the object is marked modified |
| Optimizer.SpectralOptimizer.SetGridSize | Code/Modules/Optimizers/include/SpectralOptimizer.h:259 | Every axis of GridSize becomes the size-converted value, and nothing else changes: the object is not marked modified |
| Optimizer.SpectralOptimizer.SetAlphaVector | Code/Modules/Optimizers/include/SpectralOptimizer.h:232 | Alpha becomes the argument; the object is marked modified exactly when the value differs from the stored one |
| Optimizer.SpectralOptimizer.SetBetaVector | Code/Modules/Optimizers/include/SpectralOptimizer.h:235 | Beta becomes the argument; the object is marked modified exactly when the value differs from the stored one |
| Optimizer.SpectralOptimizer.SetStepSize | Code/Modules/Optimizers/include/SpectralOptimizer.h:238 | StepSize becomes the argument; the object is marked modified exactly when the value differs from the stored one |
| Optimizer.SpectralOptimizer.SetNumberOfIterations | Code/Modules/Optimizers/include/SpectralOptimizer.h:255 | NumberOfIterations becomes the argument; the object is marked modified exactly when the value differs from the stored one |
| Optimizer.SpectralOptimizer.SetGridSizeVector | Code/Modules/Optimizers/include/SpectralOptimizer.h:257 | GridSize becomes the argument; the object is marked modified exactly when the value differs from the stored one |
| Optimizer.SpectralOptimizer.SetLearningRate | Code/Modules/Optimizers/include/SpectralOptimizer.h:184 | LearningRate becomes the argument; the object is marked modified exactly when the value differs from the stored one |
| Optimizer.SpectralOptimizer.SetMinimumConvergenceValue | Code/Modules/Optimizers/include/SpectralOptimizer.h:202 | MinimumConvergenceValue becomes the argument; the object is marked modified exactly when the value differs from the stored one |
| Optimizer.SpectralOptimizer.SetConvergenceWindowSize | Code/Modules/Optimizers/include/SpectralOptimizer.h:212 | ConvergenceWindowSize becomes the argument; the object is marked modified exactly when the value differs from the stored one |
| Optimizer.SettersKeepTheirValues | Code/Modules/Optimizers/include/SpectralOptimizer.h:232-262 | For the call sequence Alpha fill, StepSize, Beta fill, GridSize fill, NumberOfIterations: each getter (a field read) returns what its own setter stored, although later setters ran. The modification count grows by exactly 2 for the scalar fills, 0 for the GridSize fill, and 1 for each macro setter whose value changed. No other field changes |
| GradientDescent.GradientDescentEnergyOptimizer.constructor | Code/Modules/Optimizers/src/GradientDescentEnergyOptimizer.cxx:46-51 | Defaults: learning rate 1, maximum physical step 0, minimum convergence value 1e-8, convergence window 50 |
| GradientDescent.GradientDescentEnergyOptimizer.Start | Code/Modules/Optimizers/src/GradientDescentEnergyOptimizer.cxx:63-84 | Builds an empty monitor with the configured window and resets the counter to 0, then runs Resume: the new state and the raised error are those of `StartRun` |
| GradientDescent.GradientDescentEnergyOptimizer.Resume | Code/Modules/Optimizers/src/GradientDescentEnergyOptimizer.cxx:95-162 | Resets the description to the class name, clears the stop flag and loops until a pass stops. The final state and the raised error are those of `Run` on that state |
| GradientDescent.GradientDescentEnergyOptimizer.LoopBody | Code/Modules/Optimizers/src/GradientDescentEnergyOptimizer.cxx:101-161 | One pass of the loop (evaluate, external stop, monitor and threshold, Iterate, count and budget) leaves exactly the state and error of `OnePass` |
| GradientDescent.GradientDescentEnergyOptimizer.MonitorAndIterate | Code/Modules/Optimizers/src/GradientDescentEnergyOptimizer.cxx:123-161 | The part of a pass after a successful evaluation: the state and error are those of `CheckConvergence`, which feeds the monitor and either stops at the threshold or iterates and counts |
| GradientDescent.GradientDescentEnergyOptimizer.IterateAndCheckBudget | Code/Modules/Optimizers/src/GradientDescentEnergyOptimizer.cxx:141-160 | Iterate, then count, then the budget check: the state and error are those of `IterateAndCount` |
| GradientDescent.GradientDescentEnergyOptimizer.Iterate | Code/Modules/Optimizers/src/GradientDescentEnergyOptimizer.cxx:164-189 | Scale modification, then learning-rate estimation from the iteration, the maximum physical step and the scaled gradient, then learning-rate modification with the new rate, then the update. An exception from a hook escapes at once, after the hooks before it took effect. The resulting state and error are `IterateStep` |
| GradientDescent.ModifyGradient | Code/Modules/Optimizers/src/GradientDescentEnergyOptimizer.cxx:172-174 | The three unguarded gradient hooks, in order; whichever way they end, only the gradient and the learning rate change |
| GradientDescent.IterateStep | Code/Modules/Optimizers/src/GradientDescentEnergyOptimizer.cxx:172-186 | Iterate passes exactly when every hook and the update succeed. An ITK exception from the update stops with UPDATE_PARAMETERS_ERROR and its note, and is rethrown. Any other exception escapes with the stop flag, condition and description unchanged. Iterate never counts |
| GradientDescent.OnePass | Code/Modules/Optimizers/src/GradientDescentEnergyOptimizer.cxx:101-161 | A pass that does not stop leaves the stop condition and description alone; if it also raises nothing, it has counted exactly one iteration and is still below the budget. A pass advances the counter by at most one and never changes the budget, threshold or window |
| GradientDescent.Run | Code/Modules/Optimizers/src/GradientDescentEnergyOptimizer.cxx:101-161 | The loop always terminates, either with the stop flag set or by an exception leaving it, keeping a monitor, budget, threshold and window |
| GradientDescent.ContainedRunStops | Code/Modules/Optimizers/src/GradientDescentEnergyOptimizer.cxx:101-186 | When the hooks never raise and the functional raises only ITK exceptions, every run ends with the stop flag set |
| GradientDescent.RunReachesBudget | Code/Modules/Optimizers/src/GradientDescentEnergyOptimizer.cxx:152-160 | With nothing failing, no external stop and the threshold never passed, the loop from iteration k ends without error with MAXIMUM_NUMBER_OF_ITERATIONS at iteration max(k+1, N). It feeds one energy per pass and appends exactly the "maximum iterations" note |
| GradientDescent.StartIteratesBudget | Code/Modules/Optimizers/src/GradientDescentEnergyOptimizer.cxx:63-84 | Undisturbed, Start ends with MAXIMUM_NUMBER_OF_ITERATIONS after exactly max(1, N) passes, so N = 0 still iterates once |
| GradientDescent.RunExitExplained | Code/Modules/Optimizers/src/GradientDescentEnergyOptimizer.cxx:95-162 | Every run that stops appends exactly one note to the description, and that note explains the exit, with the matching stop condition. Among those, only the caught energy and update errors raise, and an external stop keeps the previous condition. A run that does not stop was left by an uncaught exception and leaves the condition and description unchanged. The counter stays between k and max(k+1, N) |
| GradientDescent.PassExitExplained | Code/Modules/Optimizers/src/GradientDescentEnergyOptimizer.cxx:103-160 | A pass that stops appends exactly one note, which explains the exit, and advances the counter by at most one |
| GradientDescent.PassKeepsStopCondition | Code/Modules/Optimizers/src/GradientDescentEnergyOptimizer.cxx:101-161 | A pass that does not stop leaves the stop condition and the description as they were |
| GradientDescent.EvaluationFailureStops | Code/Modules/Optimizers/src/GradientDescentEnergyOptimizer.cxx:103-114 | An evaluation failing with an ITK exception stops with COSTFUNCTION_ERROR and rethrows its error. Only the stop fields change: no energy, no monitor sample, no Iterate |
| GradientDescent.ForeignEvaluationErrorEscapes | Code/Modules/Optimizers/src/GradientDescentEnergyOptimizer.cxx:103-114 | An evaluation failing with any other exception is not caught: the loop is left with the state unchanged, the stop flag clear and no note |
| GradientDescent.ExternalStopKeepsCondition | Code/Modules/Optimizers/src/GradientDescentEnergyOptimizer.cxx:116-121 | A stop that arrives during evaluation ends the loop without error. It only appends its note: the stop condition, monitor, parameters and counter are unchanged |
| GradientDescent.PassFeedsMonitorOnce | Code/Modules/Optimizers/src/GradientDescentEnergyOptimizer.cxx:125 | Each successful, not externally stopped evaluation adds exactly its energy to the monitor, whichever way the pass ends |
| GradientDescent.ConvergenceStopsBeforeIterate | Code/Modules/Optimizers/src/GradientDescentEnergyOptimizer.cxx:123-135 | A convergence value at or below the minimum ends the loop with CONVERGENCE_CHECKER_PASSED before Iterate and without counting. The parameters, the learning rate and the freshly evaluated gradient are all left as they are |
| GradientDescent.ConvergenceFailureIgnored | Code/Modules/Optimizers/src/GradientDescentEnergyOptimizer.cxx:136-143 | A monitor failure is swallowed: the pass goes on to Iterate and count (`IterateAndCount`) with the monitor fed the new energy and the stored convergence value left as it was |

## Left out

- `SpectralUpdate`, the FFT and inverse-FFT pipeline, the regularisation denominator and `UpdateField`: their bodies are not part of this model, and they are floating-point frequency-domain numerics.
- The sparse B-spline interpolation matrix and its solver: no construction code for it is part of this model. `m_PointValues` is filled elsewhere, so the model takes it as given state. `m_NumberOfParameters` is also set elsewhere, so it is a constructor argument.
- The window regression of `WindowConvergenceMonitoringFunction`, `ModifyGradientByScales`, `EstimateLearningRate`, `ModifyGradientByLearningRate`, `GetValueAndDerivative` and `UpdateTransformParameters`: external, threaded, floating-point code. Each is an oracle in `Environment` that returns a value or an exception, which is either an ITK exception object or an exception of another type. The monitor keeps its whole energy history, and the window is the oracle's business.
- Exceptions are ITK exception objects or "other"; the model does not tell apart the other kinds. It takes the convergence monitor to raise only exceptions its `std::exception` handler catches.
- An exception that escapes a collaborator is taken to leave that collaborator's own output untouched: a gradient hook or an evaluation that raised after writing part of `m_Gradient` in place is not modelled.
- The learning-rate estimation oracle receives the current iteration, the maximum step in physical units, the scaled gradient and the current rate. Any other state the ITK estimator reads is not modelled.
- ITK image geometry: `TransformContinuousIndexToPhysicalPoint` and `TransformIndexToPhysicalPoint` are one abstract function of the `Domain`. `ComputeIndex` assumes a region starting at index 0 with the first axis varying fastest, as ITK lays out a buffered region.
- The image field and coefficient buffers are sequences, not ITK images. Memory allocation and smart pointers are not modelled.
- Event invocation (`StartEvent`, `IterationEvent`), `itkDebugMacro`, `PrintSelf`, the `std::cerr` message of a failed convergence check, and option parsing: reporting and I/O.
- The stop-condition description stream is a sequence of `Note` values rather than text; the iteration number and budget they carry are kept.
- `Stop()` issued by another thread while the loop runs: not modelled as concurrency. An oracle says whether a stop arrived during the evaluation of a given iteration; a stop arriving anywhere else in the pass is not modelled.
- `SpectralOptimizer.hxx` is not part of this model. `Superclass::Start()` is taken to do nothing that the loop reads, and `Stop()` to set the stop flag. The `SpectralOptimizer` constructor is taken to zero-initialise its fields, which is why `Optimizer.SpectralOptimizer.constructor` has no row above.
- Floating-point arithmetic: values are `real`.
- Optimizer.SpectralOptimizer.SetGridSize: requires a value strictly between -1 and 2^64. C++ defines the double-to-unsigned conversion only there, by truncation toward zero; outside that range it is undefined.
- Transform.CachedMatrixTransform.Vectorize: requires NumberOfParameters not to exceed the buffer's pixel count, because the C++ code would read past the buffer. The same holds for `VectorizeField`.
- Transform.CachedMatrixTransform.SetOutputReference: `SetDisplacementField` is not part of this model. It is taken to mark the transform modified exactly once when given the newly allocated field, as ITK's object setters do when the stored pointer changes. Its other effects on the inherited transform are not modelled.
- Transform.CachedMatrixTransform.SetOutputReference: the point list is modelled as written. A second call in GRID_MODE appends another copy of the grid while the point count stays the pixel count, so the list length and the count then differ.
- Exceptions are values (`Outcome`, `Result`), not unwinding. When an exception is raised, the state the model returns is the state at the throw.
- The inherited ITK `Modified()` time stamp is a counter; the global ordering of ITK time stamps is not modelled.
