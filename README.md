# Parallel-beam X-ray projector glue and quadrature-weighted discretizations

This Dafny project models two parts of a tomographic reconstruction framework.

**The 3-D parallel-beam X-ray layer** (`src/builders/xray.py`). It has four pieces:
- **The geometry builder.** It validates the grid dimensions. It then builds either the rotating-sample set-up or the rotating-gantry set-up.
- **Backend dispatch** on `"astra"` and `"astra_cuda"`.
- **Two engine paths**, one for forward projection and one for backprojection. Each translates between the caller's array layout and the engine's layout and rescales the detector pixel spacing by the voxel size. It then drives the external ray-integration engine through its handle API in a fixed order: create data, create algorithm, run, delete, get.
- **The two projector wrappers.**

The engine is a class (`Engine.Engine`) with three parts:
- a table of data handles;
- a table of algorithm handles;
- the log of calls made to it.

What the engine computes for each output cell is an opaque function that is fixed when the engine is made. So the model proves how the glue moves data and handles, and nothing about the ray integrals.

**The discretizations** (`src/space/defaultDiscretizations.py`). There is a uniform discretization of an interval and a pixel discretization of a square. Each one:
- wraps a representation space `rn`;
- checks the capabilities of `rn` at construction;
- weights the `rn` inner product, squared norm and sum by a scale factor;
- samples the domain on a linspace or a meshgrid;
- builds vectors by evaluating a function at those points in a fixed flattening order.

Modules, one per file:

| file | module | content |
|---|---|---|
| results.dfy | `Results` | `Option`, `Result`, and the raised exceptions as an `Error` datatype |
| arrays.dfy | `Arrays3` | 3-D arrays as boxes of nested sequences, and numpy's `swapaxes` |
| axes.dfy | `AxisOrder` | the fixed `swapaxes` chains of the two paths, and their inverse laws |
| geometry.dfy | `Geometry` | grids, sources, samples, detectors and circles as records, and the builder |
| engine.dfy | `Engine` | descriptors, buffers, algorithm configurations, and the engine class |
| xray.dfy | `XRay` | backend dispatch, the two paths, spacings, call sequences and wrappers |
| rn.dfy | `RnSpaces` | the representation space: dot product, squared norm, sum |
| format.dfy | `Decimal` | decimal rendering of the counts in an error message |
| discretizations.dfy | `Discretizations` | the uniform and pixel discretizations |

### Where the code departs from its stated intent

This model follows the code in each of these cases.
- **Handle release.** The intended discipline is that every engine handle a projection acquires is released right after the run, on every exit path, a failing run included. The code deletes only the algorithm handle, and only on the CUDA path, once the run returns (`src/builders/xray.py:191-192`, `271-272`). It never deletes the two data handles. It has no `try`/`finally`, so the CPU path raises with both data handles still allocated, and a run that raises skips the delete.
- **Pixel equality.** The intended rule is that two discretizations are equal exactly when their parent spaces and their representation spaces are equal. Pixel `equals` compares `cols`, `rows` and `rn`, not the parent (`src/space/defaultDiscretizations.py:129-130`). `PixelEqualsIgnoresParent` exhibits two `equals` pixel discretizations whose inner products differ.
- **Equality across factory calls.** The rule is meant to be value equality, not identity, because discretizations are often rebuilt. But each factory call defines a fresh class (`src/space/defaultDiscretizations.py:39`, `96`), and the `isinstance` tests of `__eq__` and `equals` (`66`, `130`) match only instances of that same class. So two discretizations built by two calls never compare equal, however equal their fields. The model compares fields, which is what the rule intends and what the code does between instances of one call's class.
- **Uniform integration.** The docstring (`src/space/defaultDiscretizations.py:42`) says the uniform discretization integrates by the trapezoid rule. The code sums all n values with the step `(end - begin)/(n - 1)` and does not halve the end points. `UniformIntegrateOnes` shows how far this is from the trapezoid rule: the constant one integrates to the interval length plus one step.
- **The pixel `dx`.** The scale is meant to be the area of a mesh cell, but `dx` is computed from `end[1] - begin[0]` (`src/space/defaultDiscretizations.py:119`). `PixelScaleIsCellArea` states exactly when the resulting scale equals that area.
- **The gantry's initial rotation.** `init_rotation` is read (`src/builders/xray.py:101`) but the rotating-gantry branch never uses it (`112-121`). `RotatingGantryMode` states that the built geometry does not depend on it.

## Model

| member | source | states |
|---|---|---|
| Arrays3.SwapAxes01 | src/builders/xray.py:150 | the shape with axes 0 and 1 exchanged, and entry (j, i, k) is the input's (i, j, k) |
| Arrays3.SwapAxes02 | src/builders/xray.py:244 | the shape with axes 0 and 2 exchanged, and entry (k, j, i) is the input's (i, j, k) |
| Arrays3.SwapAxes12 | src/builders/xray.py:197 | the shape with axes 1 and 2 exchanged, and entry (i, k, j) is the input's (i, j, k) |
| Arrays3.Zeros | src/builders/xray.py:177 | a buffer created without initial data has the requested shape and is zero everywhere |
| AxisOrder.VolumeToEngine | src/builders/xray.py:150 | shape (a0, a1, a2) becomes (a2, a0, a1), and B[k][i][j] = A[i][j][k] |
| AxisOrder.ProjectionFromEngine | src/builders/xray.py:197 | the engine's (rows, tilts, cols) becomes (cols, rows, tilts), and entry (c, r, t) is the engine's (r, t, c) |
| AxisOrder.CycleAxesLeft | src/builders/xray.py:277 | shape (p0, p1, p2) becomes (p1, p2, p0), and entry (j, k, i) is the input's (i, j, k) |
| AxisOrder.VolumeToEngineIsProjectionFromEngine | src/builders/xray.py:150 | the volume chain and the projection-restore chain of the forward path are the same permutation |
| AxisOrder.VolumeRoundTrip | src/builders/xray.py:277 | the backprojection's volume restore undoes the forward volume permutation |
| AxisOrder.VolumeRoundTripEngine | src/builders/xray.py:150 | the forward volume permutation undoes the volume restore |
| AxisOrder.ProjectionRoundTrip | src/builders/xray.py:244 | the backprojection's input permutation undoes the forward projection restore |
| AxisOrder.ProjectionRoundTripEngine | src/builders/xray.py:197 | the forward projection restore undoes the backprojection's input permutation |
| Geometry.ParallelGeometry3D | src/builders/xray.py:93-96 | a sample grid that is not 3-D fails first, with (actual dim, 3, `spl_grid.dim`); then a detector grid that is not 2-D fails, with (actual dim, 2, `det_grid.dim`); success exactly when both hold, keeping both grids and choosing the sample kind by `rotating_sample` |
| Geometry.RotatingSampleMode | src/builders/xray.py:103-111 | a rotating sample carrying the axis, `init_rotation` and the angles; source direction (1,0,0) at (-1,0,0), detector at (1,0,0): antipodal at unit distance |
| Geometry.RotatingGantryMode | src/builders/xray.py:112-121 | a fixed sample; source and detector on radius-1 circles about the same axis with the same angles, the detector's shifted by a half turn; the source direction is (1, 0, 0) and both circles use the `tripod` axes map; the result is the same whatever `init_rotation` is |
| Engine.ForwardOutput | src/builders/xray.py:191 | a forward run refills the projection buffer, which keeps its kind and descriptor and has the engine layout (rows, tilts, cols) |
| Engine.BackwardOutput | src/builders/xray.py:271 | a backprojection run refills the volume buffer, which keeps its kind and descriptor and has the engine layout (n2, n0, n1) |
| Engine.RunEffect | src/builders/xray.py:191 | a run keeps the handle set and every buffer except the one the algorithm writes |
| Engine.RunEffectKeepsTable | src/builders/xray.py:271 | after a run, every buffer still has its descriptor's layout |
| Engine.Engine.CreateData | src/builders/xray.py:176-177 | a fresh handle is added holding the given data, or zeros; the call is logged |
| Engine.Engine.CreateAlgorithm | src/builders/xray.py:188 | a fresh algorithm handle is bound to the configuration; the call is logged |
| Engine.Engine.Run | src/builders/xray.py:191 | the data table becomes the algorithm's run effect; the call is logged |
| Engine.Engine.Delete | src/builders/xray.py:192 | the algorithm handle is removed; the call is logged |
| Engine.Engine.GetData | src/builders/xray.py:196 | returns the buffer's current contents; the call is logged |
| XRay.SelectBackend | src/builders/xray.py:124-136 | succeeds exactly on `astra` and `astra_cuda`, with use-CUDA exactly for `astra_cuda`; any other name gives NotImplementedError with the supported-backends message |
| XRay.EnginePixelSpacing | src/builders/xray.py:159 | engine pixel spacing i times volume spacing i+1 is detector spacing i, for i in {0, 1} |
| XRay.ProjectionSpacing | src/builders/xray.py:200-202 | the projection spacing is (det.spacing[0], det.spacing[1], 1) |
| XRay.ForwardDescriptors | src/builders/xray.py:151-173 | the volume descriptor has the volume's shape; the projection descriptor is `parallel3d` with rows = det.shape[1], cols = det.shape[0], the sample's angles, and the rescaled pixel spacings |
| XRay.ForwardResult | src/builders/xray.py:196-202 | the forward result has shape (det.shape[0], det.shape[1], number of angles) and spacing (det.spacing, 1) |
| XRay.ForwardResultAt | src/builders/xray.py:197 | the result's value at (x, y, t) is the engine's value at (row y, tilt t, column x) |
| XRay.BackwardDescriptors | src/builders/xray.py:236-253 | the volume descriptor has the sample grid's shape; the projection descriptor has rows = proj.shape[1], cols = proj.shape[0], the angles, the pixel spacings rescaled by the sample grid's spacing, and exactly the layout of the permuted projection |
| XRay.BackwardResult | src/builders/xray.py:276-280 | the backprojected volume has the sample grid's shape and spacing |
| XRay.BackwardResultAt | src/builders/xray.py:277 | the volume's value at (i, j, k) is the engine's value at (k, i, j) |
| XRay.CudaCallsReleaseAlgorithm | src/builders/xray.py:176-196 | on CUDA the engine sees: create volume, create sinogram, create algorithm; then run it right away and delete it right after, exactly once; then get the buffer the algorithm wrote |
| XRay.CpuCallsCreateNoAlgorithm | src/builders/xray.py:176-184 | on the CPU backend only the two data handles are created before the error, and no algorithm |
| XRay.CreateBuffers | src/builders/xray.py:176-177 | the volume handle, then the projection handle, both fresh, with the given contents; nothing else changes |
| XRay.RunAndRead | src/builders/xray.py:186-196 | create, run and delete the algorithm; read back the written buffer; only that buffer changes, and the algorithm table is as before |
| XRay.ForwardProjectAstra | src/builders/xray.py:139-204 | CUDA returns `ForwardResult`; CPU raises the no-CPU error after creating both data handles; the exact call log; two data handles are left allocated; earlier buffers and algorithms are untouched |
| XRay.BackprojectAstra | src/builders/xray.py:223-282 | CUDA returns `BackwardResult`; CPU raises the no-CPU error after creating both data handles; the exact call log; two data handles are left allocated; earlier buffers and algorithms are untouched |
| XRay.ParallelProjection3D | src/builders/xray.py:124-136 | `astra_cuda` projects on CUDA and `astra` fails on the CPU path; any other name raises before the engine is touched; a supported backend adds exactly two data handles, keeps every earlier buffer, and leaves the algorithm table as it was |
| XRay.ParallelBackprojection3D | src/builders/xray.py:207-220 | the same decision table and the same frame, for the backprojection |
| XRay.ParallelProjector3D | src/builders/xray.py:45-50 | a `Projector` that applies the forward dispatcher, with the given geometry and backend; what applying it does is stated by `ApplyOperator` |
| XRay.ParallelBackprojector3D | src/builders/xray.py:53-58 | applies the backprojection dispatcher, built with the `Projector` class as written; what applying it does is stated by `ApplyOperator` |
| XRay.ApplyOperator | src/builders/xray.py:45-58 | applying a wrapper runs its dispatcher with its geometry and backend: on CUDA the forward wrapper gives `ForwardResult` and the backward one `BackwardResult`, the CPU backend gives the no-CPU error of its direction, an unknown backend fails with the engine untouched; on a supported backend the log grows by exactly that path's calls, exactly two data handles are added, every earlier buffer is kept and the algorithm table is as it was |
| XRay.ApplyCudaOperator | src/builders/xray.py:45-58 | a wrapper on the CUDA backend gives its direction's CUDA result, the six calls of that path, two new data handles, and no other change |
| XRay.ApplyDefaultProjectors | src/builders/xray.py:45-58 | the wrappers built with their default backend project a volume to `ForwardResult` and then backproject a sinogram to `BackwardResult`; the log is the forward CUDA path followed by the backward one, four data handles are added, every earlier buffer is kept, the algorithm table is as it was, and the engine stays valid for further calls |
| XRay.ForwardResultFeedsBackprojection | src/builders/xray.py:236-253 | with the volume on the sample grid, the forward result is a valid backprojection input on the same geometry, and both paths hand the engine the same volume and projection descriptors |
| XRay.WrappersDiffer | src/builders/xray.py:45-58 | the two wrappers differ only in the dispatcher they apply, and by default they select CUDA |
| RnSpaces.NormSq | src/space/defaultDiscretizations.py:62-63 | the `rn` squared norm is the dot product of a vector with itself, and it is never negative |
| RnSpaces.DotOnesIsSum | src/space/defaultDiscretizations.py:74-75 | the `rn` sum is the dot product with the ones |
| Decimal.ParseNatToString | src/space/defaultDiscretizations.py:113 | the decimal rendering of a count in the mismatch message reads back as that count |
| Discretizations.MakeUniform | src/space/defaultDiscretizations.py:45-57 | fails, in this order: the domain is not an interval; `rn` is not a Hilbert space; `rn` is not an algebra; n = 1 (division by zero); otherwise it keeps parent and `rn`, with scale times (n - 1) = end - begin |
| Discretizations.MakePixel | src/space/defaultDiscretizations.py:102-121 | the same capability checks with a square; then a dimension other than cols*rows fails with the message naming cols, rows, their product and the dimension; then cols = 1 or rows = 1 divides by zero; otherwise scale times (cols-1)(rows-1) = (end[1] - begin[0])(end[1] - begin[1]) |
| Discretizations.NormSquared | src/space/defaultDiscretizations.py:62-63 | the weighted squared norm is the weighted inner product of a vector with itself, and it is never negative when the scale is not |
| Discretizations.Integrate | src/space/defaultDiscretizations.py:74-75 | the weighted integral is the weighted inner product with the constant one |
| Discretizations.Inner | src/space/defaultDiscretizations.py:59-60 | the weighted inner product (the uniform one, and the identical pixel one at lines 123-124) is symmetric, and nonnegative on a vector with itself when the scale is |
| Discretizations.InnerAdditive | src/space/defaultDiscretizations.py:123-124 | the weighted inner product is additive in its first argument |
| Discretizations.IntegrateAdditive | src/space/defaultDiscretizations.py:139-140 | the weighted integral is additive |
| Discretizations.UniformIntegrateOnes | src/space/defaultDiscretizations.py:74-75 | on every constructed uniform discretization the constant one integrates to (end - begin) plus one scale step |
| Discretizations.Linspace | src/space/defaultDiscretizations.py:78 | `num` values, the first `start`, and (when there are at least two) the last `stop` |
| Discretizations.LinspaceStep | src/space/defaultDiscretizations.py:78 | consecutive linspace values differ by (stop - start)/(num - 1) |
| Discretizations.UniformPoints | src/space/defaultDiscretizations.py:77-78 | there are n points |
| Discretizations.UniformPointsSpacing | src/space/defaultDiscretizations.py:77-78 | the points start at `begin` and end at `end`, and consecutive points differ by exactly the scale |
| Discretizations.UniformMakeVector | src/space/defaultDiscretizations.py:68-72 | from a function f, n components with component i equal to f(points[i]); from anything else, the data unchanged; both belong to this discretization |
| Discretizations.PixelPoints | src/space/defaultDiscretizations.py:142-144 | rows x cols arrays: entry (r, c) of the first is abscissa c of the cols-point linspace over axis 0, of the second ordinate r of the rows-point linspace over axis 1 |
| Discretizations.PixelPointsCorners | src/space/defaultDiscretizations.py:142-144 | with two or more points along an axis, the mesh runs from the lower corner's component on that axis to the upper corner's |
| Discretizations.Meshgrid | src/space/defaultDiscretizations.py:143-144 | two arrays of rows x cols: the first repeats the abscissae along each row, and the second the ordinates down each column |
| Discretizations.FlatAt | src/space/defaultDiscretizations.py:135 | row-major flattening puts entry (r, c) at index r*width + c |
| Discretizations.PixelSamples | src/space/defaultDiscretizations.py:134-135 | sampling at the flattened mesh gives rows*cols values |
| Discretizations.PixelMakeVector | src/space/defaultDiscretizations.py:132-137 | from a function f, the samples at the flattened mesh; from anything else, the data unchanged |
| Discretizations.PixelMakeVectorAt | src/space/defaultDiscretizations.py:133-135 | component r*cols + c is f(x_c, y_r), where x runs over the cols abscissae and y over the rows ordinates |
| Discretizations.PixelScaleIsCellArea | src/space/defaultDiscretizations.py:119-121 | the scale equals the mesh cell area exactly when end[1] = end[0] or end[1] = begin[1] |
| Discretizations.UniformEq | src/space/defaultDiscretizations.py:65-66 | between constructed discretizations, uniform `__eq__` (another uniform one with equal parent and `rn`) holds exactly when the two are the same value |
| Discretizations.PixelEquals | src/space/defaultDiscretizations.py:129-130 | between constructed discretizations, `equals` together with equal parents holds exactly when the two are the same value |
| Discretizations.PixelEqualsIgnoresParent | src/space/defaultDiscretizations.py:129-130 | two constructed pixel discretizations can be `equals` (same cols, rows and `rn`) while their inner products differ; in the source such a pair exists only as two instances of one factory call's class, the second built through `type(d)` with another parent |

## Left out

- **Ray integration.** The engine computes opaque functions: `forwardRay` and `backwardRay` give each output cell's value from the descriptors and the input buffer. So whether the forward and back projections are adjoint is not stated. It cannot follow from this code.
- **Engine layout.** The engine's buffer layout is taken from what the source's comments say it is. A volume of shape (n0, n1, n2) is held as (n2, n0, n1), and a projection as (rows, tilts, cols). Pre-filled data must already have that layout; the engine's behaviour on other shapes is not modelled.
- **XRay.ForwardProjectAstra:** requires that the sample rotates and has angles, that the detector grid has two shape and two spacing entries, and that the volume has three spacings with nonzero y and z. On a sample built without angles the source reads `None` from the sample (`src/builders/xray.py:98-99`, `164`) and hands it to the engine's geometry constructor (`168-173`); what happens then depends on the sample class and the engine, neither of which is part of this model. On a wrong number of shape or spacing entries the source fails in numpy's element-wise division or in an index, which is not modelled. Nonzero spacing is the model's own restriction: numpy's division by a zero spacing gives an infinite engine spacing, which is not modelled.
- **XRay.BackprojectAstra:** requires the matching conditions on the sample grid and the projection, nonzero spacing again being the model's own restriction. It also requires the projection's tilt axis to have one entry per angle, so that the engine can accept the pre-filled sinogram.
- **Geometry objects.** Sources, samples, detectors, circles and grids are records of their constructor arguments. The `ugrid` conversion of the grid arguments is not modelled. Neither is the forwarding of the remaining keyword arguments to the rotating sample. `init_rotation` is carried through without interpretation.
- **Geometry.RotatingSampleMode:** when `init_rotation` is given, the source reads it from the keyword arguments (`src/builders/xray.py:101`) and passes it to `RotatingGridSample` both by position and again inside `**kwargs` (`108-109`); that constructor's signature is not part of this model, so whether the call raises a `TypeError` is not modelled, and the model builds the sample carrying the rotation.
- **Engine.Engine.Run:** the model's run always returns. In the source a run that raises propagates at once, skipping the algorithm delete (`src/builders/xray.py:191-192`, `271-272`); that failure path, and the handle it leaves allocated, are not modelled.
- **Error text.** The message of an `InputValidationError`, and how `errfmt` formats the backend message, are not part of this model. The model keeps the error's fields and the text of the message.
- **The projector classes.** The `Projector` and `BackProjector` classes of the operator library are not part of this model. The model assumes their calling convention: a `Projector(fn, geometry, backend=backend)` (`src/builders/xray.py:49`, `57`) applied to `x` calls `fn(geometry, x, backend=backend)`. `ApplyOperator` rests on that assumption.
- **Discretizations.UniformEq, Discretizations.PixelEquals:** in the source these hold only between instances of one factory call's class, since each call defines its own class and `isinstance` tests against it; the model compares fields alone, so it calls equal two discretizations from two calls that the source tells apart.
- **Handle numbers.** The engine numbers data handles and algorithm handles from one counter, so the contracts fix the algorithm handle of a path at two past its data handles and count three numbers per CUDA path. The engine's real numbering is not part of this model; what the source relies on is only that each handle is fresh.
- **Python class machinery.** Each factory call makes a new class, and `isinstance` in `__eq__`/`equals` only matches objects of that same class. The model has one uniform and one pixel kind. The `__getattr__` forwarding to `rn` and the `__str__` strings are not modelled. The representation space's `n` and `dimension` are one field.
- **Floating point.** `np.float`, `float(...)` and rounding are exact `real` arithmetic. A division by zero is the `ZeroDivisionError` result.
- **Discretizations.MakePixel:** `cols` and `rows` are natural numbers, so the source's constructions with negative counts whose product is the dimension (two negative counts, say), which it accepts, are outside the model; `points()` on such a discretization fails inside numpy.
- **Helper and test files.** The geometric utilities (trigonometry, norms, tolerances) and the CUDA convolution test harness are not part of this model.
