/** The 3-D parallel-beam projection and backprojection of src/builders/xray.py: backend
    dispatch, the two engine paths (axis permutations, detector spacing rescaled by the
    voxel size, detector axes swapped, the exact order of engine calls) and the two
    projector wrappers. */
module XRay {
  import opened Results
  import opened Arrays3
  import opened AxisOrder
  import opened Geometry
  import opened Engine

  /** A grid function: values on a uniform grid together with the grid's spacing. */
  datatype Gfunc = Gfunc(fvals: Array3, spacing: seq<real>)

  /** The backend names the dispatchers accept; `Ok(useCuda)` on success. */
  function SelectBackend(backend: string): (r: Result<bool>)
    ensures r.Ok? <==> backend == "astra" || backend == "astra_cuda"
    ensures r.Ok? ==> (r.value <==> backend == "astra_cuda")
    ensures r.Err? ==> r.error == NotImplementedError(UnsupportedBackend)
  {
    if backend == "astra" then Ok(false)
    else if backend == "astra_cuda" then Ok(true)
    else Err(NotImplementedError(UnsupportedBackend))
  }

  const UnsupportedBackend := "Only `astra` and `astra_cuda` backends supported"
  const NoCpuForward := "No CPU 3D forward projection available."
  const NoCpuBackward := "No CPU 3D backprojection available."

  /** The engine assumes voxel size 1, so a detector pixel spacing is divided by the
      volume's spacing along the matching (y, z) axis. */
  function EnginePixelSpacing(detSpacing: seq<real>, volSpacing: seq<real>): (r: (real, real))
    requires |detSpacing| >= 2 && |volSpacing| == 3
    requires volSpacing[1] != 0.0 && volSpacing[2] != 0.0
    ensures r.0 * volSpacing[1] == detSpacing[0]
    ensures r.1 * volSpacing[2] == detSpacing[1]
  {
    (detSpacing[0] / volSpacing[1], detSpacing[1] / volSpacing[2])
  }

  /** The spacing of a projection: the detector's two spacings, then 1 along the tilts. */
  function ProjectionSpacing(detSpacing: seq<real>): (s: seq<real>)
    requires |detSpacing| == 2
    ensures |s| == 3 && s[..2] == detSpacing && s[2] == 1.0
  {
    detSpacing + [1.0]
  }

  /** The tilt angles of a rotating sample that has them. */
  predicate HasAngles(geom: Geometry) {
    geom.sample.RotatingGridSample? && geom.sample.angles.Some?
  }

  /** What the forward path reads: the sample's angles, a 2-D detector grid and a
      3-D volume whose (y, z) spacings can be divided by. */
  predicate ForwardReady(geom: Geometry, vol: Gfunc) {
    && HasAngles(geom)
    && |geom.detector.grid.shape| == 2 && |geom.detector.grid.spacing| == 2
    && |vol.spacing| == 3 && vol.spacing[1] != 0.0 && vol.spacing[2] != 0.0
  }

  /** The volume and projection descriptors of the forward path. The detector's second
      axis gives the engine's rows and its first axis the columns. */
  function ForwardDescriptors(geom: Geometry, vol: Gfunc): (d: (Descriptor, Descriptor))
    requires ForwardReady(geom, vol)
    ensures d.0 == VolGeom(vol.fvals.shape)
    ensures d.1.ProjGeom? && d.1.kind == "parallel3d"
    ensures d.1.detRowCount == geom.detector.grid.shape[1]
    ensures d.1.detColCount == geom.detector.grid.shape[0]
    ensures d.1.angles == geom.sample.angles.value
    ensures d.1.detSpacingX * vol.spacing[1] == geom.detector.grid.spacing[0]
    ensures d.1.detSpacingY * vol.spacing[2] == geom.detector.grid.spacing[1]
  {
    var det := geom.detector.grid;
    var sp := EnginePixelSpacing(det.spacing, vol.spacing);
    (VolGeom(vol.fvals.shape),
     ProjGeom("parallel3d", sp.0, sp.1, det.shape[1], det.shape[0], geom.sample.angles.value))
  }

  /** The projection the CUDA forward path returns when the engine's forward ray
      integration is `ray`: the engine's output for the permuted volume, brought back to
      (detector x, detector y, tilt) order. */
  function ForwardResult(ray: RayOp, geom: Geometry, vol: Gfunc): (p: Gfunc)
    requires ForwardReady(geom, vol)
    ensures p.fvals.shape == Shape3(geom.detector.grid.shape[0], geom.detector.grid.shape[1],
                                    |geom.sample.angles.value|)
    ensures p.spacing == ProjectionSpacing(geom.detector.grid.spacing)
  {
    var (volDesc, projDesc) := ForwardDescriptors(geom, vol);
    var volBuf := Buffer(VolumeData, volDesc, VolumeToEngine(vol.fvals));
    var projBuf := Buffer(SinogramData, projDesc, Zeros(Layout(projDesc)));
    Gfunc(ProjectionFromEngine(ForwardOutput(ray, volBuf, projBuf).contents),
          ProjectionSpacing(geom.detector.grid.spacing))
  }

  /** Each value of the forward result is the engine's value for the same ray, read at
      the engine's (row, tilt, column) position: detector x is the column, detector y the
      row. */
  lemma ForwardResultAt(ray: RayOp, geom: Geometry, vol: Gfunc, x: nat, y: nat, t: nat)
    requires ForwardReady(geom, vol)
    requires x < geom.detector.grid.shape[0] && y < geom.detector.grid.shape[1]
    requires t < |geom.sample.angles.value|
    ensures var (volDesc, projDesc) := ForwardDescriptors(geom, vol);
      At(ForwardResult(ray, geom, vol).fvals, x, y, t)
        == ray(volDesc, projDesc, VolumeToEngine(vol.fvals))(y, t, x)
  {
    var (volDesc, projDesc) := ForwardDescriptors(geom, vol);
    var volBuf := Buffer(VolumeData, volDesc, VolumeToEngine(vol.fvals));
    var projBuf := Buffer(SinogramData, projDesc, Zeros(Layout(projDesc)));
    var out := ForwardOutput(ray, volBuf, projBuf).contents;
    TabulateAt(Layout(projDesc), ray(volDesc, projDesc, VolumeToEngine(vol.fvals)));
    assert InBounds(out.shape, y, t, x);
  }

  /** What the backprojection reads: the sample's angles and a 3-D sample grid whose
      (y, z) spacings can be divided by, and a projection with three spacings whose tilt
      axis matches the angles (the engine refuses pre-filled data of another shape). */
  predicate BackwardReady(geom: Geometry, proj: Gfunc) {
    && HasAngles(geom)
    && var g := geom.sample.grid;
    && |g.shape| == 3 && |g.spacing| == 3 && g.spacing[1] != 0.0 && g.spacing[2] != 0.0
    && |proj.spacing| == 3
    && proj.fvals.shape.n2 == |geom.sample.angles.value|
  }

  function GridShape(g: Grid): (s: Shape3)
    requires |g.shape| == 3
    ensures [s.n0, s.n1, s.n2] == g.shape
  {
    Shape3(g.shape[0], g.shape[1], g.shape[2])
  }

  /** The volume and projection descriptors of the backprojection. The projection's
      second axis gives the engine's rows and its first axis the columns. */
  function BackwardDescriptors(geom: Geometry, proj: Gfunc): (d: (Descriptor, Descriptor))
    requires BackwardReady(geom, proj)
    ensures d.0 == VolGeom(GridShape(geom.sample.grid))
    ensures d.1.ProjGeom? && d.1.kind == "parallel3d"
    ensures d.1.detRowCount == proj.fvals.shape.n1
    ensures d.1.detColCount == proj.fvals.shape.n0
    ensures d.1.angles == geom.sample.angles.value
    ensures d.1.detSpacingX * geom.sample.grid.spacing[1] == proj.spacing[0]
    ensures d.1.detSpacingY * geom.sample.grid.spacing[2] == proj.spacing[1]
    ensures Layout(d.1) == CycleAxesLeft(proj.fvals).shape
  {
    var g := geom.sample.grid;
    var sp := EnginePixelSpacing(proj.spacing[..2], g.spacing);
    (VolGeom(GridShape(g)),
     ProjGeom("parallel3d", sp.0, sp.1, proj.fvals.shape.n1, proj.fvals.shape.n0,
              geom.sample.angles.value))
  }

  /** The volume the CUDA backprojection returns when the engine's backprojection is
      `ray`: the engine's output for the permuted projection, brought back to (x, y, z)
      order, on the sample grid. */
  function BackwardResult(ray: RayOp, geom: Geometry, proj: Gfunc): (v: Gfunc)
    requires BackwardReady(geom, proj)
    ensures v.fvals.shape == GridShape(geom.sample.grid)
    ensures v.spacing == geom.sample.grid.spacing
  {
    var (volDesc, projDesc) := BackwardDescriptors(geom, proj);
    var volBuf := Buffer(VolumeData, volDesc, Zeros(Layout(volDesc)));
    var projBuf := Buffer(SinogramData, projDesc, CycleAxesLeft(proj.fvals));
    Gfunc(CycleAxesLeft(BackwardOutput(ray, volBuf, projBuf).contents), geom.sample.grid.spacing)
  }

  /** Each value of the backprojected volume is the engine's value at the engine's
      (z, x, y) position. */
  lemma BackwardResultAt(ray: RayOp, geom: Geometry, proj: Gfunc, i: nat, j: nat, k: nat)
    requires BackwardReady(geom, proj)
    requires InBounds(GridShape(geom.sample.grid), i, j, k)
    ensures var (volDesc, projDesc) := BackwardDescriptors(geom, proj);
      At(BackwardResult(ray, geom, proj).fvals, i, j, k)
        == ray(volDesc, projDesc, CycleAxesLeft(proj.fvals))(k, i, j)
  {
    var (volDesc, projDesc) := BackwardDescriptors(geom, proj);
    var volBuf := Buffer(VolumeData, volDesc, Zeros(Layout(volDesc)));
    var projBuf := Buffer(SinogramData, projDesc, CycleAxesLeft(proj.fvals));
    var out := BackwardOutput(ray, volBuf, projBuf).contents;
    TabulateAt(Layout(volDesc), ray(volDesc, projDesc, CycleAxesLeft(proj.fvals)));
    assert InBounds(out.shape, k, i, j);
  }

  /** A forward projection fed back into the backprojection on the same geometry, with
      the volume on the sample grid, reaches the engine with the same volume and
      projection descriptors: the row and column swap and the spacing rescaling of the
      two paths agree. */
  lemma ForwardResultFeedsBackprojection(ray: RayOp, geom: Geometry, vol: Gfunc)
    requires ForwardReady(geom, vol)
    requires |geom.sample.grid.shape| == 3 && GridShape(geom.sample.grid) == vol.fvals.shape
    requires geom.sample.grid.spacing == vol.spacing
    ensures BackwardReady(geom, ForwardResult(ray, geom, vol))
    ensures BackwardDescriptors(geom, ForwardResult(ray, geom, vol)) == ForwardDescriptors(geom, vol)
  {
  }

  /** The engine calls that create the volume buffer (handle `n`) and then the projection
      buffer (handle `n + 1`). */
  function BufferCalls(n: nat): seq<Call> {
    [Data3dCreate(VolumeData, n), Data3dCreate(SinogramData, n + 1)]
  }

  /** The engine calls that create algorithm `id`, run it and delete it. */
  function AlgorithmCalls(kind: AlgoKind, id: nat): seq<Call> {
    [AlgorithmCreate(kind, id), AlgorithmRun(id), AlgorithmDelete(id)]
  }

  /** The engine calls that create algorithm `id`, run it, delete it and read back
      buffer `readId`. */
  function RunCalls(kind: AlgoKind, id: nat, readId: nat): seq<Call> {
    AlgorithmCalls(kind, id) + [Data3dGet(readId)]
  }

  /** The engine calls of a forward (`kind == FP3DCuda`) or backward path on the CUDA
      backend, when the engine's next handle is `n`: the two buffers, the algorithm, and
      the read-back of the buffer the algorithm wrote. */
  function CudaCalls(kind: AlgoKind, n: nat): seq<Call> {
    BufferCalls(n) + RunCalls(kind, n + 2, if kind == FP3DCuda then n + 1 else n)
  }

  /** The log of a CUDA path is the log of its buffers followed by the log of its run. */
  lemma CudaLogComposes(kind: AlgoKind, n: nat, start: seq<Call>, buffers: seq<Call>, end: seq<Call>)
    requires buffers == start + BufferCalls(n)
    requires end == buffers + RunCalls(kind, n + 2, if kind == FP3DCuda then n + 1 else n)
    ensures end == start + PathCalls(kind, n, true)
  {

  }

  /** The engine calls of a path: all of them on the CUDA backend, only the two buffers on
      the CPU backend, which gives up after creating them. */
  function PathCalls(kind: AlgoKind, n: nat, useCuda: bool): seq<Call> {
    if useCuda then CudaCalls(kind, n) else BufferCalls(n)
  }

  /** Every algorithm created in `calls` is run by the next call and deleted by the one
      after, and that is the only call that deletes it. */
  predicate AlgorithmsReleased(calls: seq<Call>) {
    forall i :: 0 <= i < |calls| && calls[i].AlgorithmCreate? ==>
      && i + 2 < |calls|
      && calls[i + 1] == AlgorithmRun(calls[i].id)
      && calls[i + 2] == AlgorithmDelete(calls[i].id)
      && forall j :: 0 <= j < |calls| && calls[j] == AlgorithmDelete(calls[i].id) ==> j == i + 2
  }

  /** On the CUDA backend both paths create the volume buffer and then the projection
      buffer, then one algorithm, which is run and deleted right away, and finally read
      back the buffer the algorithm wrote. */
  lemma CudaCallsReleaseAlgorithm(kind: AlgoKind, n: nat)
    ensures AlgorithmsReleased(CudaCalls(kind, n))
    ensures var calls := CudaCalls(kind, n);
      && |calls| == 6
      && calls[0] == Data3dCreate(VolumeData, n) && calls[1] == Data3dCreate(SinogramData, n + 1)
      && calls[2] == AlgorithmCreate(kind, n + 2)
      && calls[5] == Data3dGet(if kind == FP3DCuda then n + 1 else n)
  {

  }

  /** On the CPU backend a path makes only the two buffer calls: no algorithm is created. */
  lemma CpuCallsCreateNoAlgorithm(kind: AlgoKind, n: nat)
    ensures var calls := PathCalls(kind, n, false);
      && |calls| == 2
      && forall i :: 0 <= i < |calls| ==> calls[i].Data3dCreate? && calls[i].id == n + i
  {

  }

  /** src/builders/xray.py:176-177 and 256-257: the volume buffer, then the projection buffer. */
  method CreateBuffers(engine: Engine, volDesc: Descriptor, volInit: Option<Array3>,
                       projDesc: Descriptor, projInit: Option<Array3>)
    returns (volId: nat, projId: nat)
    requires engine.Valid()
    requires volInit.Some? ==> volInit.value.shape == Layout(volDesc)
    requires projInit.Some? ==> projInit.value.shape == Layout(projDesc)
    modifies engine
    ensures engine.Valid()
    ensures volId == old(engine.nextId) && projId == volId + 1 && engine.nextId == volId + 2
    ensures engine.data == old(engine.data)
      [volId := Buffer(VolumeData, volDesc, if volInit.Some? then volInit.value else Zeros(Layout(volDesc)))]
      [projId := Buffer(SinogramData, projDesc, if projInit.Some? then projInit.value else Zeros(Layout(projDesc)))]
    ensures volId !in old(engine.data) && projId !in old(engine.data)
    ensures engine.data.Keys == old(engine.data).Keys + {volId, projId}
    ensures forall h :: h in old(engine.data) ==> engine.data[h] == old(engine.data)[h]
    ensures engine.algorithms == old(engine.algorithms)
    ensures engine.log == old(engine.log) + BufferCalls(volId)
  {
    volId := engine.CreateData(VolumeData, volDesc, volInit);
    projId := engine.CreateData(SinogramData, projDesc, projInit);
  }

  /** src/builders/xray.py:186-196 and 266-276: create the algorithm on the two buffers, run it, delete
      it, and read back the buffer `readId`. */
  method RunAndRead(engine: Engine, conf: AlgoConf, readId: nat) returns (a: Array3)
    requires engine.Valid()
    requires Ready(engine.data, conf) && readId in engine.data
    modifies engine
    ensures engine.Valid()
    ensures engine.data == RunEffect(engine.forwardRay, engine.backwardRay, old(engine.data), conf)
    ensures a == engine.data[readId].contents
    ensures engine.data.Keys == old(engine.data).Keys
    ensures forall h :: h in old(engine.data) && h != Target(conf) ==> engine.data[h] == old(engine.data)[h]
    ensures engine.algorithms == old(engine.algorithms)
    ensures engine.nextId == old(engine.nextId) + 1
    ensures engine.log == old(engine.log) + RunCalls(conf.kind, old(engine.nextId), readId)
  {
    var algoId := engine.CreateAlgorithm(conf);
    engine.Run(algoId);
    engine.Delete(algoId);
    a := engine.GetData(readId);
  }

  /** `_xray_ct_par_fp_3d_astra`: two buffers (the permuted volume, an empty projection),
      then on CUDA one forward algorithm, run and deleted, and the projection read back and
      permuted to (detector x, detector y, tilt). Both buffers stay allocated. */
  method ForwardProjectAstra(engine: Engine, geom: Geometry, vol: Gfunc, useCuda: bool)
    returns (r: Result<Gfunc>)
    requires engine.Valid()
    requires ForwardReady(geom, vol)
    modifies engine
    ensures engine.Valid()
    ensures useCuda ==> r == Ok(ForwardResult(engine.forwardRay, geom, vol))
    ensures !useCuda ==> r == Err(NotImplementedError(NoCpuForward))
    ensures engine.log == old(engine.log) + PathCalls(FP3DCuda, old(engine.nextId), useCuda)
    ensures engine.nextId == old(engine.nextId) + (if useCuda then 3 else 2)
    ensures engine.data.Keys == old(engine.data).Keys + {old(engine.nextId), old(engine.nextId) + 1}
    ensures forall h :: h in old(engine.data) ==> engine.data[h] == old(engine.data)[h]
    ensures engine.algorithms == old(engine.algorithms)
  {
    var (volDesc, projDesc) := ForwardDescriptors(geom, vol);
    var volId, projId := CreateBuffers(engine, volDesc, Some(VolumeToEngine(vol.fvals)), projDesc, None);
    ghost var bufferLog := engine.log;
    if !useCuda {
      return Err(NotImplementedError(NoCpuForward));
    }
    ghost var volBuf := Buffer(VolumeData, volDesc, VolumeToEngine(vol.fvals));
    ghost var projBuf := Buffer(SinogramData, projDesc, Zeros(Layout(projDesc)));
    assert engine.data[volId] == volBuf && engine.data[projId] == projBuf;
    var projVals := RunAndRead(engine, AlgoConf(FP3DCuda, volId, projId), projId);
    CudaLogComposes(FP3DCuda, volId, old(engine.log), bufferLog, engine.log);
    assert projVals == ForwardOutput(engine.forwardRay, volBuf, projBuf).contents;
    r := Ok(Gfunc(ProjectionFromEngine(projVals), ProjectionSpacing(geom.detector.grid.spacing)));
  }

  /** `_xray_ct_par_bp_3d_astra`: two buffers (an empty volume, the permuted projection),
      then on CUDA one backprojection algorithm, run and deleted, and the volume read back
      and permuted to (x, y, z). Both buffers stay allocated. */
  method BackprojectAstra(engine: Engine, geom: Geometry, proj: Gfunc, useCuda: bool)
    returns (r: Result<Gfunc>)
    requires engine.Valid()
    requires BackwardReady(geom, proj)
    modifies engine
    ensures engine.Valid()
    ensures useCuda ==> r == Ok(BackwardResult(engine.backwardRay, geom, proj))
    ensures !useCuda ==> r == Err(NotImplementedError(NoCpuBackward))
    ensures engine.log == old(engine.log) + PathCalls(BP3DCuda, old(engine.nextId), useCuda)
    ensures engine.nextId == old(engine.nextId) + (if useCuda then 3 else 2)
    ensures engine.data.Keys == old(engine.data).Keys + {old(engine.nextId), old(engine.nextId) + 1}
    ensures forall h :: h in old(engine.data) ==> engine.data[h] == old(engine.data)[h]
    ensures engine.algorithms == old(engine.algorithms)
  {
    var (volDesc, projDesc) := BackwardDescriptors(geom, proj);
    var volId, projId := CreateBuffers(engine, volDesc, None, projDesc, Some(CycleAxesLeft(proj.fvals)));
    ghost var bufferLog := engine.log;
    if !useCuda {
      return Err(NotImplementedError(NoCpuBackward));
    }
    ghost var volBuf := Buffer(VolumeData, volDesc, Zeros(Layout(volDesc)));
    ghost var projBuf := Buffer(SinogramData, projDesc, CycleAxesLeft(proj.fvals));
    assert engine.data[volId] == volBuf && engine.data[projId] == projBuf;
    var volVals := RunAndRead(engine, AlgoConf(BP3DCuda, volId, projId), volId);
    CudaLogComposes(BP3DCuda, volId, old(engine.log), bufferLog, engine.log);
    assert volVals == BackwardOutput(engine.backwardRay, volBuf, projBuf).contents;
    r := Ok(Gfunc(CycleAxesLeft(volVals), geom.sample.grid.spacing));
  }

  /** `xray_ct_parallel_projection_3d`: the forward path on the CPU (`"astra"`) or CUDA
      (`"astra_cuda"`) backend; any other backend is refused before the engine is used. */
  method ParallelProjection3D(engine: Engine, geom: Geometry, vol: Gfunc,
                              backend: string := "astra_cuda")
    returns (r: Result<Gfunc>)
    requires engine.Valid()
    requires SelectBackend(backend).Ok? ==> ForwardReady(geom, vol)
    modifies engine
    ensures engine.Valid()
    ensures backend == "astra_cuda" ==> r == Ok(ForwardResult(engine.forwardRay, geom, vol))
    ensures backend == "astra" ==> r == Err(NotImplementedError(NoCpuForward))
    ensures SelectBackend(backend).Err? ==>
              r == Err(NotImplementedError(UnsupportedBackend)) && unchanged(engine)
    ensures SelectBackend(backend).Ok? ==>
              engine.log == old(engine.log) + PathCalls(FP3DCuda, old(engine.nextId), backend == "astra_cuda")
    ensures SelectBackend(backend).Ok? ==>
              engine.nextId == old(engine.nextId) + (if backend == "astra_cuda" then 3 else 2)
    ensures SelectBackend(backend).Ok? ==>
              engine.data.Keys == old(engine.data).Keys + {old(engine.nextId), old(engine.nextId) + 1}
    ensures SelectBackend(backend).Ok? ==>
              forall h :: h in old(engine.data) ==> engine.data[h] == old(engine.data)[h]
    ensures engine.algorithms == old(engine.algorithms)
  {
    var useCuda := SelectBackend(backend);
    if useCuda.Err? {
      return Err(useCuda.error);
    }
    r := ForwardProjectAstra(engine, geom, vol, useCuda.value);
  }

  /** `xray_ct_parallel_backprojection_3d`: the backprojection on the CPU (`"astra"`) or
      CUDA (`"astra_cuda"`) backend; any other backend is refused before the engine is
      used. */
  method ParallelBackprojection3D(engine: Engine, geom: Geometry, proj: Gfunc,
                                  backend: string := "astra_cuda")
    returns (r: Result<Gfunc>)
    requires engine.Valid()
    requires SelectBackend(backend).Ok? ==> BackwardReady(geom, proj)
    modifies engine
    ensures engine.Valid()
    ensures backend == "astra_cuda" ==> r == Ok(BackwardResult(engine.backwardRay, geom, proj))
    ensures backend == "astra" ==> r == Err(NotImplementedError(NoCpuBackward))
    ensures SelectBackend(backend).Err? ==>
              r == Err(NotImplementedError(UnsupportedBackend)) && unchanged(engine)
    ensures SelectBackend(backend).Ok? ==>
              engine.log == old(engine.log) + PathCalls(BP3DCuda, old(engine.nextId), backend == "astra_cuda")
    ensures SelectBackend(backend).Ok? ==>
              engine.nextId == old(engine.nextId) + (if backend == "astra_cuda" then 3 else 2)
    ensures SelectBackend(backend).Ok? ==>
              engine.data.Keys == old(engine.data).Keys + {old(engine.nextId), old(engine.nextId) + 1}
    ensures SelectBackend(backend).Ok? ==>
              forall h :: h in old(engine.data) ==> engine.data[h] == old(engine.data)[h]
    ensures engine.algorithms == old(engine.algorithms)
  {
    var useCuda := SelectBackend(backend);
    if useCuda.Err? {
      return Err(useCuda.error);
    }
    r := BackprojectAstra(engine, geom, proj, useCuda.value);
  }

  /** Which of the two dispatchers a projector object applies. */
  datatype Direction = ForwardProjection | Backprojection

  /** The projector objects of the operator library: `Projector` and `BackProjector`,
      each holding the function it applies, a geometry and a backend name. */
  datatype Operator =
    | Projector(apply: Direction, geometry: Geometry, backend: string)
    | BackProjector(apply: Direction, geometry: Geometry, backend: string)

  /** `xray_ct_parallel_3d_projector`: a `Projector` applying the forward dispatcher. */
  function ParallelProjector3D(geometry: Geometry, backend: string := "astra_cuda"): (op: Operator)
    ensures op.Projector? && op.apply == ForwardProjection
    ensures op.geometry == geometry && op.backend == backend
  {
    Projector(ForwardProjection, geometry, backend)
  }

  /** `xray_ct_parallel_3d_backprojector`: applies the backprojection dispatcher, and is
      built with the `Projector` class, not `BackProjector`. */
  function ParallelBackprojector3D(geometry: Geometry, backend: string := "astra_cuda"): (op: Operator)
    ensures op.Projector? && op.apply == Backprojection
    ensures op.geometry == geometry && op.backend == backend
  {
    Projector(Backprojection, geometry, backend)
  }

  /** What applying a projector object does: call the dispatcher it holds with its
      geometry, the input and its backend. */
  method ApplyOperator(engine: Engine, op: Operator, x: Gfunc) returns (r: Result<Gfunc>)
    requires engine.Valid()
    requires SelectBackend(op.backend).Ok? && op.apply == ForwardProjection ==> ForwardReady(op.geometry, x)
    requires SelectBackend(op.backend).Ok? && op.apply == Backprojection ==> BackwardReady(op.geometry, x)
    modifies engine
    ensures engine.Valid()
    ensures op.apply == ForwardProjection && op.backend == "astra_cuda" ==>
              r == Ok(ForwardResult(engine.forwardRay, op.geometry, x))
    ensures op.apply == ForwardProjection && op.backend == "astra" ==>
              r == Err(NotImplementedError(NoCpuForward))
    ensures op.apply == Backprojection && op.backend == "astra_cuda" ==>
              r == Ok(BackwardResult(engine.backwardRay, op.geometry, x))
    ensures op.apply == Backprojection && op.backend == "astra" ==>
              r == Err(NotImplementedError(NoCpuBackward))
    ensures SelectBackend(op.backend).Err? ==>
              r == Err(NotImplementedError(UnsupportedBackend)) && unchanged(engine)
    ensures SelectBackend(op.backend).Ok? ==>
              engine.log == old(engine.log)
                + PathCalls(if op.apply == ForwardProjection then FP3DCuda else BP3DCuda,
                            old(engine.nextId), op.backend == "astra_cuda")
    ensures SelectBackend(op.backend).Ok? ==>
              engine.nextId == old(engine.nextId) + (if op.backend == "astra_cuda" then 3 else 2)
    ensures SelectBackend(op.backend).Ok? ==>
              engine.data.Keys == old(engine.data).Keys + {old(engine.nextId), old(engine.nextId) + 1}
    ensures SelectBackend(op.backend).Ok? ==>
              forall h :: h in old(engine.data) ==> engine.data[h] == old(engine.data)[h]
    ensures engine.algorithms == old(engine.algorithms)
  {
    if op.apply == ForwardProjection {
      r := ParallelProjection3D(engine, op.geometry, x, op.backend);
    } else {
      r := ParallelBackprojection3D(engine, op.geometry, x, op.backend);
    }
  }

  /** Applying a wrapper whose backend is CUDA: its direction's CUDA result, the six
      calls of that CUDA path, two new data handles and nothing else changed. */
  method ApplyCudaOperator(engine: Engine, op: Operator, x: Gfunc) returns (r: Result<Gfunc>)
    requires engine.Valid() && op.backend == "astra_cuda"
    requires op.apply == ForwardProjection ==> ForwardReady(op.geometry, x)
    requires op.apply == Backprojection ==> BackwardReady(op.geometry, x)
    modifies engine
    ensures engine.Valid()
    ensures op.apply == ForwardProjection ==> r == Ok(ForwardResult(engine.forwardRay, op.geometry, x))
    ensures op.apply == Backprojection ==> r == Ok(BackwardResult(engine.backwardRay, op.geometry, x))
    ensures engine.log == old(engine.log)
              + CudaCalls(if op.apply == ForwardProjection then FP3DCuda else BP3DCuda, old(engine.nextId))
    ensures engine.nextId == old(engine.nextId) + 3
    ensures engine.data.Keys == old(engine.data).Keys + {old(engine.nextId), old(engine.nextId) + 1}
    ensures forall h :: h in old(engine.data) ==> engine.data[h] == old(engine.data)[h]
    ensures engine.algorithms == old(engine.algorithms)
  {
    assert SelectBackend(op.backend).Ok?;
    r := ApplyOperator(engine, op, x);
  }

  /** Applied to a volume and then a projection, the projector and the backprojector
      built with the default backend give the CUDA forward projection and the CUDA
      backprojection, one CUDA path after the other. */
  method ApplyDefaultProjectors(engine: Engine, geom: Geometry, vol: Gfunc, proj: Gfunc)
    returns (p: Result<Gfunc>, v: Result<Gfunc>)
    requires engine.Valid()
    requires ForwardReady(geom, vol) && BackwardReady(geom, proj)
    modifies engine
    ensures engine.Valid()
    ensures p == Ok(ForwardResult(engine.forwardRay, geom, vol))
    ensures v == Ok(BackwardResult(engine.backwardRay, geom, proj))
    ensures engine.log == old(engine.log) + CudaCalls(FP3DCuda, old(engine.nextId))
                                          + CudaCalls(BP3DCuda, old(engine.nextId) + 3)
    ensures engine.nextId == old(engine.nextId) + 6
    ensures engine.data.Keys == old(engine.data).Keys + {old(engine.nextId), old(engine.nextId) + 1}
                                                      + {old(engine.nextId) + 3, old(engine.nextId) + 4}
    ensures forall h :: h in old(engine.data) ==> engine.data[h] == old(engine.data)[h]
    ensures engine.algorithms == old(engine.algorithms)
  {
    p := ApplyCudaOperator(engine, ParallelProjector3D(geom), vol);
    v := ApplyCudaOperator(engine, ParallelBackprojector3D(geom), proj);
  }

  /** The two wrappers differ only in the dispatcher they apply, and both default to the
      CUDA backend. */
  lemma WrappersDiffer(geometry: Geometry)
    ensures ParallelProjector3D(geometry) != ParallelBackprojector3D(geometry)
    ensures ParallelProjector3D(geometry).(apply := Backprojection) == ParallelBackprojector3D(geometry)
    ensures SelectBackend(ParallelProjector3D(geometry).backend) == Ok(true)
  {
  }
}
