/** The 3-D parallel-beam acquisition geometry (src/builders/xray.py:61-121). Sources,
    samples, detectors and circles are records of the arguments the builder passes to
    their constructors. */
module Geometry {
  import opened Results

  /** A uniform grid: its dimension is the number of axes. */
  datatype Grid = Grid(shape: seq<nat>, spacing: seq<real>) {
    function Dim(): nat { |shape| }
  }

  datatype Vec3 = Vec3(x: real, y: real, z: real)

  function Neg(v: Vec3): Vec3 { Vec3(-v.x, -v.y, -v.z) }

  function LengthSq(v: Vec3): real { v.x * v.x + v.y * v.y + v.z * v.z }

  /** A rotation axis: an index of a standard unit vector, or a vector. */
  datatype Axis = AxisIndex(index: int) | AxisVector(direction: seq<real>)

  /** The `init_rotation` keyword, carried through without interpretation. */
  datatype InitRotation = RotationMatrix(rows: seq<seq<real>>) | RotationScalar(value: real)

  /** The `angle_shift` of a circle: left at its default, or a half turn (pi). */
  datatype AngleShift = DefaultShift | HalfTurn

  /** `Circle3D(radius, axis, angle_shift=..., angles=..., axes_map=...)` */
  datatype Circle = Circle3D(radius: real, axis: Axis, angleShift: AngleShift,
                             angles: Option<seq<real>>, axesMap: string)

  /** Where a source or detector sits: a fixed point or a circular path. */
  datatype Location = AtPoint(point: Vec3) | OnCircle(circle: Circle)

  datatype Source = ParallelRaySource(direction: Vec3, location: Location)

  datatype Sample =
    | RotatingGridSample(grid: Grid, axis: Axis, initRotation: Option<InitRotation>,
                         angles: Option<seq<real>>)
    | FixedSample(grid: Grid)

  datatype Detector = FlatDetectorArray(grid: Grid, location: Location)

  datatype Geometry = Geometry(source: Source, sample: Sample, detector: Detector)

  /** `xray_ct_parallel_geom_3d`: validate the grids, then build the rotating-sample or
      the rotating-gantry geometry. */
  function ParallelGeometry3D(splGrid: Grid, detGrid: Grid, axis: Axis,
                              angles: Option<seq<real>> := None,
                              rotatingSample: bool := true,
                              initRotation: Option<InitRotation> := None): (r: Result<Geometry>)
    ensures splGrid.Dim() != 3 ==> r == Err(InputValidationError(splGrid.Dim(), 3, "spl_grid.dim"))
    ensures splGrid.Dim() == 3 && detGrid.Dim() != 2 ==>
              r == Err(InputValidationError(detGrid.Dim(), 2, "det_grid.dim"))
    ensures r.Ok? <==> splGrid.Dim() == 3 && detGrid.Dim() == 2
    ensures r.Ok? ==> r.value.sample.grid == splGrid && r.value.detector.grid == detGrid
    ensures r.Ok? ==> (r.value.sample.RotatingGridSample? <==> rotatingSample)
  {
    if splGrid.Dim() != 3 then
      Err(InputValidationError(splGrid.Dim(), 3, "spl_grid.dim"))
    else if detGrid.Dim() != 2 then
      Err(InputValidationError(detGrid.Dim(), 2, "det_grid.dim"))
    else if rotatingSample then
      var source := ParallelRaySource(Vec3(1.0, 0.0, 0.0), AtPoint(Vec3(-1.0, 0.0, 0.0)));
      var sample := RotatingGridSample(splGrid, axis, initRotation, angles);
      var detector := FlatDetectorArray(detGrid, AtPoint(Vec3(1.0, 0.0, 0.0)));
      Ok(Geometry(source, sample, detector))
    else
      var srcCircle := Circle3D(1.0, axis, DefaultShift, angles, "tripod");
      var source := ParallelRaySource(Vec3(1.0, 0.0, 0.0), OnCircle(srcCircle));
      var detCircle := Circle3D(1.0, axis, HalfTurn, angles, "tripod");
      var detector := FlatDetectorArray(detGrid, OnCircle(detCircle));
      Ok(Geometry(source, FixedSample(splGrid), detector))
  }

  /** Source and detector at antipodal points at unit distance from the origin, with the
      ray direction pointing from the source to the detector. */
  predicate Antipodal(source: Source, detector: Detector) {
    && source.location.AtPoint? && detector.location.AtPoint?
    && detector.location.point == Neg(source.location.point)
    && LengthSq(source.location.point) == 1.0
    && source.direction == detector.location.point
  }

  /** Rotating-sample mode: the sample rotates through the given angles about the given
      axis, and source and detector sit antipodal on the x axis. */
  lemma RotatingSampleMode(splGrid: Grid, detGrid: Grid, axis: Axis, angles: Option<seq<real>>,
                           initRotation: Option<InitRotation>)
    requires splGrid.Dim() == 3 && detGrid.Dim() == 2
    ensures var r := ParallelGeometry3D(splGrid, detGrid, axis, angles, true, initRotation);
      && r.Ok?
      && r.value.sample == RotatingGridSample(splGrid, axis, initRotation, angles)
      && r.value.source.location == AtPoint(Vec3(-1.0, 0.0, 0.0))
      && r.value.source.direction == Vec3(1.0, 0.0, 0.0)
      && Antipodal(r.value.source, r.value.detector)
  {
  }

  /** Rotating-gantry mode: the sample is fixed; source and detector travel radius-1
      circles about the same axis through the same angles, the detector's a half turn
      ahead of the source's; `init_rotation` has no effect. */
  lemma RotatingGantryMode(splGrid: Grid, detGrid: Grid, axis: Axis, angles: Option<seq<real>>,
                           initRotation: Option<InitRotation>)
    requires splGrid.Dim() == 3 && detGrid.Dim() == 2
    ensures var r := ParallelGeometry3D(splGrid, detGrid, axis, angles, false, initRotation);
      && r.Ok?
      && r.value.sample == FixedSample(splGrid)
      && r.value.source.location.OnCircle? && r.value.detector.location.OnCircle?
      && var src, det := r.value.source.location.circle, r.value.detector.location.circle;
      && r.value.source.direction == Vec3(1.0, 0.0, 0.0)
      && src.radius == 1.0 && src.axis == axis && src.angles == angles
      && src.angleShift == DefaultShift && src.axesMap == "tripod"
      && det == src.(angleShift := HalfTurn)
    ensures ParallelGeometry3D(splGrid, detGrid, axis, angles, false, initRotation)
              == ParallelGeometry3D(splGrid, detGrid, axis, angles, false, None)
  {
  }
}
