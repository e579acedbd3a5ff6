/** The external ray-integration engine as the projector glue sees it: a table of data
    handles, a table of algorithm handles and the log of calls made to it. The ray
    integration itself is opaque: two functions fixed when the engine is created give the
    value of each cell of the buffer an algorithm writes. */
module Engine {
  import opened Results
  import opened Arrays3

  /** What `create_vol_geom` and `create_proj_geom` return. */
  datatype Descriptor =
    | VolGeom(shape: Shape3)
    | ProjGeom(kind: string, detSpacingX: real, detSpacingY: real,
               detRowCount: nat, detColCount: nat, angles: seq<real>)

  /** The layout of the engine's buffer for a descriptor: a volume of shape (n0, n1, n2)
      is held as (n2, n0, n1), a projection as (rows, tilts, cols). */
  function Layout(d: Descriptor): Shape3 {
    match d
    case VolGeom(s) => Shape3(s.n2, s.n0, s.n1)
    case ProjGeom(_, _, _, rows, cols, angles) => Shape3(rows, |angles|, cols)
  }

  /** `'-vol'` and `'-sino'` */
  datatype DataKind = VolumeData | SinogramData

  datatype Buffer = Buffer(kind: DataKind, geometry: Descriptor, contents: Array3)

  /** `'FP3D_CUDA'` and `'BP3D_CUDA'` */
  datatype AlgoKind = FP3DCuda | BP3DCuda

  /** An algorithm configuration: its type, its volume handle (`VolumeDataId`, or
      `ReconstructionDataId` for the backprojection) and its `ProjectionDataId`. */
  datatype AlgoConf = AlgoConf(kind: AlgoKind, volumeDataId: nat, projectionDataId: nat)

  /** One call made to the engine's handle API. */
  datatype Call =
    | Data3dCreate(dataKind: DataKind, id: nat)
    | AlgorithmCreate(algoKind: AlgoKind, id: nat)
    | AlgorithmRun(id: nat)
    | AlgorithmDelete(id: nat)
    | Data3dGet(id: nat)

  /** Given the volume and projection descriptors and the input buffer's contents, the
      value of each output cell (i, j, k). */
  type RayOp = (Descriptor, Descriptor, Array3) -> ((nat, nat, nat) -> real)

  /** The buffer a forward projection writes: the projection buffer, refilled. */
  function ForwardOutput(ray: RayOp, vol: Buffer, proj: Buffer): (b: Buffer)
    ensures b.kind == proj.kind && b.geometry == proj.geometry
    ensures b.contents.shape == Layout(proj.geometry)
  {
    proj.(contents := Tabulate(Layout(proj.geometry), ray(vol.geometry, proj.geometry, vol.contents)))
  }

  /** The buffer a backprojection writes: the volume buffer, refilled. */
  function BackwardOutput(ray: RayOp, vol: Buffer, proj: Buffer): (b: Buffer)
    ensures b.kind == vol.kind && b.geometry == vol.geometry
    ensures b.contents.shape == Layout(vol.geometry)
  {
    vol.(contents := Tabulate(Layout(vol.geometry), ray(vol.geometry, proj.geometry, proj.contents)))
  }

  /** A buffer holds data in its descriptor's layout. */
  predicate Fits(b: Buffer) {
    b.contents.shape == Layout(b.geometry)
  }

  /** Every handle of the table is in [0, bound) and every buffer fits its descriptor. */
  predicate DataTable(data: map<int, Buffer>, bound: int) {
    forall h :: h in data ==> 0 <= h < bound && Fits(data[h])
  }

  lemma DataTableUpdate(data: map<int, Buffer>, bound: int, k: int, b: Buffer, bound': int)
    requires DataTable(data, bound) && bound <= bound'
    requires 0 <= k < bound' && Fits(b)
    ensures DataTable(data[k := b], bound')
  {
  }

  /** Both data handles of an algorithm configuration are live. */
  predicate Ready(data: map<int, Buffer>, conf: AlgoConf) {
    conf.volumeDataId in data && conf.projectionDataId in data
  }

  /** The handle an algorithm writes: the projection for a forward projection, the volume
      for a backprojection. */
  function Target(conf: AlgoConf): nat {
    if conf.kind == FP3DCuda then conf.projectionDataId else conf.volumeDataId
  }

  /** The data table after running `conf`: a forward projection refills the projection
      buffer, a backprojection the volume buffer; every other handle keeps its buffer. */
  function RunEffect(forwardRay: RayOp, backwardRay: RayOp, data: map<int, Buffer>,
                     conf: AlgoConf): (d: map<int, Buffer>)
    requires Ready(data, conf)
    ensures d.Keys == data.Keys
    ensures forall h :: h in data && h != Target(conf) ==> d[h] == data[h]
  {
    var vol, proj := data[conf.volumeDataId], data[conf.projectionDataId];
    if conf.kind == FP3DCuda then data[conf.projectionDataId := ForwardOutput(forwardRay, vol, proj)]
    else data[conf.volumeDataId := BackwardOutput(backwardRay, vol, proj)]
  }

  lemma RunEffectKeepsTable(forwardRay: RayOp, backwardRay: RayOp, data: map<int, Buffer>,
                            bound: int, conf: AlgoConf)
    requires DataTable(data, bound) && Ready(data, conf)
    ensures DataTable(RunEffect(forwardRay, backwardRay, data, conf), bound)
  {
    var vol, proj := data[conf.volumeDataId], data[conf.projectionDataId];
    if conf.kind == FP3DCuda {
      DataTableUpdate(data, bound, conf.projectionDataId, ForwardOutput(forwardRay, vol, proj), bound);
    } else {
      DataTableUpdate(data, bound, conf.volumeDataId, BackwardOutput(backwardRay, vol, proj), bound);
    }
  }

  class Engine {
    const forwardRay: RayOp
    const backwardRay: RayOp
    var data: map<int, Buffer>
    var algorithms: map<int, AlgoConf>
    var log: seq<Call>
    var nextId: nat

    /** Handles are below the next id and every buffer has its descriptor's layout. */
    ghost predicate Valid()
      reads this
    {
      && DataTable(data, nextId)
      && (forall id :: id in algorithms ==> 0 <= id < nextId)
    }

    constructor (forwardRay: RayOp, backwardRay: RayOp)
      ensures Valid()
      ensures this.forwardRay == forwardRay && this.backwardRay == backwardRay
      ensures data == map[] && algorithms == map[] && log == [] && nextId == 0
    {
      this.forwardRay, this.backwardRay := forwardRay, backwardRay;
      data, algorithms, log, nextId := map[], map[], [], 0;
    }

    /** `data3d.create(kind, geometry[, init])`: a new buffer, pre-filled with `init` or
        with zeros. */
    method CreateData(kind: DataKind, geometry: Descriptor, init: Option<Array3>) returns (id: nat)
      requires Valid()
      requires init.Some? ==> init.value.shape == Layout(geometry)
      modifies this
      ensures Valid()
      ensures id == old(nextId) && id !in old(data) && nextId == id + 1
      ensures data == old(data)[id := Buffer(kind, geometry,
                                            if init.Some? then init.value else Zeros(Layout(geometry)))]
      ensures algorithms == old(algorithms)
      ensures log == old(log) + [Data3dCreate(kind, id)]
    {
      id := nextId;
      var contents := if init.Some? then init.value else Zeros(Layout(geometry));
      var buffer := Buffer(kind, geometry, contents);
      DataTableUpdate(data, nextId, id, buffer, nextId + 1);
      data := data[id := buffer];
      log := log + [Data3dCreate(kind, id)];
      nextId := nextId + 1;
    }

    /** `algorithm.create(conf)` */
    method CreateAlgorithm(conf: AlgoConf) returns (id: nat)
      requires Valid()
      requires Ready(data, conf)
      modifies this
      ensures Valid()
      ensures id == old(nextId) && id !in old(algorithms) && nextId == id + 1
      ensures algorithms == old(algorithms)[id := conf]
      ensures data == old(data)
      ensures log == old(log) + [AlgorithmCreate(conf.kind, id)]
    {
      id := nextId;
      algorithms := algorithms[id := conf];
      log := log + [AlgorithmCreate(conf.kind, id)];
      nextId := nextId + 1;
    }

    /** `algorithm.run(id)` */
    method Run(id: nat)
      requires Valid()
      requires id in algorithms
      requires Ready(data, algorithms[id])
      modifies this
      ensures Valid()
      ensures data == RunEffect(forwardRay, backwardRay, old(data), old(algorithms[id]))
      ensures algorithms == old(algorithms) && nextId == old(nextId)
      ensures log == old(log) + [AlgorithmRun(id)]
    {
      RunEffectKeepsTable(forwardRay, backwardRay, data, nextId, algorithms[id]);
      data := RunEffect(forwardRay, backwardRay, data, algorithms[id]);
      log := log + [AlgorithmRun(id)];
    }

    /** `algorithm.delete(id)` */
    method Delete(id: nat)
      requires Valid()
      requires id in algorithms
      modifies this
      ensures Valid()
      ensures algorithms == old(algorithms) - {id}
      ensures data == old(data) && nextId == old(nextId)
      ensures log == old(log) + [AlgorithmDelete(id)]
    {
      algorithms := algorithms - {id};
      log := log + [AlgorithmDelete(id)];
    }

    /** `data3d.get(id)` */
    method GetData(id: nat) returns (a: Array3)
      requires Valid()
      requires id in data
      modifies this
      ensures Valid()
      ensures data == old(data) && algorithms == old(algorithms) && nextId == old(nextId)
      ensures a == data[id].contents
      ensures log == old(log) + [Data3dGet(id)]
    {
      a := data[id].contents;
      log := log + [Data3dGet(id)];
    }
  }
}
