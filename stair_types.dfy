/** Value types shared by the linear-staircase model: the riser and side
    styles, 3D points, the stair definition and the brush-mesh slots that the
    generator fills. */
module StairTypes {

  /** StairsRiserType. */
  datatype RiserType = None | ThinRiser | ThickRiser | FillDown | Smooth

  /** StairsSideType. */
  datatype SideType = None | Down | Up | DownAndUp

  /** True when a side style asks for a wall above the steps. */
  predicate HasUp(s: SideType) { s == SideType.Up || s == DownAndUp }

  /** True when a side style asks for a wall below the steps. */
  predicate HasDown(s: SideType) { s == Down || s == DownAndUp }

  /** A point or vector in the stair's local frame: X is the stair width, Y the
      height, Z the depth. Coordinates are exact reals. */
  datatype Vec3 = Vec3(x: real, y: real, z: real)

  /** Component-wise sum, Vector3's `+`. */
  function Add(a: Vec3, b: Vec3): Vec3
  {
    Vec3(a.x + b.x, a.y + b.y, a.z + b.z)
  }

  /** Mathf.Max on two reals. */
  function Max(a: real, b: real): (r: real)
    ensures r >= a && r >= b
    ensures r == a || r == b
  {
    if a > b then a else b
  }

  /** ChiselLinearStairsDefinition, with its StepCount and StepDepthOffset
      properties given as values and the surface table reduced to its length. */
  datatype StairsDefinition = StairsDefinition(
    boundsMin: Vec3,
    boundsMax: Vec3,
    stepHeight: real,
    stepDepth: real,
    stepDepthOffset: real,
    stepCount: nat,
    plateauHeight: real,
    treadHeight: real,
    nosingDepth: real,
    nosingWidth: real,
    riserDepth: real,
    sideWidth: real,
    sideHeight: real,
    sideDepth: real,
    riserType: RiserType,
    leftSide: SideType,
    rightSide: SideType,
    surfaceCount: nat)

  /** One slot of the brush container. `Extruded` is what CreateExtrudedSubMesh
      leaves behind: the boundary polygon and the extrusion vector it was given. */
  datatype BrushMesh = Empty | Extruded(vertices: seq<Vec3>, extrusion: Vec3)
}
