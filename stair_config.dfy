/** The configuration normaliser shared by the sub-mesh count predictor and the
    generator, and the generator's own derived values (sorted bounds, side and
    riser depths, nosing widths). */
module StairConfig {
  import opened StairTypes

  /** kEpsilon. */
  const Epsilon: real := 0.001

  /** A tread thinner than Epsilon is no tread at all. */
  function EffectiveTreadHeight(raw: real): (t: real)
    ensures t == 0.0 || t >= Epsilon
    ensures t >= Epsilon <==> raw >= Epsilon
    ensures t != 0.0 ==> t == raw
  {
    if raw < Epsilon then 0.0 else raw
  }

  /** A thin riser needs a tread to hang from; without one it becomes thick. */
  function EffectiveRiserType(treadHeight: real, raw: RiserType): (r: RiserType)
    ensures r == ThinRiser ==> treadHeight != 0.0
    ensures r != raw ==> raw == ThinRiser && r == ThickRiser && treadHeight == 0.0
    ensures raw == ThinRiser && treadHeight == 0.0 ==> r == ThickRiser
  {
    if treadHeight == 0.0 && raw == ThinRiser then ThickRiser else raw
  }

  /** The side remapping applied under a Smooth riser. */
  function SmoothSide(s: SideType): (r: SideType)
    ensures r != SideType.Up && r != SideType.None
    ensures HasUp(r) == HasUp(s)
    ensures HasDown(s) ==> r == s
  {
    match s
    case Up => DownAndUp
    case None => Down
    case _ => s
  }

  /** The effective style of one side. The None-riser rule inspects the side
      style stored in the definition, but falls back to the style passed in by
      the caller. */
  function RemapSide(riser: RiserType, definitionSide: SideType, parameterSide: SideType): (r: SideType)
    ensures riser == RiserType.None && definitionSide == SideType.Up ==> r == DownAndUp
    ensures riser == RiserType.None && definitionSide != SideType.Up ==> r == parameterSide
    ensures riser == Smooth ==> r == SmoothSide(parameterSide)
    ensures riser != RiserType.None && riser != Smooth ==> r == parameterSide
    ensures HasUp(parameterSide) ==> HasUp(r)
  {
    var side := if riser == RiserType.None && definitionSide == SideType.Up then DownAndUp else parameterSide;
    if riser == Smooth then SmoothSide(side) else side
  }

  /** The effective configuration both the predictor and the generator work from. */
  datatype Normalized = Normalized(
    treadHeight: real,
    riserType: RiserType,
    leftSide: SideType,
    rightSide: SideType,
    haveRiser: bool,
    haveLeftSideDown: bool,
    haveLeftSideUp: bool,
    haveRightSideDown: bool,
    haveRightSideUp: bool,
    thickRiser: bool,
    haveTread: bool,
    haveTopSide: bool)

  /** The derived flags agree with the effective styles they are derived from. */
  predicate Coherent(n: Normalized)
  {
    && (n.haveRiser <==> n.riserType != RiserType.None)
    && (n.thickRiser <==> n.riserType == ThickRiser || n.riserType == Smooth)
    && (n.haveLeftSideDown <==> n.riserType != FillDown && HasDown(n.leftSide))
    && (n.haveRightSideDown <==> n.riserType != FillDown && HasDown(n.rightSide))
    && (n.haveLeftSideUp <==> HasUp(n.leftSide))
    && (n.haveRightSideUp <==> HasUp(n.rightSide))
  }

  function Normalize(d: StairsDefinition, leftSideDefinition: SideType, rightSideDefinition: SideType): (n: Normalized)
    // tread
    ensures n.haveTread <==> d.treadHeight >= Epsilon
    ensures n.haveTread <==> n.treadHeight >= Epsilon
    ensures n.treadHeight == if n.haveTread then d.treadHeight else 0.0
    // riser
    ensures n.riserType == ThinRiser ==> n.haveTread
    ensures n.riserType != d.riserType ==> d.riserType == ThinRiser && n.riserType == ThickRiser && !n.haveTread
    ensures d.riserType == ThinRiser && !n.haveTread ==> n.riserType == ThickRiser
    // sides
    ensures n.riserType == RiserType.None && d.leftSide == SideType.Up ==> n.haveLeftSideDown && n.haveLeftSideUp
    ensures n.riserType == RiserType.None && d.rightSide == SideType.Up ==> n.haveRightSideDown && n.haveRightSideUp
    ensures n.riserType == Smooth ==> n.leftSide == SmoothSide(leftSideDefinition) && n.rightSide == SmoothSide(rightSideDefinition)
    ensures n.riserType == Smooth ==> n.haveLeftSideDown && n.haveRightSideDown
    ensures n.riserType == FillDown ==> !n.haveLeftSideDown && !n.haveRightSideDown
    ensures n.riserType != Smooth && !(n.riserType == RiserType.None && d.leftSide == SideType.Up) ==>
      n.leftSide == leftSideDefinition
    ensures n.riserType != Smooth && !(n.riserType == RiserType.None && d.rightSide == SideType.Up) ==>
      n.rightSide == rightSideDefinition
    ensures HasUp(leftSideDefinition) ==> n.haveLeftSideUp
    ensures HasUp(rightSideDefinition) ==> n.haveRightSideUp
    // top side panel
    ensures n.haveTopSide <==> d.sideHeight > Epsilon
    // the flags follow the effective styles
    ensures Coherent(n)
  {
    var treadHeight := EffectiveTreadHeight(d.treadHeight);
    var riserType := EffectiveRiserType(treadHeight, d.riserType);
    var leftSideType := RemapSide(riserType, d.leftSide, leftSideDefinition);
    var rightSideType := RemapSide(riserType, d.rightSide, rightSideDefinition);
    Normalized(
      treadHeight,
      riserType,
      leftSideType,
      rightSideType,
      riserType != RiserType.None,
      riserType != FillDown && HasDown(leftSideType),
      HasUp(leftSideType),
      riserType != FillDown && HasDown(rightSideType),
      HasUp(rightSideType),
      riserType == ThickRiser || riserType == Smooth,
      treadHeight >= Epsilon,
      d.sideHeight > Epsilon)
  }

  /** One axis of the bounds correction: the two values in ascending order. */
  function SortPair(a: real, b: real): (r: (real, real))
    ensures r.0 <= r.1
    ensures (r.0 == a && r.1 == b) || (r.0 == b && r.1 == a)
  {
    if a > b then (b, a) else (a, b)
  }

  /** The bounds with min and max exchanged on every axis where they are reversed. */
  function OrderedBounds(lo: Vec3, hi: Vec3): (r: (Vec3, Vec3))
    ensures r.0.x <= r.1.x && r.0.y <= r.1.y && r.0.z <= r.1.z
    ensures lo.x <= hi.x ==> r.0.x == lo.x && r.1.x == hi.x
    ensures lo.y <= hi.y ==> r.0.y == lo.y && r.1.y == hi.y
    ensures lo.z <= hi.z ==> r.0.z == lo.z && r.1.z == hi.z
    ensures (r.0.x == lo.x && r.1.x == hi.x) || (r.0.x == hi.x && r.1.x == lo.x)
    ensures (r.0.y == lo.y && r.1.y == hi.y) || (r.0.y == hi.y && r.1.y == lo.y)
    ensures (r.0.z == lo.z && r.1.z == hi.z) || (r.0.z == hi.z && r.1.z == lo.z)
  {
    var x := SortPair(lo.x, hi.x);
    var y := SortPair(lo.y, hi.y);
    var z := SortPair(lo.z, hi.z);
    (Vec3(x.0, y.0, z.0), Vec3(x.1, y.1, z.1))
  }

  /** The generator's derived values, computed once before any band is built. */
  datatype Setup = Setup(
    boundsMin: Vec3,
    boundsMax: Vec3,
    leftSideDepth: real,
    rightSideDepth: real,
    riserDepth: real,
    offsetZ: real,
    offsetY: real,
    leftNosingWidth: real,
    rightNosingWidth: real,
    leftTopNosingWidth: real,
    rightTopNosingWidth: real)

  function GeneratorSetup(d: StairsDefinition, n: Normalized): (g: Setup)
    requires Coherent(n)
    ensures g.boundsMin.x <= g.boundsMax.x && g.boundsMin.y <= g.boundsMax.y && g.boundsMin.z <= g.boundsMax.z
    ensures (g.boundsMin, g.boundsMax) == OrderedBounds(d.boundsMin, d.boundsMax)
    // the side depth only deepens a side that has a wall below the steps
    ensures !n.haveLeftSideDown ==> g.leftSideDepth == 0.0
    ensures !n.haveRightSideDown ==> g.rightSideDepth == 0.0
    ensures n.haveLeftSideDown ==> g.leftSideDepth == d.sideDepth
    ensures n.haveRightSideDown ==> g.rightSideDepth == d.sideDepth
    // only a thin or fill-down riser has a riser depth of its own
    ensures g.riserDepth != 0.0 ==> n.riserType == ThinRiser || n.riserType == FillDown
    ensures n.riserType == ThinRiser || n.riserType == FillDown ==> g.riserDepth == d.riserDepth
    // a tiny step-depth offset is dropped
    ensures g.offsetZ == 0.0 || g.offsetZ >= Epsilon
    ensures g.offsetZ != 0.0 ==> g.offsetZ == d.stepDepthOffset
    ensures d.stepDepthOffset >= Epsilon ==> g.offsetZ == d.stepDepthOffset
    ensures g.offsetY == d.plateauHeight
    // an up wall replaces the nosing overhang by the wall's width, except on the
    // top tread when there is no top side panel
    ensures g.leftNosingWidth == if n.haveLeftSideUp then -d.sideWidth else d.nosingWidth
    ensures g.rightNosingWidth == if n.haveRightSideUp then -d.sideWidth else d.nosingWidth
    ensures !n.haveTopSide || !n.haveLeftSideUp ==> g.leftTopNosingWidth == d.nosingWidth
    ensures !n.haveTopSide || !n.haveRightSideUp ==> g.rightTopNosingWidth == d.nosingWidth
    ensures n.haveTopSide && n.haveLeftSideUp ==> g.leftTopNosingWidth == -d.sideWidth
    ensures n.haveTopSide && n.haveRightSideUp ==> g.rightTopNosingWidth == -d.sideWidth
  {
    var bounds := OrderedBounds(d.boundsMin, d.boundsMax);
    var leftNosingWidth := if n.haveLeftSideUp then -d.sideWidth else d.nosingWidth;
    var rightNosingWidth := if n.haveRightSideUp then -d.sideWidth else d.nosingWidth;
    Setup(
      bounds.0,
      bounds.1,
      if n.haveLeftSideDown then d.sideDepth else 0.0,
      if n.haveRightSideDown then d.sideDepth else 0.0,
      if n.haveRiser && !n.thickRiser then d.riserDepth else 0.0,
      if d.stepDepthOffset < Epsilon then 0.0 else d.stepDepthOffset,
      d.plateauHeight,
      leftNosingWidth,
      rightNosingWidth,
      if n.haveLeftSideUp && !n.haveTopSide then d.nosingWidth else leftNosingWidth,
      if n.haveRightSideUp && !n.haveTopSide then d.nosingWidth else rightNosingWidth)
  }
}
