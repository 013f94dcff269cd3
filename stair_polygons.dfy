/** The boundary polygon of every sub-mesh the generator emits, as a closed form
    in the step index. The generator's loops move a min/max window one step at
    a time; these functions say where that window is at step `i` and which
    polygon is built from it, and are what the loops are proved against. */
module StairPolygons {
  import opened StairTypes
  import opened StairConfig

  /** The window corner `v` after `i` steps: every step lowers Y by stepHeight
      and moves Z back by stepDepth (one `stepOffset` per step). */
  function Shifted(v: Vec3, i: nat, stepHeight: real, stepDepth: real): Vec3
  {
    if i == 0 then v
    else
      var u := Shifted(v, i - 1, stepHeight, stepDepth);
      Vec3(u.x, u.y - stepHeight, u.z + stepDepth)
  }

  /** After `i` steps a corner has dropped `i` step heights and moved back `i`
      step depths. */
  lemma {:induction false} ShiftedClosedForm(v: Vec3, i: nat, stepHeight: real, stepDepth: real)
    ensures Shifted(v, i, stepHeight, stepDepth)
         == Vec3(v.x, v.y - (i as real) * stepHeight, v.z + (i as real) * stepDepth)
  {
    if i > 0 {
      ShiftedClosedForm(v, i - 1, stepHeight, stepDepth);
      assert (i as real) * stepHeight == ((i - 1) as real) * stepHeight + stepHeight;
      assert (i as real) * stepDepth == ((i - 1) as real) * stepDepth + stepDepth;
    }
  }

  // ---------------------------------------------------------------------
  // Riser band

  /** Lines 110-126: the riser window before the first step. */
  function RiserWindow(d: StairsDefinition, n: Normalized, g: Setup): (w: (Vec3, Vec3))
    requires Coherent(n)
    // the riser sits below the tread and spans the stair width minus the up walls
    ensures w.1.y == g.boundsMax.y - n.treadHeight
    ensures w.1.y - w.0.y == d.stepHeight
    ensures w.0.x == g.boundsMin.x + (if n.haveRightSideUp then d.sideWidth else 0.0)
    ensures w.1.x == g.boundsMax.x - (if n.haveLeftSideUp then d.sideWidth else 0.0)
    // its back face is the end of the first step
    ensures w.1.z == g.boundsMin.z + d.stepDepthOffset + d.stepDepth
    ensures n.riserType == ThinRiser ==> w.1.z - w.0.z == g.riserDepth
    ensures n.riserType == FillDown ==> w.0.z == g.boundsMin.z
    // a thick riser starts inset by the step-depth offset, then pulled forward by it
    ensures n.thickRiser ==> w.0.z == g.boundsMin.z + d.stepDepthOffset - g.offsetZ
  {
    var maxZ := g.boundsMin.z + d.stepDepthOffset + d.stepDepth;
    var minZ :=
      if n.riserType == FillDown then g.boundsMin.z
      else
        (if n.riserType == ThinRiser then maxZ - g.riserDepth else g.boundsMin.z + d.stepDepthOffset)
        - (if n.thickRiser then g.offsetZ else 0.0);
    var maxY := g.boundsMax.y - n.treadHeight;
    var minY := g.boundsMax.y - d.stepHeight - n.treadHeight;
    (Vec3(g.boundsMin.x + (if n.haveRightSideUp then d.sideWidth else 0.0), minY, minZ),
     Vec3(g.boundsMax.x - (if n.haveLeftSideUp then d.sideWidth else 0.0), maxY, maxZ))
  }

  /** Line 127: every riser is extruded across the stair width minus the up walls. */
  function RiserExtrusion(d: StairsDefinition, n: Normalized, g: Setup): (e: Vec3)
    requires Coherent(n)
    ensures e.y == 0.0 && e.z == 0.0
    ensures e.x == (g.boundsMax.x - g.boundsMin.x)
                   - (if n.haveLeftSideUp then d.sideWidth else 0.0)
                   - (if n.haveRightSideUp then d.sideWidth else 0.0)
  {
    var w := RiserWindow(d, n, g);
    Vec3(w.1.x - w.0.x, 0.0, 0.0)
  }

  /** Lines 130-157: the riser of step `i`. Its shape is stated by RiserShape. */
  function RiserPolygon(d: StairsDefinition, n: Normalized, g: Setup, i: nat): (p: seq<Vec3>)
    requires Coherent(n)
    ensures |p| == 4
  {
    RiserQuad(RiserLow(d, n, g, i), Shifted(RiserWindow(d, n, g).1, i, d.stepHeight, d.stepDepth), RiserSlant(d, n, i))
  }

  /** The front bottom corner of riser `i`: the window corner moved down `i`
      steps (a fill-down riser keeps its front on the front bound), pushed back
      by the step-depth offset after the first thick riser, and raised on the
      last step by the tread height less the plateau height. */
  function RiserLow(d: StairsDefinition, n: Normalized, g: Setup, i: nat): Vec3
    requires Coherent(n)
  {
    var w := RiserWindow(d, n, g);
    var s := Shifted(w.0, i, d.stepHeight, d.stepDepth);
    Vec3(w.0.x,
         s.y + (if i == d.stepCount - 1 then n.treadHeight - g.offsetY else 0.0),
         (if n.riserType == FillDown then w.0.z else s.z) + (if n.thickRiser && i >= 1 then g.offsetZ else 0.0))
  }

  /** How far the front top corner of riser `i` leans back. */
  function RiserSlant(d: StairsDefinition, n: Normalized, i: nat): real
  {
    if i == 0 || n.riserType != Smooth then 0.0 else d.stepDepth
  }

  /** The riser quad of one window; the front top corner leans back by `slant`. */
  function RiserQuad(min: Vec3, max: Vec3, slant: real): seq<Vec3>
  {
    [ Vec3(min.x, min.y, min.z),
      Vec3(min.x, min.y, max.z),
      Vec3(min.x, max.y, max.z),
      Vec3(min.x, max.y, min.z - slant) ]
  }

  /** The riser of step `i` stands in the plane of the window's right edge; it
      is one step high (the last one corrected by the tread and plateau
      heights) and its top drops one step height per step. */
  lemma RiserShape(d: StairsDefinition, n: Normalized, g: Setup, i: nat)
    requires Coherent(n)
    ensures var p := RiserPolygon(d, n, g, i);
      && (forall v :: v in p ==> v.x == RiserWindow(d, n, g).0.x)
      // bottom and top edges are horizontal
      && p[0].y == p[1].y && p[2].y == p[3].y
      // the top of riser i is i step heights below the underside of the top tread
      && p[2].y == g.boundsMax.y - n.treadHeight - (i as real) * d.stepHeight
      && p[2].y - p[1].y == d.stepHeight - (if i == d.stepCount - 1 then n.treadHeight - g.offsetY else 0.0)
  {
    var w := RiserWindow(d, n, g);
    var s0, s1 := Shifted(w.0, i, d.stepHeight, d.stepDepth), Shifted(w.1, i, d.stepHeight, d.stepDepth);
    assert RiserPolygon(d, n, g, i) == RiserQuad(RiserLow(d, n, g, i), s1, RiserSlant(d, n, i));
    ShiftedClosedForm(w.0, i, d.stepHeight, d.stepDepth);
    ShiftedClosedForm(w.1, i, d.stepHeight, d.stepDepth);
    assert s1.y - s0.y == d.stepHeight;
  }

  /** The back face of riser `i` is vertical and lies one step depth further
      back per step; its front face is vertical, except that a smooth riser
      after the first slants back by one step depth. */
  lemma RiserDepth(d: StairsDefinition, n: Normalized, g: Setup, i: nat)
    requires Coherent(n)
    ensures var p := RiserPolygon(d, n, g, i);
      && p[1].z == p[2].z
      && p[1].z == g.boundsMin.z + d.stepDepthOffset + ((i + 1) as real) * d.stepDepth
      && (i == 0 || n.riserType != Smooth ==> p[3].z == p[0].z)
      && (i != 0 && n.riserType == Smooth ==> p[3].z == p[0].z - d.stepDepth)
  {
    var w := RiserWindow(d, n, g);
    var s1 := Shifted(w.1, i, d.stepHeight, d.stepDepth);
    assert RiserPolygon(d, n, g, i) == RiserQuad(RiserLow(d, n, g, i), s1, RiserSlant(d, n, i));
    ShiftedClosedForm(w.1, i, d.stepHeight, d.stepDepth);
    assert ((i + 1) as real) * d.stepDepth == (i as real) * d.stepDepth + d.stepDepth;
  }

  /** Where the front face of riser `i` is: a thick (or smooth) riser after
      the first starts at the back face of the riser before it, and the first
      one reaches forward by the step-depth offset; a thin riser is riserDepth
      deep at every step; a fill-down riser always starts at the front bound. */
  lemma RiserFront(d: StairsDefinition, n: Normalized, g: Setup, i: nat)
    requires Coherent(n)
    ensures var p := RiserPolygon(d, n, g, i);
      && (n.thickRiser && i >= 1 ==> p[0].z == g.boundsMin.z + d.stepDepthOffset + (i as real) * d.stepDepth)
      && (n.thickRiser && i == 0 ==> p[0].z == g.boundsMin.z + d.stepDepthOffset - g.offsetZ)
      && (n.riserType == ThinRiser ==> p[1].z - p[0].z == g.riserDepth)
      && (n.riserType == FillDown ==> p[0].z == g.boundsMin.z)
  {
    var w := RiserWindow(d, n, g);
    var s0, s1 := Shifted(w.0, i, d.stepHeight, d.stepDepth), Shifted(w.1, i, d.stepHeight, d.stepDepth);
    assert RiserPolygon(d, n, g, i) == RiserQuad(RiserLow(d, n, g, i), s1, RiserSlant(d, n, i));
    ShiftedClosedForm(w.0, i, d.stepHeight, d.stepDepth);
    ShiftedClosedForm(w.1, i, d.stepHeight, d.stepDepth);
    assert s1.z - s0.z == w.1.z - w.0.z;
  }

  // ---------------------------------------------------------------------
  // Tread band

  /** Lines 172-173: the tread window of the top step. */
  function TreadWindow(d: StairsDefinition, g: Setup): (w: (Vec3, Vec3))
    ensures w.1.y - w.0.y == d.treadHeight && w.1.y == g.boundsMax.y
    ensures w.0.z == g.boundsMin.z
    ensures w.1.z == g.boundsMin.z + d.stepDepthOffset + d.stepDepth + d.nosingDepth
  {
    (Vec3(g.boundsMin.x + d.sideWidth, g.boundsMax.y - d.treadHeight, g.boundsMin.z),
     Vec3(g.boundsMax.x - d.sideWidth, g.boundsMax.y, g.boundsMin.z + d.stepDepthOffset + d.stepDepth + d.nosingDepth))
  }

  /** Lines 174-191: the tread of step `i`. Its shape is stated by TreadShape. */
  function TreadPolygon(d: StairsDefinition, g: Setup, i: nat): (p: seq<Vec3>)
    ensures |p| == 4
  {
    var lo := Shifted(TreadWindow(d, g).0, i, d.stepHeight, d.stepDepth);
    var hi := Shifted(TreadWindow(d, g).1, i, d.stepHeight, d.stepDepth);
    var minZ := if i == 0 then g.boundsMin.z else hi.z - (d.stepDepth + d.nosingDepth);
    var minX := g.boundsMin.x - (if i == 0 then g.rightTopNosingWidth else g.rightNosingWidth);
    [ Vec3(minX, lo.y, minZ),
      Vec3(minX, lo.y, hi.z),
      Vec3(minX, hi.y, hi.z),
      Vec3(minX, hi.y, minZ) ]
  }

  /** The tread of step `i` is treadHeight thick with its top i step heights
      below the top bound; it runs one step depth plus the nosing (the top
      tread reaches forward to the front bound) and starts at the right
      nosing overhang. */
  lemma TreadShape(d: StairsDefinition, g: Setup, i: nat)
    ensures var p := TreadPolygon(d, g, i);
      && (forall v :: v in p ==> v.x == p[0].x)
      && p[0].y == p[1].y && p[2].y == p[3].y && p[2].y - p[1].y == d.treadHeight
      && p[2].y == g.boundsMax.y - (i as real) * d.stepHeight
      && p[0].z == p[3].z && p[1].z == p[2].z
      && p[1].z == g.boundsMin.z + d.stepDepthOffset + d.nosingDepth + ((i + 1) as real) * d.stepDepth
      && (i == 0 ==> p[0].z == g.boundsMin.z)
      && (i != 0 ==> p[1].z - p[0].z == d.stepDepth + d.nosingDepth)
      && p[0].x == g.boundsMin.x - (if i == 0 then g.rightTopNosingWidth else g.rightNosingWidth)
  {
    ShiftedClosedForm(TreadWindow(d, g).0, i, d.stepHeight, d.stepDepth);
    ShiftedClosedForm(TreadWindow(d, g).1, i, d.stepHeight, d.stepDepth);
  }

  /** With a tread, riser `i` ends exactly under tread `i`, and the tread
      overhangs the riser's back face by the nosing depth. */
  lemma RiserUnderTread(d: StairsDefinition, leftSideDefinition: SideType, rightSideDefinition: SideType, i: nat)
    requires Normalize(d, leftSideDefinition, rightSideDefinition).haveTread
    ensures var n := Normalize(d, leftSideDefinition, rightSideDefinition);
      var g := GeneratorSetup(d, n);
      var riser := RiserPolygon(d, n, g, i);
      var tread := TreadPolygon(d, g, i);
      riser[2].y == tread[1].y && tread[1].z - riser[1].z == d.nosingDepth
  {
    var n := Normalize(d, leftSideDefinition, rightSideDefinition);
    var g := GeneratorSetup(d, n);
    RiserShape(d, n, g, i);
    RiserDepth(d, n, g, i);
    TreadShape(d, g, i);
  }

  /** Line 188: a tread is extruded across the stair width plus the nosing
      overhang on each side (minus the wall width where a side has an up wall). */
  function TreadExtrusion(g: Setup, i: nat): (e: Vec3)
    ensures e.y == 0.0 && e.z == 0.0
    ensures i == 0 ==> e.x == (g.boundsMax.x - g.boundsMin.x) + g.leftTopNosingWidth + g.rightTopNosingWidth
    ensures i != 0 ==> e.x == (g.boundsMax.x - g.boundsMin.x) + g.leftNosingWidth + g.rightNosingWidth
  {
    var minX := g.boundsMin.x - (if i == 0 then g.rightTopNosingWidth else g.rightNosingWidth);
    var maxX := g.boundsMax.x + (if i == 0 then g.leftTopNosingWidth else g.leftNosingWidth);
    Vec3(maxX - minX, 0.0, 0.0)
  }

  // ---------------------------------------------------------------------
  // Side walls

  /** Lines 198-199 and 209-210: the window of a down-side wall at the first
      step: one side width wide, flush with the stair's left (max X) or right
      (min X) bound, one step high under the tread and one step deep. */
  function DownSideWindow(d: StairsDefinition, g: Setup, left: bool): (w: (Vec3, Vec3))
    ensures w.1.x - w.0.x == d.sideWidth
    ensures left ==> w.1.x == g.boundsMax.x
    ensures !left ==> w.0.x == g.boundsMin.x
    ensures w.1.y == g.boundsMax.y - d.treadHeight && w.1.y - w.0.y == d.stepHeight
    ensures w.0.z == g.boundsMin.z + d.stepDepthOffset && w.1.z - w.0.z == d.stepDepth
  {
    var minX := if left then g.boundsMax.x - d.sideWidth else g.boundsMin.x;
    (Vec3(minX, g.boundsMax.y - d.stepHeight - d.treadHeight, g.boundsMin.z + d.stepDepthOffset),
     Vec3(minX + d.sideWidth, g.boundsMax.y - d.treadHeight, g.boundsMin.z + d.stepDepthOffset + d.stepDepth))
  }

  /** Lines 220-221 and 270-271: the window of an up-side wall: the down-side
      window one step depth further back. */
  function UpSideWindow(d: StairsDefinition, g: Setup, left: bool): (w: (Vec3, Vec3))
    ensures var down := DownSideWindow(d, g, left);
      w.0 == down.0.(z := down.0.z + d.stepDepth) && w.1 == down.1.(z := down.1.z + d.stepDepth)
  {
    var minX := if left then g.boundsMax.x - d.sideWidth else g.boundsMin.x;
    (Vec3(minX, g.boundsMax.y - d.treadHeight - d.stepHeight, g.boundsMin.z + d.stepDepthOffset + d.stepDepth),
     Vec3(minX + d.sideWidth, g.boundsMax.y - d.treadHeight, g.boundsMin.z + d.stepDepthOffset + d.stepDepth + d.stepDepth))
  }

  /** Lines 202, 213, 223 and 273: how far a side wall reaches under the riser. */
  function SideExtraDepth(d: StairsDefinition, n: Normalized, g: Setup, left: bool): (r: real)
    requires Coherent(n)
    // in terms of the definition: a thick riser's step depth or a thin or
    // fill-down riser's own depth, plus the side depth where the side has a down wall
    ensures g == GeneratorSetup(d, n) ==>
      r == (if n.thickRiser then d.stepDepth
            else if n.riserType == ThinRiser || n.riserType == FillDown then d.riserDepth
            else 0.0)
         + (if (if left then n.haveLeftSideDown else n.haveRightSideDown) then d.sideDepth else 0.0)
  {
    (if n.thickRiser then d.stepDepth else g.riserDepth) + (if left then g.leftSideDepth else g.rightSideDepth)
  }

  /** Lines 327-353: the down-ramp quad of step `i`. Its shape is stated by
      BottomRampShape. */
  function BottomRampPolygon(d: StairsDefinition, stepCount: int, min: Vec3, max: Vec3,
                             riserDepth: real, extraDepth: real, maxDepth: real, i: nat): (p: seq<Vec3>)
    ensures |p| == 4
  {
    RampQuad(Shifted(min, i, d.stepHeight, d.stepDepth), Shifted(max, i, d.stepHeight, d.stepDepth),
             if i != stepCount - 1 then 0.0 else d.treadHeight, riserDepth, extraDepth, maxDepth)
  }

  /** A down-ramp quad lies in the plane of the window's min X, never reaches
      in front of the floor plane `maxDepth`, and its top edge sits at the
      window top of step i and its bottom edge at the window bottom, raised by
      the tread height on the last step. */
  lemma BottomRampShape(d: StairsDefinition, stepCount: int, min: Vec3, max: Vec3,
                        riserDepth: real, extraDepth: real, maxDepth: real, i: nat)
    ensures var p := BottomRampPolygon(d, stepCount, min, max, riserDepth, extraDepth, maxDepth, i);
      && (forall v :: v in p ==> v.x == min.x && v.z >= maxDepth)
      && p[0].y == p[1].y == max.y - (i as real) * d.stepHeight
      && p[2].y == p[3].y == min.y - (i as real) * d.stepHeight + (if i == stepCount - 1 then d.treadHeight else 0.0)
      && p[0].z == p[3].z
  {
    ShiftedClosedForm(min, i, d.stepHeight, d.stepDepth);
    ShiftedClosedForm(max, i, d.stepHeight, d.stepDepth);
  }

  /** How far down-ramp quad i reaches, each depth clamped to the floor plane:
      its back edge at the shifted window front plus the riser depth, its top
      front corner at the shifted window front less the extra depth, and its
      bottom front corner at the shifted window back less the extra depth. */
  lemma BottomRampDepths(d: StairsDefinition, stepCount: int, min: Vec3, max: Vec3,
                         riserDepth: real, extraDepth: real, maxDepth: real, i: nat)
    ensures var p := BottomRampPolygon(d, stepCount, min, max, riserDepth, extraDepth, maxDepth, i);
      var front := min.z + (i as real) * d.stepDepth;
      var back := max.z + (i as real) * d.stepDepth;
      && p[0].z == p[3].z == Max(maxDepth, front + riserDepth)
      && p[1].z == Max(maxDepth, front - extraDepth)
      && p[2].z == Max(maxDepth, back - extraDepth)
  {
    ShiftedClosedForm(min, i, d.stepHeight, d.stepDepth);
    ShiftedClosedForm(max, i, d.stepHeight, d.stepDepth);
  }

  /** The down-ramp quad built from one window, its bottom edge raised by `lift`. */
  function RampQuad(lo: Vec3, hi: Vec3, lift: real, riserDepth: real, extraDepth: real, maxDepth: real): seq<Vec3>
  {
    var z0 := Max(maxDepth, lo.z - extraDepth);
    var z1 := Max(maxDepth, hi.z - extraDepth);
    var z2 := Max(maxDepth, lo.z + riserDepth);
    [ Vec3(lo.x, hi.y, z2),
      Vec3(lo.x, hi.y, z0),
      Vec3(lo.x, lo.y + lift, z1),
      Vec3(lo.x, lo.y + lift, z2) ]
  }

  /** The point `v` moved down one step. */
  function StepDown(v: Vec3, d: StairsDefinition): Vec3
  {
    Vec3(v.x, v.y - d.stepHeight, v.z + d.stepDepth)
  }

  /** Where no depth is clamped, consecutive down-ramp quads (other than the
      last) are the same quad moved by one step. */
  lemma BottomRampRepeats(d: StairsDefinition, stepCount: int, min: Vec3, max: Vec3,
                          riserDepth: real, extraDepth: real, maxDepth: real, i: nat)
    requires i + 1 < stepCount - 1 && d.stepDepth >= 0.0
    requires Shifted(min, i, d.stepHeight, d.stepDepth).z - extraDepth >= maxDepth
    requires Shifted(max, i, d.stepHeight, d.stepDepth).z - extraDepth >= maxDepth
    requires Shifted(min, i, d.stepHeight, d.stepDepth).z + riserDepth >= maxDepth
    ensures var p := BottomRampPolygon(d, stepCount, min, max, riserDepth, extraDepth, maxDepth, i);
            BottomRampPolygon(d, stepCount, min, max, riserDepth, extraDepth, maxDepth, i + 1)
            == [StepDown(p[0], d), StepDown(p[1], d), StepDown(p[2], d), StepDown(p[3], d)]
  {
    var lo, hi := Shifted(min, i, d.stepHeight, d.stepDepth), Shifted(max, i, d.stepHeight, d.stepDepth);
    assert Shifted(min, i + 1, d.stepHeight, d.stepDepth) == StepDown(lo, d);
    assert Shifted(max, i + 1, d.stepHeight, d.stepDepth) == StepDown(hi, d);
    RampQuadStep(d, lo, hi, riserDepth, extraDepth, maxDepth);
  }

  lemma RampQuadStep(d: StairsDefinition, lo: Vec3, hi: Vec3, riserDepth: real, extraDepth: real, maxDepth: real)
    requires d.stepDepth >= 0.0
    requires lo.z - extraDepth >= maxDepth && hi.z - extraDepth >= maxDepth && lo.z + riserDepth >= maxDepth
    ensures var p := RampQuad(lo, hi, 0.0, riserDepth, extraDepth, maxDepth);
            RampQuad(StepDown(lo, d), StepDown(hi, d), 0.0, riserDepth, extraDepth, maxDepth)
            == [StepDown(p[0], d), StepDown(p[1], d), StepDown(p[2], d), StepDown(p[3], d)]
  {
  }

  /** Lines 376-400: the up-ramp pentagon of segment `i`. Its shape is stated
      by TopRampShape. */
  function TopRampPolygon(d: StairsDefinition, sideHeight: real, min: Vec3, max: Vec3,
                          extraDepth: real, maxDepth: real, riserType: RiserType, i: nat): (p: seq<Vec3>)
    ensures |p| == 5
  {
    RampPentagon(Shifted(min, i, d.stepHeight, d.stepDepth), Shifted(max, i, d.stepHeight, d.stepDepth),
                 sideHeight + d.treadHeight, extraDepth, maxDepth, i == 0 || riserType == FillDown)
  }

  /** An up-ramp pentagon lies in the plane of the window's min X and never
      reaches in front of the floor plane; the first segment, and every segment
      under a fill-down riser, drops its leading edge onto the floor plane; its
      top edge runs sideHeight + treadHeight above the window top of step i. */
  lemma TopRampShape(d: StairsDefinition, sideHeight: real, min: Vec3, max: Vec3,
                     extraDepth: real, maxDepth: real, riserType: RiserType, i: nat)
    ensures var p := TopRampPolygon(d, sideHeight, min, max, extraDepth, maxDepth, riserType, i);
      && (forall v :: v in p ==> v.x == min.x && v.z >= maxDepth)
      && (i == 0 || riserType == FillDown ==> p[0].z == maxDepth && p[1].z == maxDepth)
      && p[0].y == p[4].y == max.y - (i as real) * d.stepHeight + sideHeight + d.treadHeight
      && p[1].y == p[2].y == min.y - (i as real) * d.stepHeight
      && p[3].y - p[2].y == sideHeight + d.treadHeight
      && p[2].z == p[3].z
  {
    ShiftedClosedForm(min, i, d.stepHeight, d.stepDepth);
    ShiftedClosedForm(max, i, d.stepHeight, d.stepDepth);
  }

  /** How far up-ramp pentagon i reaches, each depth clamped to the floor
      plane: its top back corner at the shifted window front, its bottom edge
      and diagonal foot at the shifted window back, and its leading edge on the
      floor plane for the first segment and under a fill-down riser, otherwise
      inset by the extra depth from the top back corner. */
  lemma TopRampDepths(d: StairsDefinition, sideHeight: real, min: Vec3, max: Vec3,
                      extraDepth: real, maxDepth: real, riserType: RiserType, i: nat)
    ensures var p := TopRampPolygon(d, sideHeight, min, max, extraDepth, maxDepth, riserType, i);
      var front := min.z + (i as real) * d.stepDepth;
      var back := max.z + (i as real) * d.stepDepth;
      && p[4].z == Max(maxDepth, front)
      && p[2].z == p[3].z == Max(maxDepth, back)
      && (i == 0 || riserType == FillDown ==> p[0].z == p[1].z == maxDepth)
      && (!(i == 0 || riserType == FillDown) ==> p[0].z == p[1].z == Max(maxDepth, p[4].z - extraDepth))
  {
    var lo, hi := Shifted(min, i, d.stepHeight, d.stepDepth), Shifted(max, i, d.stepHeight, d.stepDepth);
    var p := TopRampPolygon(d, sideHeight, min, max, extraDepth, maxDepth, riserType, i);
    assert p == RampPentagon(lo, hi, sideHeight + d.treadHeight, extraDepth, maxDepth, i == 0 || riserType == FillDown);
    RampPentagonDepths(lo, hi, sideHeight + d.treadHeight, extraDepth, maxDepth, i == 0 || riserType == FillDown);
    ShiftedClosedForm(min, i, d.stepHeight, d.stepDepth);
    ShiftedClosedForm(max, i, d.stepHeight, d.stepDepth);
    assert lo.z == min.z + (i as real) * d.stepDepth;
    assert hi.z == max.z + (i as real) * d.stepDepth;
  }

  /** The depths of one up-ramp pentagon, in terms of its window. */
  lemma RampPentagonDepths(lo: Vec3, hi: Vec3, diagonalHeight: real, extraDepth: real, maxDepth: real,
                           dropToFloor: bool)
    ensures var p := RampPentagon(lo, hi, diagonalHeight, extraDepth, maxDepth, dropToFloor);
      && p[4].z == Max(maxDepth, lo.z)
      && p[2].z == p[3].z == Max(maxDepth, hi.z)
      && p[0].z == p[1].z == (if dropToFloor then maxDepth else Max(maxDepth, p[4].z - extraDepth))
  {
  }

  /** The up-ramp pentagon built from one window; `dropToFloor` sends its
      leading edge straight to the floor plane. */
  function RampPentagon(lo: Vec3, hi: Vec3, diagonalHeight: real, extraDepth: real, maxDepth: real,
                        dropToFloor: bool): seq<Vec3>
  {
    var topY := hi.y + diagonalHeight;
    var bottomY := lo.y;
    var middleY := bottomY + diagonalHeight;
    var rightZ := Max(maxDepth, hi.z);
    var leftZ := Max(maxDepth, lo.z);
    var lefterZ := if dropToFloor then maxDepth else Max(maxDepth, leftZ - extraDepth);
    [ Vec3(lo.x, topY, lefterZ),
      Vec3(lo.x, bottomY, lefterZ),
      Vec3(lo.x, bottomY, rightZ),
      Vec3(lo.x, middleY, rightZ),
      Vec3(lo.x, topY, leftZ) ]
  }

  /** Lines 230-235 and 280-285: the horizontal top side panel over the landing. */
  function TopPanelPolygon(d: StairsDefinition, sideHeight: real, min: Vec3, max: Vec3, boundsMin: Vec3): (p: seq<Vec3>)
    ensures |p| == 4
    ensures forall v :: v in p ==> v.x == min.x
    // it spans from the front of the stairs to the up wall's first window
    ensures p[1].z == p[2].z == boundsMin.z && p[0].z == p[3].z == min.z
    ensures p[2].y == p[3].y == max.y && p[0].y == p[1].y == max.y + sideHeight + d.treadHeight
  {
    var topY := max.y + sideHeight + d.treadHeight;
    [ Vec3(min.x, topY, min.z),
      Vec3(min.x, topY, boundsMin.z),
      Vec3(min.x, max.y, boundsMin.z),
      Vec3(min.x, max.y, min.z) ]
  }

  /** Lines 243-261 and 293-311: the vertical end cap at the bottom of an up wall. */
  function EndCapPolygon(d: StairsDefinition, riserType: RiserType, min: Vec3,
                         boundsMin: Vec3, boundsMax: Vec3, extraDepth: real): (p: seq<Vec3>)
    ensures |p| == 4
    ensures forall v :: v in p ==> v.x == min.x
    // one step high, standing on the bottom bound, flush with the back bound
    ensures p[2].y == p[3].y == boundsMin.y && p[0].y == p[1].y == boundsMin.y + d.stepHeight
    ensures p[0].z == p[3].z == boundsMax.z && p[1].z == p[2].z
    // a fill-down riser makes it reach the front bound; otherwise it is extraDepth deep
    ensures riserType == FillDown ==> p[1].z == boundsMin.z
    ensures riserType != FillDown ==> p[1].z == boundsMax.z - extraDepth
  {
    var frontZ := if riserType == FillDown then boundsMin.z else boundsMax.z - extraDepth;
    [ Vec3(min.x, boundsMin.y + d.stepHeight, boundsMax.z),
      Vec3(min.x, boundsMin.y + d.stepHeight, frontZ),
      Vec3(min.x, boundsMin.y, frontZ),
      Vec3(min.x, boundsMin.y, boundsMax.z) ]
  }
}
