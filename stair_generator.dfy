/** GenerateLinearStairs, GenerateLinearStairsSubMeshes and the two ramp
    helpers: the loops that walk a min/max window down the stairs and write one
    sub-mesh per step into the brush container's slot array. */
module StairGenerator {
  import opened StairTypes
  import opened StairConfig
  import opened StairLayout
  import opened StairPolygons

  /** What slot `i` of band `b` holds once the generator is done, with every
      up band's end cap in the band's last slot. */
  function SlotContent(d: StairsDefinition, n: Normalized, g: Setup, b: nat, i: nat): (m: BrushMesh)
    requires Coherent(n)
    ensures m.Extruded?
  {
    var stepCount := d.stepCount;
    var sideExtrusion := Vec3(d.sideWidth, 0.0, 0.0);
    if b == RiserBand then
      Extruded(RiserPolygon(d, n, g, i), RiserExtrusion(d, n, g))
    else if b == TreadBand then
      Extruded(TreadPolygon(d, g, i), TreadExtrusion(g, i))
    else if b < LeftUpBand then
      var left := b == LeftDownBand;
      var w := DownSideWindow(d, g, left);
      Extruded(BottomRampPolygon(d, stepCount, w.0, w.1, d.stepDepth - g.riserDepth,
                                 SideExtraDepth(d, n, g, left), g.boundsMin.z, i), sideExtrusion)
    else
      var left := b == LeftUpBand;
      var w := UpSideWindow(d, g, left);
      var extraDepth := SideExtraDepth(d, n, g, left);
      if i < stepCount - 1 then
        Extruded(TopRampPolygon(d, d.sideHeight, w.0, w.1, extraDepth, g.boundsMin.z, n.riserType, i), sideExtrusion)
      else if i == stepCount - 1 && n.haveTopSide then
        Extruded(TopPanelPolygon(d, d.sideHeight, w.0, w.1, g.boundsMin), sideExtrusion)
      else
        Extruded(EndCapPolygon(d, n.riserType, w.0, g.boundsMin, g.boundsMax, extraDepth), sideExtrusion)
  }

  /** Lines 323-364: one down-ramp quad per step into slots startIndex,
      startIndex + 1, ...; no other slot is touched. */
  method GenerateBottomRamp(slots: array<BrushMesh>, startIndex: int, stepCount: nat, min: Vec3, max: Vec3,
                            extrusion: Vec3, riserDepth: real, extraDepth: real, maxDepth: real,
                            d: StairsDefinition)
    requires 0 <= startIndex && startIndex + stepCount <= slots.Length
    modifies slots
    ensures forall i :: 0 <= i < stepCount ==>
      slots[startIndex + i] == Extruded(BottomRampPolygon(d, stepCount, min, max, riserDepth, extraDepth, maxDepth, i), extrusion)
    ensures forall k :: 0 <= k < slots.Length && !(startIndex <= k < startIndex + stepCount) ==> slots[k] == old(slots[k])
  {
    var lo, hi := min, max;
    var i, j := 0, startIndex;
    while i < stepCount
      invariant 0 <= i <= stepCount && j == startIndex + i
      invariant lo == Shifted(min, i, d.stepHeight, d.stepDepth) && hi == Shifted(max, i, d.stepHeight, d.stepDepth)
      invariant forall i' :: 0 <= i' < i ==>
        slots[startIndex + i'] == Extruded(BottomRampPolygon(d, stepCount, min, max, riserDepth, extraDepth, maxDepth, i'), extrusion)
      invariant forall k :: 0 <= k < slots.Length && !(startIndex <= k < startIndex + i) ==> slots[k] == old(slots[k])
    {
      var z0 := Max(maxDepth, lo.z - extraDepth);
      var z1 := Max(maxDepth, hi.z - extraDepth);
      var z2 := Max(maxDepth, lo.z + riserDepth);
      var vertices: seq<Vec3>;
      if i != stepCount - 1 {
        vertices := [Vec3(lo.x, hi.y, z2), Vec3(lo.x, hi.y, z0), Vec3(lo.x, lo.y, z1), Vec3(lo.x, lo.y, z2)];
      } else {
        vertices := [Vec3(lo.x, hi.y, z2), Vec3(lo.x, hi.y, z0),
                     Vec3(lo.x, lo.y + d.treadHeight, z1), Vec3(lo.x, lo.y + d.treadHeight, z2)];
      }
      assert vertices == RampQuad(lo, hi, if i != stepCount - 1 then 0.0 else d.treadHeight, riserDepth, extraDepth, maxDepth);
      slots[j] := Extruded(vertices, extrusion);
      lo := Vec3(lo.x, lo.y - d.stepHeight, lo.z + d.stepDepth);
      hi := Vec3(hi.x, hi.y - d.stepHeight, hi.z + d.stepDepth);
      i, j := i + 1, j + 1;
    }
  }

  /** Lines 367-411: one up-ramp pentagon per segment into slots startIndex,
      startIndex + 1, ...; no other slot is touched. */
  method GenerateTopRamp(slots: array<BrushMesh>, startIndex: int, stepCount: nat, min: Vec3, max: Vec3,
                         extrusion: Vec3, sideHeight: real, extraDepth: real, maxDepth: real,
                         riserType: RiserType, d: StairsDefinition)
    requires 0 <= startIndex && startIndex + stepCount <= slots.Length
    modifies slots
    ensures forall i :: 0 <= i < stepCount ==>
      slots[startIndex + i] == Extruded(TopRampPolygon(d, sideHeight, min, max, extraDepth, maxDepth, riserType, i), extrusion)
    ensures forall k :: 0 <= k < slots.Length && !(startIndex <= k < startIndex + stepCount) ==> slots[k] == old(slots[k])
  {
    var diagonalHeight := sideHeight + d.treadHeight;
    var lo, hi := min, max;
    var i, j := 0, startIndex;
    while i < stepCount
      invariant 0 <= i <= stepCount && j == startIndex + i
      invariant lo == Shifted(min, i, d.stepHeight, d.stepDepth) && hi == Shifted(max, i, d.stepHeight, d.stepDepth)
      invariant forall i' :: 0 <= i' < i ==>
        slots[startIndex + i'] == Extruded(TopRampPolygon(d, sideHeight, min, max, extraDepth, maxDepth, riserType, i'), extrusion)
      invariant forall k :: 0 <= k < slots.Length && !(startIndex <= k < startIndex + i) ==> slots[k] == old(slots[k])
    {
      var vertices := RampPentagon(lo, hi, diagonalHeight, extraDepth, maxDepth, i == 0 || riserType == FillDown);
      slots[j] := Extruded(vertices, extrusion);
      lo := Vec3(lo.x, lo.y - d.stepHeight, lo.z + d.stepDepth);
      hi := Vec3(hi.x, hi.y - d.stepHeight, hi.z + d.stepDepth);
      i, j := i + 1, j + 1;
    }
  }

  /** Lines 110-126: the riser window before the first step, built up one
      coordinate at a time. */
  method RiserStart(d: StairsDefinition, n: Normalized, g: Setup) returns (min: Vec3, max: Vec3)
    requires Coherent(n)
    ensures (min, max) == RiserWindow(d, n, g)
  {
    min, max := g.boundsMin, g.boundsMax;
    max := max.(z := min.z + d.stepDepthOffset + d.stepDepth);
    if n.riserType != FillDown {
      if n.riserType == ThinRiser {
        min := min.(z := max.z - g.riserDepth);
      } else {
        min := min.(z := min.z + d.stepDepthOffset);
      }
      if n.thickRiser {
        min := min.(z := min.z - g.offsetZ);
      }
    }
    min := min.(y := max.y - d.stepHeight);
    min := min.(y := min.y - n.treadHeight);
    max := max.(y := max.y - n.treadHeight);
    min := min.(x := min.x + if n.haveRightSideUp then d.sideWidth else 0.0);
    max := max.(x := max.x - if n.haveLeftSideUp then d.sideWidth else 0.0);
  }

  /** Lines 108-169: the riser band, one riser per step into slots start,
      start + 1, ...; no other slot is touched. */
  method GenerateRisers(slots: array<BrushMesh>, start: int, d: StairsDefinition, n: Normalized, g: Setup)
    requires Coherent(n)
    requires 0 <= start && start + d.stepCount <= slots.Length
    modifies slots
    ensures forall i :: 0 <= i < d.stepCount ==>
      slots[start + i] == Extruded(RiserPolygon(d, n, g, i), RiserExtrusion(d, n, g))
    ensures forall k :: 0 <= k < slots.Length && !(start <= k < start + d.stepCount) ==> slots[k] == old(slots[k])
  {
    var stepCount := d.stepCount;
    var min, max := RiserStart(d, n, g);
    var w := RiserWindow(d, n, g);
    var extrusion := Vec3(max.x - min.x, 0.0, 0.0);

    var i := 0;
    while i < stepCount
      invariant 0 <= i <= stepCount
      invariant max == Shifted(w.1, i, d.stepHeight, d.stepDepth)
      invariant min.x == w.0.x
      invariant i < stepCount ==> min.y == Shifted(w.0, i, d.stepHeight, d.stepDepth).y
      invariant min.z == (if n.riserType == FillDown then w.0.z else Shifted(w.0, i, d.stepHeight, d.stepDepth).z)
                         + (if n.thickRiser && i >= 2 then g.offsetZ else 0.0)
      invariant forall i' :: 0 <= i' < i ==>
        slots[start + i'] == Extruded(RiserPolygon(d, n, g, i'), extrusion)
      invariant forall k :: 0 <= k < slots.Length && !(start <= k < start + i) ==> slots[k] == old(slots[k])
    {
      if i == 1 && n.thickRiser {
        min := min.(z := min.z + g.offsetZ);
      }
      if i == stepCount - 1 {
        min := min.(y := min.y + n.treadHeight - g.offsetY);
      }
      // a smooth riser after the first leans its front top corner back one step
      var slant := if i == 0 || n.riserType != Smooth then 0.0 else d.stepDepth;
      var vertices := RiserQuad(min, max, slant);
      RiserLowAt(d, n, g, i, min);
      assert vertices == RiserPolygon(d, n, g, i);
      slots[start + i] := Extruded(vertices, extrusion);
      // a fill-down riser keeps its front on the front bound
      min := Vec3(min.x, min.y - d.stepHeight, if n.riserType != FillDown then min.z + d.stepDepth else min.z);
      max := Vec3(max.x, max.y - d.stepHeight, max.z + d.stepDepth);
      i := i + 1;
    }
  }

  /** The window corner the riser loop has moved to step `i` is RiserLow. */
  lemma RiserLowAt(d: StairsDefinition, n: Normalized, g: Setup, i: nat, min: Vec3)
    requires Coherent(n)
    requires var w := RiserWindow(d, n, g);
      && min.x == w.0.x
      && min.y == Shifted(w.0, i, d.stepHeight, d.stepDepth).y + (if i == d.stepCount - 1 then n.treadHeight - g.offsetY else 0.0)
      && min.z == (if n.riserType == FillDown then w.0.z else Shifted(w.0, i, d.stepHeight, d.stepDepth).z)
                  + (if n.thickRiser && i >= 1 then g.offsetZ else 0.0)
    ensures min == RiserLow(d, n, g, i)
  {
  }

  /** Lines 170-195: the tread band, one tread per step into slots start,
      start + 1, ...; no other slot is touched. */
  method GenerateTreads(slots: array<BrushMesh>, start: int, d: StairsDefinition, g: Setup)
    requires 0 <= start && start + d.stepCount <= slots.Length
    modifies slots
    ensures forall i :: 0 <= i < d.stepCount ==>
      slots[start + i] == Extruded(TreadPolygon(d, g, i), TreadExtrusion(g, i))
    ensures forall k :: 0 <= k < slots.Length && !(start <= k < start + d.stepCount) ==> slots[k] == old(slots[k])
  {
    var stepCount := d.stepCount;
    var stepOffset := Vec3(0.0, -d.stepHeight, d.stepDepth);
    var min := Vec3(g.boundsMin.x + d.sideWidth, g.boundsMax.y - d.treadHeight, g.boundsMin.z);
    var max := Vec3(g.boundsMax.x - d.sideWidth, g.boundsMax.y, g.boundsMin.z + d.stepDepthOffset + d.stepDepth + d.nosingDepth);
    var w := TreadWindow(d, g);
    var i := 0;
    while i < stepCount
      invariant 0 <= i <= stepCount
      invariant max.y == Shifted(w.1, i, d.stepHeight, d.stepDepth).y && max.z == Shifted(w.1, i, d.stepHeight, d.stepDepth).z
      invariant min.y == Shifted(w.0, i, d.stepHeight, d.stepDepth).y
      invariant min.z == if i <= 1 then Shifted(w.0, i, d.stepHeight, d.stepDepth).z else max.z - (d.stepDepth + d.nosingDepth)
      invariant forall i' :: 0 <= i' < i ==>
        slots[start + i'] == Extruded(TreadPolygon(d, g, i'), TreadExtrusion(g, i'))
      invariant forall k :: 0 <= k < slots.Length && !(start <= k < start + i) ==> slots[k] == old(slots[k])
    {
      min := min.(x := g.boundsMin.x - if i == 0 then g.rightTopNosingWidth else g.rightNosingWidth);
      max := max.(x := g.boundsMax.x + if i == 0 then g.leftTopNosingWidth else g.leftNosingWidth);
      if i == 1 {
        min := min.(z := max.z - (d.stepDepth + d.nosingDepth));
      }
      var vertices := [Vec3(min.x, min.y, min.z), Vec3(min.x, min.y, max.z), Vec3(min.x, max.y, max.z), Vec3(min.x, max.y, min.z)];
      var extrusion := Vec3(max.x - min.x, 0.0, 0.0);
      assert vertices == TreadPolygon(d, g, i);
      slots[start + i] := Extruded(vertices, extrusion);
      min := Add(min, stepOffset);
      max := Add(max, stepOffset);
      i := i + 1;
    }
  }

  /** Lines 218-317: one up wall: stepCount - 1 ramp segments, the top side
      panel when there is one, and the end cap, which goes into the band's last
      slot. */
  method GenerateUpSide(slots: array<BrushMesh>, start: int, d: StairsDefinition, n: Normalized, g: Setup, b: nat)
    requires Coherent(n) && d.stepCount > 0 && (b == LeftUpBand || b == RightUpBand)
    requires 0 <= start && start + UpBandSize(d.stepCount, n.haveTopSide) <= slots.Length
    modifies slots
    ensures forall i :: 0 <= i < UpBandSize(d.stepCount, n.haveTopSide) ==>
      slots[start + i] == SlotContent(d, n, g, b, i)
    ensures forall k :: 0 <= k < slots.Length && !(start <= k < start + UpBandSize(d.stepCount, n.haveTopSide)) ==>
      slots[k] == old(slots[k])
  {
    var stepCount := d.stepCount;
    var left := b == LeftUpBand;
    var w := UpSideWindow(d, g, left);
    var min, max := w.0, w.1;
    var extrusion := Vec3(d.sideWidth, 0.0, 0.0);
    var extraDepth := SideExtraDepth(d, n, g, left);
    var maxDepth := g.boundsMin.z;

    GenerateTopRamp(slots, start, stepCount - 1, min, max, extrusion, d.sideHeight, extraDepth, maxDepth, n.riserType, d);

    if n.haveTopSide {
      var vertices := [ Vec3(min.x, max.y + d.sideHeight + d.treadHeight, min.z),
                        Vec3(min.x, max.y + d.sideHeight + d.treadHeight, g.boundsMin.z),
                        Vec3(min.x, max.y, g.boundsMin.z),
                        Vec3(min.x, max.y, min.z) ];
      assert vertices == TopPanelPolygon(d, d.sideHeight, w.0, w.1, g.boundsMin);
      slots[start + (stepCount - 1)] := Extruded(vertices, extrusion);
    }

    var vertices: seq<Vec3>;
    if n.riserType == FillDown {
      vertices := [ Vec3(min.x, g.boundsMin.y + d.stepHeight, g.boundsMax.z),
                    Vec3(min.x, g.boundsMin.y + d.stepHeight, g.boundsMin.z),
                    Vec3(min.x, g.boundsMin.y, g.boundsMin.z),
                    Vec3(min.x, g.boundsMin.y, g.boundsMax.z) ];
    } else {
      vertices := [ Vec3(min.x, g.boundsMin.y + d.stepHeight, g.boundsMax.z),
                    Vec3(min.x, g.boundsMin.y + d.stepHeight, g.boundsMax.z - extraDepth),
                    Vec3(min.x, g.boundsMin.y, g.boundsMax.z - extraDepth),
                    Vec3(min.x, g.boundsMin.y, g.boundsMax.z) ];
    }
    assert vertices == EndCapPolygon(d, n.riserType, w.0, g.boundsMin, g.boundsMax, extraDepth);
    // the cap goes right after the top panel, or right after the ramps when there is none
    var cap := UpBandCap(start, stepCount, n.haveTopSide);
    assert cap == start + stepCount - 1 + (if n.haveTopSide then 1 else 0);
    slots[cap] := Extruded(vertices, extrusion);
  }

  /** Slots offset + BandStart(b) ... of band `b` all hold their content. */
  ghost predicate BandHolds(slots: array<BrushMesh>, offset: int, d: StairsDefinition, n: Normalized, g: Setup, b: nat)
    requires Coherent(n) && b < BandCount
    reads slots
  {
    forall i :: 0 <= i < BandSizes(n, d.stepCount)[b] ==>
      0 <= offset + BandStart(n, d.stepCount, b) + i < slots.Length &&
      slots[offset + BandStart(n, d.stepCount, b) + i] == SlotContent(d, n, g, b, i)
  }

  /** One of the six blocks of lines 108-317: when the configuration has the
      part of band `b`, writes it into the band's slots. Nothing outside band
      `b` changes. */
  method WriteBand(slots: array<BrushMesh>, start: int, d: StairsDefinition, n: Normalized, g: Setup, b: nat)
    requires Coherent(n) && d.stepCount > 0 && b < BandCount
    requires 0 <= start && start + BandSizes(n, d.stepCount)[b] <= slots.Length
    modifies slots
    ensures forall i :: 0 <= i < BandSizes(n, d.stepCount)[b] ==> slots[start + i] == SlotContent(d, n, g, b, i)
    ensures forall k :: 0 <= k < slots.Length && !(start <= k < start + BandSizes(n, d.stepCount)[b]) ==>
      slots[k] == old(slots[k])
  {
    var stepCount := d.stepCount;
    if b == RiserBand && n.haveRiser {
      GenerateRisers(slots, start, d, n, g);
    } else if b == TreadBand && n.haveTread {
      GenerateTreads(slots, start, d, g);
    } else if (b == LeftDownBand && n.haveLeftSideDown) || (b == RightDownBand && n.haveRightSideDown) {
      var left := b == LeftDownBand;
      var w := DownSideWindow(d, g, left);
      var min, max := w.0, w.1;
      var extrusion := Vec3(d.sideWidth, 0.0, 0.0);
      var extraDepth := SideExtraDepth(d, n, g, left);
      var maxDepth := g.boundsMin.z;
      GenerateBottomRamp(slots, start, stepCount, min, max, extrusion, d.stepDepth - g.riserDepth, extraDepth, maxDepth, d);
    } else if (b == LeftUpBand && n.haveLeftSideUp) || (b == RightUpBand && n.haveRightSideUp) {
      GenerateUpSide(slots, start, d, n, g, b);
    }
  }

  /** Writes band `b` after the bands before it, leaving those intact and
      touching nothing outside the staircase's slot range. */
  method GenerateBand(slots: array<BrushMesh>, offset: int, start: nat, d: StairsDefinition, n: Normalized, g: Setup, b: nat)
    requires Coherent(n) && d.stepCount > 0 && b < BandCount
    requires start == BandStart(n, d.stepCount, b)
    requires 0 <= offset && offset + Sum(BandSizes(n, d.stepCount)) <= slots.Length
    requires forall c :: 0 <= c < b ==> BandHolds(slots, offset, d, n, g, c)
    modifies slots
    ensures forall c :: 0 <= c <= b ==> BandHolds(slots, offset, d, n, g, c)
    ensures forall k :: 0 <= k < slots.Length && !(offset <= k < offset + Sum(BandSizes(n, d.stepCount))) ==>
      slots[k] == old(slots[k])
  {
    var stepCount := d.stepCount;
    BandStartStep(n, stepCount, b);
    BandStartsAscend(n, stepCount, b + 1, BandCount);
    WriteBand(slots, offset + start, d, n, g, b);
    assert BandHolds(slots, offset, d, n, g, b);
    forall c | 0 <= c < b
      ensures BandHolds(slots, offset, d, n, g, c)
    {
      BandStartStep(n, stepCount, c);
      BandStartsAscend(n, stepCount, c + 1, b);
      assert old(BandHolds(slots, offset, d, n, g, c));
    }
  }

  /** Lines 34-320: writes every band of one staircase into the slots from
      subMeshOffset on. The surface table must have exactly totalSides
      entries, otherwise nothing is written. With at least one step, every
      slot of every band holds its content; with no step, nothing is written.
      Slots outside the staircase's range are never touched. */
  method GenerateLinearStairsSubMeshes(slots: array<BrushMesh>, d: StairsDefinition,
                                       leftSideDefinition: SideType, rightSideDefinition: SideType,
                                       subMeshOffset: int, totalSides: nat) returns (ok: bool)
    requires d.surfaceCount == totalSides ==>
      0 <= subMeshOffset && subMeshOffset + SubMeshCount(d, leftSideDefinition, rightSideDefinition, totalSides) <= slots.Length
    modifies slots
    ensures ok <==> d.surfaceCount == totalSides
    ensures !ok || d.stepCount == 0 ==> forall k :: 0 <= k < slots.Length ==> slots[k] == old(slots[k])
    ensures ok ==>
      var count := SubMeshCount(d, leftSideDefinition, rightSideDefinition, totalSides);
      forall k :: 0 <= k < slots.Length && (k < subMeshOffset || subMeshOffset + count <= k) ==> slots[k] == old(slots[k])
    ensures ok && d.stepCount > 0 ==>
      var n := Normalize(d, leftSideDefinition, rightSideDefinition);
      forall b :: 0 <= b < BandCount ==> BandHolds(slots, subMeshOffset, d, n, GeneratorSetup(d, n), b)
  {
    if d.surfaceCount != totalSides {
      return false;
    }
    var n := Normalize(d, leftSideDefinition, rightSideDefinition);
    var g := GeneratorSetup(d, n);
    var stepCount := d.stepCount;
    var startTread, startLeftSideDown, startRightSideDown, startLeftSideUp, startRightSideUp, subMeshCount := BandOffsets(n, stepCount);
    if stepCount > 0 {
      GenerateBand(slots, subMeshOffset, 0, d, n, g, RiserBand);
      GenerateBand(slots, subMeshOffset, startTread, d, n, g, TreadBand);
      GenerateBand(slots, subMeshOffset, startLeftSideDown, d, n, g, LeftDownBand);
      GenerateBand(slots, subMeshOffset, startRightSideDown, d, n, g, RightDownBand);
      GenerateBand(slots, subMeshOffset, startLeftSideUp, d, n, g, LeftUpBand);
      GenerateBand(slots, subMeshOffset, startRightSideUp, d, n, g, RightUpBand);
    }
    return true;
  }

  /** Lines 19-32: sizes a fresh container to the predicted count and fills
      it. Fails, returning an empty container, when the prediction is zero,
      which covers a mismatched surface table. */
  method GenerateLinearStairs(d: StairsDefinition, totalSides: nat) returns (ok: bool, slots: array<BrushMesh>)
    ensures fresh(slots)
    ensures ok <==> SubMeshCount(d, d.leftSide, d.rightSide, totalSides) > 0
    ensures !ok ==> slots.Length == 0
    ensures ok ==> slots.Length == SubMeshCount(d, d.leftSide, d.rightSide, totalSides)
    ensures ok && d.stepCount == 0 ==> forall k :: 0 <= k < slots.Length ==> slots[k] == Empty
    ensures ok && d.stepCount > 0 ==>
      var n := Normalize(d, d.leftSide, d.rightSide);
      forall b :: 0 <= b < BandCount ==> BandHolds(slots, 0, d, n, GeneratorSetup(d, n), b)
    // with at least one step, no slot of the container is left empty
    ensures ok && d.stepCount > 0 ==> forall k :: 0 <= k < slots.Length ==> slots[k].Extruded?
  {
    var requiredSubMeshCount := SubMeshCount(d, d.leftSide, d.rightSide, totalSides);
    if requiredSubMeshCount == 0 {
      return false, new BrushMesh[0];
    }
    slots := new BrushMesh[requiredSubMeshCount](_ => Empty);
    ok := GenerateLinearStairsSubMeshes(slots, d, d.leftSide, d.rightSide, 0, totalSides);
    if d.stepCount > 0 {
      var n := Normalize(d, d.leftSide, d.rightSide);
      BandsCoverSlots(slots, d, n, GeneratorSetup(d, n));
    }
  }

  /** When every band holds its content and the container is exactly as long
      as the bands together, every slot holds a mesh. */
  lemma BandsCoverSlots(slots: array<BrushMesh>, d: StairsDefinition, n: Normalized, g: Setup)
    requires Coherent(n) && slots.Length == Sum(BandSizes(n, d.stepCount))
    requires forall b :: 0 <= b < BandCount ==> BandHolds(slots, 0, d, n, g, b)
    ensures forall k :: 0 <= k < slots.Length ==> slots[k].Extruded?
  {
    forall k | 0 <= k < slots.Length
      ensures slots[k].Extruded?
    {
      var b := BandOf(n, d.stepCount, k);
      BandStartStep(n, d.stepCount, b);
      var i := k - BandStart(n, d.stepCount, b);
      assert BandHolds(slots, 0, d, n, g, b);
      assert slots[0 + BandStart(n, d.stepCount, b) + i] == SlotContent(d, n, g, b, i);
    }
  }

  /** Every down-ramp quad and every up-ramp segment of a side wall stays
      behind the floor plane, the front bound of the stairs. */
  lemma RampsAboveFloor(d: StairsDefinition, n: Normalized, g: Setup, b: nat, i: nat)
    requires Coherent(n) && LeftDownBand <= b < BandCount
    requires b >= LeftUpBand ==> i < d.stepCount - 1
    ensures forall v :: v in SlotContent(d, n, g, b, i).vertices ==> v.z >= g.boundsMin.z
  {
    var left := b == LeftDownBand || b == LeftUpBand;
    var extraDepth := SideExtraDepth(d, n, g, left);
    if b < LeftUpBand {
      var w := DownSideWindow(d, g, left);
      BottomRampShape(d, d.stepCount, w.0, w.1, d.stepDepth - g.riserDepth, extraDepth, g.boundsMin.z, i);
    } else {
      var w := UpSideWindow(d, g, left);
      TopRampShape(d, d.sideHeight, w.0, w.1, extraDepth, g.boundsMin.z, n.riserType, i);
    }
  }
}
