# Linear staircase brush generator — a Dafny model

This project models the linear-staircase generator of the Chisel level editor's
brush-mesh factory (`BrushFactory.LinearStairs.cs`). From a stair definition,
the generator builds one extruded sub-mesh for each structural part of each
step:

- a riser;
- a tread;
- a down-ramp segment of each side wall below the steps;
- an up-ramp segment of each wall above the steps.

Each up wall also gets an end cap, and a top side panel when sideHeight exceeds 0.001.

The sub-meshes go into a flat slot array, split into six contiguous bands:
riser, tread, left down, right down, left up and right up.
`GetLinearStairsSubMeshCount` predicts the number of slots from the same
normalised configuration.

The model has five modules:

- `StairTypes` has the value types. The styles, `Vec3` over exact reals, the
  stair definition, and a slot that is `Empty` or holds the polygon and
  extrusion handed to `CreateExtrudedSubMesh`.
- `StairConfig` has the configuration normaliser, which the predictor and the
  generator share. It also computes the generator's derived values: sorted
  bounds, side and riser depths, step-depth offset and nosing widths.
- `StairLayout` covers the predictor, the band sizes and the running band
  offsets. It also holds the write order of every slot, as a sequence, and the
  end-cap defect.
- `StairPolygons` states the polygon of every step of every band as a function
  of the step number, and proves each one's shape.
- `StairGenerator` holds the imperative loops. They walk a min/max window down
  the stairs and write into an `array<BrushMesh>`. Each one is proved against
  the polygon functions. The two public entry points are proved against the
  layout.

## Model

| member | source | states |
|---|---|---|
| StairTypes.Max | Packages/com.chisel.core/Chisel/Core/BrushMeshFactory/LinearStairs/BrushFactory.LinearStairs.cs:328-330 | Mathf.Max: the result is at least both arguments and is one of them |
| StairConfig.EffectiveTreadHeight | Packages/com.chisel.core/Chisel/Core/BrushMeshFactory/LinearStairs/BrushFactory.LinearStairs.cs:47 | a tread thinner than the 0.001 epsilon becomes 0; otherwise it is kept; the result is at least epsilon exactly when the input is |
| StairConfig.EffectiveRiserType | Packages/com.chisel.core/Chisel/Core/BrushMeshFactory/LinearStairs/BrushFactory.LinearStairs.cs:48 | without a tread a thin riser becomes thick, and nothing else ever changes; a thin riser that survives always has a tread |
| StairConfig.SmoothSide | Packages/com.chisel.core/Chisel/Core/BrushMeshFactory/LinearStairs/BrushFactory.LinearStairs.cs:51-62 | under a smooth riser, a side is never Up or None; it keeps its up wall; a side with a down wall is unchanged |
| StairConfig.RemapSide | Packages/com.chisel.core/Chisel/Core/BrushMeshFactory/LinearStairs/BrushFactory.LinearStairs.cs:49-62 | a None riser turns a definition side of Up into DownAndUp and otherwise keeps the caller's side; a smooth riser applies the smooth remapping to the caller's side; any other riser keeps the caller's side; an up wall is never lost |
| StairConfig.Normalize | Packages/com.chisel.core/Chisel/Core/BrushMeshFactory/LinearStairs/BrushFactory.LinearStairs.cs:47-91 | every normalisation rule: the tread presence test, riser demotion exactly when a thin riser has no tread, None and Smooth side remapping and the caller's side kept in every other case, FillDown suppressing both down walls, the top side panel test, and flags that agree with the effective styles |
| StairConfig.SortPair | Packages/com.chisel.core/Chisel/Core/BrushMeshFactory/LinearStairs/BrushFactory.LinearStairs.cs:67 | the pair in ascending order, and a permutation of the inputs |
| StairConfig.OrderedBounds | Packages/com.chisel.core/Chisel/Core/BrushMeshFactory/LinearStairs/BrushFactory.LinearStairs.cs:64-69 | min is at most max on every axis; each axis is either kept or swapped, and kept when already ordered |
| StairConfig.GeneratorSetup | Packages/com.chisel.core/Chisel/Core/BrushMeshFactory/LinearStairs/BrushFactory.LinearStairs.cs:64-96 | sorted bounds; the side depth exactly on a side with a down wall; a riser depth only for thin and fill-down risers; a step-depth offset under epsilon is dropped and kept otherwise; the nosing widths follow the up walls and the top side panel |
| StairLayout.UpBandSize | Packages/com.chisel.core/Chisel/Core/BrushMeshFactory/LinearStairs/BrushFactory.LinearStairs.cs:102-103 | an up band reserves stepCount + 1 slots with a top side panel and exactly stepCount without one |
| StairLayout.BandSizes | Packages/com.chisel.core/Chisel/Core/BrushMeshFactory/LinearStairs/BrushFactory.LinearStairs.cs:98-103 | six sizes: 0 for an absent part, stepCount for a present riser, tread or down band, and the up-band size for a present up band |
| StairLayout.SubMeshCount | Packages/com.chisel.core/Chisel/Core/BrushMeshFactory/LinearStairs/BrushFactory.LinearStairs.cs:413-467 | 0 when the surface table does not have TotalSides entries; otherwise the sum of the band sizes of the normalised configuration |
| StairLayout.PredictorTerms | Packages/com.chisel.core/Chisel/Core/BrushMeshFactory/LinearStairs/BrushFactory.LinearStairs.cs:458-464 | the predictor's six conditional terms add up to the band total |
| StairLayout.ZeroCount | Packages/com.chisel.core/Chisel/Core/BrushMeshFactory/LinearStairs/BrushFactory.LinearStairs.cs:413-467 | with a matching table and at least one step, the count is 0 exactly when no part is present; with no step, it counts only the top side panels of the up walls |
| StairLayout.BandTotal | Packages/com.chisel.core/Chisel/Core/BrushMeshFactory/LinearStairs/BrushFactory.LinearStairs.cs:458-464 | both directions of when the band total is 0 |
| StairLayout.BandStart | Packages/com.chisel.core/Chisel/Core/BrushMeshFactory/LinearStairs/BrushFactory.LinearStairs.cs:98-103 | a band's first slot is the prefix sum of the sizes before it: 0 for the first band, and the total after the last |
| StairLayout.BandStartStep | Packages/com.chisel.core/Chisel/Core/BrushMeshFactory/LinearStairs/BrushFactory.LinearStairs.cs:99-103 | each band starts where the previous one ends |
| StairLayout.BandStartValues | Packages/com.chisel.core/Chisel/Core/BrushMeshFactory/LinearStairs/BrushFactory.LinearStairs.cs:98-103 | each band start is the previous start plus the previous band's conditional size, as the running offsets compute it |
| StairLayout.BandOffsets | Packages/com.chisel.core/Chisel/Core/BrushMeshFactory/LinearStairs/BrushFactory.LinearStairs.cs:98-103 | the running offsets are the prefix sums of the band sizes, and the final count is the predictor's count |
| StairLayout.BandStartsAscend | Packages/com.chisel.core/Chisel/Core/BrushMeshFactory/LinearStairs/BrushFactory.LinearStairs.cs:98-103 | band starts never decrease |
| StairLayout.BandOf | Packages/com.chisel.core/Chisel/Core/BrushMeshFactory/LinearStairs/BrushFactory.LinearStairs.cs:98-103 | every slot below the count lies in some band |
| StairLayout.UpBandCap | Packages/com.chisel.core/Chisel/Core/BrushMeshFactory/LinearStairs/BrushFactory.LinearStairs.cs:263 | corrected cap: it lies inside its band, after the ramps and the top side panel, and at start + stepCount when there is a top side panel |
| StairLayout.UpBandCapAsWritten | Packages/com.chisel.core/Chisel/Core/BrushMeshFactory/LinearStairs/BrushFactory.LinearStairs.cs:263 | the cap index as written: the corrected cap when there is a top side panel, one past the band (start + stepCount) when there is none |
| StairLayout.UpBandWritesFill | Packages/com.chisel.core/Chisel/Core/BrushMeshFactory/LinearStairs/BrushFactory.LinearStairs.cs:226-265 | with the corrected cap, an up band writes exactly its own slots, in ascending order |
| StairLayout.BandWrites | Packages/com.chisel.core/Chisel/Core/BrushMeshFactory/LinearStairs/BrushFactory.LinearStairs.cs:106-317 | the slot indices one band writes, in order, as many as the band reserves, with the cap as written or corrected |
| StairLayout.WriteOrder | Packages/com.chisel.core/Chisel/Core/BrushMeshFactory/LinearStairs/BrushFactory.LinearStairs.cs:106-317 | all slot indices written, in order: one per counted slot with at least one step, none without |
| StairLayout.BandWritesFill | Packages/com.chisel.core/Chisel/Core/BrushMeshFactory/LinearStairs/BrushFactory.LinearStairs.cs:106-317 | each band writes exactly the slots the layout reserves for it, in ascending order |
| StairLayout.WriteOrderFillsCount | Packages/com.chisel.core/Chisel/Core/BrushMeshFactory/LinearStairs/BrushFactory.LinearStairs.cs:98-317 | with at least one step, the index sequence of the writes (WriteOrder, built from the band blocks) is 0 .. count - 1 in order, each index exactly once, where count sized the container; the methods are tied to this only through their final state (BandHolds, frames), not write by write |
| StairLayout.AsWrittenCapLeavesBand | Packages/com.chisel.core/Chisel/Core/BrushMeshFactory/LinearStairs/BrushFactory.LinearStairs.cs:263-313 | as written and without a top side panel: the left cap lands on the right up band's first slot; the right cap lands on slot count, past the container |
| StairLayout.AsWrittenCapSkipsSlot | Packages/com.chisel.core/Chisel/Core/BrushMeshFactory/LinearStairs/BrushFactory.LinearStairs.cs:226-265 | as written and without a top side panel, the left up band's last reserved slot is never written |
| StairLayout.AsWrittenCounterexample | Packages/com.chisel.core/Chisel/Core/BrushMeshFactory/LinearStairs/BrushFactory.LinearStairs.cs:263-313 | a concrete two-step staircase: the count is 8, but the as-written order is [0,1,2,3,4,6,6,8] |
| StairLayout.TwoStepUpWallsOrder | Packages/com.chisel.core/Chisel/Core/BrushMeshFactory/LinearStairs/BrushFactory.LinearStairs.cs:98-317 | any two-step staircase with risers, treads, both up walls, no down wall and no top side panel is sized for 8 slots, and its as-written writes are [0,1,2,3,4,6,6,8] |
| StairPolygons.ShiftedClosedForm | Packages/com.chisel.core/Chisel/Core/BrushMeshFactory/LinearStairs/BrushFactory.LinearStairs.cs:163-167 | after i steps, a window corner is i step heights lower and i step depths further back |
| StairPolygons.RiserWindow | Packages/com.chisel.core/Chisel/Core/BrushMeshFactory/LinearStairs/BrushFactory.LinearStairs.cs:110-126 | the first riser's window: it sits under the tread, spans the width less the up walls, ends at the first step's depth, is riserDepth deep when thin, starts at the front bound when fill-down, and starts at the step-depth offset less offsetZ when thick |
| StairPolygons.RiserExtrusion | Packages/com.chisel.core/Chisel/Core/BrushMeshFactory/LinearStairs/BrushFactory.LinearStairs.cs:127 | a riser is extruded along X across the stair width less the up walls |
| StairPolygons.RiserPolygon | Packages/com.chisel.core/Chisel/Core/BrushMeshFactory/LinearStairs/BrushFactory.LinearStairs.cs:140-157 | a riser is a quad; its shape is stated by RiserShape, RiserDepth and RiserFront |
| StairPolygons.RiserShape | Packages/com.chisel.core/Chisel/Core/BrushMeshFactory/LinearStairs/BrushFactory.LinearStairs.cs:128-168 | riser i lies in one X plane with horizontal edges; its top is i step heights below the tread's underside; it is one step high, the last corrected by tread height less plateau height |
| StairPolygons.RiserDepth | Packages/com.chisel.core/Chisel/Core/BrushMeshFactory/LinearStairs/BrushFactory.LinearStairs.cs:128-168 | riser i's back face is vertical at i + 1 step depths past the offset; its front face is vertical, except that a smooth riser after the first leans back one step depth |
| StairPolygons.RiserFront | Packages/com.chisel.core/Chisel/Core/BrushMeshFactory/LinearStairs/BrushFactory.LinearStairs.cs:113-134 | a thick or smooth riser after the first starts at the previous riser's back face, and the first reaches forward by the step-depth offset; a thin riser is riserDepth deep at every step; a fill-down riser always starts at the front bound |
| StairPolygons.TreadWindow | Packages/com.chisel.core/Chisel/Core/BrushMeshFactory/LinearStairs/BrushFactory.LinearStairs.cs:172-173 | the top tread is treadHeight thick under the top bound and reaches from the front bound to one step depth plus the nosing |
| StairPolygons.TreadPolygon | Packages/com.chisel.core/Chisel/Core/BrushMeshFactory/LinearStairs/BrushFactory.LinearStairs.cs:174-191 | a tread is a quad; its shape is stated by TreadShape |
| StairPolygons.TreadShape | Packages/com.chisel.core/Chisel/Core/BrushMeshFactory/LinearStairs/BrushFactory.LinearStairs.cs:170-195 | tread i is treadHeight thick, its top is i step heights down, and its back is at i + 1 step depths plus the nosing; later treads are one step depth plus the nosing deep; it starts at the right nosing overhang |
| StairPolygons.RiserUnderTread | Packages/com.chisel.core/Chisel/Core/BrushMeshFactory/LinearStairs/BrushFactory.LinearStairs.cs:108-195 | with a tread, riser i's top meets tread i's underside, and the tread overhangs the riser's back by the nosing depth |
| StairPolygons.TreadExtrusion | Packages/com.chisel.core/Chisel/Core/BrushMeshFactory/LinearStairs/BrushFactory.LinearStairs.cs:176-188 | a tread is extruded across the width plus both nosing widths; the top tread uses the top nosing widths |
| StairPolygons.DownSideWindow | Packages/com.chisel.core/Chisel/Core/BrushMeshFactory/LinearStairs/BrushFactory.LinearStairs.cs:196-217 | a down wall is one side width wide and flush with its bound; it is one step high under the tread and one step deep |
| StairPolygons.UpSideWindow | Packages/com.chisel.core/Chisel/Core/BrushMeshFactory/LinearStairs/BrushFactory.LinearStairs.cs:218-274 | an up wall's window is the down wall's, one step depth further back |
| StairPolygons.SideExtraDepth | Packages/com.chisel.core/Chisel/Core/BrushMeshFactory/LinearStairs/BrushFactory.LinearStairs.cs:202-223 | how far a side wall reaches under the riser: the step depth for a thick riser, the riser depth for a thin or fill-down one, plus the side depth where the side has a down wall |
| StairPolygons.BottomRampPolygon | Packages/com.chisel.core/Chisel/Core/BrushMeshFactory/LinearStairs/BrushFactory.LinearStairs.cs:325-353 | each down-ramp segment is a quad |
| StairPolygons.BottomRampShape | Packages/com.chisel.core/Chisel/Core/BrushMeshFactory/LinearStairs/BrushFactory.LinearStairs.cs:323-364 | down-ramp quad i lies in the window's X plane and never in front of maxDepth; its edges sit at the window shifted i steps, and the last one is raised by the tread height |
| StairPolygons.BottomRampDepths | Packages/com.chisel.core/Chisel/Core/BrushMeshFactory/LinearStairs/BrushFactory.LinearStairs.cs:328-352 | down-ramp quad i reaches, clamped to maxDepth, riserDepth behind the window front shifted i steps at its vertical edge, and extraDepth in front of the shifted window front and back at its other two corners |
| StairPolygons.BottomRampRepeats | Packages/com.chisel.core/Chisel/Core/BrushMeshFactory/LinearStairs/BrushFactory.LinearStairs.cs:359-362 | where no depth is clamped, segment i + 1 is segment i moved one step down and back |
| StairPolygons.RampQuadStep | Packages/com.chisel.core/Chisel/Core/BrushMeshFactory/LinearStairs/BrushFactory.LinearStairs.cs:328-344 | an unclamped quad commutes with a one-step move |
| StairPolygons.TopRampPolygon | Packages/com.chisel.core/Chisel/Core/BrushMeshFactory/LinearStairs/BrushFactory.LinearStairs.cs:374-400 | each up-ramp segment is a pentagon |
| StairPolygons.TopRampShape | Packages/com.chisel.core/Chisel/Core/BrushMeshFactory/LinearStairs/BrushFactory.LinearStairs.cs:367-411 | up-ramp pentagon i lies in the window's X plane and never in front of maxDepth; the first segment, and every fill-down segment, drops to the floor plane; its top runs sideHeight + treadHeight above the shifted window |
| StairPolygons.TopPanelPolygon | Packages/com.chisel.core/Chisel/Core/BrushMeshFactory/LinearStairs/BrushFactory.LinearStairs.cs:228-240 | the top side panel spans from the front bound to the up window; its top edge (vertices 0 and 1) lies sideHeight + treadHeight above the window top and its bottom edge (vertices 2 and 3) at the window top |
| StairPolygons.EndCapPolygon | Packages/com.chisel.core/Chisel/Core/BrushMeshFactory/LinearStairs/BrushFactory.LinearStairs.cs:241-266 | the end cap is one step high on the bottom bound and flush with the back bound; it reaches the front bound under a fill-down riser and is extraDepth deep otherwise |
| StairGenerator.SlotContent | Packages/com.chisel.core/Chisel/Core/BrushMeshFactory/LinearStairs/BrushFactory.LinearStairs.cs:106-317 | every slot of every band holds an extruded mesh |
| StairPolygons.TopRampDepths | Packages/com.chisel.core/Chisel/Core/BrushMeshFactory/LinearStairs/BrushFactory.LinearStairs.cs:376-400 | up-ramp pentagon i reaches, clamped to maxDepth, the shifted window front at its top back corner and the shifted window back along its bottom and diagonal foot; its leading edge lies on maxDepth for the first segment and under a fill-down riser, otherwise extraDepth in front of the top back corner |
| StairGenerator.GenerateBottomRamp | Packages/com.chisel.core/Chisel/Core/BrushMeshFactory/LinearStairs/BrushFactory.LinearStairs.cs:323-364 | slot startIndex + i holds down-ramp quad i for every i < stepCount; nothing else changes |
| StairGenerator.GenerateTopRamp | Packages/com.chisel.core/Chisel/Core/BrushMeshFactory/LinearStairs/BrushFactory.LinearStairs.cs:367-411 | slot startIndex + i holds up-ramp pentagon i for every i < stepCount; nothing else changes |
| StairGenerator.RiserStart | Packages/com.chisel.core/Chisel/Core/BrushMeshFactory/LinearStairs/BrushFactory.LinearStairs.cs:110-126 | the imperative window set-up yields the first riser's window |
| StairGenerator.GenerateRisers | Packages/com.chisel.core/Chisel/Core/BrushMeshFactory/LinearStairs/BrushFactory.LinearStairs.cs:108-169 | slot start + i holds riser i with the riser extrusion for every step; nothing else changes |
| StairGenerator.RiserLowAt | Packages/com.chisel.core/Chisel/Core/BrushMeshFactory/LinearStairs/BrushFactory.LinearStairs.cs:130-138 | the loop's corrected min corner is the riser's front bottom corner |
| StairGenerator.GenerateTreads | Packages/com.chisel.core/Chisel/Core/BrushMeshFactory/LinearStairs/BrushFactory.LinearStairs.cs:170-195 | slot start + i holds tread i with its own extrusion for every step; nothing else changes |
| StairGenerator.GenerateUpSide | Packages/com.chisel.core/Chisel/Core/BrushMeshFactory/LinearStairs/BrushFactory.LinearStairs.cs:218-267 | an up wall fills its whole band (ramps, panel, cap in the last slot) and nothing outside it |
| StairGenerator.WriteBand | Packages/com.chisel.core/Chisel/Core/BrushMeshFactory/LinearStairs/BrushFactory.LinearStairs.cs:106-317 | one band's block writes that band's content and leaves every other slot alone |
| StairGenerator.GenerateBand | Packages/com.chisel.core/Chisel/Core/BrushMeshFactory/LinearStairs/BrushFactory.LinearStairs.cs:106-317 | writing band b keeps the bands before it intact and stays within the staircase's slot range |
| StairGenerator.GenerateLinearStairsSubMeshes | Packages/com.chisel.core/Chisel/Core/BrushMeshFactory/LinearStairs/BrushFactory.LinearStairs.cs:34-320 | returns true exactly when the surface table matches; on a mismatch or with no step, nothing is written; otherwise every band holds its content, with the up-wall end caps at the corrected index, and nothing outside [offset, offset + count) changes |
| StairGenerator.GenerateLinearStairs | Packages/com.chisel.core/Chisel/Core/BrushMeshFactory/LinearStairs/BrushFactory.LinearStairs.cs:19-32 | succeeds exactly when the predicted count is positive, and otherwise returns an empty container; the container then has exactly that many slots, every band holds its content, and with a step no slot is empty |
| StairGenerator.BandsCoverSlots | Packages/com.chisel.core/Chisel/Core/BrushMeshFactory/LinearStairs/BrushFactory.LinearStairs.cs:23-31 | when every band holds and the container is as long as the bands, every slot holds a mesh |
| StairGenerator.RampsAboveFloor | Packages/com.chisel.core/Chisel/Core/BrushMeshFactory/LinearStairs/BrushFactory.LinearStairs.cs:323-411 | every down-ramp quad and every up-ramp segment of a side wall stays behind the stair's front bound |

## Left out

- Surfaces and winding are not modelled. `CreateExtrudedSubMesh` is not part
  of this model. A slot records only the polygon and the extrusion vector, not
  the per-face surface indices or the surface definition.
- `ChiselLinearStairsDefinition.Validate` is not part of this model. The
  definition is taken as given.
- `ChiselBrushContainer.EnsureSize` is not part of this model.
  `GenerateLinearStairs` allocates a fresh array of the required size with
  every slot empty. Reuse of existing meshes and aliasing are not captured.
  On a zero count the source leaves the caller's container untouched; the
  model returns an empty container instead.
- The `StepCount` and `StepDepthOffset` properties of the definition are not
  part of this model. They are fields of the definition. `StepCount` is a
  `nat`, so a negative step count is not modelled.
- The `SurfaceSides.TotalSides` enumeration is not part of this model. Its
  value is a parameter `totalSides`, and the surface table is reduced to its
  length.
- Integer overflow is not modelled. The band counts and offsets (lines 98-103
  and 458-464) are 32-bit `int` in C#; here they are unbounded, so a wrap-around
  on huge step counts is not captured.
- Floating point is not modelled. Coordinates are exact reals, so rounding in
  `float` arithmetic and `Mathf.Max` on NaN are not captured.
- `GenerateBottomRamp` does not model its `riserType` parameter, because the
  source never reads it. The `surfaceDefinition` parameters of both ramp
  helpers are left out for the same reason as surfaces in general.
- StairGenerator.GenerateUpSide does not write the end cap where lines 263 and
  313 write it. It writes it at the corrected index; see Findings. The
  as-written index is kept in `StairLayout.UpBandCapAsWritten`, whose
  consequences are proved in `StairLayout`.
- StairGenerator.GenerateLinearStairsSubMeshes promises that nothing outside
  [offset, offset + count) changes only with the corrected end caps. As
  written, the last up-wall cap can land on slot offset + count, as
  `StairLayout.AsWrittenCounterexample` shows.
- StairGenerator.GenerateLinearStairsSubMeshes has three behaviours worth
  noting:
  - with no step but an up wall and a top side panel, the predictor returns a
    positive count and nothing is written;
  - `GenerateLinearStairs` also returns false whenever that count is 0, not
    only on a mismatched surface table;
  - the None-riser side rule (lines 49-50) tests the definition's own side but
    falls back to the side passed in by the caller.

## Findings

| source | as written | input that shows it | evidently intended | confidence | as-written member | corrected member |
|---|---|---|---|---|---|---|
| Packages/com.chisel.core/Chisel/Core/BrushMeshFactory/LinearStairs/BrushFactory.LinearStairs.cs:263 (and 313) | the up wall's end cap goes to `start + stepCount`, but without a top side panel the band reserves only `stepCount` slots (line 102-103) | two steps, thick riser, tread, both sides Up, sideHeight 0: the count is 8; the left cap goes to slot 6, where the right band's first ramp (line 276) then overwrites it, so the left wall loses its cap; the right cap writes slot 8, past the container; slots 5 and 7 are never written, so they keep whatever they held before (in the model's fresh container, they stay empty) | the cap goes to the band's last slot, `start + stepCount - 1 + (haveTopSide ? 1 : 0)` | medium (not executed) | StairLayout.AsWrittenCounterexample | StairLayout.WriteOrderFillsCount |
