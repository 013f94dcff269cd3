/** The slot layout of one staircase: the output slot range is split into six
    contiguous bands, one per structural part, whose sizes both the sub-mesh
    count predictor (GetLinearStairsSubMeshCount) and the generator's running
    offsets are built from. */
module StairLayout {
  import opened StairTypes
  import opened StairConfig

  /** Band numbers, in the order in which the bands follow each other. */
  const RiserBand: nat := 0
  const TreadBand: nat := 1
  const LeftDownBand: nat := 2
  const RightDownBand: nat := 3
  const LeftUpBand: nat := 4
  const RightUpBand: nat := 5
  const BandCount: nat := 6

  /** Whether the configuration has the structural part of band `b`. */
  predicate BandPresent(n: Normalized, b: nat)
  {
    if b == RiserBand then n.haveRiser
    else if b == TreadBand then n.haveTread
    else if b == LeftDownBand then n.haveLeftSideDown
    else if b == RightDownBand then n.haveRightSideDown
    else if b == LeftUpBand then n.haveLeftSideUp
    else b == RightUpBand && n.haveRightSideUp
  }

  /** Slots reserved for one up band: stepCount - 1 ramp segments, the top side
      panel when there is one, and the end cap. */
  function UpBandSize(stepCount: nat, haveTopSide: bool): (size: nat)
    ensures stepCount > 0 ==> size >= stepCount
    ensures size == stepCount + 1 <==> haveTopSide
    ensures !haveTopSide ==> size == stepCount
  {
    (stepCount - 1) + (if haveTopSide then 1 else 0) + 1
  }

  /** The size of every band, in layout order; an absent band has size 0. */
  function BandSizes(n: Normalized, stepCount: nat): (sizes: seq<nat>)
    ensures |sizes| == BandCount
    ensures forall b :: 0 <= b < BandCount && !BandPresent(n, b) ==> sizes[b] == 0
    ensures forall b :: 0 <= b < LeftUpBand && BandPresent(n, b) ==> sizes[b] == stepCount
    ensures forall b :: LeftUpBand <= b < BandCount && BandPresent(n, b) ==> sizes[b] == UpBandSize(stepCount, n.haveTopSide)
  {
    [ if n.haveRiser then stepCount else 0,
      if n.haveTread then stepCount else 0,
      if n.haveLeftSideDown then stepCount else 0,
      if n.haveRightSideDown then stepCount else 0,
      if n.haveLeftSideUp then UpBandSize(stepCount, n.haveTopSide) else 0,
      if n.haveRightSideUp then UpBandSize(stepCount, n.haveTopSide) else 0 ]
  }

  function Sum(s: seq<int>): int
  {
    if s == [] then 0 else s[0] + Sum(s[1..])
  }

  lemma {:induction false} SumAppend(a: seq<int>, b: seq<int>)
    ensures Sum(a + b) == Sum(a) + Sum(b)
  {
    if a == [] {
      assert a + b == b;
    } else {
      assert (a + b)[1..] == a[1..] + b;
      SumAppend(a[1..], b);
    }
  }

  /** A sum of non-negative terms is at least each of its prefixes' sums. */
  lemma {:induction false} SumPrefixBound(s: seq<nat>, k: nat)
    requires k <= |s|
    ensures 0 <= Sum(s[..k]) <= Sum(s)
  {
    assert s == s[..k] + s[k..];
    SumAppend(s[..k], s[k..]);
    NonNegativeSum(s[..k]);
    NonNegativeSum(s[k..]);
  }

  lemma {:induction false} NonNegativeSum(s: seq<nat>)
    ensures Sum(s) >= 0
  {
    if s != [] {
      NonNegativeSum(s[1..]);
    }
  }

  /** GetLinearStairsSubMeshCount: the number of slots the generator needs,
      or 0 when the surface table does not have exactly totalSides entries. */
  function SubMeshCount(d: StairsDefinition, leftSideDefinition: SideType, rightSideDefinition: SideType, totalSides: nat): (count: nat)
    ensures d.surfaceCount != totalSides ==> count == 0
    ensures d.surfaceCount == totalSides ==> count == Sum(BandSizes(Normalize(d, leftSideDefinition, rightSideDefinition), d.stepCount))
  {
    if d.surfaceCount != totalSides then 0
    else
      var n := Normalize(d, leftSideDefinition, rightSideDefinition);
      var stepCount := d.stepCount;
      var count :=
        (if n.haveRiser then stepCount else 0)
        + (if n.haveTread then stepCount else 0)
        + (if n.haveLeftSideDown then stepCount else 0)
        + (if n.haveRightSideDown then stepCount else 0)
        + (if n.haveLeftSideUp then (stepCount - 1) + (if n.haveTopSide then 1 else 0) + 1 else 0)
        + (if n.haveRightSideUp then (stepCount - 1) + (if n.haveTopSide then 1 else 0) + 1 else 0);
      PredictorTerms(n, stepCount);
      count
  }

  /** The predictor's six terms add up to the band total. */
  lemma PredictorTerms(n: Normalized, stepCount: nat)
    ensures (if n.haveRiser then stepCount else 0)
          + (if n.haveTread then stepCount else 0)
          + (if n.haveLeftSideDown then stepCount else 0)
          + (if n.haveRightSideDown then stepCount else 0)
          + (if n.haveLeftSideUp then (stepCount - 1) + (if n.haveTopSide then 1 else 0) + 1 else 0)
          + (if n.haveRightSideUp then (stepCount - 1) + (if n.haveTopSide then 1 else 0) + 1 else 0)
         == Sum(BandSizes(n, stepCount))
  {
    SumOfBands(n, stepCount);
  }

  /** When the predictor returns 0 for a matching surface table: with at least
      one step, exactly when no part is present; with no step, only the top side
      panels of the up walls are counted, so the count need not be 0. */
  lemma ZeroCount(d: StairsDefinition, leftSideDefinition: SideType, rightSideDefinition: SideType, totalSides: nat)
    requires d.surfaceCount == totalSides
    ensures var n := Normalize(d, leftSideDefinition, rightSideDefinition);
      d.stepCount > 0 ==>
        (SubMeshCount(d, leftSideDefinition, rightSideDefinition, totalSides) == 0 <==> forall b :: 0 <= b < BandCount ==> !BandPresent(n, b))
    ensures var n := Normalize(d, leftSideDefinition, rightSideDefinition);
      d.stepCount == 0 ==>
        SubMeshCount(d, leftSideDefinition, rightSideDefinition, totalSides)
        == (if n.haveTopSide && n.haveLeftSideUp then 1 else 0) + (if n.haveTopSide && n.haveRightSideUp then 1 else 0)
  {
    BandTotal(Normalize(d, leftSideDefinition, rightSideDefinition), d.stepCount);
  }

  /** When the band total is zero. */
  lemma BandTotal(n: Normalized, stepCount: nat)
    ensures stepCount > 0 ==>
      (Sum(BandSizes(n, stepCount)) == 0 <==> forall b :: 0 <= b < BandCount ==> !BandPresent(n, b))
    ensures stepCount == 0 ==>
      Sum(BandSizes(n, stepCount)) == (if n.haveTopSide && n.haveLeftSideUp then 1 else 0) + (if n.haveTopSide && n.haveRightSideUp then 1 else 0)
  {
    SumOfBands(n, stepCount);
    var s := BandSizes(n, stepCount);
    if stepCount > 0 && Sum(s) == 0 {
      forall b | 0 <= b < BandCount ensures !BandPresent(n, b) {
        assert s[b] == 0;
      }
    }
  }

  /** The sum of the band sizes, written out term by term. */
  lemma SumOfBands(n: Normalized, stepCount: nat)
    ensures var s := BandSizes(n, stepCount);
      Sum(s) == s[0] + s[1] + s[2] + s[3] + s[4] + s[5]
  {
    var s := BandSizes(n, stepCount);
    assert s[5..][1..] == [];
    assert Sum(s[5..]) == s[5];
    assert s[4..][1..] == s[5..];
    assert Sum(s[4..]) == s[4] + s[5];
    assert s[3..][1..] == s[4..];
    assert Sum(s[3..]) == s[3] + s[4] + s[5];
    assert s[2..][1..] == s[3..];
    assert Sum(s[2..]) == s[2] + s[3] + s[4] + s[5];
    assert s[1..][1..] == s[2..];
    assert Sum(s[1..]) == s[1] + s[2] + s[3] + s[4] + s[5];
  }

  /** The first slot of band `b`, relative to the container offset: the sum of
      the sizes of the bands before it. */
  function BandStart(n: Normalized, stepCount: nat, b: nat): (start: nat)
    requires b <= BandCount
    ensures start <= Sum(BandSizes(n, stepCount))
    ensures b == 0 ==> start == 0
    ensures b == BandCount ==> start == Sum(BandSizes(n, stepCount))
  {
    var sizes := BandSizes(n, stepCount);
    SumPrefixBound(sizes, b);
    assert sizes[..BandCount] == sizes;
    Sum(sizes[..b])
  }

  /** Each band starts where the band before it ends. */
  lemma BandStartStep(n: Normalized, stepCount: nat, b: nat)
    requires b < BandCount
    ensures BandStart(n, stepCount, b + 1) == BandStart(n, stepCount, b) + BandSizes(n, stepCount)[b]
  {
    var sizes := BandSizes(n, stepCount);
    assert sizes[..b + 1] == sizes[..b] + [sizes[b]];
    SumAppend(sizes[..b], [sizes[b]]);
  }

  /** Each band start is the one before it plus that band's size. */
  lemma BandStartValues(n: Normalized, stepCount: nat)
    ensures var up := UpBandSize(stepCount, n.haveTopSide);
      && BandStart(n, stepCount, TreadBand) == (if n.haveRiser then stepCount else 0)
      && BandStart(n, stepCount, LeftDownBand) == BandStart(n, stepCount, TreadBand) + (if n.haveTread then stepCount else 0)
      && BandStart(n, stepCount, RightDownBand) == BandStart(n, stepCount, LeftDownBand) + (if n.haveLeftSideDown then stepCount else 0)
      && BandStart(n, stepCount, LeftUpBand) == BandStart(n, stepCount, RightDownBand) + (if n.haveRightSideDown then stepCount else 0)
      && BandStart(n, stepCount, RightUpBand) == BandStart(n, stepCount, LeftUpBand) + (if n.haveLeftSideUp then up else 0)
      && Sum(BandSizes(n, stepCount)) == BandStart(n, stepCount, RightUpBand) + (if n.haveRightSideUp then up else 0)
  {
    BandStartStep(n, stepCount, RiserBand);
    BandStartStep(n, stepCount, TreadBand);
    BandStartStep(n, stepCount, LeftDownBand);
    BandStartStep(n, stepCount, RightDownBand);
    BandStartStep(n, stepCount, LeftUpBand);
    BandStartStep(n, stepCount, RightUpBand);
  }

  /** Lines 98-103: the generator's running band offsets. Each start is the
      prefix sum of the band sizes, and the final count is their total, which
      is what the predictor returns for a matching surface table. */
  method BandOffsets(n: Normalized, stepCount: nat)
    returns (startTread: nat, startLeftSideDown: nat, startRightSideDown: nat,
             startLeftSideUp: nat, startRightSideUp: nat, subMeshCount: nat)
    ensures startTread == BandStart(n, stepCount, TreadBand)
    ensures startLeftSideDown == BandStart(n, stepCount, LeftDownBand)
    ensures startRightSideDown == BandStart(n, stepCount, RightDownBand)
    ensures startLeftSideUp == BandStart(n, stepCount, LeftUpBand)
    ensures startRightSideUp == BandStart(n, stepCount, RightUpBand)
    ensures subMeshCount == Sum(BandSizes(n, stepCount))
  {
    BandStartValues(n, stepCount);
    var count: nat := 0;
    if n.haveRiser { count := stepCount; }
    startTread := count;
    if n.haveTread { count := count + stepCount; }
    startLeftSideDown := count;
    if n.haveLeftSideDown { count := count + stepCount; }
    startRightSideDown := count;
    if n.haveRightSideDown { count := count + stepCount; }
    startLeftSideUp := count;
    if n.haveLeftSideUp { count := count + (stepCount - 1) + (if n.haveTopSide then 1 else 0) + 1; }
    startRightSideUp := count;
    if n.haveRightSideUp { count := count + (stepCount - 1) + (if n.haveTopSide then 1 else 0) + 1; }
    subMeshCount := count;
  }

  // ---------------------------------------------------------------------
  // Which slots the generator writes, in the order it writes them

  /** The slots lo, lo + 1, ..., hi - 1, in ascending order. */
  function Range(lo: int, hi: int): (r: seq<int>)
    decreases hi - lo
    ensures |r| == if lo <= hi then hi - lo else 0
    ensures forall i :: 0 <= i < |r| ==> r[i] == lo + i
  {
    if lo >= hi then [] else [lo] + Range(lo + 1, hi)
  }

  lemma RangeAppend(a: int, b: int, c: int)
    requires a <= b <= c
    ensures Range(a, b) + Range(b, c) == Range(a, c)
  {
    var r := Range(a, b) + Range(b, c);
    assert forall i :: 0 <= i < |r| ==> r[i] == Range(a, c)[i];
  }

  lemma RangeMembers(lo: int, hi: int)
    ensures forall x :: x in Range(lo, hi) <==> lo <= x < hi
  {
    var r := Range(lo, hi);
    forall x | lo <= x < hi ensures x in r {
      assert r[x - lo] == x;
    }
  }

  /** Where the end cap of an up band is meant to go: the band's last slot. */
  function UpBandCap(start: int, stepCount: nat, haveTopSide: bool): (cap: int)
    requires stepCount > 0
    ensures start + stepCount - 1 <= cap < start + UpBandSize(stepCount, haveTopSide)
    ensures haveTopSide ==> cap == start + stepCount
  {
    start + UpBandSize(stepCount, haveTopSide) - 1
  }

  /** Lines 263 and 313: where the end cap of an up band is written. */
  function UpBandCapAsWritten(start: int, stepCount: nat): (cap: int)
    // right with a top side panel, one past the band without one
    ensures stepCount > 0 ==> cap == UpBandCap(start, stepCount, true)
    ensures cap == start + UpBandSize(stepCount, false)
  {
    start + stepCount
  }

  /** The slots one up band writes, in order: its ramp segments, its top side
      panel when there is one, and its end cap at `cap`. */
  function UpBandWrites(start: int, stepCount: nat, haveTopSide: bool, cap: int): seq<int>
  {
    Range(start, start + stepCount - 1)
    + (if haveTopSide then [start + stepCount - 1] else [])
    + [cap]
  }

  /** With the cap at the band's last slot, an up band writes exactly its own
      slots, in ascending order. */
  lemma UpBandWritesFill(start: int, stepCount: nat, haveTopSide: bool)
    requires stepCount > 0
    ensures UpBandWrites(start, stepCount, haveTopSide, UpBandCap(start, stepCount, haveTopSide))
         == Range(start, start + UpBandSize(stepCount, haveTopSide))
  {
    var w := UpBandWrites(start, stepCount, haveTopSide, UpBandCap(start, stepCount, haveTopSide));
    var r := Range(start, start + UpBandSize(stepCount, haveTopSide));
    assert forall i :: 0 <= i < |w| ==> w[i] == r[i];
  }

  /** The slots one band writes: one per step for the riser, tread and down
      bands, the up-band pattern with the end cap placed by `capAsWritten`'s
      choice for the two up bands. */
  function BandWrites(n: Normalized, stepCount: nat, b: nat, capAsWritten: bool): (w: seq<int>)
    requires 0 < stepCount && b < BandCount
    // as many writes as the band has slots, wherever the cap goes
    ensures |w| == BandSizes(n, stepCount)[b]
  {
    var start := BandStart(n, stepCount, b);
    if !BandPresent(n, b) then []
    else if b < LeftUpBand then Range(start, start + stepCount)
    else if capAsWritten then UpBandWrites(start, stepCount, n.haveTopSide, UpBandCapAsWritten(start, stepCount))
    else UpBandWrites(start, stepCount, n.haveTopSide, UpBandCap(start, stepCount, n.haveTopSide))
  }

  /** Every slot the generator writes, relative to the container offset, in the
      order it writes them; nothing is written when there is no step. */
  function WriteOrder(n: Normalized, stepCount: nat, capAsWritten: bool): (w: seq<int>)
    // one write per slot the predictor counts, wherever the cap goes
    ensures stepCount > 0 ==> |w| == Sum(BandSizes(n, stepCount))
    ensures stepCount == 0 ==> w == []
  {
    if stepCount == 0 then []
    else
      SumOfBands(n, stepCount);
      BandWrites(n, stepCount, RiserBand, capAsWritten)
      + BandWrites(n, stepCount, TreadBand, capAsWritten)
      + BandWrites(n, stepCount, LeftDownBand, capAsWritten)
      + BandWrites(n, stepCount, RightDownBand, capAsWritten)
      + BandWrites(n, stepCount, LeftUpBand, capAsWritten)
      + BandWrites(n, stepCount, RightUpBand, capAsWritten)
  }

  /** With the cap at the band's last slot, band `b` writes exactly the slots
      the layout reserves for it, in ascending order. */
  lemma BandWritesFill(n: Normalized, stepCount: nat, b: nat)
    requires 0 < stepCount && b < BandCount
    ensures BandWrites(n, stepCount, b, false) == Range(BandStart(n, stepCount, b), BandStart(n, stepCount, b + 1))
  {
    BandStartStep(n, stepCount, b);
    var start := BandStart(n, stepCount, b);
    if BandPresent(n, b) && LeftUpBand <= b {
      UpBandWritesFill(start, stepCount, n.haveTopSide);
    }
  }

  /** The core invariant: with at least one step, the generator writes the
      slots 0, 1, ..., count - 1 in this order, each exactly once, where count
      is the band total that sizes the container. */
  lemma {:induction false} WriteOrderFillsCount(n: Normalized, stepCount: nat)
    requires stepCount > 0
    ensures WriteOrder(n, stepCount, false) == Range(0, Sum(BandSizes(n, stepCount)))
  {
    var s0 := BandStart(n, stepCount, 0);
    var s1 := BandStart(n, stepCount, 1);
    var s2 := BandStart(n, stepCount, 2);
    var s3 := BandStart(n, stepCount, 3);
    var s4 := BandStart(n, stepCount, 4);
    var s5 := BandStart(n, stepCount, 5);
    var s6 := BandStart(n, stepCount, 6);
    BandWritesFill(n, stepCount, RiserBand);
    BandWritesFill(n, stepCount, TreadBand);
    BandWritesFill(n, stepCount, LeftDownBand);
    BandWritesFill(n, stepCount, RightDownBand);
    BandWritesFill(n, stepCount, LeftUpBand);
    BandWritesFill(n, stepCount, RightUpBand);
    BandStartsAscend(n, stepCount, 0, 1);
    BandStartsAscend(n, stepCount, 1, 2);
    BandStartsAscend(n, stepCount, 2, 3);
    BandStartsAscend(n, stepCount, 3, 4);
    BandStartsAscend(n, stepCount, 4, 5);
    BandStartsAscend(n, stepCount, 5, 6);
    assert WriteOrder(n, stepCount, false)
        == BandWrites(n, stepCount, RiserBand, false) + BandWrites(n, stepCount, TreadBand, false)
         + BandWrites(n, stepCount, LeftDownBand, false) + BandWrites(n, stepCount, RightDownBand, false)
         + BandWrites(n, stepCount, LeftUpBand, false) + BandWrites(n, stepCount, RightUpBand, false);
    assert WriteOrder(n, stepCount, false)
        == Range(s0, s1) + Range(s1, s2) + Range(s2, s3) + Range(s3, s4) + Range(s4, s5) + Range(s5, s6);
    RangeChain(s0, s1, s2, s3, s4, s5, s6);
  }

  /** Six adjacent ranges join into one. */
  lemma RangeChain(s0: int, s1: int, s2: int, s3: int, s4: int, s5: int, s6: int)
    requires s0 <= s1 <= s2 <= s3 <= s4 <= s5 <= s6
    ensures Range(s0, s1) + Range(s1, s2) + Range(s2, s3) + Range(s3, s4) + Range(s4, s5) + Range(s5, s6)
         == Range(s0, s6)
  {
    RangeAppend(s0, s1, s2);
    RangeAppend(s0, s2, s3);
    RangeAppend(s0, s3, s4);
    RangeAppend(s0, s4, s5);
    RangeAppend(s0, s5, s6);
  }

  // ---------------------------------------------------------------------
  // The end cap as written

  /** Without a top side panel, the end cap as written falls one slot past its
      band: the left cap lands on the first slot of the right up band (slot
      `count` when there is no right wall), and the right cap on slot `count`,
      one past the slots the container was sized for. */
  lemma AsWrittenCapLeavesBand(n: Normalized, stepCount: nat)
    requires stepCount > 0 && !n.haveTopSide
    ensures n.haveLeftSideUp ==>
      UpBandCapAsWritten(BandStart(n, stepCount, LeftUpBand), stepCount) == BandStart(n, stepCount, RightUpBand)
    ensures n.haveRightSideUp ==>
      UpBandCapAsWritten(BandStart(n, stepCount, RightUpBand), stepCount) == Sum(BandSizes(n, stepCount))
    ensures n.haveLeftSideUp || n.haveRightSideUp ==>
      Sum(BandSizes(n, stepCount)) in WriteOrder(n, stepCount, true)
  {
    var count := Sum(BandSizes(n, stepCount));
    BandStartStep(n, stepCount, LeftUpBand);
    BandStartStep(n, stepCount, RightUpBand);
    var lower := BandWrites(n, stepCount, RiserBand, true)
      + BandWrites(n, stepCount, TreadBand, true)
      + BandWrites(n, stepCount, LeftDownBand, true)
      + BandWrites(n, stepCount, RightDownBand, true);
    var leftWrites := BandWrites(n, stepCount, LeftUpBand, true);
    var rightWrites := BandWrites(n, stepCount, RightUpBand, true);
    assert WriteOrder(n, stepCount, true) == lower + leftWrites + rightWrites;
    if n.haveRightSideUp {
      assert count == rightWrites[|rightWrites| - 1];
    } else if n.haveLeftSideUp {
      assert count == leftWrites[|leftWrites| - 1];
    }
  }

  /** Without a top side panel, the last slot reserved for the left up band is
      never written when the end cap goes where it is written. */
  lemma AsWrittenCapSkipsSlot(n: Normalized, stepCount: nat)
    requires stepCount > 0 && !n.haveTopSide && n.haveLeftSideUp
    ensures BandStart(n, stepCount, LeftUpBand) + stepCount - 1 !in WriteOrder(n, stepCount, true)
  {
    var left := BandStart(n, stepCount, LeftUpBand);
    var right := BandStart(n, stepCount, RightUpBand);
    BandStartStep(n, stepCount, LeftUpBand);
    var lower := BandWrites(n, stepCount, RiserBand, true)
      + BandWrites(n, stepCount, TreadBand, true)
      + BandWrites(n, stepCount, LeftDownBand, true)
      + BandWrites(n, stepCount, RightDownBand, true);
    assert WriteOrder(n, stepCount, true)
        == lower + BandWrites(n, stepCount, LeftUpBand, true) + BandWrites(n, stepCount, RightUpBand, true);
    // the lower bands all end before the left up band
    forall b: nat | b < LeftUpBand
      ensures forall x :: x in BandWrites(n, stepCount, b, true) ==> x < left
    {
      BandWritesFill(n, stepCount, b);
      RangeMembers(BandStart(n, stepCount, b), BandStart(n, stepCount, b + 1));
      BandStartsAscend(n, stepCount, b + 1, LeftUpBand);
    }
    RangeMembers(left, left + stepCount - 1);
    RangeMembers(right, right + stepCount - 1);
  }

  lemma BandStartsAscend(n: Normalized, stepCount: nat, b: nat, c: nat)
    requires b <= c <= BandCount
    ensures BandStart(n, stepCount, b) <= BandStart(n, stepCount, c)
  {
    var sizes := BandSizes(n, stepCount);
    assert sizes[..c] == sizes[..b] + sizes[b..c];
    SumAppend(sizes[..b], sizes[b..c]);
    NonNegativeSum(sizes[b..c]);
  }

  /** Every slot below the total count lies in exactly one band: the band
      found here. */
  lemma BandOf(n: Normalized, stepCount: nat, k: nat) returns (b: nat)
    requires k < Sum(BandSizes(n, stepCount))
    ensures b < BandCount
    ensures BandStart(n, stepCount, b) <= k < BandStart(n, stepCount, b + 1)
  {
    b := 0;
    while k >= BandStart(n, stepCount, b + 1)
      invariant b < BandCount && BandStart(n, stepCount, b) <= k
      decreases BandCount - b
    {
      b := b + 1;
    }
  }

  /** A concrete staircase that shows it: two steps, thick risers, a tread, up
      walls on both sides and no top side panel. The container is sized for 8
      slots; slot 8 is written, slot 6 twice, and slots 5 and 7 never. */
  lemma AsWrittenCounterexample(totalSides: nat)
    ensures var d := StairsDefinition(
              Vec3(0.0, 0.0, 0.0), Vec3(1.0, 1.0, 1.0), 0.5, 0.5, 0.0, 2,
              0.0, 0.1, 0.0, 0.0, 0.0, 0.1, 0.0, 0.0,
              ThickRiser, SideType.Up, SideType.Up, totalSides);
            SubMeshCount(d, SideType.Up, SideType.Up, totalSides) == 8
            && WriteOrder(Normalize(d, SideType.Up, SideType.Up), 2, true) == [0, 1, 2, 3, 4, 6, 6, 8]
  {
    var d := StairsDefinition(
              Vec3(0.0, 0.0, 0.0), Vec3(1.0, 1.0, 1.0), 0.5, 0.5, 0.0, 2,
              0.0, 0.1, 0.0, 0.0, 0.0, 0.1, 0.0, 0.0,
              ThickRiser, SideType.Up, SideType.Up, totalSides);
    var n := Normalize(d, SideType.Up, SideType.Up);
    assert n.haveRiser && n.haveTread && !n.haveTopSide;
    assert !n.haveLeftSideDown && !n.haveRightSideDown && n.haveLeftSideUp && n.haveRightSideUp;
    TwoStepUpWallsOrder(n);
  }

  /** Any two-step staircase with risers, treads and up walls on both sides but
      no down wall and no top side panel is sized for 8 slots, and its caps as
      written go to slots 6 and 8. */
  lemma TwoStepUpWallsOrder(n: Normalized)
    requires n.haveRiser && n.haveTread && !n.haveTopSide
    requires !n.haveLeftSideDown && !n.haveRightSideDown && n.haveLeftSideUp && n.haveRightSideUp
    ensures Sum(BandSizes(n, 2)) == 8
    ensures WriteOrder(n, 2, true) == [0, 1, 2, 3, 4, 6, 6, 8]
  {
    BandStartStep(n, 2, RiserBand);
    BandStartStep(n, 2, TreadBand);
    BandStartStep(n, 2, LeftDownBand);
    BandStartStep(n, 2, RightDownBand);
    BandStartStep(n, 2, LeftUpBand);
    BandStartStep(n, 2, RightUpBand);
    assert BandSizes(n, 2) == [2, 2, 0, 0, 2, 2];
    assert BandWrites(n, 2, LeftUpBand, true) == [4, 6];
    assert BandWrites(n, 2, RightUpBand, true) == [6, 8];
  }
}
