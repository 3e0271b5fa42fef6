/**
 * The slot arithmetic of the 100 mm encoder-disk guide generator: the guide's
 * fixed geometry and resolution, the per-slot arc length, the slot position
 * tables, the cutting-phase schedule and the slots each diagram panel draws.
 */
module NewEncoder {
  import opened SlotLayout

  datatype Option<T> = None | Some(value: T)

  /** The fields an `EncoderDiskGuide` assigns once on construction (lengths in mm). */
  datatype EncoderDiskGuide = EncoderDiskGuide(
    diameter: int,
    slots: int,
    slotWidth: int,
    centerHole: int,
    material: string,
    slotStartRadius: int,
    slotEndRadius: int,
    pulleyDiameter: int,
    pulleyCircumference: real,  // in cm
    resolutionMm: real)         // mm of travel per slot

  /**
   * Pulley circumference in cm from the diameter in mm: ten of it make the
   * circumference `pi * d` in mm.
   */
  function PulleyCircumferenceCm(pi: real, pulleyDiameter: int): (c: real)
    ensures c * 10.0 == pi * pulleyDiameter as real
    ensures pi > 0.0 && pulleyDiameter > 0 ==> c > 0.0
  {
    pi * pulleyDiameter as real / 10.0
  }

  /**
   * Resolution in mm per slot: the circumference taken back from cm to mm
   * and shared out over the slots. The cm/mm conversions cancel.
   */
  function ResolutionMm(pi: real, pulleyDiameter: int, slots: int): (r: real)
    requires slots > 0
    ensures r * slots as real == pi * pulleyDiameter as real
  {
    PulleyCircumferenceCm(pi, pulleyDiameter) * 10.0 / slots as real
  }

  /** The guide as its constructor sets it up; `pi` stands for `math.pi`. */
  function NewEncoderDiskGuide(pi: real): (g: EncoderDiskGuide)
    ensures g.diameter == 100 && g.slots == 40 && g.slotWidth == 3 && g.centerHole == 8
    ensures g.slotStartRadius == 70 && g.slotEndRadius == 85 && g.pulleyDiameter == 50
    ensures g.resolutionMm * g.slots as real == pi * g.pulleyDiameter as real
    ensures g.pulleyCircumference * 10.0 == pi * g.pulleyDiameter as real
    ensures pi > 0.0 ==> g.resolutionMm > 0.0
  {
    EncoderDiskGuide(100, 40, 3, 8, "2mm stainless steel", 70, 85, 50,
                     PulleyCircumferenceCm(pi, 50), ResolutionMm(pi, 50, 40))
  }

  /** The "cm per slot" figure of the resolution section is the resolution in mm divided by 10. */
  lemma CmPerSlotIsTenthOfResolution(pi: real)
    ensures var g := NewEncoderDiskGuide(pi);
      g.pulleyCircumference / g.slots as real == g.resolutionMm / 10.0
  {
  }

  /** With pulley diameter 50 mm and 40 slots the resolution is `pi * 50 / 40` mm. */
  lemma ResolutionFor40Slots(pi: real)
    ensures NewEncoderDiskGuide(pi).resolutionMm == 1.25 * pi
  {
  }

  /**
   * Arc length of one slot's angular span at `radius`:
   * `2 * pi * radius * (360 / slots) / 360`, in which the 360/360 cancels.
   */
  function ArcLengthPerSlot(pi: real, radius: real, slots: int): (len: real)
    requires slots > 0
    ensures len * slots as real == 2.0 * pi * radius
  {
    2.0 * pi * radius * (360.0 / slots as real) / 360.0
  }

  /** At the 77.5 mm radius with 40 slots one slot spans `2 * pi * 77.5 / 40` mm. */
  lemma ArcLengthAtSensorRadius(pi: real)
    ensures ArcLengthPerSlot(pi, 77.5, 40) == 3.875 * pi
  {
  }

  /** Radii of the slot band as the layout drawing uses them (mm). */
  const DrawnSlotInnerRadius: real := 35.0
  const DrawnSlotOuterRadius: real := 42.5
  const DrawnWedgeWidth: real := 7.5
  const DrawnDiskRadius: real := 50.0

  /** The stated slot band (70 to 85 mm radius) lies outside the 100 mm disk. */
  lemma StatedSlotRadiiOutsideDisk(pi: real)
    ensures var g := NewEncoderDiskGuide(pi);
      g.diameter / 2 < g.slotStartRadius < g.slotEndRadius
  {
  }

  /**
   * The drawing instead uses half the stated radii, inside the disk, and its
   * wedge width is the band between them.
   */
  lemma DrawnRadiiAreHalfTheStated(pi: real)
    ensures var g := NewEncoderDiskGuide(pi);
      && DrawnSlotInnerRadius * 2.0 == g.slotStartRadius as real
      && DrawnSlotOuterRadius * 2.0 == g.slotEndRadius as real
      && DrawnWedgeWidth == DrawnSlotOuterRadius - DrawnSlotInnerRadius
      && DrawnSlotOuterRadius < DrawnDiskRadius == g.diameter as real / 2.0
  {
  }

  // ---------------------------------------------------------------------
  // Two-column slot position table of the template section

  /** One output line: an entry from the first column and, if any, one from the second. */
  datatype TemplateLine = TemplateLine(left: SlotPosition, right: Option<SlotPosition>)

  /** `slot_positions`: one entry per slot index, in order. */
  method SlotPositionList(slots: int) returns (positions: seq<SlotPosition>)
    ensures |positions| == if slots > 0 then slots else 0
    ensures forall i :: 0 <= i < |positions| ==> positions[i] == PositionOf(i, slots)
  {
    positions := [];
    var i := 0;
    while i < slots
      invariant 0 <= i <= if slots < 0 then 0 else slots
      invariant |positions| == i
      invariant forall k :: 0 <= k < i ==> positions[k] == PositionOf(k, slots)
    {
      positions := positions + [SlotPosition(i + 1, SlotAngle(i, slots))];
      i := i + 1;
    }
  }

  /** Python's slice bound: a negative bound counts from the end, then it is clamped. */
  function SliceBound(k: int, len: nat): (b: nat)
    ensures b <= len
    ensures 0 <= k <= len ==> b == k
  {
    if k < 0 then (if len + k < 0 then 0 else len + k) else if k > len then len else k
  }

  /** Pairs line `i` of the first column with line `i` of the second, while it has one. */
  method PairColumns(col1: seq<SlotPosition>, col2: seq<SlotPosition>) returns (lines: seq<TemplateLine>)
    ensures |lines| == |col1|
    ensures forall i :: 0 <= i < |col1| ==>
      lines[i] == TemplateLine(col1[i], if i < |col2| then Some(col2[i]) else None)
  {
    lines := [];
    var i := 0;
    while i < |col1|
      invariant 0 <= i <= |col1|
      invariant |lines| == i
      invariant forall k :: 0 <= k < i ==>
        lines[k] == TemplateLine(col1[k], if k < |col2| then Some(col2[k]) else None)
    {
      var line := TemplateLine(col1[i], None);
      if i < |col2| {
        line := TemplateLine(col1[i], Some(col2[i]));
      }
      lines := lines + [line];
      i := i + 1;
    }
  }

  /**
   * The table split after `split` entries: line `k` holds slot `k` on the
   * left and slot `split + k` on the right while there is one.
   */
  ghost predicate IsTwoColumnTable(lines: seq<TemplateLine>, slots: int, split: int)
    requires slots > 0
  {
    && |lines| == split
    && forall k {:trigger lines[k]} :: 0 <= k < split ==>
         lines[k] == TemplateLine(PositionOf(k, slots),
                                  if split + k < slots then Some(PositionOf(split + k, slots)) else None)
  }

  /** The template section's table, split as written at `slots // 2`. */
  method TemplateSlotTable(slots: int) returns (lines: seq<TemplateLine>)
    ensures slots <= 0 ==> lines == []
    ensures slots > 0 ==> IsTwoColumnTable(lines, slots, slots / 2)
  {
    var positions := SlotPositionList(slots);
    var cut := SliceBound(slots / 2, |positions|);
    lines := PairColumns(positions[..cut], positions[cut..]);
  }

  /** The same table split at `(slots + 1) // 2`, so the first column is the longer one. */
  method TemplateSlotTableCorrected(slots: int) returns (lines: seq<TemplateLine>)
    ensures slots <= 0 ==> lines == []
    ensures slots > 0 ==> IsTwoColumnTable(lines, slots, (slots + 1) / 2)
  {
    var positions := SlotPositionList(slots);
    var cut := SliceBound((slots + 1) / 2, |positions|);
    lines := PairColumns(positions[..cut], positions[cut..]);
  }

  /** How often slot number `n` occurs on one line. */
  function LineOccurrences(line: TemplateLine, n: int): nat
  {
    (if line.left.number == n then 1 else 0) +
    (if line.right.Some? && line.right.value.number == n then 1 else 0)
  }

  /** How often slot number `n` occurs in the whole table. */
  function Occurrences(lines: seq<TemplateLine>, n: int): nat
  {
    if lines == [] then 0
    else Occurrences(lines[..|lines| - 1], n) + LineOccurrences(lines[|lines| - 1], n)
  }

  /** After the first `m` lines, `n` has been listed once on the left if `n <= m` and once on the right if `split < n <= split + m`. */
  lemma {:induction false} OccurrencesInPrefix(lines: seq<TemplateLine>, slots: int, split: int, m: int, n: int)
    requires slots > 0 && 0 <= split <= slots && IsTwoColumnTable(lines, slots, split)
    requires 0 <= m <= split
    ensures Occurrences(lines[..m], n) ==
      (if 1 <= n <= m then 1 else 0) + (if split < n <= split + m && n <= slots then 1 else 0)
  {
    if m > 0 {
      var k := m - 1;
      assert 0 <= k < split;
      assert lines[k] == TemplateLine(PositionOf(k, slots),
                                      if split + k < slots then Some(PositionOf(split + k, slots)) else None);
      OccurrencesInPrefix(lines, slots, split, m - 1, n);
      var prefix := lines[..m];
      assert prefix[..m - 1] == lines[..m - 1];
      assert prefix[m - 1] == lines[m - 1];
      assert Occurrences(prefix, n) == Occurrences(lines[..m - 1], n) + LineOccurrences(lines[m - 1], n);
    }
  }

  /**
   * For an even slot count the as-written table pairs an entry from each
   * column on every line and lists every slot number `1..slots` exactly once.
   */
  lemma TemplateTableEvenListsEachSlotOnce(lines: seq<TemplateLine>, slots: int)
    requires slots > 0 && slots % 2 == 0 && IsTwoColumnTable(lines, slots, slots / 2)
    ensures forall k :: 0 <= k < |lines| ==> lines[k].right.Some?
    ensures forall n :: Occurrences(lines, n) == if 1 <= n <= slots then 1 else 0
  {
    forall k | 0 <= k < |lines| ensures lines[k].right.Some? {
      assert lines[k] == TemplateLine(PositionOf(k, slots), Some(PositionOf(slots / 2 + k, slots)));
    }
    forall n ensures Occurrences(lines, n) == if 1 <= n <= slots then 1 else 0 {
      OccurrencesInPrefix(lines, slots, slots / 2, slots / 2, n);
      assert lines[..slots / 2] == lines;
    }
  }

  /**
   * For an odd slot count the as-written table has one line fewer than the
   * second column: the last slot never appears.
   */
  lemma TemplateTableOddDropsLastSlot(lines: seq<TemplateLine>, slots: int)
    requires slots > 0 && slots % 2 == 1 && IsTwoColumnTable(lines, slots, slots / 2)
    ensures Occurrences(lines, slots) == 0
    ensures forall n :: 1 <= n < slots ==> Occurrences(lines, n) == 1
  {
    assert lines[..slots / 2] == lines;
    OccurrencesInPrefix(lines, slots, slots / 2, slots / 2, slots);
    forall n | 1 <= n < slots ensures Occurrences(lines, n) == 1 {
      OccurrencesInPrefix(lines, slots, slots / 2, slots / 2, n);
    }
  }

  /** With 3 slots the as-written table is the single line "Slot 1 | Slot 2". */
  lemma TemplateTableDropsSlot3(lines: seq<TemplateLine>)
    requires IsTwoColumnTable(lines, 3, 3 / 2)
    ensures lines == [TemplateLine(SlotPosition(1, 0.0), Some(SlotPosition(2, 120.0)))]
  {
    assert lines[0] == TemplateLine(PositionOf(0, 3), Some(PositionOf(1, 3)));
  }

  /** The corrected split lists every slot number exactly once for every slot count. */
  lemma CorrectedTemplateTableListsEachSlotOnce(lines: seq<TemplateLine>, slots: int)
    requires slots > 0 && IsTwoColumnTable(lines, slots, (slots + 1) / 2)
    ensures forall n :: Occurrences(lines, n) == if 1 <= n <= slots then 1 else 0
  {
    forall n ensures Occurrences(lines, n) == if 1 <= n <= slots then 1 else 0 {
      OccurrencesInPrefix(lines, slots, (slots + 1) / 2, (slots + 1) / 2, n);
      assert lines[..(slots + 1) / 2] == lines;
    }
  }

  // ---------------------------------------------------------------------
  // Row-major reference tables (print-ready guide: 4 columns; chart: 3)

  /**
   * `for i in range(0, slots, cols)` building one row of `cols` cells each:
   * an entry while `i + j < slots`, blank padding after.
   */
  method ChunkedSlotTable(slots: int, cols: int) returns (rows: seq<seq<Cell>>)
    requires cols > 0
    ensures IsSlotGrid(rows, slots, cols)
    ensures |rows| * cols >= slots
    ensures |rows| > 0 ==> (|rows| - 1) * cols < slots
  {
    rows := [];
    var i := 0;
    while i < slots
      invariant i == |rows| * cols
      invariant IsSlotGrid(rows, slots, cols)
      invariant |rows| > 0 ==> i - cols < slots
    {
      var line := [];
      var j := 0;
      while j < cols
        invariant 0 <= j <= cols
        invariant |line| == j
        invariant forall c :: 0 <= c < j ==> line[c] == CellAt(i + c, slots)
      {
        if i + j < slots {
          line := line + [Filled(SlotPosition(i + j + 1, SlotAngle(i + j, slots)))];
        } else {
          line := line + [Blank];
        }
        j := j + 1;
      }
      GridAppend(rows, line, slots, cols);
      rows := rows + [line];
      i := i + cols;
    }
    assert |rows| > 0 ==> (|rows| - 1) * cols == i - cols;
  }

  /** Section 6 of the print-ready guide: `ceil(slots / 4)` rows of four entries. */
  method PrintReadyTable(slots: int) returns (rows: seq<seq<Cell>>)
    ensures IsSlotGrid(rows, slots, 4)
    ensures |rows| == if slots > 0 then (slots + 3) / 4 else 0
  {
    rows := ChunkedSlotTable(slots, 4);
  }

  /** The reference chart's table: `ceil(slots / 3)` rows of three number/angle pairs. */
  method MeasurementChartTable(slots: int) returns (rows: seq<seq<Cell>>)
    ensures IsSlotGrid(rows, slots, 3)
    ensures |rows| == if slots > 0 then (slots + 2) / 3 else 0
  {
    rows := ChunkedSlotTable(slots, 3);
  }

  /**
   * The print-ready table lists each slot number `1..slots` in exactly one
   * cell, with its angle, and pads with blanks only past the last slot.
   */
  lemma PrintReadyTableListsEachSlotOnce(rows: seq<seq<Cell>>, slots: int)
    requires IsSlotGrid(rows, slots, 4) && |rows| == (if slots > 0 then (slots + 3) / 4 else 0)
    ensures forall n :: 1 <= n <= slots ==> Listed(rows, 4, n, slots)
    ensures forall r1, c1, r2, c2 ::
      (0 <= r1 < |rows| && 0 <= c1 < 4 && 0 <= r2 < |rows| && 0 <= c2 < 4 &&
       rows[r1][c1].Filled? && rows[r1][c1] == rows[r2][c2]) ==> (r1 == r2 && c1 == c2)
    ensures forall r, c :: 0 <= r < |rows| && 0 <= c < 4 ==>
      (rows[r][c] == Blank <==> r * 4 + c >= slots)
  {
    GridListsEachSlotOnce(rows, slots, 4);
  }

  /** The same for the three-column reference chart. */
  lemma MeasurementChartListsEachSlotOnce(rows: seq<seq<Cell>>, slots: int)
    requires IsSlotGrid(rows, slots, 3) && |rows| == (if slots > 0 then (slots + 2) / 3 else 0)
    ensures forall n :: 1 <= n <= slots ==> Listed(rows, 3, n, slots)
    ensures forall r1, c1, r2, c2 ::
      (0 <= r1 < |rows| && 0 <= c1 < 3 && 0 <= r2 < |rows| && 0 <= c2 < 3 &&
       rows[r1][c1].Filled? && rows[r1][c1] == rows[r2][c2]) ==> (r1 == r2 && c1 == c2)
    ensures forall r, c :: 0 <= r < |rows| && 0 <= c < 3 ==>
      (rows[r][c] == Blank <==> r * 3 + c >= slots)
  {
    GridListsEachSlotOnce(rows, slots, 3);
  }

  // ---------------------------------------------------------------------
  // Cutting phases

  /**
   * The phase that colours slot `i` in the cutting-sequence panel: 0 on
   * every tenth slot, 1 on the other fifth slots, 2 on the other even
   * slots, 3 on the rest.
   */
  function CuttingPhase(i: int): (p: int)
    ensures 0 <= p <= 3
    ensures p == 0 <==> i % 10 == 0
    ensures p == 1 <==> i % 5 == 0 && i % 10 != 0
    ensures p == 2 <==> IsCut(i) && i % 10 != 0
    ensures p == 3 <==> !IsCut(i) && i % 5 != 0
    ensures p == 1 ==> !IsCut(i)
  {
    LastDigitDecides(i);
    if i % 10 == 0 then 0
    else if i % 5 == 0 then 1
    else if i % 2 == 0 then 2
    else 3
  }

  /** The remainders by 5 and by 2 are those of the last decimal digit. */
  lemma LastDigitDecides(i: int)
    ensures i % 5 == (i % 10) % 5 && i % 2 == (i % 10) % 2
  {
    var q := i / 10;
    assert i == 5 * (2 * q) + i % 10;
    assert i == 2 * (5 * q) + i % 10;
  }

  /** An even multiple of 5 is a multiple of 10, so no cut slot is in phase 1. */
  lemma CutSlotsAreNeverPhaseOne(i: int)
    requires IsCut(i)
    ensures CuttingPhase(i) == 0 || CuttingPhase(i) == 2
  {
  }

  /**
   * The cutting-sequence panel: the phase of every slot is computed, but only
   * cut slots are drawn, so only phases 0 and 2 ever appear.
   */
  method PhasePanel(slots: int) returns (drawn: seq<PhasedSlot>)
    ensures |drawn| == |PyRange(0, slots, 2)|
    ensures forall k :: 0 <= k < |drawn| ==> drawn[k] == PhasedSlot(2 * k, CuttingPhase(2 * k))
    ensures forall k :: 0 <= k < |drawn| ==> drawn[k].phase == 0 || drawn[k].phase == 2
  {
    drawn := [];
    var i := 0;
    while i < slots
      invariant 0 <= i <= if slots < 0 then 0 else slots
      invariant |drawn| == (i + 1) / 2
      invariant forall k :: 0 <= k < |drawn| ==> drawn[k] == PhasedSlot(2 * k, CuttingPhase(2 * k))
    {
      var phase := CuttingPhase(i);
      if i % 2 == 0 {
        drawn := drawn + [PhasedSlot(i, phase)];
      }
      i := i + 1;
    }
    EvenRangeLength(slots);
    forall k | 0 <= k < |drawn| ensures drawn[k].phase == 0 || drawn[k].phase == 2 {
      CutSlotsAreNeverPhaseOne(2 * k);
    }
  }

  /** `for i in range(start, stop, step)`. */
  method SteppedIndices(start: int, stop: int, step: int) returns (idx: seq<int>)
    requires step > 0
    ensures idx == PyRange(start, stop, step)
  {
    idx := [];
    var i := start;
    while i < stop
      invariant idx + PyRange(i, stop, step) == PyRange(start, stop, step)
      decreases stop - i
    {
      assert PyRange(i, stop, step) == [i] + PyRange(i + step, stop, step);
      assert idx + ([i] + PyRange(i + step, stop, step)) == (idx + [i]) + PyRange(i + step, stop, step);
      idx := idx + [i];
      i := i + step;
    }
    assert idx + [] == idx;
  }

  /**
   * The step-by-step cutting guide's wedges: phase 1 at every tenth slot,
   * phase 2 at every tenth slot from slot 5, and the complete disk at every
   * cut slot.
   */
  method CuttingGuidePhases(slots: int) returns (phase1: seq<int>, phase2: seq<int>, complete: seq<int>)
    ensures phase1 == PyRange(0, slots, 10)
    ensures phase2 == PyRange(5, slots, 10)
    ensures complete == PyRange(0, slots, 2)
  {
    phase1 := SteppedIndices(0, slots, 10);
    phase2 := SteppedIndices(5, slots, 10);
    complete := CutSlotIndices(slots);
  }

  /** No slot is cut in both phase 1 and phase 2. */
  lemma PhaseRangesDisjoint(slots: int, x: int)
    ensures !(x in PyRange(0, slots, 10) && x in PyRange(5, slots, 10))
  {
    TenStepRangeMembers(0, slots, x);
    TenStepRangeMembers(5, slots, x);
  }

  /** With 40 slots phase 1 cuts at 0, 90, 180, 270 degrees and phase 2 at 45, 135, 225, 315. */
  lemma PhaseAnglesFor40()
    ensures AnglesOf(PyRange(0, 40, 10), 40) == [0.0, 90.0, 180.0, 270.0]
    ensures AnglesOf(PyRange(5, 40, 10), 40) == [45.0, 135.0, 225.0, 315.0]
  {
    assert PyRange(0, 40, 10) == [0, 10, 20, 30];
    assert PyRange(5, 40, 10) == [5, 15, 25, 35];
  }

  /**
   * The phase-2 slots are odd indices: none of them is among the slots the
   * complete-cutting panel shows as cut.
   */
  lemma PhaseTwoSlotsAreNotCutSlots(slots: int, x: int)
    requires x in PyRange(5, slots, 10)
    ensures !IsCut(x) && x !in PyRange(0, slots, 2)
  {
    TenStepRangeMembers(5, slots, x);
    EvenRangeMembers(slots, x);
  }

  /** The chart's "40 total (20 cut, 20 solid)": half of the 40 slots are cut. */
  lemma ChartCutSolidCounts()
    ensures |PyRange(0, 40, 2)| == 20 && 40 - |PyRange(0, 40, 2)| == 20
  {
  }
}
