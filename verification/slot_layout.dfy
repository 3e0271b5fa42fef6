/**
 * The slot-layout arithmetic that the encoder-disk scripts repeat inline:
 * Python's `range`, the angle of a slot, the cut/opaque parity, the
 * reference-table cells and the layout panel that draws every other slot.
 */
module SlotLayout {

  /** Python's `range(start, stop, step)` for a positive step. */
  function PyRange(start: int, stop: int, step: int): (r: seq<int>)
    requires step > 0
    ensures start >= stop ==> r == []
    ensures start < stop ==> |r| > 0 && (|r| - 1) * step < stop - start <= |r| * step
    ensures forall k :: 0 <= k < |r| ==> r[k] == start + k * step
    decreases stop - start
  {
    if start >= stop then [] else [start] + PyRange(start + step, stop, step)
  }

  ghost predicate Increasing(s: seq<int>)
  {
    forall i, j :: 0 <= i < j < |s| ==> s[i] < s[j]
  }

  lemma PyRangeIncreasing(start: int, stop: int, step: int)
    requires step > 0
    ensures Increasing(PyRange(start, stop, step))
  {
    var r := PyRange(start, stop, step);
    forall i, j | 0 <= i < j < |r| ensures r[i] < r[j] {
      MulStrictlyIncreasing(i, j, step);
    }
  }

  /** A range splits at any of its own points into two consecutive ranges. */
  lemma {:induction false} PyRangeSplit(start: int, n: nat, stop: int, step: int)
    requires step > 0 && start + n * step <= stop
    ensures PyRange(start, stop, step) ==
      PyRange(start, start + n * step, step) + PyRange(start + n * step, stop, step)
    decreases n
  {
    if n > 0 {
      var mid := start + n * step;
      assert mid == (start + step) + (n - 1) * step;
      PyRangeSplit(start + step, n - 1, stop, step);
      assert PyRange(start, mid, step) == [start] + PyRange(start + step, mid, step);
    }
  }

  lemma MulStrictlyIncreasing(i: int, j: int, step: int)
    requires i < j && step > 0
    ensures i * step < j * step
  {
    assert j * step == i * step + (j - i) * step;
  }

  /** The length of `range(0, n, 2)`: the number of even indices below `n`. */
  lemma EvenRangeLength(n: int)
    ensures |PyRange(0, n, 2)| == if n > 0 then (n + 1) / 2 else 0
  {
  }

  /** The length of `range(0, n, 10)`. */
  lemma TenRangeLength(n: int)
    ensures |PyRange(0, n, 10)| == if n > 0 then (n + 9) / 10 else 0
  {
  }

  /** `range(0, n, 2)` holds exactly the even indices below `n`. */
  lemma {:induction false} EvenRangeMembers(n: int, x: int)
    ensures x in PyRange(0, n, 2) <==> 0 <= x < n && x % 2 == 0
  {
    var r := PyRange(0, n, 2);
    if 0 <= x < n && x % 2 == 0 {
      assert r[x / 2] == x;
    }
  }

  /** `range(start, n, 10)` holds exactly the indices below `n` that are `start` modulo 10. */
  lemma {:induction false} TenStepRangeMembers(start: int, n: int, x: int)
    requires 0 <= start < 10
    ensures x in PyRange(start, n, 10) <==> start <= x < n && x % 10 == start
  {
    var r := PyRange(start, n, 10);
    if start <= x < n && x % 10 == start {
      assert r[x / 10] == x;
    }
  }

  /**
   * Slot `i` of `slots` sits at `i * 360 / slots` degrees
   * (integer product, then true division: an exact rational).
   */
  function SlotAngle(i: int, slots: int): (a: real)
    requires slots > 0
    ensures 0 <= i < slots ==> 0.0 <= a < 360.0
  {
    (i * 360) as real / slots as real
  }

  /** Consecutive slots are exactly `360 / slots` degrees apart. */
  lemma SlotAngleStep(i: int, slots: int)
    requires slots > 0
    ensures SlotAngle(i + 1, slots) - SlotAngle(i, slots) == 360.0 / slots as real
  {
  }

  /** Slot angles strictly increase with the index. */
  lemma SlotAnglesIncrease(i: int, j: int, slots: int)
    requires slots > 0 && i < j
    ensures SlotAngle(i, slots) < SlotAngle(j, slots)
  {
    MulStrictlyIncreasing(i, j, 360);
  }

  /** The angle of each index of `idx`. */
  function AnglesOf(idx: seq<int>, slots: int): (r: seq<real>)
    requires slots > 0
    ensures |r| == |idx|
    ensures forall k :: 0 <= k < |idx| ==> r[k] == SlotAngle(idx[k], slots)
  {
    if idx == [] then [] else [SlotAngle(idx[0], slots)] + AnglesOf(idx[1..], slots)
  }

  /** A slot is cut out (or drawn opaque) exactly at even 0-based indices. */
  predicate IsCut(i: int)
  {
    i % 2 == 0
  }

  /** One entry of a slot reference table: the 1-based slot number and its angle. */
  datatype SlotPosition = SlotPosition(number: int, angle: real)

  /** A table cell: a slot entry or blank padding. */
  datatype Cell = Blank | Filled(pos: SlotPosition)

  /** A drawn slot together with the cutting phase that colours it. */
  datatype PhasedSlot = PhasedSlot(index: int, phase: int)

  /** The entry for 0-based slot index `i`: number `i + 1`, angle `i * 360 / slots`. */
  function PositionOf(i: int, slots: int): SlotPosition
    requires slots > 0
  {
    SlotPosition(i + 1, SlotAngle(i, slots))
  }

  /** The entry for 1-based slot number `n`. */
  function Entry(n: int, slots: int): Cell
    requires slots > 0
  {
    Filled(PositionOf(n - 1, slots))
  }

  /** The cell at 0-based table position `p`: an entry while `p < slots`, blank padding after. */
  function CellAt(p: int, slots: int): Cell
    requires 0 <= p
  {
    if p < slots then Filled(PositionOf(p, slots)) else Blank
  }

  /** `rows` lays the slots out row by row, `cols` cells per row. */
  ghost predicate IsSlotGrid(rows: seq<seq<Cell>>, slots: int, cols: int)
    requires cols > 0
  {
    forall r :: 0 <= r < |rows| ==>
      |rows[r]| == cols &&
      forall c :: 0 <= c < cols ==> rows[r][c] == CellAt(r * cols + c, slots)
  }

  lemma RowMajorInjective(r1: int, c1: int, r2: int, c2: int, cols: int)
    requires 0 <= c1 < cols && 0 <= c2 < cols
    requires r1 * cols + c1 == r2 * cols + c2
    ensures r1 == r2 && c1 == c2
  {
    if r1 < r2 {
      assert (r1 + 1) * cols <= r2 * cols by { MulMonotone(r1 + 1, r2, cols); }
      assert false;
    } else if r2 < r1 {
      assert (r2 + 1) * cols <= r1 * cols by { MulMonotone(r2 + 1, r1, cols); }
      assert false;
    }
  }

  lemma MulMonotone(a: int, b: int, cols: int)
    requires a <= b && cols >= 0
    ensures a * cols <= b * cols
  {
    assert b * cols == a * cols + (b - a) * cols;
  }

  /** Slot number `n` is listed, with its angle, in some cell of `rows`. */
  ghost predicate Listed(rows: seq<seq<Cell>>, cols: int, n: int, slots: int)
    requires slots > 0
  {
    exists r, c :: 0 <= r < |rows| && 0 <= c < cols && c < |rows[r]| && rows[r][c] == Entry(n, slots)
  }

  /**
   * A grid with room for every slot lists each slot number `1..slots` in
   * some cell, with angle `(n - 1) * 360 / slots`.
   */
  lemma GridListsEverySlot(rows: seq<seq<Cell>>, slots: int, cols: int, n: int)
    requires cols > 0 && IsSlotGrid(rows, slots, cols) && |rows| * cols >= slots
    requires 1 <= n <= slots
    ensures Listed(rows, cols, n, slots)
  {
    var r, c := (n - 1) / cols, (n - 1) % cols;
    assert r * cols + c == n - 1;
    if r >= |rows| {
      MulMonotone(|rows|, r, cols);
      assert false;
    }
    assert rows[r][c] == CellAt(n - 1, slots);
  }

  /** No slot entry of a grid appears in two cells. */
  lemma GridEntriesUnique(rows: seq<seq<Cell>>, slots: int, cols: int, r1: int, c1: int, r2: int, c2: int)
    requires cols > 0 && IsSlotGrid(rows, slots, cols)
    requires 0 <= r1 < |rows| && 0 <= c1 < cols && 0 <= r2 < |rows| && 0 <= c2 < cols
    requires rows[r1][c1].Filled? && rows[r1][c1] == rows[r2][c2]
    ensures r1 == r2 && c1 == c2
  {
    assert rows[r1][c1] == CellAt(r1 * cols + c1, slots);
    assert rows[r2][c2] == CellAt(r2 * cols + c2, slots);
    RowMajorInjective(r1, c1, r2, c2, cols);
  }

  /** A grid cell is blank padding exactly when its position is past the last slot. */
  lemma GridBlankPastLastSlot(rows: seq<seq<Cell>>, slots: int, cols: int, r: int, c: int)
    requires cols > 0 && IsSlotGrid(rows, slots, cols)
    requires 0 <= r < |rows| && 0 <= c < cols
    ensures rows[r][c] == Blank <==> r * cols + c >= slots
  {
    assert rows[r][c] == CellAt(r * cols + c, slots);
  }

  /** Appending the row that starts at position `|rows| * cols` keeps a grid a grid. */
  lemma GridAppend(rows: seq<seq<Cell>>, line: seq<Cell>, slots: int, cols: int)
    requires cols > 0 && IsSlotGrid(rows, slots, cols) && |line| == cols
    requires forall c :: 0 <= c < cols ==> line[c] == CellAt(|rows| * cols + c, slots)
    ensures IsSlotGrid(rows + [line], slots, cols)
  {
    var next := rows + [line];
    forall r | 0 <= r < |next|
      ensures |next[r]| == cols && forall c :: 0 <= c < cols ==> next[r][c] == CellAt(r * cols + c, slots)
    {
      if r < |rows| {
        assert next[r] == rows[r];
      } else {
        assert next[r] == line;
      }
    }
  }

  /**
   * A grid with room for every slot lists each slot number `1..slots` in
   * exactly one cell, with its angle, and is blank only past the last slot.
   */
  lemma GridListsEachSlotOnce(rows: seq<seq<Cell>>, slots: int, cols: int)
    requires cols > 0 && IsSlotGrid(rows, slots, cols) && |rows| * cols >= slots
    ensures forall n :: 1 <= n <= slots ==> Listed(rows, cols, n, slots)
    ensures forall r1, c1, r2, c2 ::
      (0 <= r1 < |rows| && 0 <= c1 < cols && 0 <= r2 < |rows| && 0 <= c2 < cols &&
       rows[r1][c1].Filled? && rows[r1][c1] == rows[r2][c2]) ==> (r1 == r2 && c1 == c2)
    ensures forall r, c :: 0 <= r < |rows| && 0 <= c < cols ==>
      (rows[r][c] == Blank <==> r * cols + c >= slots)
  {
    forall n | 1 <= n <= slots ensures Listed(rows, cols, n, slots) {
      GridListsEverySlot(rows, slots, cols, n);
    }
    forall r1, c1, r2, c2 |
      0 <= r1 < |rows| && 0 <= c1 < cols && 0 <= r2 < |rows| && 0 <= c2 < cols &&
      rows[r1][c1].Filled? && rows[r1][c1] == rows[r2][c2]
      ensures r1 == r2 && c1 == c2
    {
      GridEntriesUnique(rows, slots, cols, r1, c1, r2, c2);
    }
    forall r, c | 0 <= r < |rows| && 0 <= c < cols
      ensures rows[r][c] == Blank <==> r * cols + c >= slots
    {
      GridBlankPastLastSlot(rows, slots, cols, r, c);
    }
  }

  /**
   * The loop `for i in range(n): if i % 2 == 0: ...` that selects the cut
   * (or opaque) slots: the result is `range(0, n, 2)`.
   */
  method CutSlotIndices(n: int) returns (cut: seq<int>)
    ensures cut == PyRange(0, n, 2)
    ensures forall i :: i in cut <==> 0 <= i < n && IsCut(i)
  {
    cut := [];
    var i := 0;
    while i < n
      invariant 0 <= i <= if n < 0 then 0 else n
      invariant |cut| == (i + 1) / 2
      invariant forall k :: 0 <= k < |cut| ==> cut[k] == 2 * k
    {
      if i % 2 == 0 {
        cut := cut + [i];
      }
      i := i + 1;
    }
    ghost var spec := PyRange(0, n, 2);
    EvenRangeLength(n);
    assert |cut| == |spec|;
    assert forall k :: 0 <= k < |cut| ==> cut[k] == spec[k];
    forall x ensures x in cut <==> 0 <= x < n && IsCut(x) {
      EvenRangeMembers(n, x);
    }
  }

  /**
   * The complete-layout panel: for each slot index a wedge when the index is
   * cut (`i % 2 == 0`) and an angle label on every tenth index.
   */
  method LayoutPanel(slots: int) returns (cut: seq<int>, labelled: seq<int>)
    ensures cut == PyRange(0, slots, 2)
    ensures labelled == PyRange(0, slots, 10)
  {
    cut, labelled := [], [];
    var i := 0;
    while i < slots
      invariant 0 <= i <= if slots < 0 then 0 else slots
      invariant |cut| == (i + 1) / 2
      invariant forall k :: 0 <= k < |cut| ==> cut[k] == 2 * k
      invariant |labelled| == (i + 9) / 10
      invariant forall k :: 0 <= k < |labelled| ==> labelled[k] == 10 * k
    {
      if i % 2 == 0 {
        cut := cut + [i];
      }
      if i % 10 == 0 {
        labelled := labelled + [i];
      }
      i := i + 1;
    }
    ghost var evens, tens := PyRange(0, slots, 2), PyRange(0, slots, 10);
    EvenRangeLength(slots);
    TenRangeLength(slots);
    assert |cut| == |evens| && forall k :: 0 <= k < |cut| ==> cut[k] == evens[k];
    assert |labelled| == |tens| && forall k :: 0 <= k < |labelled| ==> labelled[k] == tens[k];
  }

  /** For an even slot count exactly half of the slots are cut. */
  lemma CutCountIsHalf(slots: int)
    requires slots >= 0 && slots % 2 == 0
    ensures |PyRange(0, slots, 2)| == slots / 2
  {
  }

  /** The labelled angles of a 40-slot layout are 0, 90, 180 and 270 degrees. */
  lemma LabelAnglesFor40()
    ensures AnglesOf(PyRange(0, 40, 10), 40) == [0.0, 90.0, 180.0, 270.0]
  {
    var r := PyRange(0, 40, 10);
    assert r == [0, 10, 20, 30];
  }

  /** With 40 slots adjacent slots are 9 degrees apart. */
  lemma SpacingFor40(i: int)
    ensures SlotAngle(i + 1, 40) - SlotAngle(i, 40) == 9.0
  {
    SlotAngleStep(i, 40);
  }
}
