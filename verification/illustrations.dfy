/**
 * The slot arithmetic of the simple illustration generator: the phase
 * colouring of the cut slots, the 10 x 4 slot position table, the angles of
 * the listed cutting phases and the list of remaining slots.
 */
module Illustrations {
  import opened SlotLayout
  import NewEncoder

  /** The generator's fixed slot count. */
  const Slots: int := 40

  /** The 1-based slot numbers the reference chart lists for phases 1 and 2. */
  const Phase1Slots: seq<int> := [1, 11, 21, 31]
  const Phase2Slots: seq<int> := [6, 16, 26, 36]

  /**
   * Phase colour of a cut slot in the cutting-sequence panel: 0 on every
   * tenth slot, 1 on the other fifth slots, 2 otherwise.
   */
  function SequencePhase(i: int): (p: int)
    ensures 0 <= p <= 2
    ensures p == 0 <==> i % 10 == 0
    ensures p == 1 <==> i % 5 == 0 && i % 10 != 0
  {
    if i % 10 == 0 then 0
    else if i % 5 == 0 then 1
    else 2
  }

  /**
   * On cut slots this colouring never yields phase 1 and agrees with the
   * four-phase rule of the fabrication guide.
   */
  lemma SequencePhaseOnCutSlots(i: int)
    requires IsCut(i)
    ensures SequencePhase(i) != 1
    ensures SequencePhase(i) == NewEncoder.CuttingPhase(i)
  {
  }

  /** The cutting-sequence panel: the cut slots, each with its phase colour. */
  method CutSequencePanel(slots: int) returns (drawn: seq<PhasedSlot>)
    ensures |drawn| == |PyRange(0, slots, 2)|
    ensures forall k :: 0 <= k < |drawn| ==> drawn[k] == PhasedSlot(2 * k, SequencePhase(2 * k))
    ensures forall k :: 0 <= k < |drawn| ==> drawn[k].phase == 0 || drawn[k].phase == 2
  {
    drawn := [];
    var i := 0;
    while i < slots
      invariant 0 <= i <= if slots < 0 then 0 else slots
      invariant |drawn| == (i + 1) / 2
      invariant forall k :: 0 <= k < |drawn| ==> drawn[k] == PhasedSlot(2 * k, SequencePhase(2 * k))
    {
      if i % 2 == 0 {
        drawn := drawn + [PhasedSlot(i, SequencePhase(i))];
      }
      i := i + 1;
    }
    EvenRangeLength(slots);
    forall k | 0 <= k < |drawn| ensures drawn[k].phase == 0 || drawn[k].phase == 2 {
      SequencePhaseOnCutSlots(2 * k);
    }
  }

  /**
   * The slot position reference table: always 10 rows of 4 cells, slot
   * number `row * 4 + col + 1` while it is at most `slots`, blank after.
   */
  method SlotReferenceTable(slots: int) returns (rows: seq<seq<Cell>>)
    ensures |rows| == 10
    ensures IsSlotGrid(rows, slots, 4)
  {
    rows := [];
    var row := 0;
    while row < 10
      invariant 0 <= row <= 10
      invariant |rows| == row
      invariant IsSlotGrid(rows, slots, 4)
    {
      var line := [];
      var col := 0;
      while col < 4
        invariant 0 <= col <= 4
        invariant |line| == col
        invariant forall c :: 0 <= c < col ==> line[c] == CellAt(row * 4 + c, slots)
      {
        var slotNum := row * 4 + col + 1;
        if slotNum <= slots {
          line := line + [Filled(SlotPosition(slotNum, SlotAngle(slotNum - 1, slots)))];
        } else {
          line := line + [Blank];
        }
        col := col + 1;
      }
      GridAppend(rows, line, slots, 4);
      rows := rows + [line];
      row := row + 1;
    }
  }

  /**
   * With 40 slots the 10 x 4 table has no blank cell and lists every slot
   * number 1..40 in exactly one cell, with angle `(n - 1) * 360 / 40`.
   */
  lemma ReferenceTableFor40(rows: seq<seq<Cell>>)
    requires |rows| == 10 && IsSlotGrid(rows, Slots, 4)
    ensures forall r, c :: 0 <= r < 10 && 0 <= c < 4 ==> rows[r][c].Filled?
    ensures forall n :: 1 <= n <= Slots ==> Listed(rows, 4, n, Slots)
    ensures forall r1, c1, r2, c2 ::
      (0 <= r1 < 10 && 0 <= c1 < 4 && 0 <= r2 < 10 && 0 <= c2 < 4 &&
       rows[r1][c1] == rows[r2][c2]) ==> (r1 == r2 && c1 == c2)
  {
    GridListsEachSlotOnce(rows, Slots, 4);
  }

  /** The angles `(s - 1) * 360 / slots` of the 1-based slot numbers `ss`. */
  function SlotNumberAngles(ss: seq<int>, slots: int): (r: seq<real>)
    requires slots > 0
    ensures |r| == |ss|
    ensures forall k :: 0 <= k < |ss| ==> r[k] == SlotAngle(ss[k] - 1, slots)
  {
    if ss == [] then [] else [SlotAngle(ss[0] - 1, slots)] + SlotNumberAngles(ss[1..], slots)
  }

  /** The listed phase-1 slots sit at 0, 90, 180, 270 degrees, the phase-2 slots at 45, 135, 225, 315. */
  lemma PhaseListAnglesFor40()
    ensures SlotNumberAngles(Phase1Slots, Slots) == [0.0, 90.0, 180.0, 270.0]
    ensures SlotNumberAngles(Phase2Slots, Slots) == [45.0, 135.0, 225.0, 315.0]
  {
  }

  /** The elements of `xs` that are not in `excluded`, in order. */
  function FilterOut(xs: seq<int>, excluded: set<int>): (r: seq<int>)
    ensures |r| <= |xs|
  {
    if xs == [] then []
    else if xs[0] in excluded then FilterOut(xs[1..], excluded)
    else [xs[0]] + FilterOut(xs[1..], excluded)
  }

  /** Filtering keeps exactly the elements that are not excluded. */
  lemma {:induction false} FilterOutMembers(xs: seq<int>, excluded: set<int>)
    ensures forall x :: x in FilterOut(xs, excluded) <==> x in xs && x !in excluded
  {
    if xs != [] {
      FilterOutMembers(xs[1..], excluded);
      assert xs == [xs[0]] + xs[1..];
    }
  }

  /** Filtering keeps a strictly increasing list strictly increasing. */
  lemma {:induction false} FilterOutIncreasing(xs: seq<int>, excluded: set<int>)
    requires Increasing(xs)
    ensures Increasing(FilterOut(xs, excluded))
  {
    if xs != [] {
      var tail := xs[1..];
      assert Increasing(tail);
      FilterOutIncreasing(tail, excluded);
      FilterOutMembers(tail, excluded);
      var rest := FilterOut(tail, excluded);
      if xs[0] !in excluded {
        var r := [xs[0]] + rest;
        forall i, j | 0 <= i < j < |r| ensures r[i] < r[j] {
          assert r[j] == rest[j - 1] && rest[j - 1] in rest;
          var m :| 0 <= m < |tail| && tail[m] == r[j];
          assert r[j] == xs[m + 1];
          if i > 0 {
            assert r[i] == rest[i - 1];
          }
        }
      }
    }
  }

  /** Filtering distributes over concatenation. */
  lemma {:induction false} FilterOutAppend(a: seq<int>, b: seq<int>, excluded: set<int>)
    ensures FilterOut(a + b, excluded) == FilterOut(a, excluded) + FilterOut(b, excluded)
  {
    if a == [] {
      assert a + b == b;
    } else {
      assert (a + b)[0] == a[0];
      assert (a + b)[1..] == a[1..] + b;
      FilterOutAppend(a[1..], b, excluded);
    }
  }

  /** The slot numbers listed in phase 1 or phase 2. */
  const ListedEarlier: set<int> := set s | s in Phase1Slots + Phase2Slots

  /** `range(2, slots + 1, 2)` holds exactly the even slot numbers `2..slots`. */
  lemma {:induction false} EvenSlotNumberMembers(slots: int, x: int)
    ensures x in PyRange(2, slots + 1, 2) <==> 2 <= x <= slots && x % 2 == 0
  {
    var r := PyRange(2, slots + 1, 2);
    if 2 <= x <= slots && x % 2 == 0 {
      assert r[(x - 2) / 2] == x;
    }
  }

  /**
   * Phase 3: the 1-based even slot numbers `2..slots` not listed in phase 1
   * or 2. A number is listed exactly when it is even, lies in `2..slots` and
   * is in neither phase list; the list strictly increases, so it names each
   * such slot once.
   */
  function RemainingSlots(slots: int): (r: seq<int>)
    ensures forall x :: x in r <==>
      2 <= x <= slots && x % 2 == 0 && x !in Phase1Slots && x !in Phase2Slots
    ensures Increasing(r)
  {
    var evens := PyRange(2, slots + 1, 2);
    PyRangeIncreasing(2, slots + 1, 2);
    FilterOutIncreasing(evens, ListedEarlier);
    FilterOutMembers(evens, ListedEarlier);
    assert forall x :: x in evens <==> 2 <= x <= slots && x % 2 == 0 by {
      forall x ensures x in evens <==> 2 <= x <= slots && x % 2 == 0 {
        EvenSlotNumberMembers(slots, x);
      }
    }
    FilterOut(evens, ListedEarlier)
  }

  /**
   * The drawings cut the 0-based even indices, which are the odd slot
   * numbers; the chart's phase-1 list holds odd numbers and its phase-3
   * list even numbers, whose slots the drawings leave solid.
   */
  lemma ListedPhasesVersusDrawnCuts(slots: int)
    ensures forall i :: i in PyRange(0, slots, 2) ==> (i + 1) % 2 == 1
    ensures forall s :: s in Phase1Slots ==> s % 2 == 1
    ensures forall s :: s in RemainingSlots(slots) ==> s - 1 !in PyRange(0, slots, 2)
  {
    forall i | i in PyRange(0, slots, 2) ensures (i + 1) % 2 == 1 {
      EvenRangeMembers(slots, i);
    }
    forall s | s in RemainingSlots(slots) ensures s - 1 !in PyRange(0, slots, 2) {
      EvenRangeMembers(slots, s - 1);
    }
  }

  /** Five consecutive even numbers from `s`, as a range that stops after `s + 8`. */
  lemma EvenRunOfFive(s: int, stop: int)
    requires s + 8 < stop <= s + 10
    ensures PyRange(s, stop, 2) == [s, s + 2, s + 4, s + 6, s + 8]
  {
    var r := PyRange(s, stop, 2);
    assert |r| == 5 by {
      assert (|r| - 1) * 2 < stop - s <= |r| * 2;
    }
  }

  /** The 1-based even slot numbers of a 40-slot disk, in four runs of five. */
  lemma EvenSlotNumbersFor40()
    ensures PyRange(2, 41, 2) ==
      [2, 4, 6, 8, 10] + [12, 14, 16, 18, 20] + [22, 24, 26, 28, 30] + [32, 34, 36, 38, 40]
  {
    PyRangeSplit(22, 5, 41, 2);
    PyRangeSplit(12, 5, 41, 2);
    PyRangeSplit(2, 5, 41, 2);
    EvenRunOfFive(2, 12);
    EvenRunOfFive(12, 22);
    EvenRunOfFive(22, 32);
    EvenRunOfFive(32, 41);
  }

  /** For 40 slots the remaining list is the filter of four runs of five even numbers. */
  lemma RemainingSlotsFor40InRuns()
    ensures RemainingSlots(Slots) ==
      FilterOut([2, 4, 6, 8, 10], ListedEarlier) + FilterOut([12, 14, 16, 18, 20], ListedEarlier) +
      FilterOut([22, 24, 26, 28, 30], ListedEarlier) + FilterOut([32, 34, 36, 38, 40], ListedEarlier)
  {
    var a, b, c, d := [2, 4, 6, 8, 10], [12, 14, 16, 18, 20], [22, 24, 26, 28, 30], [32, 34, 36, 38, 40];
    EvenSlotNumbersFor40();
    FilterOutAppend(a + b + c, d, ListedEarlier);
    FilterOutAppend(a + b, c, ListedEarlier);
    FilterOutAppend(a, b, ListedEarlier);
  }

  /** The phase-1 and phase-2 lists name eight different slots. */
  lemma ListedEarlierFor40()
    ensures ListedEarlier == {1, 11, 21, 31, 6, 16, 26, 36}
  {
    assert Phase1Slots + Phase2Slots == [1, 11, 21, 31, 6, 16, 26, 36];
  }

  /** The even slots listed in phase 1 or 2 are exactly 6, 16, 26 and 36. */
  lemma ListedEvenSlotsEndInSix()
    ensures 6 in ListedEarlier && 16 in ListedEarlier && 26 in ListedEarlier && 36 in ListedEarlier
    ensures forall x :: x in ListedEarlier && x % 2 == 0 ==> x % 10 == 6
  {
    ListedEarlierFor40();
  }

  /** A run of five in which only the middle element is excluded loses just that element. */
  lemma {:induction false} FilterRunOfFive(x: int, ex: set<int>)
    requires x !in ex && x + 2 !in ex && x + 4 in ex && x + 6 !in ex && x + 8 !in ex
    ensures FilterOut([x, x + 2, x + 4, x + 6, x + 8], ex) == [x, x + 2, x + 6, x + 8]
  {
    var s0, s1, s2, s3, s4 := [x, x + 2, x + 4, x + 6, x + 8], [x + 2, x + 4, x + 6, x + 8], [x + 4, x + 6, x + 8], [x + 6, x + 8], [x + 8];
    assert s0[1..] == s1 && s1[1..] == s2 && s2[1..] == s3 && s3[1..] == s4 && s4[1..] == [];
    assert FilterOut(s4, ex) == [x + 8];
    assert FilterOut(s3, ex) == [x + 6, x + 8];
    assert FilterOut(s2, ex) == [x + 6, x + 8];
    assert FilterOut(s1, ex) == [x + 2, x + 6, x + 8];
  }

  /**
   * In each run of five even numbers only the slot ending in 6 is filtered
   * out, for any exclusion set that holds 6, 16, 26 and 36 and no other even
   * number; the phase lists form such a set.
   */
  lemma FilterRunsFor40(ex: set<int>)
    requires 6 in ex && 16 in ex && 26 in ex && 36 in ex
    requires forall x :: x in ex && x % 2 == 0 ==> x % 10 == 6
    ensures FilterOut([2, 4, 6, 8, 10], ex) == [2, 4, 8, 10]
    ensures FilterOut([12, 14, 16, 18, 20], ex) == [12, 14, 18, 20]
    ensures FilterOut([22, 24, 26, 28, 30], ex) == [22, 24, 28, 30]
    ensures FilterOut([32, 34, 36, 38, 40], ex) == [32, 34, 38, 40]
  {
    FilterRunOfFive(2, ex);
    FilterRunOfFive(12, ex);
    FilterRunOfFive(22, ex);
    FilterRunOfFive(32, ex);
  }

  /** For 40 slots phase 3 lists the sixteen even slots other than 6, 16, 26 and 36. */
  lemma ListedCutSlotsFor40()
    ensures RemainingSlots(Slots) ==
      [2, 4, 8, 10] + [12, 14, 18, 20] + [22, 24, 28, 30] + [32, 34, 38, 40]
  {
    RemainingSlotsFor40InRuns();
    ListedEvenSlotsEndInSix();
    FilterRunsFor40(ListedEarlier);
  }

  /**
   * For 40 slots the three listed phases name 24 different slots, not the
   * 20 the chart's note announces: each list strictly increases, and no
   * slot appears in two of them.
   */
  lemma ListedPhaseCountFor40()
    ensures |Phase1Slots| + |Phase2Slots| + |RemainingSlots(Slots)| == 24
    ensures Increasing(Phase1Slots) && Increasing(Phase2Slots) && Increasing(RemainingSlots(Slots))
    ensures forall s :: s in Phase1Slots ==> s !in Phase2Slots
    ensures forall s :: s in RemainingSlots(Slots) ==> s !in Phase1Slots && s !in Phase2Slots
  {
    ListedCutSlotsFor40();
  }
}
