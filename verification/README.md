# Encoder disk slot layout — a Dafny model

The repository produces fabrication guides, drawings and reference charts for
optical encoder disks used in a water-level monitor. There are two disks: a
100 mm stainless disk with 40 slots, and a 10 mm disk with 20 alternating
opaque and transparent segments. Most of the code draws shapes or prints
prose. This project models the discrete arithmetic behind those drawings and
tables, and proves what the scripts and their texts promise about it:

- the slot angles `i * 360 / slots`;
- which slots are cut or opaque (the even 0-based indices);
- the cutting-phase schedule;
- the two-, three- and four-column slot position tables with blank padding;
- the phase-3 slot list;
- the unit bookkeeping of the resolution and arc-length figures;
- the 18-degree segments of the small template.

Four modules:

- `SlotLayout` (`slot_layout.dfy`): what the scripts share.
  - Python's `range` (`PyRange`) and the slot angle.
  - The cut/opaque parity and the row-major slot tables (`IsSlotGrid`).
  - The `for i in range(n): if i % 2 == 0` loop.
- `NewEncoder` (`new_encoder.dfy`): `documents/new_encoder.py`, the 100 mm guide generator.
- `Illustrations` (`illustrations.dfy`): `documents/generate_illustrations.py`, the simple illustration generator.
- `DiskTemplate` (`disk_template.dfy`): `documents/encoder_disk_template.py`, the 10 mm template.

Modelling choices:

- Slot indices and slot numbers are `int`.
- Angles are `real`. Python's `i * 360 / slots` is an integer product followed by a true division, so it is an exact rational here.
- `math.pi` is a parameter `pi: real` that the model never evaluates.
- The loops of the source are `method`s with loop invariants. Each returns the sequence of the things the loop draws or appends: wedge indices, table cells, table lines or labels. Each is proved against a specification function, such as `PyRange`, `CellAt`/`IsSlotGrid` or `IsTwoColumnTable`.
- `EncoderDiskGuide.__init__` only assigns its fields once. It is therefore a datatype together with the function `NewEncoderDiskGuide`.

The scripts contain several inconsistencies. The model states each one as the code has it, in a lemma:

- The stated slot radii of 70 and 85 mm lie outside the 100 mm disk. The drawing uses half of them.
- In the cutting-sequence panels the phase-1 colour is never drawn.
- The step-by-step guide cuts phase 2 at odd indices 5, 15, 25 and 35. Its "complete" panel does not show those indices as cut.
- The chart says "cut EVEN numbered slots". Slot numbers are 1-based there, but the drawings cut the 0-based even indices, which are the odd slot numbers.
- The chart's three phase lists name 24 slots, while its note announces 20.
- The inset of the small template draws its wedges 0.84 wide on a unit disk. They reach far into the hole of radius 0.8.

The scripts validate nothing: each uses fixed constants (40 or 20 slots). The loop methods of the model accept every slot count. The formulas that divide by `slots` (`SlotLayout.SlotAngle`, `SlotLayout.AnglesOf`, `NewEncoder.ResolutionMm`, `NewEncoder.ArcLengthPerSlot`, `Illustrations.SlotNumberAngles`) require it to be positive, since there Python would raise `ZeroDivisionError`. Odd counts are exactly where the two-column table goes wrong (see Findings).

## Model

| member | source | states |
|---|---|---|
| SlotLayout.PyRange | documents/new_encoder.py:833 | `range(start, stop, step)`: empty when `start >= stop`, otherwise the length bounds of a step-`step` walk below `stop`, with element `k` equal to `start + k * step` |
| SlotLayout.PyRangeIncreasing | documents/new_encoder.py:833 | the indices of a range strictly increase |
| SlotLayout.PyRangeSplit | documents/new_encoder.py:850 | a range splits at any of its own points into two consecutive ranges |
| SlotLayout.EvenRangeLength | documents/new_encoder.py:858-859 | `range(0, n, 2)` has `ceil(n / 2)` elements |
| SlotLayout.EvenRangeMembers | documents/new_encoder.py:858-859 | `x` is in `range(0, n, 2)` iff `0 <= x < n` and `x` is even |
| SlotLayout.TenStepRangeMembers | documents/new_encoder.py:833-850 | `x` is in `range(start, n, 10)` iff `start <= x < n` and `x % 10 == start` |
| SlotLayout.SlotAngle | documents/new_encoder.py:295-296 | the angle `i * 360 / slots` of a slot index below `slots` lies in `[0, 360)` |
| SlotLayout.SlotAngleStep | documents/new_encoder.py:295-296 | consecutive slot angles differ by exactly `360 / slots` |
| SlotLayout.SlotAnglesIncrease | documents/new_encoder.py:295-296 | slot angles strictly increase with the index |
| SlotLayout.AnglesOf | documents/new_encoder.py:834 | the angle list has one angle per index, each `SlotAngle` of that index |
| SlotLayout.GridListsEverySlot | documents/new_encoder.py:556-565 | a row-major grid with room for all slots lists slot `n`, with angle `(n - 1) * 360 / slots`, in some cell |
| SlotLayout.GridEntriesUnique | documents/new_encoder.py:556-565 | two cells of such a grid holding the same entry are the same cell |
| SlotLayout.GridBlankPastLastSlot | documents/new_encoder.py:559-564 | a cell is blank padding iff its position is at or past `slots` |
| SlotLayout.GridAppend | documents/new_encoder.py:556-565 | appending the row that starts at position `rows * cols` keeps the grid a row-major slot grid |
| SlotLayout.GridListsEachSlotOnce | documents/new_encoder.py:556-565 | every slot `1..slots` is listed, no entry occurs in two cells, and blanks occur exactly past the last slot |
| SlotLayout.CutSlotIndices | documents/new_encoder.py:858-859 | the loop `for i in range(n): if i % 2 == 0` selects exactly `range(0, n, 2)`: the even indices below `n` |
| SlotLayout.LayoutPanel | documents/new_encoder.py:622-641 | the layout panel draws a wedge at every index of `range(0, slots, 2)` and an angle label at every index of `range(0, slots, 10)` |
| SlotLayout.CutCountIsHalf | documents/new_encoder.py:943 | for an even slot count exactly `slots / 2` slots are cut |
| SlotLayout.LabelAnglesFor40 | documents/new_encoder.py:637-640 | with 40 slots the labelled angles are 0, 90, 180 and 270 degrees |
| SlotLayout.SpacingFor40 | documents/generate_illustrations.py:140 | with 40 slots adjacent slots are 9 degrees apart, as the chart's text says |
| NewEncoder.PulleyCircumferenceCm | documents/new_encoder.py:32 | the circumference in cm, times ten, is `pi * pulley_diameter` in mm; it is positive for a positive diameter |
| NewEncoder.ResolutionMm | documents/new_encoder.py:32-33 | `resolution_mm * slots == pi * pulley_diameter`: the divide by 10 into cm and the multiply by 10 back into mm cancel |
| NewEncoder.NewEncoderDiskGuide | documents/new_encoder.py:18-33 | the constructor's constants (100 mm disk, 40 slots, 3 mm slots, 8 mm hole, radii 70/85, 50 mm pulley), the circumference in cm, the resolution identity, and a positive resolution for positive `pi` |
| NewEncoder.CmPerSlotIsTenthOfResolution | documents/new_encoder.py:114 | the "cm per slot" figure equals `resolution_mm / 10` |
| NewEncoder.ResolutionFor40Slots | documents/new_encoder.py:31-33 | with a 50 mm pulley and 40 slots the resolution is `1.25 * pi` mm per slot |
| NewEncoder.ArcLengthPerSlot | documents/new_encoder.py:103 | the arc length `2 * pi * r * (360 / slots) / 360` times `slots` is the full circumference `2 * pi * r`, so the 360/360 factor cancels |
| NewEncoder.ArcLengthAtSensorRadius | documents/new_encoder.py:103 | at radius 77.5 mm with 40 slots one slot spans `3.875 * pi` mm |
| NewEncoder.StatedSlotRadiiOutsideDisk | documents/new_encoder.py:25-26 | the stated slot band, 70 to 85 mm in radius, starts beyond the disk's 50 mm radius |
| NewEncoder.DrawnRadiiAreHalfTheStated | documents/new_encoder.py:616-617 | the drawing's 35/42.5 mm band is half the stated radii, lies inside the disk, and has the wedge width 7.5 |
| NewEncoder.SlotPositionList | documents/new_encoder.py:294-297 | `slot_positions` has one entry per slot index, slot number `i + 1` with angle `i * 360 / slots` |
| NewEncoder.SliceBound | documents/new_encoder.py:300-301 | a Python slice bound stays within the list and is the index itself when that is in range |
| NewEncoder.PairColumns | documents/new_encoder.py:306-310 | one line per first-column entry, paired with the second column's entry at that line while there is one |
| NewEncoder.TemplateSlotTable | documents/new_encoder.py:294-310 | the table as written: `slots // 2` lines, line `k` showing slot `k + 1` and slot `slots // 2 + k + 1` while it exists |
| NewEncoder.TemplateSlotTableCorrected | documents/new_encoder.py:300-301 | the table split at `(slots + 1) // 2`: `ceil(slots / 2)` lines of the same shape |
| NewEncoder.OccurrencesInPrefix | documents/new_encoder.py:306-310 | after `m` lines, slot `n` has appeared once on the left iff `n <= m` and once on the right iff it lies in the second column's first `m` entries |
| NewEncoder.TemplateTableEvenListsEachSlotOnce | documents/new_encoder.py:294-310 | for an even slot count every line pairs two entries and each slot number `1..slots` appears exactly once |
| NewEncoder.TemplateTableOddDropsLastSlot | documents/new_encoder.py:300-310 | for an odd slot count the last slot number never appears, while every other one appears once |
| NewEncoder.TemplateTableDropsSlot3 | documents/new_encoder.py:300-310 | with 3 slots the table is the single line "Slot 1 / Slot 2" |
| NewEncoder.CorrectedTemplateTableListsEachSlotOnce | documents/new_encoder.py:300-310 | with the corrected split every slot number `1..slots` appears exactly once, for every positive slot count |
| NewEncoder.ChunkedSlotTable | documents/new_encoder.py:556-565 | the `range(0, slots, cols)` loop builds a row-major grid of `cols`-cell rows, with entries before `slots` and blanks after, and just enough rows to hold every slot |
| NewEncoder.PrintReadyTable | documents/new_encoder.py:556-565 | the print-ready table is such a grid of four cells per row, with `ceil(slots / 4)` rows |
| NewEncoder.MeasurementChartTable | documents/new_encoder.py:904-913 | the chart's table is such a grid of three number/angle pairs per row, with `ceil(slots / 3)` rows |
| NewEncoder.PrintReadyTableListsEachSlotOnce | documents/new_encoder.py:556-565 | each slot `1..slots` appears in exactly one cell of the print-ready table, and blanks occur only past the last slot |
| NewEncoder.MeasurementChartListsEachSlotOnce | documents/new_encoder.py:904-913 | the same for the three-column chart |
| NewEncoder.CuttingPhase | documents/new_encoder.py:675-682 | every index gets one phase in 0..3, each characterised both ways: phase 0 iff `i % 10 == 0`; phase 1 iff a multiple of 5 but not of 10 (so odd); phase 2 iff even but not a multiple of 10; phase 3 iff odd and not a multiple of 5 |
| NewEncoder.CutSlotsAreNeverPhaseOne | documents/new_encoder.py:677-684 | an even index is in phase 0 or 2, never in phase 1 |
| NewEncoder.PhasePanel | documents/new_encoder.py:669-688 | the cutting-sequence panel draws exactly the even indices, each coloured by its phase, and only phases 0 and 2 occur |
| NewEncoder.SteppedIndices | documents/new_encoder.py:833 | stepping `i` from `start` by `step` while below `stop` visits exactly `range(start, stop, step)` |
| NewEncoder.CuttingGuidePhases | documents/new_encoder.py:832-864 | the step-by-step guide cuts phase 1 at `range(0, slots, 10)`, phase 2 at `range(5, slots, 10)`, and shows the complete disk cut at `range(0, slots, 2)` |
| NewEncoder.PhaseRangesDisjoint | documents/new_encoder.py:833-850 | no index is cut in both phase 1 and phase 2 |
| NewEncoder.PhaseAnglesFor40 | documents/new_encoder.py:832-850 | with 40 slots phase 1 is at 0/90/180/270 degrees and phase 2 at 45/135/225/315 |
| NewEncoder.PhaseTwoSlotsAreNotCutSlots | documents/new_encoder.py:850-859 | every phase-2 index is odd, so the complete-cutting panel never shows it as cut |
| NewEncoder.ChartCutSolidCounts | documents/new_encoder.py:943 | of 40 slots, 20 are cut and 20 stay solid |
| Illustrations.SequencePhase | documents/generate_illustrations.py:98-103 | three phases: 0 iff `i % 10 == 0`, 1 iff a multiple of 5 but not of 10, otherwise 2 |
| Illustrations.SequencePhaseOnCutSlots | documents/generate_illustrations.py:92-103 | on cut slots the phase-1 branch is dead, and the phase agrees with the four-phase rule of the guide generator |
| Illustrations.CutSequencePanel | documents/generate_illustrations.py:92-108 | the panel draws exactly the even indices, each coloured 0 or 2 |
| Illustrations.SlotReferenceTable | documents/generate_illustrations.py:181-190 | always 10 rows of 4 cells, cell `(row, col)` holding slot `row * 4 + col + 1` with its angle while that is at most `slots`, blank after |
| Illustrations.ReferenceTableFor40 | documents/generate_illustrations.py:181-190 | with 40 slots no cell is blank and every slot 1..40 appears in exactly one cell |
| Illustrations.SlotNumberAngles | documents/generate_illustrations.py:197 | one angle per listed slot number `s`, namely `(s - 1) * 360 / slots` |
| Illustrations.PhaseListAnglesFor40 | documents/generate_illustrations.py:195-202 | slots [1, 11, 21, 31] sit at 0/90/180/270 degrees and [6, 16, 26, 36] at 45/135/225/315 |
| Illustrations.FilterOut | documents/generate_illustrations.py:205 | the filtered list is no longer than the input |
| Illustrations.FilterOutMembers | documents/generate_illustrations.py:205 | the filter keeps exactly the elements that are not excluded |
| Illustrations.FilterOutIncreasing | documents/generate_illustrations.py:205 | filtering keeps a strictly increasing list strictly increasing |
| Illustrations.FilterOutAppend | documents/generate_illustrations.py:205 | filtering distributes over concatenation |
| Illustrations.RemainingSlots | documents/generate_illustrations.py:205 | the phase-3 list holds a number exactly when it is even, lies in `2..slots` and is in neither phase list, and it strictly increases, so it names each such slot once |
| Illustrations.ListedPhasesVersusDrawnCuts | documents/generate_illustrations.py:205-210 | the drawn cut indices are the odd slot numbers; phase 1 lists odd numbers; every phase-3 number is a slot the drawing leaves solid |
| Illustrations.EvenRunOfFive | documents/generate_illustrations.py:205 | a range of step 2 that stops just after `s + 8` is `[s, s+2, s+4, s+6, s+8]` |
| Illustrations.EvenSlotNumbersFor40 | documents/generate_illustrations.py:205 | the even slot numbers of a 40-slot disk are 2, 4, ..., 40 |
| Illustrations.ListedEarlierFor40 | documents/generate_illustrations.py:195-205 | the phase-1 and phase-2 lists name the eight slots 1, 11, 21, 31, 6, 16, 26, 36 |
| Illustrations.FilterRunOfFive | documents/generate_illustrations.py:205 | a run of five in which only the middle number is excluded loses just that number |
| Illustrations.FilterRunsFor40 | documents/generate_illustrations.py:205 | for any exclusion set holding 6, 16, 26 and 36 and no other even number, each run of five even numbers loses only its slot ending in 6 |
| Illustrations.ListedEvenSlotsEndInSix | documents/generate_illustrations.py:195-205 | the even slots listed in phase 1 or 2 are exactly 6, 16, 26 and 36 |
| Illustrations.RemainingSlotsFor40InRuns | documents/generate_illustrations.py:205 | for 40 slots the remaining list is the filter of the four runs of five, concatenated |
| Illustrations.ListedCutSlotsFor40 | documents/generate_illustrations.py:204-206 | for 40 slots phase 3 lists 2, 4, 8, 10, 12, 14, 18, 20, 22, 24, 28, 30, 32, 34, 38, 40 |
| Illustrations.ListedPhaseCountFor40 | documents/generate_illustrations.py:195-209 | the three phase lists name 24 different slots, not the 20 of the note: each list strictly increases and no slot is in two of them |
| DiskTemplate.SegmentsMakeFullTurn | documents/encoder_disk_template.py:19-20 | 20 segments of 18 degrees make 360; the first starts at 0 and the last ends at 360 |
| DiskTemplate.SegmentsAbut | documents/encoder_disk_template.py:50-53 | each segment ends exactly where the next starts |
| DiskTemplate.SegmentOf | documents/encoder_disk_template.py:50-53 | every angle in `[0, 360)` lies in exactly one segment |
| DiskTemplate.RadiiOrdered | documents/encoder_disk_template.py:24-26 | the scaled radii are 50 > 40 > 0, and the ring between them is the scaled half-difference of the diameters |
| DiskTemplate.InsetWedgesReachIntoHole | documents/encoder_disk_template.py:315-326 | the inset's hole radius 0.8 keeps the true hole-to-disk ratio, but its 0.84-wide wedges reach in to radius exactly 0.16, inside that hole (the main template's ring, by contrast, stops at the hole's edge: see `DiskTemplate.TemplateWedges`) |
| DiskTemplate.OpaqueWedges | documents/encoder_disk_template.py:50-55 | the shared wedge loop draws 10 wedges, wedge `k` spanning segment `2k`; segment `i` is drawn iff `i` is even |
| DiskTemplate.StartInjective | documents/encoder_disk_template.py:51 | different segments start at different angles |
| DiskTemplate.TemplateWedges | documents/encoder_disk_template.py:50-55 | the main template draws 10 opaque wedges, leaving 10 transparent, each of radius 50 and ring width 10, so that each ring stops exactly at the hole's edge, on exactly the even segments |
| DiskTemplate.InsetWedges | documents/encoder_disk_template.py:321-326 | the inset draws its wedges on the same even segments, with radius 1 and width 0.84, so that each reaches inside the hole of radius 0.8 |
| DiskTemplate.DegreeMarks | documents/encoder_disk_template.py:62-72 | a radial mark at the start of each of the 20 segments, and labels `i * 18` only at `i % 5 == 0`: exactly 0, 90, 180 and 270 |

The panel loop of `SlotLayout.LayoutPanel` appears a second time, unchanged, in documents/generate_illustrations.py:54-70, and that script's "40 total (20 cut)" at documents/generate_illustrations.py:137 is the count `SlotLayout.CutCountIsHalf` states.

## Left out

- Drawing is left out: the matplotlib patches, axes, text placement, layout and colours. The model keeps only which wedge, label or cell each loop produces.
- File output, directory creation, `print` output and the `datetime.now()` timestamps are left out. They are I/O or nondeterministic.
- Floating-point trigonometry is left out:
  - `math.radians`, `math.degrees`, `np.deg2rad`, and the `cos`/`sin` label positions;
  - the angular wedge width `slot_width_angle` (documents/new_encoder.py:628, documents/generate_illustrations.py:56 and :95). The 100 mm drawings centre each wedge on its slot angle (`angle ± slot_width_angle/2`), whereas the 10 mm template starts each wedge at it; the model identifies both kinds of wedge by index;
  - the `.1f`/`.2f`/`.3f` formatting of angles and π-based values.
  A wedge is therefore identified by its slot index, or by its start angle in the 10 mm template.
- The fixed prose, checklists, tool lists and hard-coded figures such as "1.57mm per slot" and "3.927mm per pulse" are left out. They are constant strings with no logic.
- The step-by-step guide panels 0, 1 and 5 of `generate_cutting_guide` are left out. They draw outlines, radial marking lines or the finished disk without any selection beyond the `i % 2 == 0` loop that `CutSlotIndices` models.
- The Arduino LED-matrix sketch (`agosarduino/MatrixAnimation.cpp`, `.h`) is not part of this model. It consists of hardware calls and delays over constant bitmaps.
- NewEncoder.TemplateSlotTable: the lines are modelled as pairs of entries, not as the formatted text `Slot nn: aaa.a°`.
- NewEncoder.PrintReadyTable: the cells are modelled as entries and blanks, not as the padded text of each line.
- Illustrations.SlotReferenceTable: the cells are modelled as entries and blanks, not as the padded text of each line.

## Findings

| source | as written | input that shows it | evidently intended | confidence | as-written member | corrected member |
|---|---|---|---|---|---|---|
| documents/new_encoder.py:300-310 | the position list is split at `slots // 2`, and only `len(col1)` lines are printed, so for an odd slot count the second column is one entry longer than the first and its last entry is never printed | `slots = 3`: one line, "Slot 1 / Slot 2"; slot 3 is missing (latent with the fixed 40 slots) | split at `(slots + 1) // 2` (or loop over the longer column), so that every slot appears exactly once | high (not executed) | NewEncoder.TemplateSlotTable (TemplateTableOddDropsLastSlot, TemplateTableDropsSlot3) | NewEncoder.TemplateSlotTableCorrected (CorrectedTemplateTableListsEachSlotOnce) |
