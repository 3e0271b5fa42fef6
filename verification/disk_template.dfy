/**
 * The slot arithmetic of the 10 mm encoder disk template: the module
 * constants, the scaled radii, the 20 wedges of 18 degrees of which the
 * even ones are drawn opaque (on the main template and on the small
 * reference inset) and the degree marks and labels around the rim. Opaque
 * here is the parity `IsCut` that marks a cut slot on the 100 mm disk.
 */
module DiskTemplate {
  import opened SlotLayout

  /** Physical disk diameter and centre hole diameter, in millimetres. */
  const DiskDiameter: int := 10
  const CenterHoleDiameter: int := 8

  /** Number of slots (segments) and the angle of one segment, in degrees. */
  const NumSlots: int := 20
  const SlotWidthDeg: int := 18

  /**
   * Stated width of one segment, in millimetres; only the checklist text
   * quotes it, the drawing works in degrees.
   */
  const SlotWidthMm: real := 1.5

  /** The template is drawn at ten times the physical size. */
  const ScaleFactor: int := 10

  /** Scaled radii of the disk rim and of the centre hole (true division by 2). */
  const OuterRadius: real := (DiskDiameter * ScaleFactor) as real / 2.0
  const InnerRadius: real := (CenterHoleDiameter * ScaleFactor) as real / 2.0

  /** The reference inset: a unit disk, its hole and the wedge width it draws. */
  const InsetRadius: real := 1.0
  const InsetHoleRadius: real := 0.8
  const InsetWedgeWidth: real := 0.84

  /** One wedge patch: outer radius, start and end angle in degrees, ring width. */
  datatype Wedge = Wedge(radius: real, startDeg: int, endDeg: int, width: real)

  /** Segment `i` starts at `i * 18` degrees ... */
  function SlotStart(i: int): int
  {
    i * SlotWidthDeg
  }

  /** ... and ends one segment width later. */
  function SlotEnd(i: int): int
  {
    SlotStart(i) + SlotWidthDeg
  }

  /** The 20 segments of 18 degrees make up one full turn. */
  lemma SegmentsMakeFullTurn()
    ensures NumSlots * SlotWidthDeg == 360
    ensures SlotStart(0) == 0 && SlotEnd(NumSlots - 1) == 360
  {
  }

  /** Each segment ends exactly where the next one starts: no gap, no overlap. */
  lemma SegmentsAbut(i: int)
    ensures SlotEnd(i) == SlotStart(i + 1)
  {
  }

  /**
   * The segment that contains the angle `d` (in degrees): every angle of a
   * turn lies in some segment, and in no other.
   */
  function SegmentOf(d: real): (i: int)
    requires 0.0 <= d < 360.0
    ensures 0 <= i < NumSlots
    ensures SlotStart(i) as real <= d < SlotEnd(i) as real
    ensures forall j :: SlotStart(j) as real <= d < SlotEnd(j) as real ==> j == i
  {
    (d / SlotWidthDeg as real).Floor
  }

  /**
   * The scaled rim lies outside the scaled hole, and the opaque ring between
   * them is the scaled half-difference of the two diameters.
   */
  lemma RadiiOrdered()
    ensures OuterRadius == 50.0 && InnerRadius == 40.0
    ensures OuterRadius > InnerRadius > 0.0
    ensures OuterRadius - InnerRadius ==
      ((DiskDiameter - CenterHoleDiameter) * ScaleFactor) as real / 2.0
  {
  }

  /**
   * The inset's hole keeps the true hole-to-disk ratio, but its wedges, of
   * width 0.84 on a unit radius, reach in to radius 0.16, well inside the
   * hole of radius 0.8.
   */
  lemma InsetWedgesReachIntoHole()
    ensures InsetHoleRadius == CenterHoleDiameter as real / DiskDiameter as real
    ensures InsetHoleRadius == InnerRadius / OuterRadius
    ensures InsetRadius - InsetWedgeWidth == 0.16
    ensures InsetRadius - InsetWedgeWidth < InsetHoleRadius
  {
  }

  /**
   * The wedge loop shared by the template and its inset: for every segment
   * index in `range(20)`, an opaque wedge of the given radius and ring width
   * when the index is even.
   */
  method OpaqueWedges(radius: real, width: real) returns (ws: seq<Wedge>)
    ensures |ws| == NumSlots / 2
    ensures forall k :: 0 <= k < |ws| ==> ws[k] == Wedge(radius, SlotStart(2 * k), SlotEnd(2 * k), width)
    ensures forall i :: 0 <= i < NumSlots ==> (IsCut(i) <==> DrawnAt(ws, i))
  {
    ws := [];
    var i := 0;
    while i < NumSlots
      invariant 0 <= i <= NumSlots
      invariant |ws| == (i + 1) / 2
      invariant forall k :: 0 <= k < |ws| ==> ws[k] == Wedge(radius, SlotStart(2 * k), SlotEnd(2 * k), width)
    {
      var startAngle := i * SlotWidthDeg;
      if i % 2 == 0 {
        ws := ws + [Wedge(radius, startAngle, startAngle + SlotWidthDeg, width)];
      }
      i := i + 1;
    }
    forall i | 0 <= i < NumSlots ensures IsCut(i) <==> DrawnAt(ws, i) {
      if IsCut(i) {
        assert ws[i / 2].startDeg == SlotStart(i);
      }
      if DrawnAt(ws, i) {
        var k :| 0 <= k < |ws| && ws[k].startDeg == SlotStart(i);
        StartInjective(2 * k, i);
      }
    }
  }

  /** Some wedge of `ws` starts where segment `i` starts. */
  ghost predicate DrawnAt(ws: seq<Wedge>, i: int)
  {
    exists k :: 0 <= k < |ws| && ws[k].startDeg == SlotStart(i)
  }

  /** Different segments start at different angles. */
  lemma StartInjective(i: int, j: int)
    requires SlotStart(i) == SlotStart(j)
    ensures i == j
  {
  }

  /**
   * The main template: opaque wedges on the scaled rim whose ring stops
   * exactly at the edge of the hole.
   */
  method TemplateWedges() returns (ws: seq<Wedge>)
    ensures |ws| == 10 && NumSlots - |ws| == 10
    ensures forall k :: 0 <= k < |ws| ==>
      ws[k] == Wedge(OuterRadius, SlotStart(2 * k), SlotEnd(2 * k), OuterRadius - InnerRadius)
    ensures forall k :: 0 <= k < |ws| ==> ws[k].radius - ws[k].width == InnerRadius
    ensures forall i :: 0 <= i < NumSlots ==> (IsCut(i) <==> DrawnAt(ws, i))
  {
    ws := OpaqueWedges(OuterRadius, OuterRadius - InnerRadius);
  }

  /**
   * The reference inset: the same opaque segments on a unit disk, but each
   * wedge reaches inside the drawn hole.
   */
  method InsetWedges() returns (ws: seq<Wedge>)
    ensures |ws| == 10
    ensures forall k :: 0 <= k < |ws| ==>
      ws[k] == Wedge(InsetRadius, SlotStart(2 * k), SlotEnd(2 * k), InsetWedgeWidth)
    ensures forall k :: 0 <= k < |ws| ==> ws[k].radius - ws[k].width < InsetHoleRadius
    ensures forall i :: 0 <= i < NumSlots ==> (IsCut(i) <==> DrawnAt(ws, i))
  {
    ws := OpaqueWedges(InsetRadius, InsetWedgeWidth);
  }

  /**
   * The angle marks: one radial mark at the start of every segment, and a
   * degree label `i * 18` on every fifth one, i.e. at 0, 90, 180 and 270.
   */
  method DegreeMarks() returns (marks: seq<int>, labels: seq<int>)
    ensures |marks| == NumSlots
    ensures forall i :: 0 <= i < NumSlots ==> marks[i] == SlotStart(i)
    ensures |labels| == 4
    ensures forall k :: 0 <= k < |labels| ==> labels[k] == SlotStart(5 * k) && labels[k] == 90 * k
  {
    marks, labels := [], [];
    var i := 0;
    while i < NumSlots
      invariant 0 <= i <= NumSlots
      invariant |marks| == i
      invariant forall j :: 0 <= j < i ==> marks[j] == SlotStart(j)
      invariant |labels| == (i + 4) / 5
      invariant forall k :: 0 <= k < |labels| ==> labels[k] == SlotStart(5 * k)
    {
      marks := marks + [i * SlotWidthDeg];
      if i % 5 == 0 {
        labels := labels + [i * 18];
      }
      i := i + 1;
    }
  }
}
