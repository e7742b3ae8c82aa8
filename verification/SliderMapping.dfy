/**
 The H5 client's sliders mapped into the slots of a template, in exact arithmetic, and when the server accepts them.
 Coordinates are rounded to thousandths, halves upward as `Math.round` does.
 */
module SliderMapping {
  import opened Common
  import opened Placement
  import opened PlacementFacts

  function RoundHalfUp(v: real): int { (v + 0.5).Floor }

  function Rounded(v: real): real { RoundHalfUp(v * 1000.0) as real / 1000.0 }

  function Clamp(v: real, low: real, high: real): real { if v < low then low else if v > high then high else v }

  datatype Sliders = Sliders(x: real, y: real, scale: real)

  function Ratio(scale: real): real { Clamp(scale * 0.6, 0.3, 0.96) }

  /** Size and start of the mark along one side of a slot, before rounding. */
  function MarkSize(length: real, ratio: real): real { length * ratio }

  /** How far into the free room an offset between 0 and 1 leads. */
  function Shift(room: real, offset: real): real { room * offset }

  function MarkAt(start: real, length: real, ratio: real, offset: real): real {
    start + Shift(length - MarkSize(length, ratio), offset)
  }

  function Offset(slider: real): real { Clamp(slider, 0.0, 100.0) / 100.0 }

  function PlaceIn(s: Sliders, slot: Slot): Position {
    var ratio := Ratio(s.scale);
    Position(slot.slotId, slot.page,
      Rounded(MarkAt(slot.x, slot.width, ratio, Offset(s.x))), Rounded(MarkAt(slot.y, slot.height, ratio, Offset(s.y))),
      Rounded(MarkSize(slot.width, ratio)), Rounded(MarkSize(slot.height, ratio)))
  }

  function MapPlacement(s: Sliders, slots: seq<Slot>): seq<Position> {
    var required := Required(slots);
    seq(|required|, i requires 0 <= i < |required| => PlaceIn(s, required[i]))
  }

  // ---------------------------------------------------------------- rounding

  predicate Whole(v: real) { v.Floor as real == v }

  /** The fractional part a rounding decides on. */
  function Fraction(v: real): real { v - v.Floor as real }

  lemma RoundShift(n: int, v: real)
    ensures RoundHalfUp(n as real + v) == n + RoundHalfUp(v)
  {
    assert (n as real + v + 0.5).Floor == n + (v + 0.5).Floor;
  }

  lemma RoundMonotone(a: real, b: real)
    requires a <= b
    ensures RoundHalfUp(a) <= RoundHalfUp(b)
  {
  }

  lemma RoundDecides(v: real)
    ensures RoundHalfUp(v) == if Fraction(v) < 0.5 then v.Floor else v.Floor + 1
  {
  }

  /** Rounding the two parts of a whole length overshoots it exactly when both are halves. */
  lemma SplitRounds(length: int, part: real)
    ensures RoundHalfUp(length as real - part) + RoundHalfUp(part)
      == if Fraction(part) == 0.5 then length + 1 else length
  {
    RoundDecides(part);
    RoundShift(length, -part);
    RoundDecides(-part);
  }

  // ---------------------------------------------------------------- one dimension

  lemma MultiplyMonotone(a: real, x: real, y: real)
    requires a >= 0.0 && x <= y
    ensures a * x <= a * y
  {
    assert a * (y - x) == a * y - a * x;
  }

  lemma ShiftBounds(room: real, offset: real)
    requires room >= 0.0 && 0.0 <= offset <= 1.0
    ensures 0.0 <= Shift(room, offset) <= room
  {
    MultiplyMonotone(room, 0.0, offset);
    MultiplyMonotone(room, offset, 1.0);
  }

  /** The mapped start and size of one side of a slot stay inside it. */
  predicate FitsAlong(start: real, length: real, ratio: real, offset: real) {
    var at, size := Rounded(MarkAt(start, length, ratio, offset)), Rounded(MarkSize(length, ratio));
    start <= at && at + size <= start + length
  }

  predicate OnGrid(v: real) { Whole(v * 1000.0) }

  lemma RoundedUnits(v: real)
    ensures Rounded(v) * 1000.0 == RoundHalfUp(v * 1000.0) as real
    ensures Rounded(v) > 0.0 <==> RoundHalfUp(v * 1000.0) > 0
    ensures v - 0.0005 <= Rounded(v) <= v + 0.0005
  {
    var n := RoundHalfUp(v * 1000.0);
    assert n as real <= v * 1000.0 + 0.5 < n as real + 1.0;
    assert Rounded(v) * 1000.0 == n as real;
  }

  predicate GridSlot(slot: Slot) {
    OnGrid(slot.x) && OnGrid(slot.y) && OnGrid(slot.width) && OnGrid(slot.height) && slot.width > 0.0
      && slot.height > 0.0
  }

  lemma SizeBounds(length: real, scale: real)
    requires length > 0.0
    ensures 0.0 < MarkSize(length, Ratio(scale)) <= length
  {
    MultiplyMonotone(length, 0.3, Ratio(scale));
    MultiplyMonotone(length, Ratio(scale), 1.0);
    assert length * 0.3 > 0.0 && length * 1.0 == length;
  }

  /** The mapped mark exists at all: it does not round to nothing. */
  predicate Visible(slot: Slot, scale: real) {
    RoundHalfUp(MarkSize(slot.width, Ratio(scale)) * 1000.0) > 0
      && RoundHalfUp(MarkSize(slot.height, Ratio(scale)) * 1000.0) > 0
  }

  predicate NoHalves(slot: Slot, scale: real) {
    Fraction(MarkSize(slot.width, Ratio(scale)) * 1000.0) != 0.5
      && Fraction(MarkSize(slot.height, Ratio(scale)) * 1000.0) != 0.5
  }

  lemma FitsInBoth(s: Sliders, slot: Slot)
    ensures Fits(PlaceIn(s, slot), slot) <==>
      && Visible(slot, s.scale)
      && FitsAlong(slot.x, slot.width, Ratio(s.scale), Offset(s.x))
      && FitsAlong(slot.y, slot.height, Ratio(s.scale), Offset(s.y))
  {
    RoundedUnits(MarkSize(slot.width, Ratio(s.scale)));
    RoundedUnits(MarkSize(slot.height, Ratio(s.scale)));
  }

  /** Every offset is reached by some slider position, and only offsets between 0 and 1 are. */
  lemma OffsetRange(slider: real)
    ensures 0.0 <= Offset(slider) <= 1.0 && (0.0 <= slider <= 1.0 ==> Offset(100.0 * slider) == slider)
  {
  }

  // ---------------------------------------------------------------- the exact condition

  lemma RoundedMonotone(a: real, b: real)
    requires a <= b
    ensures Rounded(a) <= Rounded(b)
  {
    RoundMonotone(a * 1000.0, b * 1000.0);
    RoundedUnits(a);
    RoundedUnits(b);
  }

  /** The mark rounds into the slot at both ends of its way: at the start, and where the slider leaves no room. */
  predicate EndsFit(start: real, length: real, ratio: real) {
    var size := MarkSize(length, ratio);
    start <= Rounded(start) && Rounded(start + (length - size)) + Rounded(size) <= start + length
  }

  lemma EndsDecide(start: real, length: real, ratio: real, offset: real)
    requires EndsFit(start, length, ratio) && MarkSize(length, ratio) <= length && 0.0 <= offset <= 1.0
    ensures FitsAlong(start, length, ratio, offset)
  {
    var room := length - MarkSize(length, ratio);
    ShiftBounds(room, offset);
    RoundedMonotone(start, start + Shift(room, offset));
    RoundedMonotone(start + Shift(room, offset), start + room);
  }

  lemma AtTheEnds(start: real, length: real, ratio: real)
    ensures FitsAlong(start, length, ratio, 0.0) && FitsAlong(start, length, ratio, 1.0) ==>
      EndsFit(start, length, ratio)
  {
    assert MarkAt(start, length, ratio, 0.0) == start;
    assert MarkAt(start, length, ratio, 1.0) == start + (length - MarkSize(length, ratio));
  }

  /** The mark is visible at this size, and both ends of its way round into the slot on either side. */
  predicate TakesAll(slot: Slot, scale: real) {
    && Visible(slot, scale)
    && EndsFit(slot.x, slot.width, Ratio(scale)) && EndsFit(slot.y, slot.height, Ratio(scale))
  }

  /**
   The exact condition, for every slot: all positions of the sliders are accepted at a size exactly when no side of the
   mark rounds to zero and the two end positions round into the slot on both sides.
   */
  lemma SlotExactly(slot: Slot, scale: real)
    requires slot.width > 0.0 && slot.height > 0.0
    ensures (forall x, y :: Fits(PlaceIn(Sliders(x, y, scale), slot), slot))
      <==> TakesAll(slot, scale)
  {
    if TakesAll(slot, scale) {
      forall x, y
        ensures Fits(PlaceIn(Sliders(x, y, scale), slot), slot)
      {
        EndsSuffice(slot, Sliders(x, y, scale));
      }
    }
    if forall x, y :: Fits(PlaceIn(Sliders(x, y, scale), slot), slot) {
      EndsNeeded(slot, scale);
    }
  }

  lemma EndsSuffice(slot: Slot, s: Sliders)
    requires slot.width > 0.0 && slot.height > 0.0 && Visible(slot, s.scale)
    requires EndsFit(slot.x, slot.width, Ratio(s.scale)) && EndsFit(slot.y, slot.height, Ratio(s.scale))
    ensures Fits(PlaceIn(s, slot), slot)
  {
    OffsetRange(s.x);
    OffsetRange(s.y);
    SizeBounds(slot.width, s.scale);
    SizeBounds(slot.height, s.scale);
    EndsDecide(slot.x, slot.width, Ratio(s.scale), Offset(s.x));
    EndsDecide(slot.y, slot.height, Ratio(s.scale), Offset(s.y));
    FitsInBoth(s, slot);
  }

  lemma EndsNeeded(slot: Slot, scale: real)
    requires Fits(PlaceIn(Sliders(0.0, 0.0, scale), slot), slot)
    requires Fits(PlaceIn(Sliders(100.0, 100.0, scale), slot), slot)
    ensures Visible(slot, scale) && EndsFit(slot.x, slot.width, Ratio(scale))
    ensures EndsFit(slot.y, slot.height, Ratio(scale))
  {
    FitsInBoth(Sliders(0.0, 0.0, scale), slot);
    FitsInBoth(Sliders(100.0, 100.0, scale), slot);
    AtTheEnds(slot.x, slot.width, Ratio(scale));
    AtTheEnds(slot.y, slot.height, Ratio(scale));
  }

  // ---------------------------------------------------------------- slots on the grid of thousandths

  lemma GridRounds(v: real)
    requires OnGrid(v)
    ensures Rounded(v) == v
  {
    var n := (v * 1000.0).Floor;
    RoundShift(n, 0.0);
    assert RoundHalfUp(n as real + 0.0) == n;
    assert v * 1000.0 == n as real + 0.0;
  }

  /** On the grid the two ends fit exactly when the size is not a half. */
  lemma GridEnds(start: real, length: real, ratio: real)
    requires OnGrid(start) && OnGrid(length)
    ensures EndsFit(start, length, ratio) <==> Fraction(MarkSize(length, ratio) * 1000.0) != 0.5
  {
    var size := MarkSize(length, ratio) * 1000.0;
    var s, l := (start * 1000.0).Floor, (length * 1000.0).Floor;
    GridRounds(start);
    assert (start + (length - MarkSize(length, ratio))) * 1000.0 == s as real + (l as real - size);
    RoundShift(s, l as real - size);
    SplitRounds(l, size);
    RoundedUnits(start + (length - MarkSize(length, ratio)));
    RoundedUnits(MarkSize(length, ratio));
  }

  /**
   For a slot on the grid of thousandths: every slider position is accepted at a size exactly when no side of the mark
   is a half.
   */
  lemma GridSlotExactly(slot: Slot, scale: real)
    requires GridSlot(slot)
    ensures (forall x, y :: Fits(PlaceIn(Sliders(x, y, scale), slot), slot))
      <==> NoHalves(slot, scale) && Visible(slot, scale)
  {
    SlotExactly(slot, scale);
    GridEnds(slot.x, slot.width, Ratio(scale));
    GridEnds(slot.y, slot.height, Ratio(scale));
  }

  // ---------------------------------------------------------------- whole slots and whole percentages

  predicate WholeSlot(slot: Slot) {
    Whole(slot.x) && Whole(slot.y) && Whole(slot.width) && Whole(slot.height) && slot.width > 0.0 && slot.height > 0.0
  }

  /** The size slider: whole percentages from 50 to 160. */
  predicate SizeSlider(scale: real) { Whole(scale * 100.0) && 0.5 <= scale <= 1.6 }

  lemma WholeInt(n: int)
    ensures Whole(n as real) && (n as real).Floor == n
  {
  }

  lemma WholeOnGrid(v: real)
    requires Whole(v)
    ensures OnGrid(v)
  {
    var n := v.Floor;
    assert v * 1000.0 == (n * 1000) as real;
    WholeInt(n * 1000);
  }

  lemma WholeProduct(n: int, m: int)
    ensures n as real * m as real == (n * m) as real
    ensures n > 0 && m > 0 ==> n * m > 0
  {
  }

  lemma ScaledProduct(length: real, ratio: real, k: real)
    ensures length * ratio * k == length * (ratio * k)
  {
  }

  /** The mark of a whole percentage has a whole number of thousandths, and not zero. */
  lemma WholeSize(length: real, scale: real)
    requires Whole(length) && length > 0.0 && SizeSlider(scale)
    ensures Fraction(MarkSize(length, Ratio(scale)) * 1000.0) == 0.0
    ensures RoundHalfUp(MarkSize(length, Ratio(scale)) * 1000.0) > 0
  {
    var n, m := length.Floor, 6 * (scale * 100.0).Floor;
    assert Ratio(scale) * 1000.0 == m as real;
    ScaledProduct(length, Ratio(scale), 1000.0);
    WholeProduct(n, m);
    assert MarkSize(length, Ratio(scale)) * 1000.0 == (n * m) as real;
    WholeInt(n * m);
  }

  /** Whole-number slots: whatever the position sliders say, every whole percentage lies exactly inside. */
  lemma WholeSlotFits(s: Sliders, slot: Slot)
    requires WholeSlot(slot) && SizeSlider(s.scale)
    ensures Fits(PlaceIn(s, slot), slot)
  {
    WholeSize(slot.width, s.scale);
    WholeSize(slot.height, s.scale);
    WholeOnGrid(slot.x);
    WholeOnGrid(slot.y);
    WholeOnGrid(slot.width);
    WholeOnGrid(slot.height);
    GridSlotExactly(slot, s.scale);
    assert Fits(PlaceIn(Sliders(s.x, s.y, s.scale), slot), slot);
  }

  // ---------------------------------------------------------------- arbitrary decimals

  lemma OvershootAlong(start: real, length: real, scale: real, offset: real)
    requires length > 0.0 && 0.0 <= offset <= 1.0
    ensures var at := Rounded(MarkAt(start, length, Ratio(scale), offset));
      var size := Rounded(MarkSize(length, Ratio(scale)));
      at >= start - 0.0005 && at + size <= start + length + 0.001
  {
    SizeBounds(length, scale);
    ShiftBounds(length - MarkSize(length, Ratio(scale)), offset);
    RoundedUnits(MarkAt(start, length, Ratio(scale), offset));
    RoundedUnits(MarkSize(length, Ratio(scale)));
  }

  /** For arbitrary decimal slots the mark leaves the slot by at most a thousandth. */
  lemma OvershootBounded(s: Sliders, slot: Slot)
    requires slot.width > 0.0 && slot.height > 0.0
    ensures var p := PlaceIn(s, slot);
      && p.x >= slot.x - 0.0005 && p.x + p.width <= slot.x + slot.width + 0.001
      && p.y >= slot.y - 0.0005 && p.y + p.height <= slot.y + slot.height + 0.001
  {
    OffsetRange(s.x);
    OffsetRange(s.y);
    OvershootAlong(slot.x, slot.width, s.scale, Offset(s.x));
    OvershootAlong(slot.y, slot.height, s.scale, Offset(s.y));
  }

  /**
   The bound is not zero. A left edge rounds out of its slot exactly when it lies less than half a thousandth past the
   grid.
   */
  lemma EdgeExactly(start: real)
    ensures start <= Rounded(start) <==> !(0.0 < Fraction(start * 1000.0) < 0.5)
  {
    RoundDecides(start * 1000.0);
    RoundedUnits(start);
  }

  /** There the ends do not fit, and with the slider at zero the server refuses its own client. */
  lemma DecimalSlotMissed(slot: Slot, y: real, scale: real)
    requires 0.0 < Fraction(slot.x * 1000.0) < 0.5
    ensures !EndsFit(slot.x, slot.width, Ratio(scale)) && !Fits(PlaceIn(Sliders(0.0, y, scale), slot), slot)
  {
    EdgeExactly(slot.x);
    assert MarkAt(slot.x, slot.width, Ratio(scale), Offset(0.0)) == slot.x;
  }

  const OFF_GRID: Slot := Slot("s", 1, 0.0001, 0.0, 100.0, 50.0, true)

  /** One such slot: the signature placed at its left edge is refused, though the slot is visible. */
  lemma OffGridSlotRefused()
    ensures Visible(OFF_GRID, 1.0) && !Fits(PlaceIn(Sliders(0.0, 0.0, 1.0), OFF_GRID), OFF_GRID)
  {
    assert OFF_GRID.x * 1000.0 == 0.1 && (0.1).Floor == 0;
    DecimalSlotMissed(OFF_GRID, 0.0, 1.0);
    assert MarkSize(100.0, Ratio(1.0)) * 1000.0 == 60000.0 && MarkSize(50.0, Ratio(1.0)) * 1000.0 == 30000.0;
  }

  // ---------------------------------------------------------------- what the sliders mean

  /** Sliders as the page offers them: positions in percent of the way, sizes from 50 to 160 percent. */
  predicate Offered(s: Sliders) { 0.0 <= s.x <= 100.0 && 0.0 <= s.y <= 100.0 && 0.5 <= s.scale <= 1.6 }

  predicate Near(a: real, b: real) { b - 0.0005 <= a <= b + 0.0005 }

  /** Before rounding a mark covers sixty percent of a side, times the size of the slider. */
  lemma MarkCovers(length: real, scale: real)
    requires 0.5 <= scale <= 1.6
    ensures Ratio(scale) * 100.0 == 60.0 * scale
    ensures MarkSize(length, Ratio(scale)) * 100.0 == length * (60.0 * scale)
  {
    ScaledBy(length, Ratio(scale), 100.0);
  }

  lemma ScaledBy(length: real, ratio: real, percent: real)
    ensures length * ratio * percent == length * (ratio * percent)
  {
  }

  /** And a slider leads as many percent into the room beside it: at 0 to the start, at 100 flush with the end. */
  lemma MarkStarts(start: real, length: real, scale: real, slider: real)
    requires 0.5 <= scale <= 1.6 && 0.0 <= slider <= 100.0
    ensures var room := length - MarkSize(length, Ratio(scale));
      && (MarkAt(start, length, Ratio(scale), Offset(slider)) - start) * 100.0 == room * slider
      && (slider == 0.0 ==> MarkAt(start, length, Ratio(scale), Offset(slider)) == start)
      && (slider == 100.0 ==>
            MarkAt(start, length, Ratio(scale), Offset(slider)) + MarkSize(length, Ratio(scale)) == start + length)
  {
    var room := length - MarkSize(length, Ratio(scale));
    ScaledBy(room, Offset(slider), 100.0);
    assert Offset(slider) * 100.0 == slider;
  }

  /** The position the client sends, to within half a thousandth; the horizontal slider moves it along the width. */
  lemma PlacedAsOffered(s: Sliders, slot: Slot)
    requires Offered(s)
    ensures var p := PlaceIn(s, slot);
      && p.slotId == slot.slotId && p.page == slot.page
      && Near(p.width, slot.width * (60.0 * s.scale) / 100.0) && Near(p.height, slot.height * (60.0 * s.scale) / 100.0)
      && Near(p.x, slot.x + (slot.width - MarkSize(slot.width, Ratio(s.scale))) * s.x / 100.0)
      && Near(p.y, slot.y + (slot.height - MarkSize(slot.height, Ratio(s.scale))) * s.y / 100.0)
  {
    MarkCovers(slot.width, s.scale);
    MarkCovers(slot.height, s.scale);
    MarkStarts(slot.x, slot.width, s.scale, s.x);
    MarkStarts(slot.y, slot.height, s.scale, s.y);
    RoundedUnits(MarkSize(slot.width, Ratio(s.scale)));
    RoundedUnits(MarkSize(slot.height, Ratio(s.scale)));
    RoundedUnits(MarkAt(slot.x, slot.width, Ratio(s.scale), Offset(s.x)));
    RoundedUnits(MarkAt(slot.y, slot.height, Ratio(s.scale), Offset(s.y)));
  }

  /** Sliders that leave their range count as the end they passed. */
  lemma OutsideCountsAsEnd(s: Sliders, slot: Slot)
    ensures PlaceIn(s, slot)
      == PlaceIn(Sliders(Clamp(s.x, 0.0, 100.0), Clamp(s.y, 0.0, 100.0), Clamp(s.scale, 0.5, 1.6)), slot)
  {
  }

  // ---------------------------------------------------------------- the whole command

  /** One setting of the sliders: the command is accepted exactly when no id repeats and every mark fits its slot. */
  lemma CommandAt(s: Sliders, slots: seq<Slot>)
    ensures PositionsAccepted(MapPlacement(s, slots), slots)
      <==> DistinctSlots(Required(slots)) && forall slot | slot in Required(slots) :: Fits(PlaceIn(s, slot), slot)
  {
    var required, positions := Required(slots), MapPlacement(s, slots);
    if PositionsAccepted(positions, slots) {
      AcceptedSlotsDistinct(positions, slots);
      forall slot | slot in required
        ensures Fits(PlaceIn(s, slot), slot)
      {
        var i :| 0 <= i < |required| && required[i] == slot;
        FoundAt(required, i);
        assert positions[i] in positions;
      }
    }
    if DistinctSlots(required) && forall slot | slot in required :: Fits(PlaceIn(s, slot), slot) {
      FittingIsAccepted(s, slots);
    }
  }

  lemma FittingIsAccepted(s: Sliders, slots: seq<Slot>)
    requires DistinctSlots(Required(slots))
    requires forall slot | slot in Required(slots) :: Fits(PlaceIn(s, slot), slot)
    ensures PositionsAccepted(MapPlacement(s, slots), slots)
  {
    var required, positions := Required(slots), MapPlacement(s, slots);
    forall slot | slot in required
      ensures Naming(positions, slot.slotId) == 1
    {
      NamedOnce(positions, required, slot.slotId);
    }
    forall p | p in positions
      ensures InsideItsSlot(p, required)
    {
      var i :| 0 <= i < |positions| && positions[i] == p;
      FoundAt(required, i);
    }
  }

  /**
   The whole command, for arbitrary slots: it is accepted at every setting of the position sliders exactly when the
   required slot ids are distinct and every required slot is visible and takes both ends on either side.
   */
  lemma CommandExactly(slots: seq<Slot>, scale: real)
    requires forall slot | slot in Required(slots) :: slot.width > 0.0 && slot.height > 0.0
    ensures (forall x, y :: PositionsAccepted(MapPlacement(Sliders(x, y, scale), slots), slots))
      <==> DistinctSlots(Required(slots)) && forall slot | slot in Required(slots) :: TakesAll(slot, scale)
  {
    if forall x, y :: PositionsAccepted(MapPlacement(Sliders(x, y, scale), slots), slots) {
      CommandAt(Sliders(0.0, 0.0, scale), slots);
      forall slot | slot in Required(slots)
        ensures TakesAll(slot, scale)
      {
        CommandAt(Sliders(100.0, 100.0, scale), slots);
        EndsNeeded(slot, scale);
      }
    }
    if DistinctSlots(Required(slots)) && forall slot | slot in Required(slots) :: TakesAll(slot, scale) {
      forall x, y
        ensures PositionsAccepted(MapPlacement(Sliders(x, y, scale), slots), slots)
      {
        forall slot | slot in Required(slots)
          ensures Fits(PlaceIn(Sliders(x, y, scale), slot), slot)
        {
          EndsSuffice(slot, Sliders(x, y, scale));
        }
        CommandAt(Sliders(x, y, scale), slots);
      }
    }
  }

  /** The client's command covers every required slot once and passes the server's position checks. */
  lemma SlidersAccepted(s: Sliders, slots: seq<Slot>)
    requires SizeSlider(s.scale) && DistinctSlots(Required(slots))
    requires forall slot | slot in Required(slots) :: WholeSlot(slot)
    ensures PositionsAccepted(MapPlacement(s, slots), slots)
  {
    forall slot | slot in Required(slots)
      ensures Fits(PlaceIn(s, slot), slot)
    {
      WholeSlotFits(s, slot);
    }
    CommandAt(s, slots);
  }
}
