/**
 Signature slots and the positions a client proposes for them. Coordinates are exact reals.
 */
module Placement {
  import opened Common

  datatype Slot = Slot(slotId: string, page: nat, x: real, y: real, width: real, height: real, required: bool)

  datatype Position = Position(slotId: string, page: int, x: real, y: real, width: real, height: real)

  /** A position drawn on the page of its slot, with positive size, entirely inside the slot's rectangle. */
  predicate Fits(p: Position, slot: Slot) {
    && p.page == slot.page
    && p.width > 0.0 && p.height > 0.0
    && p.x >= slot.x && p.y >= slot.y
    && p.x + p.width <= slot.x + slot.width
    && p.y + p.height <= slot.y + slot.height
  }

  function Required(slots: seq<Slot>): (r: seq<Slot>)
    ensures forall s :: s in r <==> s in slots && s.required
  {
    if slots == [] then [] else (if slots[0].required then [slots[0]] else []) + Required(slots[1..])
  }

  /** How many of the positions name the slot. */
  function Naming(positions: seq<Position>, slotId: string): nat {
    if positions == [] then 0
    else (if positions[0].slotId == slotId then 1 else 0) + Naming(positions[1..], slotId)
  }

  /** The first required slot with the given id, as `required.find` picks it. */
  function FindSlot(required: seq<Slot>, slotId: string): (r: Option<Slot>)
    ensures r.Some? ==> r.value in required && r.value.slotId == slotId
    ensures r.None? ==> forall s :: s in required ==> s.slotId != slotId
  {
    if required == [] then None
    else if required[0].slotId == slotId then Some(required[0])
    else FindSlot(required[1..], slotId)
  }

  predicate InsideItsSlot(p: Position, required: seq<Slot>) {
    var slot := FindSlot(required, p.slotId);
    slot.Some? && Fits(p, slot.value)
  }

  /** The position checks of the signing command, over the slots of the published template. */
  predicate PositionsAccepted(positions: seq<Position>, slots: seq<Slot>) {
    var required := Required(slots);
    && (forall s | s in required :: Naming(positions, s.slotId) == 1)
    && |positions| == |required|
    && forall p | p in positions :: InsideItsSlot(p, required)
  }

  /** The finalizer's own gate: it asks for some fitting position per required slot and equal counts. */
  predicate PlacementsValid(positions: seq<Position>, required: seq<Slot>) {
    && required != []
    && (forall s | s in required :: exists p | p in positions :: p.slotId == s.slotId && Fits(p, s))
    && |positions| == |required|
  }
}
