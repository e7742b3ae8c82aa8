/** Lists of slots and positions: how often an id is named, and the pigeonhole on exact coverage. */
module PlacementFacts {
  import opened Common
  import opened Placement

  // ---------------------------------------------------------------- slot ids

  ghost predicate DistinctSlots(slots: seq<Slot>) {
    forall i, j | 0 <= i < j < |slots| :: slots[i].slotId != slots[j].slotId
  }

  lemma {:induction false} NamedOnce(positions: seq<Position>, slots: seq<Slot>, slotId: string)
    requires |positions| == |slots| && DistinctSlots(slots)
    requires forall i | 0 <= i < |slots| :: positions[i].slotId == slots[i].slotId
    ensures Naming(positions, slotId) == if exists i | 0 <= i < |slots| :: slots[i].slotId == slotId then 1 else 0
  {
    if slots != [] {
      NamedOnce(positions[1..], slots[1..], slotId);
      if slots[0].slotId == slotId {
        assert !exists i | 0 <= i < |slots[1..]| :: slots[1..][i].slotId == slotId;
      } else if i :| 0 <= i < |slots| && slots[i].slotId == slotId {
        assert slots[1..][i - 1].slotId == slotId;
      }
    }
  }

  lemma {:induction false} FoundAt(required: seq<Slot>, i: nat)
    requires DistinctSlots(required) && i < |required|
    ensures FindSlot(required, required[i].slotId) == Some(required[i])
  {
    if i > 0 {
      FoundAt(required[1..], i - 1);
    }
  }

  // ---------------------------------------------------------------- pigeonhole

  function SlotIds(slots: seq<Slot>): seq<string> { seq(|slots|, i requires 0 <= i < |slots| => slots[i].slotId) }

  function PositionIds(positions: seq<Position>): seq<string> {
    seq(|positions|, i requires 0 <= i < |positions| => positions[i].slotId)
  }

  function Elements(ids: seq<string>): set<string> { set id | id in ids }

  ghost predicate Distinct(ids: seq<string>) { forall i, j | 0 <= i < j < |ids| :: ids[i] != ids[j] }

  /** A list has as many elements as it is long exactly when nothing repeats. */
  lemma {:induction false} CountDistinct(ids: seq<string>)
    ensures |Elements(ids)| <= |ids| && (|Elements(ids)| == |ids| <==> Distinct(ids))
  {
    if ids != [] {
      var front, last := ids[..|ids| - 1], ids[|ids| - 1];
      CountDistinct(front);
      assert Elements(ids) == Elements(front) + {last};
      if last in front {
        assert Elements(ids) == Elements(front);
        assert !Distinct(ids);
      } else {
        assert Distinct(front) <==> Distinct(ids);
      }
    }
  }

  lemma {:induction false} NamingCounts(positions: seq<Position>, i: nat, j: nat)
    requires i < j < |positions| && positions[i].slotId == positions[j].slotId
    ensures Naming(positions, positions[i].slotId) >= 2
  {
    if i == 0 {
      NamedSomewhere(positions[1..], j - 1);
    } else {
      NamingCounts(positions[1..], i - 1, j - 1);
    }
  }

  lemma {:induction false} NamedSomewhere(positions: seq<Position>, i: nat)
    requires i < |positions|
    ensures Naming(positions, positions[i].slotId) >= 1
  {
    if i > 0 {
      NamedSomewhere(positions[1..], i - 1);
    }
  }

  lemma {:induction false} NamedBySome(positions: seq<Position>, slotId: string)
    requires Naming(positions, slotId) >= 1
    ensures exists i | 0 <= i < |positions| :: positions[i].slotId == slotId
  {
    if positions[0].slotId != slotId {
      NamedBySome(positions[1..], slotId);
      var i :| 0 <= i < |positions[1..]| && positions[1..][i].slotId == slotId;
      assert positions[i + 1].slotId == slotId;
    }
  }

  lemma PositionIdsDistinct(positions: seq<Position>, slots: seq<Slot>)
    requires PositionsAccepted(positions, slots)
    ensures Distinct(PositionIds(positions))
  {
    forall i, j | 0 <= i < j < |positions|
      ensures positions[i].slotId != positions[j].slotId
    {
      assert positions[i] in positions;
      assert InsideItsSlot(positions[i], Required(slots));
      if positions[i].slotId == positions[j].slotId {
        NamingCounts(positions, i, j);
      }
    }
  }

  lemma NamesARequiredSlot(positions: seq<Position>, slots: seq<Slot>, i: nat)
    requires PositionsAccepted(positions, slots) && i < |positions|
    ensures positions[i].slotId in SlotIds(Required(slots))
  {
    var required := Required(slots);
    assert positions[i] in positions;
    var slot := FindSlot(required, positions[i].slotId).value;
    var k :| 0 <= k < |required| && required[k] == slot;
    assert SlotIds(required)[k] == positions[i].slotId;
  }

  lemma IsNamed(positions: seq<Position>, slots: seq<Slot>, k: nat)
    requires PositionsAccepted(positions, slots) && k < |Required(slots)|
    ensures Required(slots)[k].slotId in PositionIds(positions)
  {
    assert Required(slots)[k] in Required(slots);
    NamedBySome(positions, Required(slots)[k].slotId);
    var i :| 0 <= i < |positions| && positions[i].slotId == Required(slots)[k].slotId;
    assert PositionIds(positions)[i] == Required(slots)[k].slotId;
  }

  /** Naming every required slot once with as many positions as slots leaves no room for a repeated slot id. */
  lemma AcceptedSlotsDistinct(positions: seq<Position>, slots: seq<Slot>)
    requires PositionsAccepted(positions, slots)
    ensures DistinctSlots(Required(slots))
  {
    var required := Required(slots);
    var named, asked := PositionIds(positions), SlotIds(required);
    forall i | 0 <= i < |positions|
      ensures named[i] in asked
    {
      NamesARequiredSlot(positions, slots, i);
    }
    forall k | 0 <= k < |required|
      ensures asked[k] in named
    {
      IsNamed(positions, slots, k);
    }
    assert Elements(named) == Elements(asked);
    PositionIdsDistinct(positions, slots);
    CountDistinct(named);
    CountDistinct(asked);
    forall i, j | 0 <= i < j < |required|
      ensures required[i].slotId != required[j].slotId
    {
      assert asked[i] != asked[j];
    }
  }
}
