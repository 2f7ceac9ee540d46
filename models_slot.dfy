// Equipment slots of the current crate: a single-occupant slot guarded by a
// validator, and a table of named item slots that forwards equip and
// unequip to the named slot and reports the items it holds.
module ModelsSlot {
  import opened Common
  import opened ModelsItem

  datatype SlotError = Full | Empty | Invalid

  /** A slot that holds at most one value, accepted only if the validator allows it. */
  class Slot<T> {
    var value: Option<T>
    const validator: T -> bool

    constructor (validator: T -> bool)
      ensures value == None && this.validator == validator
    {
      value := None;
      this.validator := validator;
    }

    /**
     * An occupied slot refuses with Full before the validator is consulted;
     * a value the validator rejects is refused with Invalid; otherwise the
     * value is stored.
     */
    method Equip(x: T) returns (r: Outcome<SlotError>)
      modifies this
      ensures old(value).Some? ==> r == Fail(Full) && value == old(value)
      ensures old(value).None? && !validator(x) ==> r == Fail(Invalid) && value == None
      ensures old(value).None? && validator(x) ==> r == Pass && value == Some(x)
    {
      if value.Some? {
        return Fail(Full);
      }
      if !validator(x) {
        return Fail(Invalid);
      }
      value := Some(x);
      r := Pass;
    }

    /** `take()`: hands back the held value and leaves the slot empty. */
    method Unequip() returns (r: Result<T, SlotError>)
      modifies this
      ensures old(value).None? ==> r == Err(Empty)
      ensures old(value).Some? ==> r == Ok(old(value).value)
      ensures value == None
    {
      if value.None? {
        r := Err(Empty);
      } else {
        r := Ok(value.value);
        value := None;
      }
    }
  }

  /** Equipping an accepted value and unequipping it again is a round trip. */
  method EquipThenUnequip<T>(slot: Slot<T>, x: T) returns (r: Result<T, SlotError>)
    requires slot.value == None && slot.validator(x)
    modifies slot
    ensures r == Ok(x) && slot.value == None
  {
    var equipped := slot.Equip(x);
    r := slot.Unequip();
  }

  datatype SlotsError = NotExists(slot: string) | SlotProblem(problem: SlotError)

  /** Item slots keyed by name; each name owns its own slot object. */
  class ItemSlots {
    var slots: map<string, Slot<Item>>
    /** The slots this table owns. */
    ghost var Repr: set<Slot<Item>>

    ghost predicate Valid()
      reads this, Repr
    {
      (forall n | n in slots :: slots[n] in Repr) &&
      forall a, b | a in slots && b in slots && a != b :: slots[a] != slots[b]
    }

    /** What every named slot holds. */
    function Contents(): (c: map<string, Option<Item>>)
      requires Valid()
      reads this, Repr
      ensures c.Keys == slots.Keys
    {
      map n | n in slots :: slots[n].value
    }

    /** The items held by occupied slots, as a multiset (slot order is unspecified). */
    ghost function EquippedItems(): multiset<Item>
      requires Valid()
      reads this, Repr
    {
      Occupied(Contents())
    }

    /** The weight of everything equipped. */
    ghost function EquippedWeight(): int
      requires Valid()
      reads this, Repr
    {
      MSum(EquippedItems(), WeightOf)
    }

    /** `ItemSlots::default()`: no slots. */
    constructor ()
      ensures Valid() && fresh(Repr)
      ensures slots == map[]
    {
      slots := map[];
      Repr := {};
    }

    /**
     * Registers `slot` under `name`, replacing any slot of that name; the
     * slot is moved in, so no other name may already own it.
     */
    method AddSlot(name: string, slot: Slot<Item>)
      requires Valid()
      requires slot !in Repr
      modifies this
      ensures Valid()
      ensures slots == old(slots)[name := slot]
      ensures Repr == old(Repr) + {slot}
      ensures Contents() == old(Contents())[name := slot.value]
      ensures name !in old(slots) ==> EquippedItems() == old(EquippedItems()) + Held(slot.value)
      ensures name in old(slots) ==>
        EquippedItems() == old(EquippedItems()) - Held(old(Contents())[name]) + Held(slot.value)
    {
      ghost var before := Contents();
      slots := slots[name := slot];
      Repr := Repr + {slot};
      assert Contents() == before[name := slot.value];
      OccupiedReplace(before, name, slot.value);
    }

    /**
     * Forwards to the named slot: an unknown name gives NotExists carrying
     * that name, and a slot refusal comes back as SlotProblem.
     */
    method Equip(item: Item, name: string) returns (r: Outcome<SlotsError>)
      requires Valid()
      modifies if name in slots then {slots[name]} else {}
      ensures Valid() && slots == old(slots)
      ensures name !in slots ==> r == Fail(NotExists(name))
      ensures name in slots && old(Contents())[name].Some? ==> r == Fail(SlotProblem(Full))
      ensures name in slots && old(Contents())[name].None? && !slots[name].validator(item) ==>
        r == Fail(SlotProblem(Invalid))
      ensures name in slots && old(Contents())[name].None? && slots[name].validator(item) ==> r == Pass
      ensures r.Pass? ==> Contents() == old(Contents())[name := Some(item)]
      ensures r.Pass? ==> EquippedItems() == old(EquippedItems()) + multiset{item}
      ensures r.Fail? ==> Contents() == old(Contents())
    {
      if name !in slots {
        return Fail(NotExists(name));
      }
      ghost var before := Contents();
      var slot := slots[name];
      var outcome := slot.Equip(item);
      if outcome.Fail? {
        r := Fail(SlotProblem(outcome.error));
        assert Contents() == before;
      } else {
        r := Pass;
        assert Contents() == before[name := Some(item)];
        OccupiedReplace(before, name, Some(item));
      }
    }

    /** Forwards to the named slot, with the same error wrapping as `Equip`. */
    method Unequip(name: string) returns (r: Result<Item, SlotsError>)
      requires Valid()
      modifies if name in slots then {slots[name]} else {}
      ensures Valid() && slots == old(slots)
      ensures name !in slots ==> r == Err(NotExists(name))
      ensures name in slots && old(Contents())[name].None? ==> r == Err(SlotProblem(Empty))
      ensures name in slots && old(Contents())[name].Some? ==> r == Ok(old(Contents())[name].value)
      ensures r.Ok? ==> Contents() == old(Contents())[name := None]
      ensures r.Ok? ==> EquippedItems() == old(EquippedItems()) - multiset{r.value}
      ensures r.Err? ==> Contents() == old(Contents())
    {
      if name !in slots {
        return Err(NotExists(name));
      }
      ghost var before := Contents();
      var slot := slots[name];
      var outcome := slot.Unequip();
      if outcome.Err? {
        r := Err(SlotProblem(outcome.error));
        assert Contents() == before;
      } else {
        r := Ok(outcome.value);
        assert Contents() == before[name := None];
        OccupiedReplace(before, name, None);
      }
    }

    /** `any` over the occupied slots' items. */
    predicate HasItemEquippedMatchingCriteria(criteria: Item -> bool)
      requires Valid()
      reads this, Repr
      ensures HasItemEquippedMatchingCriteria(criteria) <==>
        exists x :: x in EquippedItems() && criteria(x)
    {
      var c := Contents();
      var found := exists n | n in slots :: slots[n].value.Some? && criteria(slots[n].value.value);
      assert found <==> exists x :: x in EquippedItems() && criteria(x) by {
        if found {
          var n :| n in slots && slots[n].value.Some? && criteria(slots[n].value.value);
          OccupiedMember(c, slots[n].value.value);
        }
        if exists x :: x in EquippedItems() && criteria(x) {
          var x :| x in EquippedItems() && criteria(x);
          OccupiedMember(c, x);
        }
      }
      found
    }

    /** The occupied slots' items, in an unspecified order. */
    method GetEquippedItems() returns (items: seq<Item>)
      requires Valid()
      ensures multiset(items) == EquippedItems()
    {
      items := CollectOccupied(Contents());
    }

    /** The sum of the occupied slots' item weights. */
    method GetTotalWeight() returns (w: nat)
      requires Valid()
      ensures w == EquippedWeight()
    {
      var items := GetEquippedItems();
      TotalWeightOrderFree(items);
      w := TotalWeight(items);
    }
  }
}
