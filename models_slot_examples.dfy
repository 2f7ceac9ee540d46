// The unit tests of the equipment slots, stated as methods whose
// postconditions are the asserted outcomes: a single slot guarded by a
// validator, and a table of named slots holding chain mail and a rapier.
module ModelsSlotExamples {
  import opened Common
  import opened ModelsItem
  import opened ModelsSlot

  predicate IsArmor(item: Item)
  {
    item.HasType("armor")
  }

  predicate IsWeapon(item: Item)
  {
    item.HasType("weapon")
  }

  const ChainMail := Item("Chain Mail", 55, ["armor"], Some(Heavy(16)))
  const Rapier := Item("Rapier", 2, ["weapon"], None)

  /** An armor slot takes an armor item. */
  method EquipValidExample() returns (r: Outcome<SlotError>, held: Option<Item>)
    ensures r == Pass && held == Some(Item("one", 0, ["armor"], None))
  {
    var slot := new Slot(IsArmor);
    r := slot.Equip(Item("one", 0, ["armor"], None));
    held := slot.value;
  }

  /** An armor slot refuses an item without the armor type and stays empty. */
  method EquipInvalidExample() returns (r: Outcome<SlotError>, held: Option<Item>)
    ensures r == Fail(Invalid) && held == None
  {
    var slot := new Slot(IsArmor);
    r := slot.Equip(Item("not armor", 0, [], None));
    held := slot.value;
  }

  /** A second item does not fit in an occupied slot, even one that accepts anything. */
  method EquipFullExample() returns (r: Outcome<SlotError>, held: Option<Item>)
    ensures r == Fail(Full) && held == Some(Item("item 1", 0, [], None))
  {
    var slot := new Slot<Item>(_ => true);
    var first := slot.Equip(Item("item 1", 0, [], None));
    r := slot.Equip(Item("item 2", 0, [], None));
    held := slot.value;
  }

  /** Nothing can be taken from an empty slot. */
  method UnequipEmptyExample() returns (r: Result<Item, SlotError>)
    ensures r == Err(Empty)
  {
    var slot := new Slot<Item>(_ => false);
    r := slot.Unequip();
  }

  /** Unequipping hands back the stored item and empties the slot. */
  method UnequipExample() returns (r: Result<Item, SlotError>, held: Option<Item>)
    ensures r == Ok(Item("dummy", 0, [], None)) && held == None
  {
    var slot := new Slot<Item>(_ => true);
    var equipped := slot.Equip(Item("dummy", 0, [], None));
    r := slot.Unequip();
    held := slot.value;
  }

  /** An unknown slot name is reported with that name, for equip and unequip alike. */
  method UnknownSlotExample() returns (r: Outcome<SlotsError>, u: Result<Item, SlotsError>)
    ensures r == Fail(NotExists("left hand")) && u == Err(NotExists("left hand"))
  {
    var e := new ItemSlots();
    r := e.Equip(Rapier, "left hand");
    u := e.Unequip("left hand");
  }

  /** Equipment whose only slot holds `x` weighs what `x` weighs. */
  lemma SingleSlotWeight(e: ItemSlots, k: string, x: Item)
    requires e.Valid() && e.Contents() == map[k := Some(x)]
    ensures e.EquippedWeight() == x.weight
  {
    OccupiedSingleton(k, Some(x));
    MSumSingleton(x, WeightOf);
  }

  /** One slot that accepts anything, holding `x`. */
  method OneFilledSlot(name: string, x: Item) returns (e: ItemSlots)
    ensures fresh(e) && e.Valid()
    ensures e.Contents() == map[name := Some(x)]
  {
    e := new ItemSlots();
    var slot := new Slot<Item>(_ => true);
    e.AddSlot(name, slot);
    var outcome := e.Equip(x, name);
    assert outcome.Pass?;
    MapOverwrite(map[], name, None, Some(x));
  }

  /** Two slots that accept anything, holding `x` and `y`. */
  method TwoFilledSlots(m: string, x: Item, n: string, y: Item) returns (e: ItemSlots)
    requires m != n
    ensures fresh(e) && e.Valid()
    ensures e.Contents() == map[m := Some(x), n := Some(y)]
  {
    e := OneFilledSlot(m, x);
    var slot := new Slot<Item>(_ => true);
    e.AddSlot(n, slot);
    var outcome := e.Equip(y, n);
    assert outcome.Pass?;
    MapOverwrite(map[m := Some(x)], n, None, Some(y));
  }

  /** Two occupied cells under distinct keys hold both items. */
  lemma OccupiedPair(m: string, x: Item, n: string, y: Item)
    requires m != n
    ensures Occupied(map[m := Some(x), n := Some(y)]) == multiset{x, y}
  {
    var one := map[m := Some(x)];
    OccupiedUpdate(one, n, Some(y));
    assert one - {n} == one;
    OccupiedSingleton(m, Some(x));
    assert one[n := Some(y)] == map[m := Some(x), n := Some(y)];
  }

  lemma MSumPair(x: Item, y: Item, f: Item -> int)
    ensures MSum(multiset{x, y}, f) == f(x) + f(y)
  {
    MSumAdd(multiset{x}, f, y);
    MSumSingleton(x, f);
    assert multiset{x} + multiset{y} == multiset{x, y};
  }

  /** An empty armor slot that takes armor only. */
  method ArmorOnly() returns (e: ItemSlots)
    ensures fresh(e) && fresh(e.Repr) && e.Valid()
    ensures "armor" in e.slots && e.slots["armor"].validator == IsArmor
    ensures e.Contents() == map["armor" := None]
    ensures e.EquippedItems() == multiset{}
  {
    e := new ItemSlots();
    assert e.EquippedItems() == multiset{};
    var armor := new Slot(IsArmor);
    e.AddSlot("armor", armor);
  }

  /** An empty armor slot and an empty right-hand slot that takes weapons only. */
  method ArmorAndHand() returns (e: ItemSlots)
    ensures fresh(e) && fresh(e.Repr) && e.Valid()
    ensures "armor" in e.slots && "right hand" in e.slots
    ensures e.slots["armor"].validator == IsArmor && e.slots["right hand"].validator == IsWeapon
    ensures e.Contents()["armor"] == None && e.Contents()["right hand"] == None
    ensures e.EquippedItems() == multiset{}
  {
    e := ArmorOnly();
    var hand := new Slot(IsWeapon);
    ghost var before := e.Contents();
    assert "right hand" !in before && before["armor"] == None;
    e.AddSlot("right hand", hand);
    assert e.Contents() == before["right hand" := None];
    assert e.EquippedItems() == multiset{} + Held(None);
  }

  /** The same slots with the rapier in the right hand. */
  method ArmedWithRapier() returns (e: ItemSlots)
    ensures fresh(e) && fresh(e.Repr) && e.Valid()
    ensures "armor" in e.slots && e.slots["armor"].validator == IsArmor && e.Contents()["armor"] == None
    ensures e.EquippedItems() == multiset{Rapier}
  {
    e := ArmorAndHand();
    var r := e.Equip(Rapier, "right hand");
    assert r == Pass;
  }

  /** A rapier in the right hand is no armor; chain mail in the armor slot is. */
  method MatchingExample() returns (before: bool, after: bool)
    ensures !before && after
  {
    var e := ArmedWithRapier();
    before := e.HasItemEquippedMatchingCriteria(IsArmor);
    var r := e.Equip(ChainMail, "armor");
    assert r == Pass;
    assert ChainMail in e.EquippedItems();
    after := e.HasItemEquippedMatchingCriteria(IsArmor);
  }

  /** Chain mail (55 lb) and a rapier (2 lb) in two slots weigh 57 lb. */
  method TotalWeightExample() returns (w: nat)
    ensures w == 57
  {
    var e := TwoFilledSlots("armor", ChainMail, "right hand", Rapier);
    OccupiedPair("armor", ChainMail, "right hand", Rapier);
    MSumPair(ChainMail, Rapier, WeightOf);
    w := e.GetTotalWeight();
  }
}
