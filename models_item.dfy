// Items of the current crate: the item record with its optional armor
// rating, the by-value item builder, and an inventory whose weight is the
// sum of its items' weights.
module ModelsItem {
  import opened Common

  datatype ArmorClass = Light(ac: nat) | Medium(ac: nat) | Heavy(ac: nat)

  datatype Item = Item(name: string, weight: nat, types: seq<string>, armorClass: Option<ArmorClass>) {
    /** `has_type`: a `contains` test on the type list. */
    predicate HasType(t: string)
    {
      t in types
    }
  }

  /** An item's weight as an integer-valued term of a sum. */
  function WeightOf(item: Item): int
  {
    item.weight
  }

  datatype ConstructionError = MissingName

  /** The item builder; every setter takes the builder by value and returns it. */
  datatype Builder = Builder(name: Option<string>, weight: Option<nat>, types: seq<string>, armorClass: Option<ArmorClass>) {

    /** An empty name is refused; any other name replaces the earlier one. */
    function Name(n: string): (r: Result<Builder, ConstructionError>)
      ensures n == "" ==> r == Err(MissingName)
      ensures n != "" ==> r.Ok? && r.value.name == Some(n)
      ensures r.Ok? ==> r.value.weight == weight && r.value.types == types && r.value.armorClass == armorClass
    {
      if n == "" then Err(MissingName) else Ok(this.(name := Some(n)))
    }

    function Weight(w: nat): (r: Result<Builder, ConstructionError>)
      ensures r.Ok? && r.value.weight == Some(w)
      ensures r.value.name == name && r.value.types == types && r.value.armorClass == armorClass
    {
      Ok(this.(weight := Some(w)))
    }

    /** Types accumulate in the order they are added. */
    function AddType(t: string): (r: Result<Builder, ConstructionError>)
      ensures r.Ok? && r.value.types == types + [t]
      ensures r.value.name == name && r.value.weight == weight && r.value.armorClass == armorClass
    {
      Ok(this.(types := types + [t]))
    }

    function WithArmorClass(ac: ArmorClass): (r: Result<Builder, ConstructionError>)
      ensures r.Ok? && r.value.armorClass == Some(ac)
      ensures r.value.name == name && r.value.weight == weight && r.value.types == types
    {
      Ok(this.(armorClass := Some(ac)))
    }

    /**
     * Fails without a name; otherwise the weight defaults to 0 and the
     * types and armor rating are carried over unchanged.
     */
    function Build(): (r: Result<Item, ConstructionError>)
      ensures r.Err? <==> name.None?
      ensures r.Err? ==> r.error == MissingName
      ensures r.Ok? ==> r.value.name == name.value && r.value.types == types && r.value.armorClass == armorClass
      ensures r.Ok? ==> r.value.weight == (if weight.Some? then weight.value else 0)
    {
      if name.None? then Err(MissingName)
      else Ok(Item(name.value, weight.GetOr(0), types, armorClass))
    }
  }

  function NewBuilder(): (b: Builder)
    ensures b.name.None? && b.weight.None? && b.types == [] && b.armorClass.None?
  {
    Builder(None, None, [], None)
  }

  /** Adds each type in turn, as a chain of `add_type` calls would. */
  function AddTypes(b: Builder, ts: seq<string>): Builder
    decreases |ts|
  {
    if ts == [] then b else AddTypes(b.AddType(ts[0]).value, ts[1..])
  }

  lemma {:induction false} AddTypesAppends(b: Builder, ts: seq<string>)
    ensures AddTypes(b, ts) == b.(types := b.types + ts)
    decreases |ts|
  {
    if ts != [] {
      AddTypesAppends(b.AddType(ts[0]).value, ts[1..]);
      assert b.types + [ts[0]] + ts[1..] == b.types + ts;
    }
  }

  /**
   * Building after `name(n)`, `weight(w)`, one `add_type` per type and
   * `armor_class(ac)` yields exactly that item, and the item then has every
   * added type and no other.
   */
  lemma BuilderRoundTrip(n: string, w: nat, ts: seq<string>, ac: ArmorClass)
    requires n != ""
    ensures var b := AddTypes(NewBuilder().Name(n).value.Weight(w).value, ts).WithArmorClass(ac).value;
            b.Build() == Ok(Item(n, w, ts, Some(ac)))
    ensures forall t :: Item(n, w, ts, Some(ac)).HasType(t) <==> t in ts
  {
    var named := NewBuilder().Name(n).value.Weight(w).value;
    AddTypesAppends(named, ts);
    assert named.types + ts == ts;
  }

  /** The sum of the weights, taken from the first item to the last. */
  function TotalWeight(items: seq<Item>): nat
  {
    if items == [] then 0 else TotalWeight(items[..|items| - 1]) + items[|items| - 1].weight
  }

  /** No item weighs more than the whole list. */
  lemma {:induction false} TotalWeightBounds(items: seq<Item>)
    ensures forall i :: 0 <= i < |items| ==> items[i].weight <= TotalWeight(items)
  {
    if items != [] {
      var init := items[..|items| - 1];
      TotalWeightBounds(init);
      assert forall i :: 0 <= i < |init| ==> items[i] == init[i];
    }
  }

  lemma TotalWeightAppend(items: seq<Item>, item: Item)
    ensures TotalWeight(items + [item]) == TotalWeight(items) + item.weight
  {
    assert (items + [item])[..|items|] == items;
  }

  /** The total weight does not depend on the order of the items. */
  lemma {:induction false} TotalWeightOrderFree(items: seq<Item>)
    ensures TotalWeight(items) == MSum(multiset(items), WeightOf)
  {
    if items != [] {
      var init := items[..|items| - 1];
      assert items == init + [items[|items| - 1]];
      TotalWeightOrderFree(init);
      MSumAdd(multiset(init), WeightOf, items[|items| - 1]);
    }
  }

  /** The weights asserted by the unit tests. */
  lemma TotalWeightExamples()
    ensures TotalWeight([]) == 0
    ensures TotalWeight([Item("one", 1, [], None), Item("two", 2, [], None), Item("three", 3, [], None)]) == 6
  {
    var items := [Item("one", 1, [], None), Item("two", 2, [], None), Item("three", 3, [], None)];
    assert items[..2][..1] == [items[0]];
  }

  /** An inventory: items in the order they were added. */
  class Items {
    var items: seq<Item>

    /** `Items::default()`. */
    constructor ()
      ensures items == []
    {
      items := [];
    }

    /** `Items(vec![..])`. */
    constructor FromItems(items: seq<Item>)
      ensures this.items == items
    {
      this.items := items;
    }

    function GetTotalWeight(): (w: nat)
      reads this
      ensures w == MSum(multiset(items), WeightOf)
    {
      TotalWeightOrderFree(items);
      TotalWeight(items)
    }

    method AddItem(item: Item)
      modifies this
      ensures items == old(items) + [item]
      ensures GetTotalWeight() == old(GetTotalWeight()) + item.weight
    {
      TotalWeightAppend(items, item);
      items := items + [item];
    }
  }
}
