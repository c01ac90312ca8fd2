/** The game's items and the player who carries them. */
module Players {

  /** `Item(name, description, value=0)`. */
  datatype Item = Item(name: string, description: string, value: int)

  /** `any(item.name == name for item in items)`. */
  predicate Holds(items: seq<Item>, name: string)
    ensures Holds(items, name) <==> exists k :: 0 <= k < |items| && items[k].name == name
  {
    items != [] && (items[0].name == name || Holds(items[1..], name))
  }

  /** Adding an item to a list makes its name held and keeps every name that
      was held before. */
  lemma {:induction false} HoldsAppend(items: seq<Item>, item: Item, name: string)
    ensures Holds(items + [item], name) <==> Holds(items, name) || item.name == name
  {
    var grown := items + [item];
    if Holds(items, name) {
      var k :| 0 <= k < |items| && items[k].name == name;
      assert grown[k] == items[k];
    }
    if Holds(grown, name) {
      var k :| 0 <= k < |grown| && grown[k].name == name;
      if k < |items| {
        assert items[k] == grown[k];
      }
    }
    assert grown[|items|] == item;
  }

  /** The player: an inventory in the order items were found, health in
      percent, and the number of riddles solved. */
  class Player {
    var inventory: seq<Item>
    var health: int
    var riddlesSolved: nat

    constructor ()
      ensures inventory == [] && health == 100 && riddlesSolved == 0
    {
      inventory := [];
      health := 100;
      riddlesSolved := 0;
    }

    /** `add_item`: appends the item; nothing already carried changes. */
    method AddItem(item: Item)
      modifies this`inventory
      ensures inventory == old(inventory) + [item]
      ensures HasItem(item.name)
      ensures forall name :: old(HasItem(name)) ==> HasItem(name)
    {
      inventory := inventory + [item];
      HoldsAppend(old(inventory), item, item.name);
      forall name | old(HasItem(name)) ensures HasItem(name) {
        HoldsAppend(old(inventory), item, name);
      }
    }

    /** `has_item`: whether some carried item has this name. */
    predicate HasItem(name: string)
      reads this
    {
      Holds(inventory, name)
    }
  }
}
