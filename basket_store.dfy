/** The client's basket store: the list of items put in the basket and a
    running total of their prices. */
module ClientBasket {
  import opened Errors

  /** An item as the basket keeps it: its id and its price, if it has one. */
  datatype Item = Item(id: int, price: Option<int>)

  /** `item.price || 0`: a missing price counts as 0. */
  function PriceOf(item: Item): int
  {
    if item.price.Some? then item.price.value else 0
  }

  /** `items.reduce((sum, item) => sum + (item.price || 0), 0)`. */
  function Sum(items: seq<Item>): int
    decreases |items|
  {
    if items == [] then 0 else Sum(items[..|items| - 1]) + PriceOf(items[|items| - 1])
  }

  /** The total of two lists put end to end is the sum of their totals. */
  lemma {:induction false} SumAppend(a: seq<Item>, b: seq<Item>)
    ensures Sum(a + b) == Sum(a) + Sum(b)
    decreases |b|
  {
    if b == [] {
      assert a + b == a;
    } else {
      var b' := b[..|b| - 1];
      assert (a + b)[..|a + b| - 1] == a + b';
      SumAppend(a, b');
    }
  }

  /** `items.filter(item => item.id !== itemId)`. */
  function RemoveId(items: seq<Item>, itemId: int): (r: seq<Item>)
    ensures |r| <= |items|
    ensures forall i :: 0 <= i < |r| ==> r[i].id != itemId && r[i] in items
    ensures forall x :: x in items && x.id != itemId ==> x in r
    decreases |items|
  {
    if items == [] then []
    else (if items[0].id == itemId then [] else [items[0]]) + RemoveId(items[1..], itemId)
  }

  /** The items with id `itemId`, in order: what removeItem drops. */
  function OnlyId(items: seq<Item>, itemId: int): (r: seq<Item>)
    ensures forall i :: 0 <= i < |r| ==> r[i].id == itemId
    decreases |items|
  {
    if items == [] then []
    else (if items[0].id == itemId then [items[0]] else []) + OnlyId(items[1..], itemId)
  }

  /** Filtering a list made of two parts filters each part and keeps them in
      that order: the items kept stay in their original order. */
  lemma {:induction false} RemoveIdDistributes(a: seq<Item>, b: seq<Item>, itemId: int)
    ensures RemoveId(a + b, itemId) == RemoveId(a, itemId) + RemoveId(b, itemId)
    decreases |a|
  {
    if a == [] {
      assert a + b == b;
    } else {
      assert (a + b)[0] == a[0];
      assert (a + b)[1..] == a[1..] + b;
      RemoveIdDistributes(a[1..], b, itemId);
    }
  }

  /** Removing an id no item has leaves the list as it was. */
  lemma {:induction false} RemoveAbsentId(items: seq<Item>, itemId: int)
    requires forall i :: 0 <= i < |items| ==> items[i].id != itemId
    ensures RemoveId(items, itemId) == items
    decreases |items|
  {
    if items != [] {
      RemoveAbsentId(items[1..], itemId);
      assert [items[0]] + items[1..] == items;
    }
  }

  /** Removing an id twice is removing it once. */
  lemma RemoveIdIdempotent(items: seq<Item>, itemId: int)
    ensures RemoveId(RemoveId(items, itemId), itemId) == RemoveId(items, itemId)
  {
    RemoveAbsentId(RemoveId(items, itemId), itemId);
  }

  /** The new total after a removal is the old total less the prices of the
      items dropped. */
  lemma {:induction false} SumAfterRemove(items: seq<Item>, itemId: int)
    ensures Sum(RemoveId(items, itemId)) == Sum(items) - Sum(OnlyId(items, itemId))
    decreases |items|
  {
    if items == [] {
    } else {
      var head := [items[0]];
      SumAfterRemove(items[1..], itemId);
      assert head + items[1..] == items;
      SumAppend(head, items[1..]);
      SumAppend(if items[0].id == itemId then [] else head, RemoveId(items[1..], itemId));
      SumAppend(if items[0].id == itemId then head else [], OnlyId(items[1..], itemId));
      assert Sum(head) == PriceOf(items[0]) by {
        assert head[..0] == [];
      }
    }
  }

  class BasketStore {
    var items: seq<Item>
    var totalPrice: int

    /** The total is the sum of the item prices. */
    ghost predicate Valid()
      reads this
    {
      totalPrice == Sum(items)
    }

    constructor ()
      ensures items == [] && totalPrice == 0
      ensures Valid()
    {
      items := [];
      totalPrice := 0;
    }

    /** updateTotalPrice: recomputes the total from the items. */
    method UpdateTotalPrice()
      modifies this`totalPrice
      ensures totalPrice == Sum(items)
      ensures Valid()
    {
      var sum := 0;
      var i := 0;
      while i < |items|
        invariant 0 <= i <= |items|
        invariant sum == Sum(items[..i])
      {
        assert items[..i + 1][..i] == items[..i];
        sum := sum + PriceOf(items[i]);
        i := i + 1;
      }
      assert items[..i] == items;
      totalPrice := sum;
    }

    /** addItem: the item goes at the end, duplicates included. */
    method AddItem(item: Item)
      modifies this
      ensures items == old(items) + [item]
      ensures totalPrice == Sum(items) && Valid()
      ensures old(Valid()) ==> totalPrice == old(totalPrice) + PriceOf(item)
    {
      items := items + [item];
      UpdateTotalPrice();
      assert items[..|items| - 1] == old(items);
    }

    /** removeItem: every item with that id goes, the others stay in order. */
    method RemoveItem(itemId: int)
      modifies this
      ensures items == RemoveId(old(items), itemId)
      ensures totalPrice == Sum(items) && Valid()
      ensures old(Valid()) ==> totalPrice == old(totalPrice) - Sum(OnlyId(old(items), itemId))
    {
      SumAfterRemove(items, itemId);
      items := RemoveId(items, itemId);
      UpdateTotalPrice();
    }

    /** clearBasket. */
    method ClearBasket()
      modifies this
      ensures items == [] && totalPrice == 0
      ensures Valid()
    {
      items := [];
      totalPrice := 0;
    }
  }
}
