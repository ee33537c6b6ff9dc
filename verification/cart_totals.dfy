/** The totals the cart hook derives from the items on every read. */
module CartTotals {
  import opened Optional
  import opened Cart

  function Quantity(i: LineItem): int {
    i.quantity
  }

  /** `(i.price || 0)`: an absent price counts as 0 (and a zero price is 0 anyway). */
  function PriceOrZero(price: Option<int>): int {
    price.GetOr(0)
  }

  function LineAmount(i: LineItem): int {
    PriceOrZero(i.price) * i.quantity
  }

  /** `totalItems`: the sum of the quantities. */
  function TotalItems(items: seq<LineItem>): int {
    SumBy(items, Quantity)
  }

  /** `totalAmount`: the sum of price times quantity, in minor units. */
  function TotalAmount(items: seq<LineItem>): int {
    SumBy(items, LineAmount)
  }

  /** In a well-formed cart every entry holds at least one unit, so there are
      at least as many units as entries, and no units exactly when no entries. */
  lemma {:induction false} TotalItemsBounds(items: seq<LineItem>)
    requires PositiveQuantities(items)
    ensures TotalItems(items) >= |items|
    ensures TotalItems(items) == 0 <==> |items| == 0
    decreases |items|
  {
    if |items| > 0 {
      TotalItemsBounds(items[..|items| - 1]);
    }
  }

  /** Every add raises the unit count by one and the amount by the price of
      the entry that received the unit: the stored price when the id was
      present, the resolved payload price when it was appended. */
  lemma AddItemTotals(s: CartState, p: AddPayload)
    ensures TotalItems(AddItem(s, p).items) == TotalItems(s.items) + 1
    ensures HasId(s.items, p.id) ==>
      TotalAmount(AddItem(s, p).items) == TotalAmount(s.items) + PriceOrZero(s.items[FindIndex(s.items, p.id)].price)
    ensures !HasId(s.items, p.id) ==>
      TotalAmount(AddItem(s, p).items) == TotalAmount(s.items) + PriceOrZero(ResolvePrice(p.price, p.defaultPrice))
  {
    var k := FindIndex(s.items, p.id);
    if k == -1 {
      AppendTotals(s.items, LineItem(p.id, p.name, ResolvePrice(p.price, p.defaultPrice), 1));
    } else {
      var e := s.items[k];
      assert AddItem(s, p).items == s.items[k := e.(quantity := e.quantity + 1)];
      BumpTotals(s.items, k);
    }
  }

  /** An appended entry adds its quantity and its line amount. */
  lemma AppendTotals(items: seq<LineItem>, e: LineItem)
    ensures TotalItems(items + [e]) == TotalItems(items) + e.quantity
    ensures TotalAmount(items + [e]) == TotalAmount(items) + LineAmount(e)
  {
    var t := items + [e];
    assert t[..|t| - 1] == items;
  }

  /** One more unit on the entry at `k` adds one unit and its price. */
  lemma BumpTotals(items: seq<LineItem>, k: int)
    requires 0 <= k < |items|
    ensures TotalItems(items[k := items[k].(quantity := items[k].quantity + 1)]) == TotalItems(items) + 1
    ensures TotalAmount(items[k := items[k].(quantity := items[k].quantity + 1)])
      == TotalAmount(items) + PriceOrZero(items[k].price)
  {
    var e := items[k];
    SumByUpdate(items, k, e.(quantity := e.quantity + 1), Quantity);
    SumByUpdate(items, k, e.(quantity := e.quantity + 1), LineAmount);
  }

  /** Taking one unit off the entry at `k` takes one unit and one unit price
      off the totals, whether the entry is deleted or decremented. */
  lemma TakeOneAtTotals(items: seq<LineItem>, k: int)
    requires 0 <= k < |items|
    ensures TotalItems(TakeOneAt(items, k)) == TotalItems(items) - 1
    ensures TotalAmount(TakeOneAt(items, k)) == TotalAmount(items) - PriceOrZero(items[k].price)
  {
    var e := items[k];
    if e.quantity == 1 {
      SumByDelete(items, k, Quantity);
      SumByDelete(items, k, LineAmount);
    } else {
      SumByUpdate(items, k, e.(quantity := e.quantity - 1), Quantity);
      SumByUpdate(items, k, e.(quantity := e.quantity - 1), LineAmount);
    }
  }

  /** Removing a present id takes one unit and one unit price off the totals;
      an absent id changes neither. */
  lemma RemoveItemTotals(s: CartState, id: string)
    ensures !HasId(s.items, id) ==>
      TotalItems(RemoveItem(s, id).items) == TotalItems(s.items) &&
      TotalAmount(RemoveItem(s, id).items) == TotalAmount(s.items)
    ensures HasId(s.items, id) ==>
      TotalItems(RemoveItem(s, id).items) == TotalItems(s.items) - 1 &&
      TotalAmount(RemoveItem(s, id).items) == TotalAmount(s.items) - PriceOrZero(s.items[FindIndex(s.items, id)].price)
  {
    var k := FindIndex(s.items, id);
    if k != -1 {
      assert RemoveItem(s, id).items == TakeOneAt(s.items, k);
      TakeOneAtTotals(s.items, k);
    }
  }

  /** Clearing the entry at `k` lowers the unit count by its quantity and the
      amount by its line amount. */
  lemma ClearItemTotals(s: CartState, k: int)
    requires UniqueIds(s.items)
    requires 0 <= k < |s.items|
    ensures TotalItems(ClearItem(s, s.items[k].id).items) == TotalItems(s.items) - s.items[k].quantity
    ensures TotalAmount(ClearItem(s, s.items[k].id).items) == TotalAmount(s.items) - LineAmount(s.items[k])
  {
    ClearItemPresent(s, k);
    SumByDelete(s.items, k, Quantity);
    SumByDelete(s.items, k, LineAmount);
  }

  /** After `clearCart` both totals are 0, whatever the cart held. */
  lemma ClearCartTotals(s: CartState)
    ensures TotalItems(ClearCart(s).items) == 0 && TotalAmount(ClearCart(s).items) == 0
  {
  }

  /** Two adds of the same 15000-priced burger to an empty cart give two units
      and 30000 in total. */
  lemma TwoAddsExample()
    ensures var p := AddPayload("item-1", "Burger", Some(15000), Some(15000), Some("r1"), Some("Test Place"));
      var s := AddItem(AddItem(Initial, p), p);
      TotalItems(s.items) == 2 && TotalAmount(s.items) == 30000
  {
    var p := AddPayload("item-1", "Burger", Some(15000), Some(15000), Some("r1"), Some("Test Place"));
    AddItemTotals(Initial, p);
    AddItemTotals(AddItem(Initial, p), p);
  }
}
