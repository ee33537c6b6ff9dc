/** The cart slice: an ordered list of line items bound to one restaurant,
    changed only by the four reducers `addItem`, `removeItem`, `clearItem` and
    `clearCart`, each modelled as a pure `CartState -> payload -> CartState`
    function. */
module Cart {
  import opened Optional

  /** One line of the cart. `price` is in minor currency units; it is absent
      when the payload carried neither a price nor a default price. */
  datatype LineItem = LineItem(id: string, name: string, price: Option<int>, quantity: int)

  datatype CartState = CartState(
    items: seq<LineItem>,
    restaurantId: Option<string>,
    restaurantName: Option<string>)

  /** The payload of `addItem`, as the menu page builds it. */
  datatype AddPayload = AddPayload(
    id: string,
    name: string,
    price: Option<int>,
    defaultPrice: Option<int>,
    restaurantId: Option<string>,
    restaurantName: Option<string>)

  /** The slice's initial state: no items and no restaurant binding. */
  const Initial: CartState := CartState([], None, None)

  // ---------------------------------------------------------------------------
  // Invariants

  predicate HasId(items: seq<LineItem>, id: string) {
    exists i :: 0 <= i < |items| && items[i].id == id
  }

  predicate UniqueIds(items: seq<LineItem>) {
    forall i, j :: 0 <= i < j < |items| ==> items[i].id != items[j].id
  }

  predicate PositiveQuantities(items: seq<LineItem>) {
    forall i :: 0 <= i < |items| ==> items[i].quantity >= 1
  }

  /** What every reachable cart satisfies: one entry per id, no entry with a
      quantity below 1, and no restaurant binding once the cart is empty. */
  predicate WellFormed(s: CartState) {
    && UniqueIds(s.items)
    && PositiveQuantities(s.items)
    && (|s.items| == 0 ==> s.restaurantId == None && s.restaurantName == None)
  }

  // ---------------------------------------------------------------------------
  // Sums over the items

  /** `items.reduce((sum, i) => sum + f(i), 0)`: a left fold. */
  function SumBy(items: seq<LineItem>, f: LineItem -> int): int {
    if |items| == 0 then 0 else SumBy(items[..|items| - 1], f) + f(items[|items| - 1])
  }

  lemma {:induction false} SumByConcat(a: seq<LineItem>, b: seq<LineItem>, f: LineItem -> int)
    ensures SumBy(a + b, f) == SumBy(a, f) + SumBy(b, f)
    decreases |b|
  {
    if |b| == 0 {
      assert a + b == a;
    } else {
      var n := |b| - 1;
      assert (a + b)[..|a + b| - 1] == a + b[..n];
      SumByConcat(a, b[..n], f);
    }
  }

  lemma SumBySplit(s: seq<LineItem>, k: int, f: LineItem -> int)
    requires 0 <= k < |s|
    ensures SumBy(s, f) == SumBy(s[..k], f) + f(s[k]) + SumBy(s[k + 1..], f)
  {
    assert s == s[..k] + [s[k]] + s[k + 1..];
    SumByConcat(s[..k] + [s[k]], s[k + 1..], f);
    SumByConcat(s[..k], [s[k]], f);
    assert SumBy([s[k]], f) == f(s[k]) by {
      assert [s[k]][..0] == [];
    }
  }

  /** Replacing one entry changes a sum by the difference of its weights. */
  lemma SumByUpdate(s: seq<LineItem>, k: int, e: LineItem, f: LineItem -> int)
    requires 0 <= k < |s|
    ensures SumBy(s[k := e], f) == SumBy(s, f) - f(s[k]) + f(e)
  {
    var t := s[k := e];
    SumBySplit(s, k, f);
    SumBySplit(t, k, f);
    assert t[..k] == s[..k];
    assert t[k + 1..] == s[k + 1..];
  }

  /** Deleting one entry lowers a sum by its weight. */
  lemma SumByDelete(s: seq<LineItem>, k: int, f: LineItem -> int)
    requires 0 <= k < |s|
    ensures SumBy(s[..k] + s[k + 1..], f) == SumBy(s, f) - f(s[k])
  {
    SumBySplit(s, k, f);
    SumByConcat(s[..k], s[k + 1..], f);
  }

  /** The weight that counts an entry's quantity only when it carries `id`. */
  function QuantityIf(id: string): LineItem -> int {
    (i: LineItem) => if i.id == id then i.quantity else 0
  }

  /** How many units of `id` the cart holds: the reference view of the cart as
      a bag of ids, against which the reducers are specified. */
  function QuantityOf(items: seq<LineItem>, id: string): int {
    SumBy(items, QuantityIf(id))
  }

  lemma {:induction false} QuantityOfAbsent(items: seq<LineItem>, id: string)
    requires !HasId(items, id)
    ensures QuantityOf(items, id) == 0
    decreases |items|
  {
    if |items| > 0 {
      var n := |items| - 1;
      assert !HasId(items[..n], id) by {
        forall i | 0 <= i < n ensures items[..n][i].id != id {
          assert items[..n][i] == items[i];
        }
      }
      QuantityOfAbsent(items[..n], id);
    }
  }

  /** With unique ids, the units of `id` are the quantity of its one entry. */
  lemma QuantityOfUnique(items: seq<LineItem>, k: int)
    requires UniqueIds(items)
    requires 0 <= k < |items|
    ensures QuantityOf(items, items[k].id) == items[k].quantity
  {
    var id := items[k].id;
    var a, b := items[..k], items[k + 1..];
    SumBySplit(items, k, QuantityIf(id));
    assert !HasId(a, id) by {
      forall i | 0 <= i < |a| ensures a[i].id != id {
        assert a[i] == items[i];
      }
    }
    assert !HasId(b, id) by {
      forall i | 0 <= i < |b| ensures b[i].id != id {
        assert b[i] == items[k + 1 + i];
      }
    }
    QuantityOfAbsent(a, id);
    QuantityOfAbsent(b, id);
  }

  // ---------------------------------------------------------------------------
  // Lookup

  /** `items.findIndex((i) => i.id === id)`: the first entry carrying `id`, or -1. */
  function FindIndex(items: seq<LineItem>, id: string): (k: int)
    ensures -1 <= k < |items|
    ensures k == -1 <==> !HasId(items, id)
    ensures k >= 0 ==> items[k].id == id && forall j :: 0 <= j < k ==> items[j].id != id
  {
    if |items| == 0 then -1
    else if items[0].id == id then 0
    else
      var k := FindIndex(items[1..], id);
      if k == -1 then -1 else k + 1
  }

  /** `price ?? defaultPrice`. */
  function ResolvePrice(price: Option<int>, defaultPrice: Option<int>): Option<int> {
    if price.Some? then price else defaultPrice
  }

  /** The initial cart satisfies the invariant, holds no units of any id and
      has no restaurant binding. */
  lemma InitialEmpty()
    ensures WellFormed(Initial)
    ensures forall x :: QuantityOf(Initial.items, x) == 0
    ensures Initial.restaurantId == None && Initial.restaurantName == None
  {
  }

  // ---------------------------------------------------------------------------
  // Reducers

  /** `addItem`: bump the first entry carrying the id, or append a new entry of
      quantity 1 priced `price ?? defaultPrice`; in both cases rebind the cart to
      the payload's restaurant. */
  function AddItem(s: CartState, p: AddPayload): (r: CartState)
    ensures r.restaurantId == p.restaurantId && r.restaurantName == p.restaurantName
    ensures !HasId(s.items, p.id) ==>
      r.items == s.items + [LineItem(p.id, p.name, ResolvePrice(p.price, p.defaultPrice), 1)]
    ensures HasId(s.items, p.id) ==> |r.items| == |s.items|
    ensures forall x :: QuantityOf(r.items, x) == QuantityOf(s.items, x) + (if x == p.id then 1 else 0)
  {
    var k := FindIndex(s.items, p.id);
    if k == -1 then
      var e := LineItem(p.id, p.name, ResolvePrice(p.price, p.defaultPrice), 1);
      var items := s.items + [e];
      assert forall x :: QuantityOf(items, x) == QuantityOf(s.items, x) + QuantityIf(x)(e) by {
        forall x ensures QuantityOf(items, x) == QuantityOf(s.items, x) + QuantityIf(x)(e) {
          assert items[..|items| - 1] == s.items;
        }
      }
      CartState(items, p.restaurantId, p.restaurantName)
    else
      var e := s.items[k];
      var items := s.items[k := e.(quantity := e.quantity + 1)];
      assert forall x :: QuantityOf(items, x) == QuantityOf(s.items, x) + (if x == p.id then 1 else 0) by {
        forall x ensures QuantityOf(items, x) == QuantityOf(s.items, x) + (if x == p.id then 1 else 0) {
          SumByUpdate(s.items, k, e.(quantity := e.quantity + 1), QuantityIf(x));
        }
      }
      CartState(items, p.restaurantId, p.restaurantName)
  }

  /** One unit off the entry at `k`: the entry is deleted when it held
      exactly one, and otherwise its quantity drops by one in place. */
  function TakeOneAt(items: seq<LineItem>, k: int): seq<LineItem>
    requires 0 <= k < |items|
  {
    var e := items[k];
    if e.quantity == 1 then items[..k] + items[k + 1..]
    else items[k := e.(quantity := e.quantity - 1)]
  }

  lemma TakeOneAtQuantities(items: seq<LineItem>, k: int)
    requires 0 <= k < |items|
    ensures forall x ::
      QuantityOf(TakeOneAt(items, k), x) == QuantityOf(items, x) - (if x == items[k].id then 1 else 0)
  {
    var e := items[k];
    forall x ensures QuantityOf(TakeOneAt(items, k), x) == QuantityOf(items, x) - (if x == e.id then 1 else 0) {
      if e.quantity == 1 {
        SumByDelete(items, k, QuantityIf(x));
      } else {
        SumByUpdate(items, k, e.(quantity := e.quantity - 1), QuantityIf(x));
      }
    }
  }

  /** `removeItem`: take one unit off the first entry carrying the id, deleting
      the entry when it held exactly one; unbind the restaurant if the cart
      became empty. An absent id leaves the state as it was. */
  function RemoveItem(s: CartState, id: string): (r: CartState)
    ensures !HasId(s.items, id) ==> r == s
    ensures forall x ::
      QuantityOf(r.items, x) == QuantityOf(s.items, x) - (if x == id && HasId(s.items, id) then 1 else 0)
    ensures HasId(s.items, id) && |r.items| == 0 ==> r.restaurantId == None && r.restaurantName == None
    ensures |r.items| > 0 ==> r.restaurantId == s.restaurantId && r.restaurantName == s.restaurantName
  {
    var k := FindIndex(s.items, id);
    if k == -1 then s
    else
      var items := TakeOneAt(s.items, k);
      TakeOneAtQuantities(s.items, k);
      if |items| == 0 then CartState([], None, None)
      else s.(items := items)
  }

  /** `state.items.filter((i) => i.id !== id)`. */
  function WithoutId(items: seq<LineItem>, id: string): (r: seq<LineItem>)
    ensures |r| <= |items|
    ensures forall i :: 0 <= i < |r| ==> r[i].id != id
  {
    if |items| == 0 then []
    else
      var last := items[|items| - 1];
      WithoutId(items[..|items| - 1], id) + (if last.id != id then [last] else [])
  }

  /** `clearItem`: drop every entry carrying the id, whatever its quantity;
      unbind the restaurant if the cart is then empty. */
  function ClearItem(s: CartState, id: string): (r: CartState)
    ensures r.items == WithoutId(s.items, id)
    ensures |r.items| == 0 ==> r.restaurantId == None && r.restaurantName == None
    ensures |r.items| > 0 ==> r.restaurantId == s.restaurantId && r.restaurantName == s.restaurantName
  {
    var items := WithoutId(s.items, id);
    if |items| == 0 then CartState([], None, None)
    else s.(items := items)
  }

  /** `clearCart`: back to the initial state, whatever the cart held. */
  function ClearCart(s: CartState): (r: CartState)
    ensures WellFormed(r)
    ensures forall x :: QuantityOf(r.items, x) == 0
    ensures r.restaurantId == None && r.restaurantName == None
  {
    Initial
  }

  // ---------------------------------------------------------------------------
  // Properties of the reducers

  /** Re-adding an id that is present bumps only that entry's quantity; its
      stored name and price stay those of the first add, whatever the payload
      says, and every other entry keeps its place. */
  lemma AddItemExisting(s: CartState, p: AddPayload, k: int)
    requires UniqueIds(s.items)
    requires 0 <= k < |s.items| && s.items[k].id == p.id
    ensures |AddItem(s, p).items| == |s.items|
    ensures AddItem(s, p).items[k] == s.items[k].(quantity := s.items[k].quantity + 1)
    ensures forall i :: 0 <= i < |s.items| && i != k ==> AddItem(s, p).items[i] == s.items[i]
  {
    var j := FindIndex(s.items, p.id);
    assert s.items[j].id == s.items[k].id;
    assert j == k;
  }

  /** `removeItem` on a present id: an entry with quantity 1 is deleted and the
      rest keep their order; otherwise only its quantity drops by one. */
  lemma RemoveItemPresent(s: CartState, k: int)
    requires UniqueIds(s.items)
    requires 0 <= k < |s.items|
    ensures var r := RemoveItem(s, s.items[k].id);
      && (s.items[k].quantity == 1 ==> r.items == s.items[..k] + s.items[k + 1..])
      && (s.items[k].quantity != 1 ==> r.items == s.items[k := s.items[k].(quantity := s.items[k].quantity - 1)])
  {
    var j := FindIndex(s.items, s.items[k].id);
    assert s.items[j].id == s.items[k].id;
    assert j == k;
  }

  lemma {:induction false} WithoutIdAbsent(items: seq<LineItem>, id: string)
    requires !HasId(items, id)
    ensures WithoutId(items, id) == items
    decreases |items|
  {
    if |items| > 0 {
      var n := |items| - 1;
      assert !HasId(items[..n], id) by {
        forall i | 0 <= i < n ensures items[..n][i].id != id {
          assert items[..n][i] == items[i];
        }
      }
      WithoutIdAbsent(items[..n], id);
      assert items[..n] + [items[n]] == items;
    }
  }

  lemma {:induction false} WithoutIdConcat(a: seq<LineItem>, b: seq<LineItem>, id: string)
    ensures WithoutId(a + b, id) == WithoutId(a, id) + WithoutId(b, id)
    decreases |b|
  {
    if |b| == 0 {
      assert a + b == a;
    } else {
      var n := |b| - 1;
      assert (a + b)[..|a + b| - 1] == a + b[..n];
      WithoutIdConcat(a, b[..n], id);
    }
  }

  /** `clearItem` on a present id deletes exactly that entry, regardless of its
      quantity, and keeps the remaining entries in order. */
  lemma ClearItemPresent(s: CartState, k: int)
    requires UniqueIds(s.items)
    requires 0 <= k < |s.items|
    ensures ClearItem(s, s.items[k].id).items == s.items[..k] + s.items[k + 1..]
  {
    var id := s.items[k].id;
    var a, e, b := s.items[..k], s.items[k], s.items[k + 1..];
    assert !HasId(a, id) by {
      forall i | 0 <= i < |a| ensures a[i].id != id {
        assert a[i] == s.items[i];
      }
    }
    assert !HasId(b, id) by {
      forall i | 0 <= i < |b| ensures b[i].id != id {
        assert b[i] == s.items[k + 1 + i];
      }
    }
    assert WithoutId([e], id) == [] by {
      assert [e][..0] == [];
    }
    assert s.items == (a + [e]) + b;
    WithoutIdConcat(a + [e], b, id);
    WithoutIdConcat(a, [e], id);
    WithoutIdAbsent(a, id);
    WithoutIdAbsent(b, id);
  }

  /** `clearItem` on an absent id leaves the items as they were. */
  lemma ClearItemAbsent(s: CartState, id: string)
    requires !HasId(s.items, id)
    ensures ClearItem(s, id).items == s.items
  {
    WithoutIdAbsent(s.items, id);
  }

  lemma {:induction false} WithoutIdQuantities(items: seq<LineItem>, id: string, x: string)
    ensures QuantityOf(WithoutId(items, id), x) == if x == id then 0 else QuantityOf(items, x)
    decreases |items|
  {
    if |items| > 0 {
      var n := |items| - 1;
      var last := items[n];
      var rest := WithoutId(items[..n], id);
      WithoutIdQuantities(items[..n], id, x);
      var tail := if last.id != id then [last] else [];
      SumByConcat(rest, tail, QuantityIf(x));
      if last.id != id {
        assert [last][..0] == [];
      }
    }
  }

  /** In the bag view, `clearItem` takes every unit of the id away and leaves
      every other id's units alone. */
  lemma ClearItemQuantities(s: CartState, id: string, x: string)
    ensures QuantityOf(ClearItem(s, id).items, x) == if x == id then 0 else QuantityOf(s.items, x)
  {
    WithoutIdQuantities(s.items, id, x);
  }

  // ---------------------------------------------------------------------------
  // Invariant preservation

  lemma AddItemWellFormed(s: CartState, p: AddPayload)
    requires WellFormed(s)
    ensures WellFormed(AddItem(s, p))
  {
    var r := AddItem(s, p);
    if !HasId(s.items, p.id) {
      assert forall i :: 0 <= i < |s.items| ==> r.items[i] == s.items[i];
    } else {
      var k := FindIndex(s.items, p.id);
      assert forall i :: 0 <= i < |s.items| ==> r.items[i].id == s.items[i].id;
    }
  }

  lemma RemoveItemWellFormed(s: CartState, id: string)
    requires WellFormed(s)
    ensures WellFormed(RemoveItem(s, id))
  {
    var k := FindIndex(s.items, id);
    if k != -1 {
      RemoveItemPresent(s, k);
      var r := RemoveItem(s, id);
      if s.items[k].quantity == 1 {
        forall i | 0 <= i < |r.items|
          ensures r.items[i] == s.items[if i < k then i else i + 1]
        {
        }
      }
    }
  }

  lemma {:induction false} WithoutIdSubsequence(items: seq<LineItem>, id: string)
    ensures forall e :: e in WithoutId(items, id) ==> e in items
    ensures UniqueIds(items) ==> UniqueIds(WithoutId(items, id))
    ensures PositiveQuantities(items) ==> PositiveQuantities(WithoutId(items, id))
    decreases |items|
  {
    if |items| > 0 {
      var n := |items| - 1;
      var init := items[..n];
      WithoutIdSubsequence(init, id);
      var rest := WithoutId(init, id);
      if UniqueIds(items) {
        forall i | 0 <= i < |rest| ensures rest[i].id != items[n].id {
          assert rest[i] in init;
          var j :| 0 <= j < |init| && rest[i] == init[j];
        }
      }
    }
  }

  lemma ClearItemWellFormed(s: CartState, id: string)
    requires WellFormed(s)
    ensures WellFormed(ClearItem(s, id))
  {
    WithoutIdSubsequence(s.items, id);
  }

  /** `clearCart` lands on the one canonical empty state, whatever it starts
      from: the state a fresh session starts in. */
  lemma ClearCartCanonical(s: CartState, t: CartState)
    ensures ClearCart(s) == ClearCart(t) == Run([])
  {
  }

  // ---------------------------------------------------------------------------
  // The slice as a reducer over actions

  datatype Action = Add(payload: AddPayload) | Remove(id: string) | ClearOne(id: string) | ClearAll

  function Reduce(s: CartState, a: Action): CartState {
    match a
    case Add(p) => AddItem(s, p)
    case Remove(id) => RemoveItem(s, id)
    case ClearOne(id) => ClearItem(s, id)
    case ClearAll => ClearCart(s)
  }

  /** The state after dispatching `actions` in order from the initial state. */
  function Run(actions: seq<Action>): CartState {
    if |actions| == 0 then Initial
    else Reduce(Run(actions[..|actions| - 1]), actions[|actions| - 1])
  }

  /** Every reachable cart has unique ids, quantities of at least 1, and no
      restaurant binding when empty. */
  lemma {:induction false} RunWellFormed(actions: seq<Action>)
    ensures WellFormed(Run(actions))
    decreases |actions|
  {
    if |actions| > 0 {
      var s := Run(actions[..|actions| - 1]);
      RunWellFormed(actions[..|actions| - 1]);
      match actions[|actions| - 1]
      case Add(p) => AddItemWellFormed(s, p);
      case Remove(id) => RemoveItemWellFormed(s, id);
      case ClearOne(id) => ClearItemWellFormed(s, id);
      case ClearAll =>
    }
  }
}
