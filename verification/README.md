# Foodie client state, in Dafny

This project models the client-side state logic of a small food-ordering web
client, as pure functions over immutable data, and proves properties about it.
It covers three parts:

- **The cart slice and its totals.** An ordered list of line items
  `{id, name, price, quantity}` plus a restaurant binding. There are four
  reducers: `addItem`, `removeItem`, `clearItem` and `clearCart`. The
  `totalItems` and `totalAmount` figures are computed from the items on every
  read. Modules `Cart` (`cart.dfy`) and `CartTotals` (`cart_totals.dfy`).
- **The restaurant-list slice.** It holds the full fetched list and a visible
  list, a top-rated filter, a sort option, and loading and error flags. Six
  reducers re-derive the visible list with `applyFiltersAndSort`. Modules
  `RestaurantSort` (`restaurant_sort.dfy`), `RestaurantSlice`
  (`restaurant_slice.dfy`) and `LocaleOrder` (`locale_order.dfy`).
- **Menu flattening.** `getItemCardsFromMenu` collects item cards from a
  two-level optional JSON structure. Module `MenuHelpers` (`menu_helpers.dfy`).

Each reducer is a function `State -> payload -> State`. Fields that may be
`null` or `undefined` in JavaScript are `Option` values (module `Optional`,
`optional.dfy`).

Modelling choices:

- **Prices** are integers in minor units. An absent price is a `None`.
- **Quantities** are `int`, not `nat`, so that every reducer is total on any
  state, as in the source. The invariant `WellFormed` adds "quantity at least
  1" and "ids unique", and it is proved for every reachable cart.
- **Reference view of the cart.** `Cart.QuantityOf(items, id)` is the total
  number of units of `id` in the cart: the cart seen as a bag of ids. Each
  reducer is specified against this view as well as structurally. The view's
  laws hold even for carts that break the invariant.
- **Ratings** are integers in tenths of a star. The source's
  `parseFloat(x || 0)` becomes "a missing value reads as 0". The top-rated
  threshold 4.0 is 40.
- **Missing sort keys.** A missing cost or delivery time reads as 0. A missing
  name reads as `""`.
- **Name comparison.** `localeCompare` becomes plain lexicographic order on
  characters (`LocaleOrder.Compare`), which is proved antisymmetric and
  transitive.
- **Sorting** is an insertion sort, because `Array.prototype.sort` is stable.
  The model proves the sort stable too: restaurants that tie under the chosen
  option keep their input order.
- **Sort options** are the strings of `SORT_OPTIONS`. Any value other than the
  seven sort keys leaves the order alone, exactly like `default`.

Two behaviours of the code are worth stating plainly:

- **Missing price.** A payload with neither a price nor a default price
  stores an absent price: the entry keeps `price ?? defaultPrice` as it is.
  Only `totalAmount` reads the absent price as 0 (`i.price || 0`).
- **Restaurant binding.** The code guarantees only that an empty cart has no
  binding. `addItem` copies whatever `restaurantId` and `restaurantName` the
  payload carries, even absent ones, and never rejects an item from another
  restaurant. That check lives only in the menu page
  (`src/pages/RestaurantDetailPage.js:73-74`).

## Model

| member | source | states |
|---|---|---|
| Cart.InitialEmpty | src/store/slices/cartSlice.js:3-7 | `Cart.Initial` models `initialState`: the cart starts with no units of any id and no restaurant binding, and it satisfies the cart invariant |
| Cart.ResolvePrice | src/store/slices/cartSlice.js:22 | definition: `price ?? defaultPrice`, the payload price when present, otherwise the default price, which may itself be absent |
| Cart.FindIndex | src/store/slices/cartSlice.js:31 | `findIndex` gives -1 exactly when no entry carries the id; otherwise it gives the first entry carrying it |
| Cart.AddItem | src/store/slices/cartSlice.js:13-28 | the cart binds to the payload's restaurant whatever the prior binding; a new id is appended with quantity 1 and price `price ?? defaultPrice` after the unchanged earlier entries; a present id keeps the length; the units of that id rise by 1 and no other id's units change |
| Cart.AddItemExisting | src/store/slices/cartSlice.js:15-17 | re-adding a present id raises only that entry's quantity by 1; its stored price and name stay as first added, whatever price the payload carries; every other entry keeps its place |
| Cart.RemoveItem | src/store/slices/cartSlice.js:29-42 | an absent id leaves the state unchanged; a present id loses exactly one unit and no other id's units change; a cart emptied by the removal has no restaurant binding; a non-empty result keeps the binding |
| Cart.RemoveItemPresent | src/store/slices/cartSlice.js:33-37 | an entry with quantity 1 is deleted and the rest keep their order; otherwise only its quantity drops by 1 |
| Cart.WithoutId | src/store/slices/cartSlice.js:45 | the filter keeps no entry carrying the id and never grows the list |
| Cart.ClearItem | src/store/slices/cartSlice.js:43-50 | the items become the filtered list; an empty result has no restaurant binding; a non-empty result keeps it |
| Cart.ClearItemPresent | src/store/slices/cartSlice.js:45 | with unique ids, clearing a present id deletes exactly its entry, whatever its quantity, and keeps the other entries in order |
| Cart.ClearItemAbsent | src/store/slices/cartSlice.js:45 | clearing an absent id leaves the items unchanged |
| Cart.ClearItemQuantities | src/store/slices/cartSlice.js:45 | clearing takes every unit of the id and leaves other ids' units alone |
| Cart.ClearCart | src/store/slices/cartSlice.js:51 | the result holds no units of any id and has no restaurant binding, and it satisfies the cart invariant |
| Cart.ClearCartCanonical | src/store/slices/cartSlice.js:3-7 | `clearCart` gives the same state from any two starting states, and that state is the initial one |
| Cart.QuantityOfUnique | src/store/slices/cartSlice.js:15 | with unique ids, the units of an id are the quantity of its single entry |
| Cart.AddItemWellFormed | src/store/slices/cartSlice.js:13-28 | `addItem` keeps ids unique and quantities at least 1 |
| Cart.RemoveItemWellFormed | src/store/slices/cartSlice.js:29-42 | `removeItem` keeps ids unique, quantities at least 1, and no binding on an empty cart |
| Cart.ClearItemWellFormed | src/store/slices/cartSlice.js:43-50 | `clearItem` keeps ids unique, quantities at least 1, and no binding on an empty cart |
| Cart.RunWellFormed | src/store/slices/cartSlice.js:3-51 | every cart reachable from the initial state by any sequence of the four actions has unique ids, quantities at least 1, and no binding when empty |
| CartTotals.TotalItems | src/hooks/useCart.js:11 | definition: left fold of `quantity` over the items, starting from 0 |
| CartTotals.PriceOrZero | src/hooks/useCart.js:12 | definition: the price with an absent one read as 0, as the line's "or 0" default does |
| CartTotals.TotalAmount | src/hooks/useCart.js:12 | definition: left fold of price-or-0 times `quantity` over the items, starting from 0 |
| CartTotals.TotalItemsBounds | src/hooks/useCart.js:11 | with quantities at least 1, `totalItems` is at least the number of entries and is 0 exactly when the cart is empty |
| CartTotals.AddItemTotals | src/hooks/useCart.js:11-12 | every add raises `totalItems` by 1; `totalAmount` rises by the stored price of the bumped entry, or by the resolved price of the appended entry (absent counts as 0) |
| CartTotals.RemoveItemTotals | src/hooks/useCart.js:11-12 | removing a present id lowers `totalItems` by 1 and `totalAmount` by that entry's price; an absent id changes neither |
| CartTotals.ClearItemTotals | src/hooks/useCart.js:11-12 | clearing an entry lowers `totalItems` by its quantity and `totalAmount` by its price times quantity |
| CartTotals.ClearCartTotals | src/hooks/useCart.js:11-12 | after `clearCart` both totals are 0 |
| CartTotals.TwoAddsExample | src/__tests__/hooks/useCart.test.js:38-45 | two adds of the same item priced 15000 give 2 units and 30000 in total |
| LocaleOrder.Compare | src/store/slices/restaurantSlice.js:31 | the name comparison returns -1, 0 or 1, and 0 exactly for equal names |
| LocaleOrder.CompareFlip | src/store/slices/restaurantSlice.js:31-33 | swapping the names negates the comparison, so Z-A is the exact reverse of A-Z |
| LocaleOrder.CompareTransitive | src/store/slices/restaurantSlice.js:31-33 | the name order is transitive |
| RestaurantSort.SortOptionsDistinct | src/store/slices/restaurantSlice.js:3-12 | the constant `RestaurantSort.SORT_OPTIONS` holds the eight option strings; they are pairwise distinct, and `default` is the only one that does not sort |
| RestaurantSort.Compare | src/store/slices/restaurantSlice.js:26-39 | definition: the seven comparators, one per sort key, each a difference of keys (or the name comparison) with a missing key read as 0 or `""`; any other option compares everything as equal |
| RestaurantSort.CompareFlip | src/store/slices/restaurantSlice.js:26-39 | every comparator is antisymmetric: swapping the operands negates it |
| RestaurantSort.Insert | src/store/slices/restaurantSlice.js:24-39 | one sorting step adds exactly the inserted element to the sorted part; the new head is the inserted element or the old head |
| RestaurantSort.InsertOrdered | src/store/slices/restaurantSlice.js:24-39 | inserting into an ordered list keeps it ordered |
| RestaurantSort.InsertionSort | src/store/slices/restaurantSlice.js:24-39 | the sort returns a permutation of its input |
| RestaurantSort.InsertionSortOrdered | src/store/slices/restaurantSlice.js:24-39 | the sort's output is in comparator order |
| RestaurantSort.InsertionSortKeepsOrderedInput | src/store/slices/restaurantSlice.js:24-39 | input that is already in order comes out unchanged, so tied elements are never reordered |
| RestaurantSort.InsertionSortStable | src/store/slices/restaurantSlice.js:24-39 | the sort is stable: for any element, the elements tied with it come out in their input order |
| RestaurantSort.SortRestaurants | src/store/slices/restaurantSlice.js:23-43 | `sortRestaurants` returns a permutation of its input; for `default` or an unrecognised option it returns the input order unchanged |
| RestaurantSort.SortRestaurantsOrdered | src/store/slices/restaurantSlice.js:26-39 | the result of `sortRestaurants` is in the chosen comparator's order |
| RestaurantSort.SortRestaurantsStable | src/store/slices/restaurantSlice.js:23-43 | `sortRestaurants` never reorders restaurants that tie under the chosen option |
| RestaurantSort.SortRestaurantsByKey | src/store/slices/restaurantSlice.js:26-39 | neighbours come out by rating descending or ascending, name Z-A or A-Z, cost descending or ascending, or delivery time ascending, with a missing key read as 0 |
| RestaurantSort.IsTopRated | src/store/slices/restaurantSlice.js:48 | definition: the filter predicate, rating (missing read as 0) at least 40 tenths, i.e. 4.0 stars |
| RestaurantSort.TopRated | src/store/slices/restaurantSlice.js:47-49 | the filter keeps exactly the restaurants rated 4.0 or more, each as often as in the input, and nothing else |
| RestaurantSort.TopRatedConcat | src/store/slices/restaurantSlice.js:48 | the filter works element by element: filtering a concatenation concatenates the filtered parts, so kept restaurants stay in input order |
| RestaurantSort.TopRatedSingle | src/store/slices/restaurantSlice.js:48 | a single restaurant is kept exactly when it is rated 4.0 or more |
| RestaurantSort.ApplyFiltersAndSort | src/store/slices/restaurantSlice.js:40-51 | without the filter the result is a permutation of the full list; with it, a permutation of its top-rated elements; either way it is in the chosen order; for `default` or an unrecognised option it is exactly the (filtered) list in input order; restaurants that tie under the option keep their order from the (filtered) list |
| RestaurantSort.TopRatedFilterSound | src/store/slices/restaurantSlice.js:47-49 | with the filter on, a restaurant is shown exactly when it is in the full list and rated 4.0 or more |
| RestaurantSlice.InitialConsistent | src/store/slices/restaurantSlice.js:14-21 | `RestaurantSlice.Initial` models `initialState`: empty lists, not loading, no error, `default` order, filter off; its visible list already equals the derived one |
| RestaurantSlice.SetRestaurants | src/store/slices/restaurantSlice.js:57-62 | the payload becomes the full list; loading ends with no error; the settings are kept; the visible list is the derived one |
| RestaurantSlice.SetLoading | src/store/slices/restaurantSlice.js:63-66 | loading takes the payload; `true` clears the error; `false` keeps it; the lists and settings are untouched |
| RestaurantSlice.SetError | src/store/slices/restaurantSlice.js:67-70 | the error is recorded and loading stops; the lists and settings are untouched |
| RestaurantSlice.ToggleTopRated | src/store/slices/restaurantSlice.js:71-74 | the filter flips; the full list, sort option and flags are kept; the visible list is the derived one |
| RestaurantSlice.SetSortBy | src/store/slices/restaurantSlice.js:75-78 | the sort option takes the payload; the full list, filter and flags are kept; the visible list is the derived one |
| RestaurantSlice.ResetFilters | src/store/slices/restaurantSlice.js:79-83 | the filter is off, the option is `default`, the visible list is a copy of the full list, and that copy equals the derived list |
| RestaurantSlice.ToggleTwiceRestores | src/store/slices/restaurantSlice.js:71-74 | toggling the filter twice gives back the whole state of a consistent slice, visible list included |
| RestaurantSlice.ReduceConsistent | src/store/slices/restaurantSlice.js:57-83 | every one of the six actions keeps the visible list equal to the filtered, sorted full list |
| RestaurantSlice.RunConsistent | src/store/slices/restaurantSlice.js:14-83 | from the initial state, every reachable state has the visible list equal to the filtered, sorted full list |
| MenuHelpers.AppendGroupedItems | src/utils/menuHelpers.js:15-18 | the inner loop appends, in order, the item cards of each sub-card that has an array of them |
| MenuHelpers.GetItemCardsFromMenu | src/utils/menuHelpers.js:5-22 | a missing response or missing `cards` gives `[]`; otherwise the result is the in-order concatenation of each card's direct items followed by its grouped items |
| MenuHelpers.FlattenConcat | src/utils/menuHelpers.js:8-20 | the items of a card list are those of a prefix followed by those of the rest, so item order follows card order |
| MenuHelpers.FlattenLength | src/utils/menuHelpers.js:8-20 | the result length is the sum of the cards' contribution lengths |
| MenuHelpers.FlattenMembership | src/utils/menuHelpers.js:8-20 | an item is in the result exactly when some card contributes it |
| MenuHelpers.EmptyCardContributesNothing | src/utils/menuHelpers.js:10-14 | a card with neither a direct item array nor a grouped array contributes nothing |
| MenuHelpers.GroupedOrderExample | src/__tests__/utils/menuHelpers.test.js:34-75 | the grouped "Pizza" sub-card's item comes before the "Pasta" one |

## Left out

- **Floating point.** Ratings are whole tenths, so a feed value such as
  "4.05" cannot be expressed. `parseFloat` on malformed text (NaN) is not
  modelled.
- **Number precision.** JavaScript numbers are doubles; the model's integers
  are unbounded. Totals beyond 2^53 minor units are not modelled.
- **Locale collation.** `localeCompare` is replaced by code-unit
  lexicographic order.
- **Malformed array fields in the menu.** A top-level `cards` that is present
  but not an array is not modelled. A non-iterable value (an object, a number,
  `true`) makes the code throw when it iterates it; a string is iterated
  character by character and contributes nothing.
  A direct `itemCards` that is present but not an array is modelled as
  contributing nothing. That matches the code for falsy values only: a truthy
  non-array makes the code throw or spread a string.
- **`undefined` list entries.** Restaurant list entries are modelled as
  objects (a `null` entry or one without `info` reads every key as missing and
  goes through the comparator, as in the code). An `undefined` entry is not
  modelled: `Array.prototype.sort` moves such entries to the end without
  calling the comparator.
- **Redux and React plumbing.** Immer draft mutation, action-creator objects,
  the store wiring and the hook's dispatch wrappers are not modelled. Each
  reducer is a pure function.
- **`setLoading` payload.** The payload is taken as a boolean. JavaScript
  truthiness of other payload values is not modelled.
- **Pages, components, routing, the fetch hooks, the HTTP services and the
  static data modules** are presentation, asynchronous I/O or constants, and
  are not part of this model.
