/** The pure helpers of the restaurant slice: the sort options, the per-option
    comparator, the stable sort, the top-rated filter, and their combination
    that derives the visible list. */
module RestaurantSort {
  import opened Optional
  import LocaleOrder

  /** The `info` record of a listed restaurant, reduced to what the helpers
      read. `avgRating` is in tenths of a star (the feed's "4.4" is 44). */
  datatype Info = Info(
    id: string,
    name: Option<string>,
    avgRating: Option<int>,
    costForTwo: Option<int>,
    deliveryTime: Option<int>)

  /** A listed restaurant; `info` may be missing (`r?.info`). */
  datatype Restaurant = Restaurant(info: Option<Info>)

  // The values of SORT_OPTIONS.
  const DEFAULT: string := "default"
  const RATING_HIGH: string := "rating_high"
  const RATING_LOW: string := "rating_low"
  const NAME_AZ: string := "name_az"
  const NAME_ZA: string := "name_za"
  const COST_LOW: string := "cost_low"
  const COST_HIGH: string := "cost_high"
  const DELIVERY_FAST: string := "delivery_fast"

  /** `SORT_OPTIONS`, in declaration order. */
  const SORT_OPTIONS: seq<string> :=
    [DEFAULT, RATING_HIGH, RATING_LOW, NAME_AZ, NAME_ZA, COST_LOW, COST_HIGH, DELIVERY_FAST]

  /** 4.0 stars, in tenths. */
  const TOP_RATED_THRESHOLD: int := 40

  // ---------------------------------------------------------------------------
  // Sort keys; a missing key reads as 0 (or "" for the name)

  function Rating(r: Restaurant): int {
    if r.info.Some? then r.info.value.avgRating.GetOr(0) else 0
  }

  function Name(r: Restaurant): string {
    if r.info.Some? then r.info.value.name.GetOr("") else ""
  }

  function Cost(r: Restaurant): int {
    if r.info.Some? then r.info.value.costForTwo.GetOr(0) else 0
  }

  function DeliveryTime(r: Restaurant): int {
    if r.info.Some? then r.info.value.deliveryTime.GetOr(0) else 0
  }

  /** The options `sortRestaurants` sorts by; any other value, `DEFAULT`
      included, leaves the order alone. */
  predicate IsSortKey(sortBy: string) {
    sortBy in {RATING_HIGH, RATING_LOW, NAME_AZ, NAME_ZA, COST_LOW, COST_HIGH, DELIVERY_FAST}
  }

  /** The eight option values are distinct, so each selects its own case of
      the switch, and `DEFAULT` is the only one that does not sort. */
  lemma SortOptionsDistinct()
    ensures |SORT_OPTIONS| == 8
    ensures forall i, j :: 0 <= i < j < |SORT_OPTIONS| ==> SORT_OPTIONS[i] != SORT_OPTIONS[j]
    ensures forall i :: 0 <= i < |SORT_OPTIONS| ==> (IsSortKey(SORT_OPTIONS[i]) <==> i != 0)
  {
  }

  /** The comparator `sortRestaurants` hands to `Array.prototype.sort` for
      `sortBy`: negative when `a` belongs before `b`. */
  function Compare(sortBy: string, a: Restaurant, b: Restaurant): (c: int)
    ensures !IsSortKey(sortBy) ==> c == 0
  {
    if sortBy == RATING_HIGH then Rating(b) - Rating(a)
    else if sortBy == RATING_LOW then Rating(a) - Rating(b)
    else if sortBy == NAME_AZ then LocaleOrder.Compare(Name(a), Name(b))
    else if sortBy == NAME_ZA then LocaleOrder.Compare(Name(b), Name(a))
    else if sortBy == COST_LOW then Cost(a) - Cost(b)
    else if sortBy == COST_HIGH then Cost(b) - Cost(a)
    else if sortBy == DELIVERY_FAST then DeliveryTime(a) - DeliveryTime(b)
    else 0
  }

  lemma CompareFlip(sortBy: string, a: Restaurant, b: Restaurant)
    ensures Compare(sortBy, a, b) == -Compare(sortBy, b, a)
  {
    LocaleOrder.CompareFlip(Name(a), Name(b));
  }

  /** Every pair of neighbours is in comparator order. */
  predicate Ordered(sortBy: string, s: seq<Restaurant>) {
    forall i :: 0 <= i < |s| - 1 ==> Compare(sortBy, s[i], s[i + 1]) <= 0
  }

  // ---------------------------------------------------------------------------
  // Stable insertion sort

  /** Insert `x` before the first element it precedes strictly; ties keep `x`
      in front, so inserting earlier input elements into the sorted rest
      keeps equal elements in input order. */
  function Insert(sortBy: string, x: Restaurant, t: seq<Restaurant>): (r: seq<Restaurant>)
    ensures |r| == |t| + 1
    ensures multiset(r) == multiset(t) + multiset{x}
    ensures r[0] == x || (|t| > 0 && r[0] == t[0])
  {
    if |t| == 0 || Compare(sortBy, x, t[0]) <= 0 then [x] + t
    else
      assert t == [t[0]] + t[1..];
      [t[0]] + Insert(sortBy, x, t[1..])
  }

  lemma {:induction false} InsertOrdered(sortBy: string, x: Restaurant, t: seq<Restaurant>)
    requires Ordered(sortBy, t)
    ensures Ordered(sortBy, Insert(sortBy, x, t))
    decreases |t|
  {
    if |t| > 0 && Compare(sortBy, x, t[0]) > 0 {
      InsertOrdered(sortBy, x, t[1..]);
      CompareFlip(sortBy, x, t[0]);
      var r := Insert(sortBy, x, t);
      assert r == [t[0]] + Insert(sortBy, x, t[1..]);
    }
  }

  function InsertionSort(sortBy: string, s: seq<Restaurant>): (r: seq<Restaurant>)
    ensures |r| == |s|
    ensures multiset(r) == multiset(s)
  {
    if |s| == 0 then []
    else
      assert s == [s[0]] + s[1..];
      Insert(sortBy, s[0], InsertionSort(sortBy, s[1..]))
  }

  lemma {:induction false} InsertionSortOrdered(sortBy: string, s: seq<Restaurant>)
    ensures Ordered(sortBy, InsertionSort(sortBy, s))
    decreases |s|
  {
    if |s| > 0 {
      InsertionSortOrdered(sortBy, s[1..]);
      InsertOrdered(sortBy, s[0], InsertionSort(sortBy, s[1..]));
    }
  }

  /** The sort is stable in the sense that input already in order comes out
      unchanged: equal elements are never swapped. */
  lemma {:induction false} InsertionSortKeepsOrderedInput(sortBy: string, s: seq<Restaurant>)
    requires Ordered(sortBy, s)
    ensures InsertionSort(sortBy, s) == s
    decreases |s|
  {
    if |s| > 0 {
      InsertionSortKeepsOrderedInput(sortBy, s[1..]);
      assert [s[0]] + s[1..] == s;
    }
  }

  /** The elements of `s` that tie with `x` under `sortBy`, in order. */
  function Ties(sortBy: string, x: Restaurant, s: seq<Restaurant>): seq<Restaurant> {
    if |s| == 0 then []
    else (if Compare(sortBy, s[0], x) == 0 then [s[0]] else []) + Ties(sortBy, x, s[1..])
  }

  /** Tying is transitive: two elements that tie with a third tie with each
      other. */
  lemma TieTransitive(sortBy: string, a: Restaurant, b: Restaurant, x: Restaurant)
    requires Compare(sortBy, a, x) == 0 && Compare(sortBy, b, x) == 0
    ensures Compare(sortBy, a, b) == 0
  {
  }

  lemma {:induction false} InsertTies(sortBy: string, y: Restaurant, t: seq<Restaurant>, x: Restaurant)
    ensures Ties(sortBy, x, Insert(sortBy, y, t)) ==
      (if Compare(sortBy, y, x) == 0 then [y] else []) + Ties(sortBy, x, t)
    decreases |t|
  {
    if |t| > 0 && Compare(sortBy, y, t[0]) > 0 {
      InsertTies(sortBy, y, t[1..], x);
      if Compare(sortBy, y, x) == 0 && Compare(sortBy, t[0], x) == 0 {
        TieTransitive(sortBy, y, t[0], x);
      }
      assert Insert(sortBy, y, t) == [t[0]] + Insert(sortBy, y, t[1..]);
      assert ([t[0]] + Insert(sortBy, y, t[1..]))[1..] == Insert(sortBy, y, t[1..]);
    } else {
      assert ([y] + t)[1..] == t;
    }
  }

  /** The sort is stable: the elements that tie with any given `x` come out in
      the order they went in. */
  lemma {:induction false} InsertionSortStable(sortBy: string, s: seq<Restaurant>, x: Restaurant)
    ensures Ties(sortBy, x, InsertionSort(sortBy, s)) == Ties(sortBy, x, s)
    decreases |s|
  {
    if |s| > 0 {
      InsertionSortStable(sortBy, s[1..], x);
      InsertTies(sortBy, s[0], InsertionSort(sortBy, s[1..]), x);
    }
  }

  /** `sortRestaurants`: a sorted copy for a recognised option, the input
      order otherwise. */
  function SortRestaurants(restaurants: seq<Restaurant>, sortBy: string): (r: seq<Restaurant>)
    ensures multiset(r) == multiset(restaurants)
    ensures !IsSortKey(sortBy) ==> r == restaurants
  {
    if IsSortKey(sortBy) then InsertionSort(sortBy, restaurants) else restaurants
  }

  /** The sorted list is in comparator order. */
  lemma SortRestaurantsOrdered(restaurants: seq<Restaurant>, sortBy: string)
    ensures Ordered(sortBy, SortRestaurants(restaurants, sortBy))
  {
    if IsSortKey(sortBy) {
      InsertionSortOrdered(sortBy, restaurants);
    }
  }

  /** What comparator order means for each option: ratings descending or
      ascending, names Z-A or A-Z, cost descending or ascending, delivery time
      ascending. */
  lemma SortRestaurantsByKey(restaurants: seq<Restaurant>, sortBy: string, i: int)
    requires 0 <= i < |restaurants| - 1
    ensures var r := SortRestaurants(restaurants, sortBy);
      && (sortBy == RATING_HIGH ==> Rating(r[i]) >= Rating(r[i + 1]))
      && (sortBy == RATING_LOW ==> Rating(r[i]) <= Rating(r[i + 1]))
      && (sortBy == NAME_AZ ==> LocaleOrder.Compare(Name(r[i]), Name(r[i + 1])) <= 0)
      && (sortBy == NAME_ZA ==> LocaleOrder.Compare(Name(r[i]), Name(r[i + 1])) >= 0)
      && (sortBy == COST_LOW ==> Cost(r[i]) <= Cost(r[i + 1]))
      && (sortBy == COST_HIGH ==> Cost(r[i]) >= Cost(r[i + 1]))
      && (sortBy == DELIVERY_FAST ==> DeliveryTime(r[i]) <= DeliveryTime(r[i + 1]))
  {
    SortRestaurantsOrdered(restaurants, sortBy);
    var r := SortRestaurants(restaurants, sortBy);
    LocaleOrder.CompareFlip(Name(r[i]), Name(r[i + 1]));
  }

  /** `sortRestaurants` never reorders restaurants that tie under the chosen
      option. */
  lemma SortRestaurantsStable(restaurants: seq<Restaurant>, sortBy: string, x: Restaurant)
    ensures Ties(sortBy, x, SortRestaurants(restaurants, sortBy)) == Ties(sortBy, x, restaurants)
  {
    if IsSortKey(sortBy) {
      InsertionSortStable(sortBy, restaurants, x);
    }
  }

  lemma SortRestaurantsStableAll(restaurants: seq<Restaurant>, sortBy: string)
    ensures forall x :: Ties(sortBy, x, SortRestaurants(restaurants, sortBy)) == Ties(sortBy, x, restaurants)
  {
    forall x {
      SortRestaurantsStable(restaurants, sortBy, x);
    }
  }

  // ---------------------------------------------------------------------------
  // Filter

  predicate IsTopRated(r: Restaurant) {
    Rating(r) >= TOP_RATED_THRESHOLD
  }

  /** `restaurants.filter((r) => rating >= 4.0)`: keeps exactly the top-rated
      elements, each as often as it occurs, in their input order. */
  function TopRated(restaurants: seq<Restaurant>): (r: seq<Restaurant>)
    ensures |r| <= |restaurants|
    ensures forall i :: 0 <= i < |r| ==> IsTopRated(r[i])
    ensures forall x :: multiset(r)[x] == if IsTopRated(x) then multiset(restaurants)[x] else 0
  {
    if |restaurants| == 0 then []
    else
      var rest := TopRated(restaurants[1..]);
      assert restaurants == [restaurants[0]] + restaurants[1..];
      if IsTopRated(restaurants[0]) then [restaurants[0]] + rest else rest
  }

  /** The filter works element by element: the top-rated part of a
      concatenation is the concatenation of the top-rated parts, so the kept
      restaurants stay in input order. */
  lemma {:induction false} TopRatedConcat(a: seq<Restaurant>, b: seq<Restaurant>)
    ensures TopRated(a + b) == TopRated(a) + TopRated(b)
    decreases |a|
  {
    if |a| > 0 {
      assert (a + b)[0] == a[0];
      assert (a + b)[1..] == a[1..] + b;
      TopRatedConcat(a[1..], b);
    } else {
      assert a + b == b;
    }
  }

  /** A single restaurant is kept exactly when it is top-rated. */
  lemma TopRatedSingle(x: Restaurant)
    ensures TopRated([x]) == if IsTopRated(x) then [x] else []
  {
    assert [x][1..] == [];
  }

  /** `applyFiltersAndSort`: optionally keep the top-rated, then sort. */
  function ApplyFiltersAndSort(allRestaurants: seq<Restaurant>, filterTopRated: bool, sortBy: string): (r: seq<Restaurant>)
    ensures !filterTopRated ==> multiset(r) == multiset(allRestaurants)
    ensures filterTopRated ==> forall x :: multiset(r)[x] == if IsTopRated(x) then multiset(allRestaurants)[x] else 0
    ensures Ordered(sortBy, r)
    ensures !IsSortKey(sortBy) ==> r == (if filterTopRated then TopRated(allRestaurants) else allRestaurants)
    ensures forall x ::
      Ties(sortBy, x, r) == Ties(sortBy, x, if filterTopRated then TopRated(allRestaurants) else allRestaurants)
  {
    var base := if filterTopRated then TopRated(allRestaurants) else allRestaurants;
    SortRestaurantsOrdered(base, sortBy);
    SortRestaurantsStableAll(base, sortBy);
    SortRestaurants(base, sortBy)
  }

  /** With the filter on, the visible list holds only top-rated restaurants and
      every top-rated restaurant of the full list. */
  lemma TopRatedFilterSound(allRestaurants: seq<Restaurant>, sortBy: string)
    ensures forall x :: x in ApplyFiltersAndSort(allRestaurants, true, sortBy) <==> x in allRestaurants && IsTopRated(x)
  {
    var r := ApplyFiltersAndSort(allRestaurants, true, sortBy);
    forall x ensures x in r <==> x in allRestaurants && IsTopRated(x) {
      assert x in r <==> multiset(r)[x] > 0;
      assert x in allRestaurants <==> multiset(allRestaurants)[x] > 0;
    }
  }
}
