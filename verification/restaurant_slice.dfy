/** The restaurant slice: the fetched list, the derived visible list, the
    top-rated toggle, the sort option and the loading/error flags, changed by
    six reducers. Each reducer that touches the list recomputes it from the
    full list, so the visible list is always the filtered, sorted full list. */
module RestaurantSlice {
  import opened Optional
  import opened RestaurantSort

  datatype State = State(
    list: seq<Restaurant>,
    allRestaurants: seq<Restaurant>,
    loading: bool,
    error: Option<string>,
    sortBy: string,
    filterTopRated: bool)

  const Initial: State := State([], [], false, None, DEFAULT, false)

  /** The visible list is derived from the full list and the two settings. */
  predicate Consistent(s: State) {
    s.list == ApplyFiltersAndSort(s.allRestaurants, s.filterTopRated, s.sortBy)
  }

  /** The initial slice has empty lists, is not loading, has no error, uses
      the `default` order with the filter off, and is already consistent. */
  lemma InitialConsistent()
    ensures Consistent(Initial)
    ensures Initial.list == [] && Initial.allRestaurants == []
    ensures !Initial.loading && Initial.error == None
    ensures Initial.sortBy == DEFAULT && !Initial.filterTopRated
  {
  }

  /** `setRestaurants`: store the payload as the full list, re-derive the
      visible list, and end loading with no error. */
  function SetRestaurants(s: State, payload: seq<Restaurant>): (r: State)
    ensures r.allRestaurants == payload
    ensures !r.loading && r.error == None
    ensures r.filterTopRated == s.filterTopRated && r.sortBy == s.sortBy
    ensures Consistent(r)
  {
    s.(allRestaurants := payload,
       list := ApplyFiltersAndSort(payload, s.filterTopRated, s.sortBy),
       loading := false,
       error := None)
  }

  /** `setLoading`: starting to load clears the error; stopping keeps it. */
  function SetLoading(s: State, loading: bool): (r: State)
    ensures r.loading == loading
    ensures loading ==> r.error == None
    ensures !loading ==> r.error == s.error
    ensures r.list == s.list && r.allRestaurants == s.allRestaurants
    ensures r.filterTopRated == s.filterTopRated && r.sortBy == s.sortBy
  {
    if loading then s.(loading := true, error := None) else s.(loading := false)
  }

  /** `setError`: record the error and stop loading. */
  function SetError(s: State, error: string): (r: State)
    ensures r.error == Some(error) && !r.loading
    ensures r.list == s.list && r.allRestaurants == s.allRestaurants
    ensures r.filterTopRated == s.filterTopRated && r.sortBy == s.sortBy
  {
    s.(error := Some(error), loading := false)
  }

  /** `toggleTopRated`: flip the filter and re-derive the visible list. */
  function ToggleTopRated(s: State): (r: State)
    ensures r.filterTopRated == !s.filterTopRated
    ensures r.allRestaurants == s.allRestaurants && r.sortBy == s.sortBy
    ensures r.loading == s.loading && r.error == s.error
    ensures Consistent(r)
  {
    var f := !s.filterTopRated;
    s.(filterTopRated := f, list := ApplyFiltersAndSort(s.allRestaurants, f, s.sortBy))
  }

  /** `setSortBy`: take the new option (recognised or not) and re-derive the
      visible list. */
  function SetSortBy(s: State, sortBy: string): (r: State)
    ensures r.sortBy == sortBy
    ensures r.allRestaurants == s.allRestaurants && r.filterTopRated == s.filterTopRated
    ensures r.loading == s.loading && r.error == s.error
    ensures Consistent(r)
  {
    s.(sortBy := sortBy, list := ApplyFiltersAndSort(s.allRestaurants, s.filterTopRated, sortBy))
  }

  /** `resetFilters`: filter off, default order, and the visible list a plain
      copy of the full list; that copy is what the recomputation would give,
      because the default option leaves the order alone. */
  function ResetFilters(s: State): (r: State)
    ensures !r.filterTopRated && r.sortBy == DEFAULT
    ensures r.list == s.allRestaurants && r.allRestaurants == s.allRestaurants
    ensures r.loading == s.loading && r.error == s.error
    ensures Consistent(r)
  {
    s.(filterTopRated := false, sortBy := DEFAULT, list := s.allRestaurants)
  }

  /** Toggling the filter twice restores the state of a consistent slice. */
  lemma ToggleTwiceRestores(s: State)
    requires Consistent(s)
    ensures ToggleTopRated(ToggleTopRated(s)) == s
  {
  }

  // ---------------------------------------------------------------------------
  // The slice as a reducer over actions

  datatype Action =
    | SetRestaurantsAction(payload: seq<Restaurant>)
    | SetLoadingAction(loading: bool)
    | SetErrorAction(error: string)
    | ToggleTopRatedAction
    | SetSortByAction(sortBy: string)
    | ResetFiltersAction

  function Reduce(s: State, a: Action): State {
    match a
    case SetRestaurantsAction(p) => SetRestaurants(s, p)
    case SetLoadingAction(b) => SetLoading(s, b)
    case SetErrorAction(e) => SetError(s, e)
    case ToggleTopRatedAction => ToggleTopRated(s)
    case SetSortByAction(k) => SetSortBy(s, k)
    case ResetFiltersAction => ResetFilters(s)
  }

  /** The state after dispatching `actions` in order from the initial state. */
  function Run(actions: seq<Action>): State {
    if |actions| == 0 then Initial
    else Reduce(Run(actions[..|actions| - 1]), actions[|actions| - 1])
  }

  /** Every action keeps the visible list derived from the full list. */
  lemma ReduceConsistent(s: State, a: Action)
    requires Consistent(s)
    ensures Consistent(Reduce(s, a))
  {
  }

  /** In every reachable state the visible list is the filtered, sorted full
      list. */
  lemma {:induction false} RunConsistent(actions: seq<Action>)
    ensures Consistent(Run(actions))
    decreases |actions|
  {
    if |actions| > 0 {
      RunConsistent(actions[..|actions| - 1]);
      ReduceConsistent(Run(actions[..|actions| - 1]), actions[|actions| - 1]);
    }
  }
}
