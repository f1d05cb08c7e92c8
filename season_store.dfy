/**
 * `SeasonStore`: one season, looked up by id or by name; the entity is reset only by a null filter.
 */
module SeasonStore {
  import opened Firestore
  import opened ViewStore
  import SeasonApi

  const StoreMode := Mode(ClearOnNullFilter, TracksLoading)

  /** The store as constructed: `initialState`, then the effect's reaction to the initial null filter. */
  method New<E>() returns (store: FilteredStore<SeasonApi.SeasonFilter, Option<E>>)
    ensures fresh(store) && store.mode == StoreMode && store.empty == None
    ensures store.Snapshot() == Constructed(StoreMode, None)
  {
    store := new FilteredStore(StoreMode, None);
  }

  /**
   * `setFilters(f)` replaces only `filters`; the effect then resets `season`
   * to null and opens no subscription on a null filter (leaving
   * `isLoading` as it was), and otherwise keeps `season` until an emission,
   * sets `isLoading` true and subscribes.
   */
  lemma SetFiltersOf<E>(s: State<SeasonApi.SeasonFilter, Option<E>>, f: Option<SeasonApi.SeasonFilter>)
    ensures var t := AfterFilters(StoreMode, None, s, f);
      && t.filters == f && t.error == s.error
      && (f.None? ==> t.data == None && t.isLoading == s.isLoading && !t.subscribed)
      && (f.Some? ==> t.data == s.data && t.isLoading == true && t.subscribed)
  {
  }

  /**
   * A live emission sets `season` and `isLoading` false; a live error sets
   * `error` and `isLoading` false, keeps `season` and ends the subscription.
   */
  lemma ResponsesOf<E>(s: State<SeasonApi.SeasonFilter, Option<E>>, gen: nat, value: Option<E>, e: Thrown)
    requires Live(s, gen)
    ensures AfterEmission(StoreMode, s, gen, value) == s.(data := value, isLoading := false)
    ensures AfterFailure(StoreMode, s, gen, e) == s.(error := Some(e), isLoading := false, subscribed := false)
  {
  }

  /** Once a newer filter value is set, nothing the earlier subscription of generation `g` emits changes the store. */
  lemma SupersededOf<E>(s: State<SeasonApi.SeasonFilter, Option<E>>, evs: seq<Event<SeasonApi.SeasonFilter, Option<E>>>, g: nat)
    requires g < s.generation
    ensures Run(StoreMode, None, s, evs) == Run(StoreMode, None, s, Without(evs, g))
  {
    SupersededIsIgnored(StoreMode, None, s, evs, g);
  }
}
