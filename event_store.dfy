/**
 * `EventStore`: one event; every filter value, null or not, first resets the entity to null.
 */
module EventStore {
  import opened Firestore
  import opened ViewStore
  import EventApi

  const StoreMode := Mode(ClearOnEveryFilter, TracksLoading)

  /** The store as constructed: `initialState`, then the effect's reaction to the initial null filter. */
  method New<E>() returns (store: FilteredStore<EventApi.EventFilter, Option<E>>)
    ensures fresh(store) && store.mode == StoreMode && store.empty == None
    ensures store.Snapshot() == Constructed(StoreMode, None)
  {
    store := new FilteredStore(StoreMode, None);
  }

  /**
   * `setFilters(f)` replaces only `filters`; the effect then resets `event`
   * to null whatever `f` is, opens no subscription on a null filter
   * (leaving `isLoading` as it was), and otherwise sets `isLoading` true
   * and subscribes.
   */
  lemma SetFiltersOf<E>(s: State<EventApi.EventFilter, Option<E>>, f: Option<EventApi.EventFilter>)
    ensures var t := AfterFilters(StoreMode, None, s, f);
      && t.filters == f && t.error == s.error
      && t.data == None
      && (f.None? ==> t.isLoading == s.isLoading && !t.subscribed)
      && (f.Some? ==> t.isLoading && t.subscribed)
  {
  }

  /**
   * A live emission sets `event` and `isLoading` false; a live error sets
   * `error` and `isLoading` false, keeps `event` and ends the subscription.
   */
  lemma ResponsesOf<E>(s: State<EventApi.EventFilter, Option<E>>, gen: nat, value: Option<E>, e: Thrown)
    requires Live(s, gen)
    ensures AfterEmission(StoreMode, s, gen, value) == s.(data := value, isLoading := false)
    ensures AfterFailure(StoreMode, s, gen, e) == s.(error := Some(e), isLoading := false, subscribed := false)
  {
  }

  /** Once a newer filter value is set, nothing the earlier subscription of generation `g` emits changes the store. */
  lemma SupersededOf<E>(s: State<EventApi.EventFilter, Option<E>>, evs: seq<Event<EventApi.EventFilter, Option<E>>>, g: nat)
    requires g < s.generation
    ensures Run(StoreMode, None, s, evs) == Run(StoreMode, None, s, Without(evs, g))
  {
    SupersededIsIgnored(StoreMode, None, s, evs, g);
  }
}
