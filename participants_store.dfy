/**
 * `ParticipantsStore`: the participants of an event or of a user; the list is reset to `[]` only by a null filter.
 */
module ParticipantsStore {
  import opened Firestore
  import opened ViewStore
  import ParticipantApi

  const StoreMode := Mode(ClearOnNullFilter, TracksLoading)

  /** The store as constructed: `initialState`, then the effect's reaction to the initial null filter. */
  method New<E>() returns (store: FilteredStore<ParticipantApi.ParticipantsFilter, seq<E>>)
    ensures fresh(store) && store.mode == StoreMode && store.empty == []
    ensures store.Snapshot() == Constructed(StoreMode, [])
  {
    store := new FilteredStore(StoreMode, []);
  }

  /**
   * `setFilters(f)` replaces only `filters`; the effect then resets `participants`
   * to `[]` and opens no subscription on a null filter (leaving
   * `isLoading` as it was), and otherwise keeps `participants` until an emission,
   * sets `isLoading` true and subscribes.
   */
  lemma SetFiltersOf<E>(s: State<ParticipantApi.ParticipantsFilter, seq<E>>, f: Option<ParticipantApi.ParticipantsFilter>)
    ensures var t := AfterFilters(StoreMode, [], s, f);
      && t.filters == f && t.error == s.error
      && (f.None? ==> t.data == [] && t.isLoading == s.isLoading && !t.subscribed)
      && (f.Some? ==> t.data == s.data && t.isLoading == true && t.subscribed)
  {
  }

  /**
   * A live emission sets `participants` and `isLoading` false; a live error sets
   * `error` and `isLoading` false, keeps `participants` and ends the subscription.
   */
  lemma ResponsesOf<E>(s: State<ParticipantApi.ParticipantsFilter, seq<E>>, gen: nat, value: seq<E>, e: Thrown)
    requires Live(s, gen)
    ensures AfterEmission(StoreMode, s, gen, value) == s.(data := value, isLoading := false)
    ensures AfterFailure(StoreMode, s, gen, e) == s.(error := Some(e), isLoading := false, subscribed := false)
  {
  }

  /** Once a newer filter value is set, nothing the earlier subscription of generation `g` emits changes the store. */
  lemma SupersededOf<E>(s: State<ParticipantApi.ParticipantsFilter, seq<E>>, evs: seq<Event<ParticipantApi.ParticipantsFilter, seq<E>>>, g: nat)
    requires g < s.generation
    ensures Run(StoreMode, [], s, evs) == Run(StoreMode, [], s, Without(evs, g))
  {
    SupersededIsIgnored(StoreMode, [], s, evs, g);
  }
}
