/**
 * `CodingChallengeStore`: one coding challenge, looked up by id or by fields; the entity is reset only by a null filter.
 */
module CodingChallengeStore {
  import opened Firestore
  import opened ViewStore
  import CodingChallengeApi

  const StoreMode := Mode(ClearOnNullFilter, TracksLoading)

  /** The store as constructed: `initialState`, then the effect's reaction to the initial null filter. */
  method New<E>() returns (store: FilteredStore<CodingChallengeApi.CodingChallengeFilter, Option<E>>)
    ensures fresh(store) && store.mode == StoreMode && store.empty == None
    ensures store.Snapshot() == Constructed(StoreMode, None)
  {
    store := new FilteredStore(StoreMode, None);
  }

  /**
   * `setFilters(f)` replaces only `filters`; the effect then resets `codingChallenge`
   * to null and opens no subscription on a null filter (leaving
   * `isLoading` as it was), and otherwise keeps `codingChallenge` until an emission,
   * sets `isLoading` true and subscribes.
   */
  lemma SetFiltersOf<E>(s: State<CodingChallengeApi.CodingChallengeFilter, Option<E>>, f: Option<CodingChallengeApi.CodingChallengeFilter>)
    ensures var t := AfterFilters(StoreMode, None, s, f);
      && t.filters == f && t.error == s.error
      && (f.None? ==> t.data == None && t.isLoading == s.isLoading && !t.subscribed)
      && (f.Some? ==> t.data == s.data && t.isLoading == true && t.subscribed)
  {
  }

  /**
   * A live emission sets `codingChallenge` and `isLoading` false; a live error sets
   * `error` and `isLoading` false, keeps `codingChallenge` and ends the subscription.
   */
  lemma ResponsesOf<E>(s: State<CodingChallengeApi.CodingChallengeFilter, Option<E>>, gen: nat, value: Option<E>, e: Thrown)
    requires Live(s, gen)
    ensures AfterEmission(StoreMode, s, gen, value) == s.(data := value, isLoading := false)
    ensures AfterFailure(StoreMode, s, gen, e) == s.(error := Some(e), isLoading := false, subscribed := false)
  {
  }

  /** Once a newer filter value is set, nothing the earlier subscription of generation `g` emits changes the store. */
  lemma SupersededOf<E>(s: State<CodingChallengeApi.CodingChallengeFilter, Option<E>>, evs: seq<Event<CodingChallengeApi.CodingChallengeFilter, Option<E>>>, g: nat)
    requires g < s.generation
    ensures Run(StoreMode, None, s, evs) == Run(StoreMode, None, s, Without(evs, g))
  {
    SupersededIsIgnored(StoreMode, None, s, evs, g);
  }
}
