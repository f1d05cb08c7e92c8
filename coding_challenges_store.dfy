/**
 * `CodingChallengesStore`: the coding challenges matching a status; the list is reset to `[]` only by a null filter,
 * and `isLoading` is only ever patched to false.
 */
module CodingChallengesStore {
  import opened Firestore
  import opened ViewStore
  import CodingChallengeApi

  const StoreMode := Mode(ClearOnNullFilter, NeverLoading)

  /** The store as constructed: `initialState`, then the effect's reaction to the initial null filter. */
  method New<E>() returns (store: FilteredStore<CodingChallengeApi.CodingChallengesFilter, seq<E>>)
    ensures fresh(store) && store.mode == StoreMode && store.empty == []
    ensures store.Snapshot() == Constructed(StoreMode, [])
  {
    store := new FilteredStore(StoreMode, []);
  }

  /**
   * `setFilters(f)` replaces only `filters`; the effect then resets `codingChallenges`
   * to `[]` and opens no subscription on a null filter (leaving
   * `isLoading` as it was), and otherwise keeps `codingChallenges` until an emission,
   * patches `isLoading` to false and subscribes.
   */
  lemma SetFiltersOf<E>(s: State<CodingChallengeApi.CodingChallengesFilter, seq<E>>, f: Option<CodingChallengeApi.CodingChallengesFilter>)
    ensures var t := AfterFilters(StoreMode, [], s, f);
      && t.filters == f && t.error == s.error
      && (f.None? ==> t.data == [] && t.isLoading == s.isLoading && !t.subscribed)
      && (f.Some? ==> t.data == s.data && t.isLoading == false && t.subscribed)
  {
  }

  /** A live emission changes only `codingChallenges`; a live error changes only `error` and ends the subscription. */
  lemma ResponsesOf<E>(s: State<CodingChallengeApi.CodingChallengesFilter, seq<E>>, gen: nat, value: seq<E>, e: Thrown)
    requires Live(s, gen)
    ensures AfterEmission(StoreMode, s, gen, value) == s.(data := value)
    ensures AfterFailure(StoreMode, s, gen, e) == s.(error := Some(e), subscribed := false)
  {
  }

  /** `isLoading` is false in every state the store can reach. */
  lemma NeverLoads<E>(evs: seq<Event<CodingChallengeApi.CodingChallengesFilter, seq<E>>>)
    ensures !Run(StoreMode, [], Constructed(StoreMode, []), evs).isLoading
  {
    ReachableIsCoherent(StoreMode, [], evs);
  }

  /** Once a newer filter value is set, nothing the earlier subscription of generation `g` emits changes the store. */
  lemma SupersededOf<E>(s: State<CodingChallengeApi.CodingChallengesFilter, seq<E>>, evs: seq<Event<CodingChallengeApi.CodingChallengesFilter, seq<E>>>, g: nat)
    requires g < s.generation
    ensures Run(StoreMode, [], s, evs) == Run(StoreMode, [], s, Without(evs, g))
  {
    SupersededIsIgnored(StoreMode, [], s, evs, g);
  }
}
