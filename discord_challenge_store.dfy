/**
 * `DiscordChallengeStore`: the discord challenge of a coding challenge; every filter value first resets the entity to null.
 * Its filter type belongs to a service that is not part of this model, so it is a type parameter.
 */
module DiscordChallengeStore {
  import opened Firestore
  import opened ViewStore

  const StoreMode := Mode(ClearOnEveryFilter, TracksLoading)

  /** The store as constructed: `initialState`, then the effect's reaction to the initial null filter. */
  method New<F, E>() returns (store: FilteredStore<F, Option<E>>)
    ensures fresh(store) && store.mode == StoreMode && store.empty == None
    ensures store.Snapshot() == Constructed(StoreMode, None)
  {
    store := new FilteredStore(StoreMode, None);
  }

  /**
   * `setFilters(f)` replaces only `filters`; the effect then resets `discordChallenge`
   * to null whatever `f` is, opens no subscription on a null filter
   * (leaving `isLoading` as it was), and otherwise sets `isLoading` true
   * and subscribes.
   */
  lemma SetFiltersOf<F, E>(s: State<F, Option<E>>, f: Option<F>)
    ensures var t := AfterFilters(StoreMode, None, s, f);
      && t.filters == f && t.error == s.error
      && t.data == None
      && (f.None? ==> t.isLoading == s.isLoading && !t.subscribed)
      && (f.Some? ==> t.isLoading && t.subscribed)
  {
  }

  /**
   * A live emission sets `discordChallenge` and `isLoading` false; a live error sets
   * `error` and `isLoading` false, keeps `discordChallenge` and ends the subscription.
   */
  lemma ResponsesOf<F, E>(s: State<F, Option<E>>, gen: nat, value: Option<E>, e: Thrown)
    requires Live(s, gen)
    ensures AfterEmission(StoreMode, s, gen, value) == s.(data := value, isLoading := false)
    ensures AfterFailure(StoreMode, s, gen, e) == s.(error := Some(e), isLoading := false, subscribed := false)
  {
  }

  /** Once a newer filter value is set, nothing the earlier subscription of generation `g` emits changes the store. */
  lemma SupersededOf<F, E>(s: State<F, Option<E>>, evs: seq<Event<F, Option<E>>>, g: nat)
    requires g < s.generation
    ensures Run(StoreMode, None, s, evs) == Run(StoreMode, None, s, Without(evs, g))
  {
    SupersededIsIgnored(StoreMode, None, s, evs, g);
  }
}
