/**
 * `EventsStore`: every event, loaded once at construction with no filter.
 */
module EventsStore {
  import opened Firestore
  import opened ViewStore

  /** The constructor sets `initialState` (`events: []`) and calls the load effect exactly once. */
  method New<E>() returns (store: LoadOnceStore<seq<E>>)
    ensures fresh(store) && store.Snapshot() == LoadConstructed([])
  {
    store := new LoadOnceStore([]);
  }

  /**
   * The load patches `isLoading` to false; each emission replaces `events`
   * wholesale; an error sets only `error`, keeps `events` and ends the watch.
   */
  lemma StepsOf<E>(s: LoadState<seq<E>>, value: seq<E>, e: Thrown)
    requires s.subscribed
    ensures !Load(s).isLoading && Load(s).data == s.data && Load(s).error == s.error
    ensures LoadStep(s, Delivered(value)) == s.(data := value)
    ensures LoadStep(s, Failed(e)) == s.(error := Some(e), subscribed := false)
  {
  }

  /**
   * From construction, whatever the watch emits, exactly one load has been
   * started, `isLoading` is false, and `events` is the last list delivered
   * before the first error (`[]` if none).
   */
  lemma ReachableOf<E>(evs: seq<LoadEvent<seq<E>>>)
    ensures var t := LoadRun(LoadConstructed([]), evs);
      t.loads == 1 && !t.isLoading && t.data == LastDelivered([], evs)
  {
    LoadOnceReachable([], evs);
  }
}
