/**
 * The view-state stores: a `ComponentStore` whose `setFilters` updater
 * feeds a `switchMap` effect that watches the matching query and patches
 * the entity (or entity list), `isLoading` and `error` as the watch
 * emits. The stores differ only in two policies, captured by `Mode`.
 *
 * `switchMap` is modelled by a generation counter: each filter value ends
 * the previous inner subscription and, when the filter is not null, opens
 * a new one tagged with the new generation. An emission or error carries
 * the generation of the subscription it came from and is ignored unless
 * that subscription is still live. `tapResponse` ends a subscription on
 * its first error.
 */
module ViewStore {
  import opened Firestore

  /** Whether the effect resets the entity on every filter value or only on `null`. */
  datatype ClearPolicy = ClearOnEveryFilter | ClearOnNullFilter

  /** Whether a non-null filter sets `isLoading` to true (and emissions reset it), or it is only ever patched to false. */
  datatype LoadingPolicy = TracksLoading | NeverLoading

  datatype Mode = Mode(clear: ClearPolicy, loading: LoadingPolicy)

  /**
   * The view model `{ data, filters, isLoading, error }` plus the switchMap
   * bookkeeping: the generation of the latest filter value and whether the
   * inner subscription of that generation is still live.
   */
  datatype State<F, D> = State(
    data: D, filters: Option<F>, isLoading: bool, error: Option<Thrown>,
    generation: nat, subscribed: bool)

  datatype Event<F, D> =
    | SetFilters(filters: Option<F>)
    | Emission(gen: nat, value: D)
    | Failure(gen: nat, error: Thrown)

  /** `initialState`: empty data, no filter, not loading, no error. */
  function Initial<F, D>(empty: D): State<F, D>
  {
    State(empty, None, false, None, 0, false)
  }

  /** The effect's reaction to one value of `filters$`. */
  function Effect<F, D>(mode: Mode, empty: D, s: State<F, D>, f: Option<F>): (t: State<F, D>)
    ensures t.filters == s.filters && t.error == s.error
    ensures t.generation == s.generation + 1
    ensures t.subscribed <==> f.Some?
    ensures t.data == (if f.None? || mode.clear == ClearOnEveryFilter then empty else s.data)
    ensures t.isLoading == (if f.None? then s.isLoading else mode.loading == TracksLoading)
  {
    var ended := s.(generation := s.generation + 1, subscribed := false);
    var cleared := if mode.clear == ClearOnEveryFilter || f.None? then ended.(data := empty) else ended;
    if f.None? then cleared
    else cleared.(isLoading := mode.loading == TracksLoading, subscribed := true)
  }

  /** `setFilters(f)`: the updater replaces `filters` only, then the effect reacts to the new value. */
  function AfterFilters<F, D>(mode: Mode, empty: D, s: State<F, D>, f: Option<F>): (t: State<F, D>)
    ensures t.filters == f && t.error == s.error
    ensures t.generation == s.generation + 1
    ensures t.subscribed <==> f.Some?
    ensures t.data == (if f.None? || mode.clear == ClearOnEveryFilter then empty else s.data)
    ensures t.isLoading == (if f.None? then s.isLoading else mode.loading == TracksLoading)
  {
    Effect(mode, empty, s.(filters := f), f)
  }

  /** Whether an emission or error of generation `gen` comes from the live subscription. */
  predicate Live<F, D>(s: State<F, D>, gen: nat)
  {
    gen == s.generation && s.subscribed
  }

  /** A live emission replaces the data (and clears `isLoading` when the store tracks it); any other is dropped. */
  function AfterEmission<F, D>(mode: Mode, s: State<F, D>, gen: nat, value: D): (t: State<F, D>)
    ensures !Live(s, gen) ==> t == s
    ensures Live(s, gen) ==>
      && t.data == value && t.filters == s.filters && t.error == s.error
      && t.generation == s.generation && t.subscribed
      && t.isLoading == (if mode.loading == TracksLoading then false else s.isLoading)
  {
    if !Live(s, gen) then s
    else if mode.loading == TracksLoading then s.(data := value, isLoading := false)
    else s.(data := value)
  }

  /** A live error is stored (and clears `isLoading` when tracked) and ends the subscription; the data stays. */
  function AfterFailure<F, D>(mode: Mode, s: State<F, D>, gen: nat, e: Thrown): (t: State<F, D>)
    ensures !Live(s, gen) ==> t == s
    ensures Live(s, gen) ==>
      && t.error == Some(e) && t.data == s.data && t.filters == s.filters
      && t.generation == s.generation && !t.subscribed
      && t.isLoading == (if mode.loading == TracksLoading then false else s.isLoading)
  {
    if !Live(s, gen) then s
    else if mode.loading == TracksLoading then s.(error := Some(e), isLoading := false, subscribed := false)
    else s.(error := Some(e), subscribed := false)
  }

  function Step<F, D>(mode: Mode, empty: D, s: State<F, D>, ev: Event<F, D>): State<F, D>
  {
    match ev
    case SetFilters(f) => AfterFilters(mode, empty, s, f)
    case Emission(gen, v) => AfterEmission(mode, s, gen, v)
    case Failure(gen, e) => AfterFailure(mode, s, gen, e)
  }

  /** The state after a trace of events, oldest first. */
  function Run<F, D>(mode: Mode, empty: D, s: State<F, D>, evs: seq<Event<F, D>>): State<F, D>
    decreases |evs|
  {
    if evs == [] then s else Run(mode, empty, Step(mode, empty, s, evs[0]), evs[1..])
  }

  /**
   * The constructor: `super(initialState)` and then the effect subscribed to
   * `filters$`, which at once yields the initial `null`.
   */
  function Constructed<F, D>(mode: Mode, empty: D): (s: State<F, D>)
    ensures s.data == empty && s.filters.None? && !s.isLoading && s.error.None?
    ensures !s.subscribed && s.generation == 1
  {
    Effect(mode, empty, Initial(empty), None)
  }

  // ---------------------------------------------------------------------
  // Properties of traces
  // ---------------------------------------------------------------------

  /**
   * What every reachable state satisfies: with no filter there is no live
   * subscription and the data is empty; a live subscription belongs to a
   * filter; a store that never tracks loading is never loading.
   */
  ghost predicate Coherent<F, D>(mode: Mode, empty: D, s: State<F, D>)
  {
    && (s.filters.None? ==> s.data == empty && !s.subscribed)
    && (mode.loading == NeverLoading ==> !s.isLoading)
  }

  lemma {:induction false} RunKeepsCoherent<F, D>(mode: Mode, empty: D, s: State<F, D>, evs: seq<Event<F, D>>)
    requires Coherent(mode, empty, s)
    ensures Coherent(mode, empty, Run(mode, empty, s, evs))
    decreases |evs|
  {
    if evs != [] {
      RunKeepsCoherent(mode, empty, Step(mode, empty, s, evs[0]), evs[1..]);
    }
  }

  /** Every state reachable from construction is coherent. */
  lemma ReachableIsCoherent<F, D>(mode: Mode, empty: D, evs: seq<Event<F, D>>)
    ensures Coherent(mode, empty, Run(mode, empty, Constructed(mode, empty), evs))
  {
    RunKeepsCoherent(mode, empty, Constructed(mode, empty), evs);
  }

  /** No transition ever resets `error` to null: once an error is stored, some error stays stored. */
  lemma {:induction false} ErrorNeverCleared<F, D>(mode: Mode, empty: D, s: State<F, D>, evs: seq<Event<F, D>>)
    requires s.error.Some?
    ensures Run(mode, empty, s, evs).error.Some?
    decreases |evs|
  {
    if evs != [] {
      ErrorNeverCleared(mode, empty, Step(mode, empty, s, evs[0]), evs[1..]);
    }
  }

  /** The number of filter values in a trace. */
  function FilterCount<F, D>(evs: seq<Event<F, D>>): nat
    decreases |evs|
  {
    if evs == [] then 0 else (if evs[0].SetFilters? then 1 else 0) + FilterCount(evs[1..])
  }

  /** Every filter value, and nothing else, starts a new generation. */
  lemma {:induction false} GenerationCountsFilters<F, D>(mode: Mode, empty: D, s: State<F, D>, evs: seq<Event<F, D>>)
    ensures Run(mode, empty, s, evs).generation == s.generation + FilterCount(evs)
    decreases |evs|
  {
    if evs != [] {
      GenerationCountsFilters(mode, empty, Step(mode, empty, s, evs[0]), evs[1..]);
    }
  }

  /** Whether an event came from the subscription of generation `g`. */
  predicate TaggedWith<F, D>(ev: Event<F, D>, g: nat)
  {
    !ev.SetFilters? && ev.gen == g
  }

  /** The trace with every emission and error of generation `g` removed. */
  function Without<F, D>(evs: seq<Event<F, D>>, g: nat): (r: seq<Event<F, D>>)
    ensures |r| <= |evs|
    ensures forall i :: 0 <= i < |r| ==> !TaggedWith(r[i], g)
    decreases |evs|
  {
    if evs == [] then []
    else if TaggedWith(evs[0], g) then Without(evs[1..], g)
    else [evs[0]] + Without(evs[1..], g)
  }

  /**
   * switchMap: once a newer filter value has been set, whatever the
   * superseded subscription still emits, wherever it falls in the trace,
   * changes nothing.
   */
  lemma {:induction false} SupersededIsIgnored<F, D>(mode: Mode, empty: D, s: State<F, D>, evs: seq<Event<F, D>>, g: nat)
    requires g < s.generation
    ensures Run(mode, empty, s, evs) == Run(mode, empty, s, Without(evs, g))
    decreases |evs|
  {
    if evs != [] {
      var next := Step(mode, empty, s, evs[0]);
      assert next.generation >= s.generation;
      SupersededIsIgnored(mode, empty, next, evs[1..], g);
      if TaggedWith(evs[0], g) {
        assert next == s;
      } else {
        assert Without(evs, g) == [evs[0]] + Without(evs[1..], g);
        assert ([evs[0]] + Without(evs[1..], g))[1..] == Without(evs[1..], g);
      }
    }
  }

  /** After a failure the subscription is over: nothing it emits afterwards changes the state. */
  lemma {:induction false} FailedSubscriptionIsSilent<F, D>(mode: Mode, empty: D, s: State<F, D>, gen: nat, e: Thrown, evs: seq<Event<F, D>>)
    requires Live(s, gen)
    requires forall i :: 0 <= i < |evs| ==> !evs[i].SetFilters?
    ensures Run(mode, empty, AfterFailure(mode, s, gen, e), evs) == AfterFailure(mode, s, gen, e)
    decreases |evs|
  {
    if evs != [] {
      var t := AfterFailure(mode, s, gen, e);
      assert Step(mode, empty, t, evs[0]) == t;
      assert forall i :: 0 <= i < |evs[1..]| ==> !evs[1..][i].SetFilters? by {
        forall i | 0 <= i < |evs[1..]| ensures !evs[1..][i].SetFilters? {
          assert evs[1..][i] == evs[i + 1];
        }
      }
      FailedSubscriptionIsSilentFrom(mode, empty, t, evs[1..]);
    }
  }

  lemma {:induction false} FailedSubscriptionIsSilentFrom<F, D>(mode: Mode, empty: D, t: State<F, D>, evs: seq<Event<F, D>>)
    requires !t.subscribed
    requires forall i :: 0 <= i < |evs| ==> !evs[i].SetFilters?
    ensures Run(mode, empty, t, evs) == t
    decreases |evs|
  {
    if evs != [] {
      assert !evs[0].SetFilters?;
      assert Step(mode, empty, t, evs[0]) == t;
      assert forall i :: 0 <= i < |evs[1..]| ==> !evs[1..][i].SetFilters? by {
        forall i | 0 <= i < |evs[1..]| ensures !evs[1..][i].SetFilters? {
          assert evs[1..][i] == evs[i + 1];
        }
      }
      FailedSubscriptionIsSilentFrom(mode, empty, t, evs[1..]);
    }
  }

  /**
   * A null filter does not touch `isLoading`: in a store that tracks
   * loading, clearing the filter while a load is pending leaves the store
   * loading for good.
   */
  lemma NullFilterKeepsLoading<F, D>(mode: Mode, empty: D, s: State<F, D>, f: F, more: seq<Event<F, D>>)
    requires mode.loading == TracksLoading
    requires forall i :: 0 <= i < |more| ==> !more[i].SetFilters?
    ensures var t := Run(mode, empty, s, [SetFilters(Some(f)), SetFilters(None)]);
      t.isLoading && t.filters.None? && Run(mode, empty, t, more) == t
  {
    var evs: seq<Event<F, D>> := [SetFilters(Some(f)), SetFilters(None)];
    var u := AfterFilters(mode, empty, s, Some(f));
    var t := AfterFilters(mode, empty, u, None);
    assert evs[1..] == [SetFilters(None)];
    assert Run(mode, empty, u, evs[1..]) == Run(mode, empty, t, []);
    assert Run(mode, empty, s, evs) == t;
    FailedSubscriptionIsSilentFrom(mode, empty, t, more);
  }

  // ---------------------------------------------------------------------
  // The store object
  // ---------------------------------------------------------------------

  /**
   * A filtered store: `data` is the entity (`Option<E>`, initially null) or
   * the entity list (`seq<E>`, initially `[]`) of the store's view model.
   */
  class FilteredStore<F, D> {
    const mode: Mode
    const empty: D
    var data: D
    var filters: Option<F>
    var isLoading: bool
    var error: Option<Thrown>
    var generation: nat
    var subscribed: bool

    function Snapshot(): State<F, D>
      reads this
    {
      State(data, filters, isLoading, error, generation, subscribed)
    }

    constructor (mode: Mode, empty: D)
      ensures this.mode == mode && this.empty == empty
      ensures Snapshot() == Constructed(mode, empty)
    {
      this.mode := mode;
      this.empty := empty;
      data, filters, isLoading, error := empty, None, false, None;
      generation, subscribed := 0, false;
      new;
      var none := React(None);
    }

    /** The switchMap body for one value of `filters$`; yields the generation of the subscription it opens, if any. */
    method React(f: Option<F>) returns (subscription: Option<nat>)
      modifies this
      ensures Snapshot() == Effect(mode, empty, old(Snapshot()), f)
      ensures subscription == (if f.Some? then Some(generation) else None)
    {
      generation := generation + 1;
      subscribed := false;
      if mode.clear == ClearOnEveryFilter {
        data := empty;
      }
      if f.None? {
        if mode.clear == ClearOnNullFilter {
          data := empty;
        }
        return None;
      }
      isLoading := mode.loading == TracksLoading;
      subscribed := true;
      subscription := Some(generation);
    }

    method SetFilters(f: Option<F>) returns (subscription: Option<nat>)
      modifies this
      ensures Snapshot() == AfterFilters(mode, empty, old(Snapshot()), f)
      ensures subscription == (if f.Some? then Some(generation) else None)
    {
      filters := f;
      subscription := React(f);
    }

    /** The `tapResponse` success callback of the subscription of generation `gen`. */
    method Emit(gen: nat, value: D)
      modifies this
      ensures Snapshot() == AfterEmission(mode, old(Snapshot()), gen, value)
    {
      if gen == generation && subscribed {
        data := value;
        if mode.loading == TracksLoading {
          isLoading := false;
        }
      }
    }

    /** The `tapResponse` error callback of the subscription of generation `gen`. */
    method Fail(gen: nat, e: Thrown)
      modifies this
      ensures Snapshot() == AfterFailure(mode, old(Snapshot()), gen, e)
    {
      if gen == generation && subscribed {
        error := Some(e);
        if mode.loading == TracksLoading {
          isLoading := false;
        }
        subscribed := false;
      }
    }
  }

  // ---------------------------------------------------------------------
  // Load-once stores (no filter)
  // ---------------------------------------------------------------------

  /** `{ data, isLoading, error }` plus whether the one subscription is live and how many loads were started. */
  datatype LoadState<D> = LoadState(data: D, isLoading: bool, error: Option<Thrown>, subscribed: bool, loads: nat)

  datatype LoadEvent<D> = Delivered(value: D) | Failed(error: Thrown)

  /** The load effect: patch `isLoading` to false and subscribe. */
  function Load<D>(s: LoadState<D>): (t: LoadState<D>)
    ensures !t.isLoading && t.subscribed && t.loads == s.loads + 1
    ensures t.data == s.data && t.error == s.error
  {
    s.(isLoading := false, subscribed := true, loads := s.loads + 1)
  }

  /** The constructor: `initialState`, then the effect called once. */
  function LoadConstructed<D>(empty: D): (s: LoadState<D>)
    ensures s.data == empty && !s.isLoading && s.error.None? && s.subscribed && s.loads == 1
  {
    Load(LoadState(empty, false, None, false, 0))
  }

  /** An emission replaces the data wholesale; an error is stored and ends the subscription; the data stays. */
  function LoadStep<D>(s: LoadState<D>, ev: LoadEvent<D>): (t: LoadState<D>)
    ensures !s.subscribed ==> t == s
    ensures s.subscribed && ev.Delivered? ==> t == s.(data := ev.value)
    ensures s.subscribed && ev.Failed? ==> t == s.(error := Some(ev.error), subscribed := false)
  {
    if !s.subscribed then s
    else match ev
      case Delivered(v) => s.(data := v)
      case Failed(e) => s.(error := Some(e), subscribed := false)
  }

  function LoadRun<D>(s: LoadState<D>, evs: seq<LoadEvent<D>>): LoadState<D>
    decreases |evs|
  {
    if evs == [] then s else LoadRun(LoadStep(s, evs[0]), evs[1..])
  }

  /** The data after the subscription's emissions: the last value delivered before the first error, else `d`. */
  function LastDelivered<D>(d: D, evs: seq<LoadEvent<D>>): D
    decreases |evs|
  {
    if evs == [] || evs[0].Failed? then d else LastDelivered(evs[0].value, evs[1..])
  }

  /**
   * Along any trace a load-once store never starts a second load and is
   * never loading; its data is the last value delivered before the first
   * error; an error, once stored, stays.
   */
  lemma {:induction false} LoadRunFacts<D>(s: LoadState<D>, evs: seq<LoadEvent<D>>)
    requires s.subscribed && !s.isLoading
    ensures var t := LoadRun(s, evs);
      && t.loads == s.loads && !t.isLoading
      && t.data == LastDelivered(s.data, evs)
      && (s.error.Some? ==> t.error.Some?)
    decreases |evs|
  {
    if evs != [] {
      if evs[0].Failed? {
        LoadSilentAfterFailure(LoadStep(s, evs[0]), evs[1..]);
      } else {
        LoadRunFacts(LoadStep(s, evs[0]), evs[1..]);
      }
    }
  }

  lemma {:induction false} LoadSilentAfterFailure<D>(t: LoadState<D>, evs: seq<LoadEvent<D>>)
    requires !t.subscribed
    ensures LoadRun(t, evs) == t
    decreases |evs|
  {
    if evs != [] {
      LoadSilentAfterFailure(LoadStep(t, evs[0]), evs[1..]);
    }
  }

  /** From construction: exactly one load, never loading, data as last delivered. */
  lemma LoadOnceReachable<D>(empty: D, evs: seq<LoadEvent<D>>)
    ensures var t := LoadRun(LoadConstructed(empty), evs);
      t.loads == 1 && !t.isLoading && t.data == LastDelivered(empty, evs)
  {
    LoadRunFacts(LoadConstructed(empty), evs);
  }

  class LoadOnceStore<D> {
    var data: D
    var isLoading: bool
    var error: Option<Thrown>
    var subscribed: bool
    var loads: nat

    function Snapshot(): LoadState<D>
      reads this
    {
      LoadState(data, isLoading, error, subscribed, loads)
    }

    constructor (empty: D)
      ensures Snapshot() == LoadConstructed(empty)
    {
      data, isLoading, error, subscribed, loads := empty, false, None, false, 0;
      new;
      isLoading := false;
      subscribed := true;
      loads := loads + 1;
    }

    method Deliver(value: D)
      modifies this
      ensures Snapshot() == LoadStep(old(Snapshot()), Delivered(value))
    {
      if subscribed {
        data := value;
      }
    }

    method Fail(e: Thrown)
      modifies this
      ensures Snapshot() == LoadStep(old(Snapshot()), Failed(e))
    {
      if subscribed {
        error := Some(e);
        subscribed := false;
      }
    }
  }
}
