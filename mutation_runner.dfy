/**
 * The mutation-runner directives: a `ComponentStore` over
 * `{ isRunning, error }` whose `run` patches `isRunning`, emits `Starts`,
 * awaits one service call, emits `Success` or classifies the rejection
 * into a message that it stores and emits as `Error`, and finally patches
 * `isRunning` back and emits `Ends`.
 *
 * The outputs and the state patches are recorded in one appended log of
 * effects, in the order they happen; the call's outcome is an input.
 */
module MutationRunner {
  import opened Firestore

  datatype Notification = Starts | Success | Error(message: string) | Ends

  /** One observable step: a state patch (with the state it leaves), an output emission, or the service call. */
  datatype Effect<C> =
    | Patched(isRunning: bool, error: Option<string>)
    | Notified(notification: Notification)
    | Wrote(call: C)

  /** How the awaited call settles. */
  datatype Outcome = Resolved | Rejected(reason: Thrown)

  /** The `switch (err.code)` of one directive: its `case` arms and its `default` sentence. */
  datatype ErrorTable = ErrorTable(codes: map<string, string>, fallback: string)

  /** The `{ isRunning, error }` view model. */
  datatype RunnerState = RunnerState(isRunning: bool, error: Option<string>)

  /** `initialState`. */
  const Idle := RunnerState(false, None)

  /**
   * The catch block's message: a thrown string verbatim, a FirebaseError by
   * its code through the table, anything else as its JSON serialization.
   */
  function Classify(table: ErrorTable, err: Thrown): string
  {
    match err
    case StringThrown(message) => message
    case FirebaseThrown(code) => if code in table.codes then table.codes[code] else table.fallback
    case OtherThrown(serialized) => serialized
  }

  /** `error` once `run` is over: unchanged on success, the classified message on failure. */
  function ErrorAfter(error0: Option<string>, outcome: Outcome, table: ErrorTable): Option<string>
  {
    if outcome.Resolved? then error0 else Some(Classify(table, outcome.reason))
  }

  /** The effects of one `run` that starts with `error == error0`. */
  function RunEffects<C>(error0: Option<string>, call: C, outcome: Outcome, table: ErrorTable): (r: seq<Effect<C>>)
    ensures |r| == (if outcome.Resolved? then 6 else 7)
    ensures r[0] == Patched(true, error0) && r[1] == Notified(Starts) && r[2] == Wrote(call)
    ensures r[|r| - 2] == Patched(false, ErrorAfter(error0, outcome, table)) && r[|r| - 1] == Notified(Ends)
  {
    var opening := [Patched(true, error0), Notified(Starts), Wrote(call)];
    var settled :=
      if outcome.Resolved? then [Notified(Success)]
      else var message := Classify(table, outcome.reason);
        [Patched(true, Some(message)), Notified(Error(message))];
    opening + settled + [Patched(false, ErrorAfter(error0, outcome, table)), Notified(Ends)]
  }

  // ---------------------------------------------------------------------
  // Observers of a log
  // ---------------------------------------------------------------------

  /** The output an effect emits, if any. */
  function Emitted<C>(e: Effect<C>): seq<Notification>
  {
    if e.Notified? then [e.notification] else []
  }

  /** The call an effect makes, if any. */
  function Called<C>(e: Effect<C>): seq<C>
  {
    if e.Wrote? then [e.call] else []
  }

  /** The state an effect leaves, given the state before it. */
  function Apply<C>(s: RunnerState, e: Effect<C>): RunnerState
  {
    if e.Patched? then RunnerState(e.isRunning, e.error) else s
  }

  /** The outputs emitted, in order. */
  function Notifications<C>(log: seq<Effect<C>>): seq<Notification>
    decreases |log|
  {
    if log == [] then [] else Emitted(log[0]) + Notifications(log[1..])
  }

  /** The service calls made, in order. */
  function Calls<C>(log: seq<Effect<C>>): seq<C>
    decreases |log|
  {
    if log == [] then [] else Called(log[0]) + Calls(log[1..])
  }

  /** The view model after the log, starting from `s`: the last patch wins. */
  function Replay<C>(s: RunnerState, log: seq<Effect<C>>): RunnerState
    decreases |log|
  {
    if log == [] then s else Replay(Apply(s, log[0]), log[1..])
  }

  lemma {:induction false} NotificationsAppend<C>(a: seq<Effect<C>>, b: seq<Effect<C>>)
    ensures Notifications(a + b) == Notifications(a) + Notifications(b)
    decreases |a|
  {
    if a == [] {
      assert a + b == b;
    } else {
      assert (a + b)[0] == a[0];
      assert (a + b)[1..] == a[1..] + b;
      NotificationsAppend(a[1..], b);
    }
  }

  lemma {:induction false} CallsAppend<C>(a: seq<Effect<C>>, b: seq<Effect<C>>)
    ensures Calls(a + b) == Calls(a) + Calls(b)
    decreases |a|
  {
    if a == [] {
      assert a + b == b;
    } else {
      assert (a + b)[0] == a[0];
      assert (a + b)[1..] == a[1..] + b;
      CallsAppend(a[1..], b);
    }
  }

  lemma {:induction false} ReplayAppend<C>(s: RunnerState, a: seq<Effect<C>>, b: seq<Effect<C>>)
    ensures Replay(s, a + b) == Replay(Replay(s, a), b)
    decreases |a|
  {
    if a == [] {
      assert a + b == b;
    } else {
      assert (a + b)[0] == a[0];
      assert (a + b)[1..] == a[1..] + b;
      ReplayAppend(Apply(s, a[0]), a[1..], b);
    }
  }

  /** The observers of a log, taken one effect at a time from position `j`. */
  lemma ObserversAt<C>(s: RunnerState, r: seq<Effect<C>>, j: nat)
    requires j < |r|
    ensures Notifications(r[j..]) == Emitted(r[j]) + Notifications(r[j + 1..])
    ensures Calls(r[j..]) == Called(r[j]) + Calls(r[j + 1..])
    ensures Replay(s, r[..j + 1]) == Apply(Replay(s, r[..j]), r[j])
  {
    assert r[j..][0] == r[j] && r[j..][1..] == r[j + 1..];
    assert r[..j + 1] == r[..j] + [r[j]];
    ReplayAppend(s, r[..j], [r[j]]);
  }

  // ---------------------------------------------------------------------
  // Properties of one run
  // ---------------------------------------------------------------------

  /**
   * A run emits `Starts`, then `Success` or `Error` with the classified
   * message, then `Ends`, and nothing else; it makes exactly one call,
   * the one it was given.
   */
  lemma RunOutputs<C>(error0: Option<string>, call: C, outcome: Outcome, table: ErrorTable)
    ensures Notifications(RunEffects(error0, call, outcome, table)) ==
      if outcome.Resolved? then [Starts, Success, Ends]
      else [Starts, Error(Classify(table, outcome.reason)), Ends]
    ensures Calls(RunEffects(error0, call, outcome, table)) == [call]
  {
    var r := RunEffects(error0, call, outcome, table);
    var n := |r|;
    forall j | 0 <= j < n
      ensures Notifications(r[j..]) == Emitted(r[j]) + Notifications(r[j + 1..])
      ensures Calls(r[j..]) == Called(r[j]) + Calls(r[j + 1..])
    {
      ObserversAt(Idle, r, j);
    }
    assert r[0..] == r && r[n..] == [];
  }

  /**
   * Whatever the state before the run, it ends not running; `error` is
   * unchanged on success (a run does not clear an earlier error) and is the
   * classified message on failure.
   */
  lemma RunFinalState<C>(s: RunnerState, call: C, outcome: Outcome, table: ErrorTable)
    ensures Replay(s, RunEffects(s.error, call, outcome, table)) == RunnerState(false, ErrorAfter(s.error, outcome, table))
    ensures outcome.Resolved? ==> Replay(s, RunEffects(s.error, call, outcome, table)).error == s.error
  {
    var r := RunEffects(s.error, call, outcome, table);
    var n := |r|;
    ObserversAt(s, r, n - 2);
    ObserversAt(s, r, n - 1);
    assert r[..n] == r;
  }

  /**
   * Every output but `Ends` is emitted while `isRunning` is true, `Ends`
   * after it is patched false, and on failure the stored `error` equals the
   * message the `Error` output carries from the moment it is emitted.
   */
  lemma {:induction false} RunningUntilEnds<C>(s: RunnerState, call: C, outcome: Outcome, table: ErrorTable, i: nat)
    requires i < |RunEffects(s.error, call, outcome, table)|
    requires RunEffects(s.error, call, outcome, table)[i].Notified?
    ensures var r := RunEffects(s.error, call, outcome, table);
      var at := Replay(s, r[..i]);
      && (at.isRunning <==> r[i].notification != Ends)
      && (r[i].notification.Error? ==> at.error == Some(r[i].notification.message))
  {
    var r := RunEffects(s.error, call, outcome, table);
    var n := |r|;
    assert r[..0] == [];
    ObserversAt(s, r, 0);
    ObserversAt(s, r, 1);
    ObserversAt(s, r, 2);
    ObserversAt(s, r, 3);
    ObserversAt(s, r, 4);
    ObserversAt(s, r, 5);
    if outcome.Rejected? {
      assert i == 1 || i == 4 || i == 6;
    } else {
      assert i == 1 || i == 3 || i == 5;
    }
  }

  /**
   * A directive: its error table is fixed when it is declared; `log`
   * records every effect of every run so far.
   */
  class Directive<C> {
    const errors: ErrorTable
    var isRunning: bool
    var error: Option<string>
    var log: seq<Effect<C>>

    function State(): RunnerState
      reads this
    {
      RunnerState(isRunning, error)
    }

    constructor (errors: ErrorTable)
      ensures this.errors == errors && State() == Idle && log == []
    {
      this.errors := errors;
      isRunning, error, log := false, None, [];
    }

    /** `run`, given the call it awaits and how that call settles. */
    method Run(call: C, outcome: Outcome)
      modifies this
      ensures log == old(log) + RunEffects(old(error), call, outcome, errors)
      ensures State() == RunnerState(false, ErrorAfter(old(error), outcome, errors))
    {
      ghost var log0, error0 := log, error;
      isRunning := true;
      log := log + [Patched(isRunning, error)];
      log := log + [Notified(Starts)];
      log := log + [Wrote(call)];
      if outcome.Resolved? {
        log := log + [Notified(Success)];
      } else {
        var message := Classify(errors, outcome.reason);
        error := Some(message);
        log := log + [Patched(isRunning, error)];
        log := log + [Notified(Error(message))];
      }
      isRunning := false;
      log := log + [Patched(isRunning, error)];
      log := log + [Notified(Ends)];
      assert log == log0 + RunEffects(error0, call, outcome, errors);
    }
  }

  /** Over a whole log, each run appends its own outputs after the earlier ones. */
  lemma RunAppendsOutputs<C>(log0: seq<Effect<C>>, error0: Option<string>, call: C, outcome: Outcome, table: ErrorTable)
    ensures Notifications(log0 + RunEffects(error0, call, outcome, table)) ==
      Notifications(log0) + (if outcome.Resolved? then [Starts, Success, Ends]
                             else [Starts, Error(Classify(table, outcome.reason)), Ends])
    ensures Calls(log0 + RunEffects(error0, call, outcome, table)) == Calls(log0) + [call]
  {
    NotificationsAppend(log0, RunEffects(error0, call, outcome, table));
    CallsAppend(log0, RunEffects(error0, call, outcome, table));
    RunOutputs(error0, call, outcome, table);
  }
}
