/**
 * `DeleteEventActionDirective`: `run` awaits `deleteEvent`.
 */
module DeleteEventAction {
  import opened Firestore
  import opened MutationRunner
  import EventApi

  /** One `case` arm, `permission-denied`; every other FirebaseError code gets the default sentence. */
  const Errors := ErrorTable(map["permission-denied" := "Permission denied."], "Unknown error deleting event.")

  /** The directive as constructed: `initialState`, nothing run yet. */
  method New() returns (d: Directive<EventApi.DeleteEventPayload>)
    ensures fresh(d) && d.errors == Errors && d.State() == Idle && d.log == []
  {
    d := new Directive(Errors);
  }

  /** The call `run` makes: the arguments, unchanged, as one payload. */
  function CallOf(eventId: string): (c: EventApi.DeleteEventPayload)
  {
    EventApi.DeleteEventPayload(eventId)
  }

  /** `run`: the effects of one run are appended, with the payload built from the arguments as its one call. */
  method Run(d: Directive<EventApi.DeleteEventPayload>, eventId: string, outcome: Outcome)
    requires d.errors == Errors
    modifies d
    ensures d.log == old(d.log) + RunEffects(old(d.error), CallOf(eventId), outcome, Errors)
    ensures d.State() == RunnerState(false, ErrorAfter(old(d.error), outcome, Errors))
  {
    d.Run(CallOf(eventId), outcome);
  }

  /**
   * A thrown string is kept verbatim, `permission-denied` becomes
   * "Permission denied.", any other FirebaseError code "Unknown error deleting event.", and
   * anything else its serialization.
   */
  lemma ClassifierOf(code: string, message: string, serialized: string)
    ensures Classify(Errors, FirebaseThrown(code)) == (if code == "permission-denied" then "Permission denied." else "Unknown error deleting event.")
    ensures Classify(Errors, StringThrown(message)) == message
    ensures Classify(Errors, OtherThrown(serialized)) == serialized
  {
  }

  /**
   * A run rejected with FirebaseError `code` emits Starts, then Error with
   * that code's sentence, then Ends, and leaves the sentence in `error`
   * with `isRunning` false.
   */
  lemma FirebaseFailureOf(s: RunnerState, c: EventApi.DeleteEventPayload, code: string)
    ensures var r := RunEffects(s.error, c, Rejected(FirebaseThrown(code)), Errors);
      && Notifications(r) == [Starts, Error((if code == "permission-denied" then "Permission denied." else "Unknown error deleting event.")), Ends]
      && Calls(r) == [c]
      && Replay(s, r) == RunnerState(false, Some((if code == "permission-denied" then "Permission denied." else "Unknown error deleting event.")))
  {
    RunOutputs(s.error, c, Rejected(FirebaseThrown(code)), Errors);
    RunFinalState(s, c, Rejected(FirebaseThrown(code)), Errors);
  }
}
