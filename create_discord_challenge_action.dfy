/**
 * `CreateDiscordChallengeActionDirective`: `run` awaits `createDiscordChallenge` of a discord-challenge service that is not part of this model.
 */
module CreateDiscordChallengeAction {
  import opened Firestore
  import opened MutationRunner

  /** The call `run` awaits: `createDiscordChallenge({ challengeId })`. */
  datatype Call = CreateDiscordChallenge(challengeId: string)

  /** One `case` arm, `permission-denied`; every other FirebaseError code gets the default sentence. */
  const Errors := ErrorTable(map["permission-denied" := "Permission denied."], "Unknown error creating discord challenge.")

  /** The directive as constructed: `initialState`, nothing run yet. */
  method New() returns (d: Directive<Call>)
    ensures fresh(d) && d.errors == Errors && d.State() == Idle && d.log == []
  {
    d := new Directive(Errors);
  }

  /** The call `run` makes: the arguments, unchanged, as one payload. */
  function CallOf(challengeId: string): (c: Call)
  {
    CreateDiscordChallenge(challengeId)
  }

  /** `run`: the effects of one run are appended, with the payload built from the arguments as its one call. */
  method Run(d: Directive<Call>, challengeId: string, outcome: Outcome)
    requires d.errors == Errors
    modifies d
    ensures d.log == old(d.log) + RunEffects(old(d.error), CallOf(challengeId), outcome, Errors)
    ensures d.State() == RunnerState(false, ErrorAfter(old(d.error), outcome, Errors))
  {
    d.Run(CallOf(challengeId), outcome);
  }

  /**
   * A thrown string is kept verbatim, `permission-denied` becomes
   * "Permission denied.", any other FirebaseError code "Unknown error creating discord challenge.", and
   * anything else its serialization.
   */
  lemma ClassifierOf(code: string, message: string, serialized: string)
    ensures Classify(Errors, FirebaseThrown(code)) == (if code == "permission-denied" then "Permission denied." else "Unknown error creating discord challenge.")
    ensures Classify(Errors, StringThrown(message)) == message
    ensures Classify(Errors, OtherThrown(serialized)) == serialized
  {
  }

  /**
   * A run rejected with FirebaseError `code` emits Starts, then Error with
   * that code's sentence, then Ends, and leaves the sentence in `error`
   * with `isRunning` false.
   */
  lemma FirebaseFailureOf(s: RunnerState, c: Call, code: string)
    ensures var r := RunEffects(s.error, c, Rejected(FirebaseThrown(code)), Errors);
      && Notifications(r) == [Starts, Error((if code == "permission-denied" then "Permission denied." else "Unknown error creating discord challenge.")), Ends]
      && Calls(r) == [c]
      && Replay(s, r) == RunnerState(false, Some((if code == "permission-denied" then "Permission denied." else "Unknown error creating discord challenge.")))
  {
    RunOutputs(s.error, c, Rejected(FirebaseThrown(code)), Errors);
    RunFinalState(s, c, Rejected(FirebaseThrown(code)), Errors);
  }
}
