/**
 * `UpdateCodingChallengeActionDirective`: `run` awaits `updateCodingChallenge`.
 */
module UpdateCodingChallengeAction {
  import opened Firestore
  import opened MutationRunner
  import CodingChallengeApi

  /** No `case` arm: every FirebaseError code, `permission-denied` included, gets the default sentence. */
  const Errors := ErrorTable(map[], "Unknown error updating coding challenge.")

  /** The directive as constructed: `initialState`, nothing run yet. */
  method New() returns (d: Directive<CodingChallengeApi.UpdateCodingChallengePayload>)
    ensures fresh(d) && d.errors == Errors && d.State() == Idle && d.log == []
  {
    d := new Directive(Errors);
  }

  /** The call `run` makes: the arguments, unchanged, as one payload. */
  function CallOf(id: string, title: string, description: string, difficulty: string, tags: string, startDate: Date, endDate: Date): (c: CodingChallengeApi.UpdateCodingChallengePayload)
  {
    CodingChallengeApi.UpdateCodingChallengePayload(id, title, description, difficulty, tags, startDate, endDate)
  }

  /** `run`: the effects of one run are appended, with the payload built from the arguments as its one call. */
  method Run(d: Directive<CodingChallengeApi.UpdateCodingChallengePayload>, id: string, title: string, description: string, difficulty: string, tags: string, startDate: Date, endDate: Date, outcome: Outcome)
    requires d.errors == Errors
    modifies d
    ensures d.log == old(d.log) + RunEffects(old(d.error), CallOf(id, title, description, difficulty, tags, startDate, endDate), outcome, Errors)
    ensures d.State() == RunnerState(false, ErrorAfter(old(d.error), outcome, Errors))
  {
    d.Run(CallOf(id, title, description, difficulty, tags, startDate, endDate), outcome);
  }

  /**
   * A thrown string is kept verbatim, every FirebaseError code, whatever it
   * is, becomes "Unknown error updating coding challenge.", and anything else its serialization.
   */
  lemma ClassifierOf(code: string, message: string, serialized: string)
    ensures Classify(Errors, FirebaseThrown(code)) == "Unknown error updating coding challenge."
    ensures Classify(Errors, StringThrown(message)) == message
    ensures Classify(Errors, OtherThrown(serialized)) == serialized
  {
  }

  /**
   * A run rejected with FirebaseError `code` emits Starts, then Error with
   * that code's sentence, then Ends, and leaves the sentence in `error`
   * with `isRunning` false.
   */
  lemma FirebaseFailureOf(s: RunnerState, c: CodingChallengeApi.UpdateCodingChallengePayload, code: string)
    ensures var r := RunEffects(s.error, c, Rejected(FirebaseThrown(code)), Errors);
      && Notifications(r) == [Starts, Error("Unknown error updating coding challenge."), Ends]
      && Calls(r) == [c]
      && Replay(s, r) == RunnerState(false, Some("Unknown error updating coding challenge."))
  {
    RunOutputs(s.error, c, Rejected(FirebaseThrown(code)), Errors);
    RunFinalState(s, c, Rejected(FirebaseThrown(code)), Errors);
  }
}
