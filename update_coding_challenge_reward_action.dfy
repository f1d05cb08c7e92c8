/**
 * `UpdateCodingChallengeRewardActionDirective`: `run` awaits `updateCodingChallengeReward` of a reward service that is not part of this model.
 */
module UpdateCodingChallengeRewardAction {
  import opened Firestore
  import opened MutationRunner

  /** The payload of `updateCodingChallengeReward`; `attributes` holds the `SeasonAttribute` values as given. */
  datatype RewardUpdate = RewardUpdate(
    id: string, title: string, description: string, website: string, symbol: string, attributes: seq<Value>)

  /** No `case` arm: every FirebaseError code, `permission-denied` included, gets the default sentence. */
  const Errors := ErrorTable(map[], "Unknown error updating reward.")

  /** The directive as constructed: `initialState`, nothing run yet. */
  method New() returns (d: Directive<RewardUpdate>)
    ensures fresh(d) && d.errors == Errors && d.State() == Idle && d.log == []
  {
    d := new Directive(Errors);
  }

  /** The call `run` makes: the arguments, unchanged, as one payload. */
  function CallOf(id: string, title: string, description: string, website: string, symbol: string, attributes: seq<Value>): (c: RewardUpdate)
  {
    RewardUpdate(id, title, description, website, symbol, attributes)
  }

  /** `run`: the effects of one run are appended, with the payload built from the arguments as its one call. */
  method Run(d: Directive<RewardUpdate>, id: string, title: string, description: string, website: string, symbol: string, attributes: seq<Value>, outcome: Outcome)
    requires d.errors == Errors
    modifies d
    ensures d.log == old(d.log) + RunEffects(old(d.error), CallOf(id, title, description, website, symbol, attributes), outcome, Errors)
    ensures d.State() == RunnerState(false, ErrorAfter(old(d.error), outcome, Errors))
  {
    d.Run(CallOf(id, title, description, website, symbol, attributes), outcome);
  }

  /**
   * A thrown string is kept verbatim, every FirebaseError code, whatever it
   * is, becomes "Unknown error updating reward.", and anything else its serialization.
   */
  lemma ClassifierOf(code: string, message: string, serialized: string)
    ensures Classify(Errors, FirebaseThrown(code)) == "Unknown error updating reward."
    ensures Classify(Errors, StringThrown(message)) == message
    ensures Classify(Errors, OtherThrown(serialized)) == serialized
  {
  }

  /**
   * A run rejected with FirebaseError `code` emits Starts, then Error with
   * that code's sentence, then Ends, and leaves the sentence in `error`
   * with `isRunning` false.
   */
  lemma FirebaseFailureOf(s: RunnerState, c: RewardUpdate, code: string)
    ensures var r := RunEffects(s.error, c, Rejected(FirebaseThrown(code)), Errors);
      && Notifications(r) == [Starts, Error("Unknown error updating reward."), Ends]
      && Calls(r) == [c]
      && Replay(s, r) == RunnerState(false, Some("Unknown error updating reward."))
  {
    RunOutputs(s.error, c, Rejected(FirebaseThrown(code)), Errors);
    RunFinalState(s, c, Rejected(FirebaseThrown(code)), Errors);
  }
}
