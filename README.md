# action-directives, modelled in Dafny

This project models the sequential logic under the Angular/Firestore glue of *action-directives*, a UI library for coding challenges, seasons, events and discord events. The logic comes in three kinds.

- **API services** (`services/*`). Each getter turns a filter into a query plan: either a direct document watch, or a collection query with an ordered list of `field == value` constraints and an optional `limit(1)`. It then turns the snapshot into entities: collection getters map every document, single getters give `null` or the first document. Each write method hands the client a fixed record shape. `Firestore` holds the shared vocabulary:
  - plans, constraints and values;
  - `WhereEach`, the specification of the conditional `constraints.push` steps;
  - a reference meaning of a plan (`Execute`, `FieldsMatch`) that the getters are proved against;
  - `Merge`, the top-level effect of `updateDoc`, which the record builders are proved against.

  Getters that push constraints are imperative methods. Record builders and result selection are functions. Entity mappers (`toEvent`, `toSeason`, …) are function parameters.
- **View-state stores** (`stores/*`). These are `ComponentStore`s whose `setFilters` updater drives a `switchMap` effect.
  - `ViewStore` defines the state machine. It has two policies: whether the entity is reset on every filter value or only on `null`, and whether `isLoading` is tracked or only ever patched to false. A generation counter stands for `switchMap`: only the live subscription's emissions and errors take effect. The class `FilteredStore` carries the same state in mutable fields.
  - The filterless `seasons`/`events` stores are `LoadOnceStore`s.
  - Each store file has its own module. It fixes that file's mode and pins its behaviour by lemmas.
- **Mutation runners** (`actions/*`, `examples/*`). `MutationRunner` defines one `run` as a log of effects:
  - state patches, output emissions (`Starts`, `Success`, `Error(message)`, `Ends`) and the one awaited call;
  - the call's outcome is an input;
  - the reference function `RunEffects` and lemmas about what the log shows.

  The class `Directive` carries `isRunning`, `error` and the log. Each directive file has a module with its error table (`switch (err.code)`), its call payload and a `Run` wrapper.

Where the code and its description disagree, the model follows the code:
- A `null` filter leaves `isLoading` as it was; it does not reset it to false. So a tracking store that goes from a filter to `null` while loading stays loading (`ViewStore.NullFilterKeepsLoading`).
- A run does not clear an earlier `error` when it starts or succeeds.
- Of the by-id getters, only `getDiscordEvent` yields `null` for a missing document. The others hand the absent data to the mapper.
- `getEvent` by id hands the snapshot itself, not its data, to `toEvent`, with `filters.eventId` as the id.

## Model

| member | source | states |
|---|---|---|
| Firestore.DocPath | services/coding-challenge-api.service.ts:98-101 | The document path is the collection, one `/`, then the id, character for character. |
| Firestore.Merge | services/coding-challenge-api.service.ts:103-112 | `updateDoc` at the top level: the keys are the stored keys plus the written ones; written fields take the new value; every other stored field keeps its value. |
| Firestore.WhereEach | services/coding-challenge-api.service.ts:152-158 | The conditional pushes give one `where ==` per defined field and never more constraints than fields. |
| Firestore.WhereEachMembership | services/coding-challenge-api.service.ts:154-157 | A `field == v` constraint is in the pushed list exactly when the filter defines `field` as `v`. |
| Firestore.WhereEachMeansFieldsMatch | services/coding-challenge-api.service.ts:152-158 | A document satisfies the pushed constraints exactly when it matches every defined field of the filter. |
| Firestore.LimitOfWhereEach | services/coding-challenge-api.service.ts:197 | The pushed `where`s carry no limit; appending `limit(1)` makes the plan's limit 1. |
| Firestore.NoLimitInWheres | services/coding-challenge-api.service.ts:160 | A plan with only `where` constraints has no limit. |
| Firestore.CollectionPlanMeaning | services/coding-challenge-api.service.ts:152-166 | A collection plan yields exactly the stored documents that match every defined field, in store order. |
| Firestore.SinglePlanMeaning | services/coding-challenge-api.service.ts:187-199 | A single plan yields the first matching document in store order, or nothing when none matches. |
| Firestore.MapDocs | services/coding-challenge-api.service.ts:160-166 | Mapping a snapshot keeps its length, and entry `i` is the mapper applied to document `i`'s id and data. |
| Firestore.SingleLookupIsFirstMatch | services/coding-challenge-api.service.ts:187-209 | A single by-fields lookup gives `null` when no stored document matches, else the mapped first match. |
| CodingChallengeApi.CreateCodingChallenge | services/coding-challenge-api.service.ts:81-94 | Adds to `coding-challenges` exactly name, title and description copied from the payload, `body = ''`, `isDiscordChallengeLinked = false` and a server timestamp. |
| CodingChallengeApi.UpdateCodingChallenge | services/coding-challenge-api.service.ts:97-112 | Updates `coding-challenges/<id>` with exactly title, description and an `info` object of difficulty, tags and the two dates. The id appears only in the path. |
| CodingChallengeApi.UpdateCodingChallengeEffect | services/coding-challenge-api.service.ts:103-112 | On any stored document: title and description are set, `info` is replaced whole, and every other field (`body` included) is kept. |
| CodingChallengeApi.SingleFieldUpdatesEffect | services/coding-challenge-api.service.ts:115-134 | The body and image updates each write only their one field of `coding-challenges/<id>`; every other stored field is kept. |
| CodingChallengeApi.DeleteCodingChallenge | services/coding-challenge-api.service.ts:137-144 | A `deleteDoc` whose path is `coding-challenges`, one `/`, then the payload's id. |
| CodingChallengeApi.DeleteCodingChallengeTargets | services/coding-challenge-api.service.ts:137-144 | Two deletes hit the same document exactly when their payloads are equal: the id alone picks the document. |
| CodingChallengeApi.GetCodingChallengesPlan | services/coding-challenge-api.service.ts:146-160 | A `status ==` constraint is present exactly when status is defined, with its value. There is never a limit; with no status the plan is the whole collection. |
| CodingChallengeApi.SelectCodingChallenges | services/coding-challenge-api.service.ts:160-166 | Every document is mapped one to one, keeping length and order. |
| CodingChallengeApi.GetCodingChallengePlan | services/coding-challenge-api.service.ts:169-197 | By id: a direct watch of `coding-challenges/<id>`. By fields: name, then status (each only if defined), then `limit(1)` last. |
| CodingChallengeApi.SelectCodingChallenge | services/coding-challenge-api.service.ts:176-209 | By id: always the mapped snapshot, even when the document is missing. By fields: `null` exactly when the result is empty, else the mapped `docs[0]`. |
| CodingChallengeSubmissionApi.ReviewCodingChallengeSubmission | services/coding-challenge-submission-api.service.ts:55-67 | Updates `coding-challenge-submissions/<id>` with exactly `isApproved` from the payload, `status = 'done'` and a server-timestamp `doneAt`. |
| CodingChallengeSubmissionApi.PushFieldConstraints | services/coding-challenge-submission-api.service.ts:76-92 | The three pushes give constraints in the order status, codingChallengeId, userId. Each is present exactly when its field is defined, with its value. |
| CodingChallengeSubmissionApi.GetCodingChallengeSubmissionsPlan | services/coding-challenge-submission-api.service.ts:70-96 | The collection plan has the three conditional constraints and no limit. |
| CodingChallengeSubmissionApi.SelectCodingChallengeSubmissions | services/coding-challenge-submission-api.service.ts:97-102 | Every document is mapped one to one, keeping length and order. |
| CodingChallengeSubmissionApi.GetCodingChallengeSubmissionPlan | services/coding-challenge-submission-api.service.ts:105-139 | By id: a direct watch of `coding-challenge-submissions/<id>`. By fields: the same three conditional constraints in the same order, then `limit(1)` last. |
| CodingChallengeSubmissionApi.SelectCodingChallengeSubmission | services/coding-challenge-submission-api.service.ts:112-153 | By id: the mapped snapshot. By fields: `null` exactly when empty, else the mapped `docs[0]`. |
| EventApi.CreateEvent | services/event-api.service.ts:67-77 | Adds to `events` exactly title, description, name and type copied from the payload, `isDiscordEventLinked = false` and a server timestamp. |
| EventApi.UpdateEventInfo | services/event-api.service.ts:80-93 | Updates `events/<eventId>` with title and description at the top level and an `info` object of tags, dates, location and isDiscordEvent. |
| EventApi.UpdateEventInfoEffect | services/event-api.service.ts:83-93 | `info` is replaced whole, a null location is stored as null, and every other stored field is kept. |
| EventApi.UpdateEventAdvancedEffect | services/event-api.service.ts:96-103 | Updates `events/<eventId>` with the one field `advanced`, an object holding only `joinCode`: the code when given, null otherwise. Applied to a stored document, `advanced` is replaced whole, so earlier `advanced` sub-fields are dropped, and every other stored field is kept. |
| EventApi.DeleteEvent | services/event-api.service.ts:106-110 | A `deleteDoc` whose path is `events`, one `/`, then the payload's eventId. |
| EventApi.DeleteEventTargets | services/event-api.service.ts:106-110 | Two deletes hit the same document exactly when their payloads are equal: the eventId alone picks the document. |
| EventApi.UpdateImageEffect | services/event-api.service.ts:112-118 | Writes only `imageUrl` of `events/<eventId>`; every other stored field is kept. |
| EventApi.GetEventsPlan | services/event-api.service.ts:120-123 | The whole `events` collection, with no constraint and no limit. |
| EventApi.GetEventsYieldsAll | services/event-api.service.ts:120-127 | The unconstrained plan yields every stored document, in order. |
| EventApi.SelectEvents | services/event-api.service.ts:123-127 | Every document is mapped one to one, keeping length and order. |
| EventApi.GetEventPlan | services/event-api.service.ts:130-146 | By eventId: a direct watch of `events/<eventId>`. By fields: a `name ==` constraint exactly when name is defined, then `limit(1)`. |
| EventApi.SelectEvent | services/event-api.service.ts:134-158 | By id: the mapper gets `filters.eventId` and the snapshot itself, and never yields null. By fields: `null` exactly when empty, else the mapped `docs[0]`. |
| SeasonApi.CreateSeason | services/season-api.service.ts:64-74 | Adds to `seasons` exactly name, title and description copied from the payload, a server timestamp, `attributes = []` and `isActive = false`. |
| SeasonApi.UpdateSeason | services/season-api.service.ts:77-86 | Updates `seasons/<id>` with exactly title, description, website, symbol and attributes. |
| SeasonApi.UpdateSeasonEffect | services/season-api.service.ts:80-86 | Every stored field other than those five is kept. |
| SeasonApi.SingleFieldUpdatesEffect | services/season-api.service.ts:89-102 | The image and isActive updates each write only their one field of `seasons/<id>`; every other stored field is kept. |
| SeasonApi.DeleteSeason | services/season-api.service.ts:105-109 | A `deleteDoc` whose path is `seasons`, one `/`, then the payload's id. |
| SeasonApi.DeleteSeasonTargets | services/season-api.service.ts:105-109 | Two deletes hit the same document exactly when their payloads are equal: the id alone picks the document. |
| SeasonApi.GetSeasonsPlan | services/season-api.service.ts:111-114 | The whole `seasons` collection, with no constraint and no limit. |
| SeasonApi.SelectSeasons | services/season-api.service.ts:114-120 | Every document is mapped one to one, keeping length and order. |
| SeasonApi.GetSeasonPlan | services/season-api.service.ts:123-139 | By id: a direct watch of `seasons/<id>`. By fields: a `name ==` constraint exactly when name is defined, then `limit(1)` last. |
| SeasonApi.SelectSeason | services/season-api.service.ts:127-151 | By id: the mapped snapshot. By fields: `null` exactly when empty, else the mapped `docs[0]`. |
| DiscordEventApi.CreateDiscordEvent | services/discord-event-api.service.ts:37-46 | `setDoc` of `discord-events/<eventId>` to exactly `{ status: 'creating', createdAt }`. |
| DiscordEventApi.StatusUpdatesEffect | services/discord-event-api.service.ts:49-79 | Cancel, start and end each update only `status` of `discord-events/<eventId>`, to `cancelling`, `starting` and `ending`; every other stored field is kept. |
| DiscordEventApi.GetDiscordEventPlan | services/discord-event-api.service.ts:82-88 | A direct watch of `discord-events/<eventId>`. |
| DiscordEventApi.SelectDiscordEvent | services/discord-event-api.service.ts:88-95 | `null` exactly when the document does not exist, otherwise the mapped snapshot. |
| ParticipantApi.GetParticipantsPlan | services/participant-api.service.ts:32-48 | A `userId` constraint exactly when that key is present, an `eventId` constraint exactly when that key is present, userId first, and never a limit. |
| ParticipantApi.SelectParticipants | services/participant-api.service.ts:49-57 | An empty snapshot yields `[]`; otherwise documents map one to one in order. |
| ParticipantApi.EmptyCheckIsRedundant | services/participant-api.service.ts:49-57 | The empty branch agrees with the plain mapping. |
| ViewStore.Effect | stores/event.store.ts:37-54 | The switchMap body: it starts a new generation and ends the previous subscription. It resets the entity on `null` (or on every value, per policy) and leaves `isLoading` alone on `null`. Otherwise it sets `isLoading` per policy and subscribes. |
| ViewStore.AfterFilters | stores/coding-challenge.store.ts:37-62 | `setFilters(f)` changes `filters` to `f`, then applies the effect; `error` is never touched. |
| ViewStore.AfterEmission | stores/coding-challenge.store.ts:54-57 | A live emission sets the entity (and `isLoading` false when tracked). An emission from any other generation, or after the subscription ended, changes nothing. |
| ViewStore.AfterFailure | stores/coding-challenge.store.ts:54-58 | A live error stores `error` (and `isLoading` false when tracked), keeps the entity and ends the subscription. Any other error changes nothing. |
| ViewStore.Constructed | stores/coding-challenge.store.ts:64-68 | After construction: empty entity, no filter, not loading, no error, no subscription. |
| ViewStore.RunKeepsCoherent | stores/coding-challenge.store.ts:44-62 | Along any trace: with no filter there is no subscription and the data is empty; a never-loading store is never loading. |
| ViewStore.ReachableIsCoherent | stores/coding-challenge.store.ts:64-68 | Every state reachable from construction satisfies those invariants. |
| ViewStore.ErrorNeverCleared | stores/coding-challenge.store.ts:44-62 | Once an error is stored, no trace resets `error` to null. |
| ViewStore.GenerationCountsFilters | stores/coding-challenge.store.ts:46 | Each filter value, and nothing else, starts a new generation. |
| ViewStore.Without | stores/coding-challenge.store.ts:46 | Removing one generation's events leaves no event of that generation and never lengthens the trace. |
| ViewStore.SupersededIsIgnored | stores/coding-challenge.store.ts:46 | Once a newer filter is set, the superseded subscription's emissions and errors change nothing, wherever they fall in the trace. |
| ViewStore.FailedSubscriptionIsSilent | stores/coding-challenge.store.ts:55-59 | After a live error, later emissions and errors change nothing until the next filter. |
| ViewStore.NullFilterKeepsLoading | stores/coding-challenge.store.ts:47-52 | In a tracking store, a filter followed by `null` leaves `isLoading` true, and nothing short of a new filter resets it. |
| ViewStore.FilteredStore.constructor | stores/coding-challenge.store.ts:64-68 | The object's state is `Constructed`. |
| ViewStore.FilteredStore.React | stores/event.store.ts:37-54 | The patches of the effect, in the file's order, give `Effect` of the old state; it returns the generation of the subscription it opens. |
| ViewStore.FilteredStore.SetFilters | stores/coding-challenge.store.ts:37-42 | The updater and then the effect give `AfterFilters` of the old state. |
| ViewStore.FilteredStore.Emit | stores/coding-challenge.store.ts:56-57 | The new state is `AfterEmission` of the old. |
| ViewStore.FilteredStore.Fail | stores/coding-challenge.store.ts:58 | The new state is `AfterFailure` of the old. |
| ViewStore.Load | stores/seasons.store.ts:27-31 | The load patches `isLoading` to false, subscribes once more and keeps data and error. |
| ViewStore.LoadConstructed | stores/seasons.store.ts:40-44 | After construction: empty data, not loading, no error, subscribed, one load. |
| ViewStore.LoadStep | stores/seasons.store.ts:31-35 | An emission replaces the data wholesale. An error is stored and ends the watch without touching data. After that nothing changes. |
| ViewStore.LoadRunFacts | stores/seasons.store.ts:27-38 | Along any trace: no further load, never loading, data is the last value delivered before the first error, and an error stays. |
| ViewStore.LoadOnceReachable | stores/seasons.store.ts:40-44 | From construction: exactly one load, never loading, data the last value delivered before the first error. |
| ViewStore.LoadOnceStore.constructor | stores/seasons.store.ts:40-44 | The object's state is `LoadConstructed`. |
| ViewStore.LoadOnceStore.Deliver | stores/seasons.store.ts:33 | The new state is `LoadStep` of the old with the delivered value. |
| ViewStore.LoadOnceStore.Fail | stores/seasons.store.ts:34 | The new state is `LoadStep` of the old with the error. |
| CodingChallengeStore.New | stores/coding-challenge.store.ts:17-22 | A fresh store in reset-on-null, loading-tracking mode, with entity null, no filter, not loading, no error. |
| CodingChallengeStore.SetFiltersOf | stores/coding-challenge.store.ts:37-54 | Only `filters` changes from the updater. `null` resets the entity, opens nothing and leaves `isLoading`. A filter keeps the entity, sets `isLoading` true and subscribes. |
| CodingChallengeStore.ResponsesOf | stores/coding-challenge.store.ts:55-59 | A live emission sets the entity and `isLoading` false. A live error sets `error` and `isLoading` false, keeps the entity and ends the subscription. |
| CodingChallengeStore.SupersededOf | stores/coding-challenge.store.ts:46 | Emissions of a superseded subscription never change the store. |
| SeasonStore.New | stores/season.store.ts:14-19 | A fresh store in reset-on-null, loading-tracking mode, with season null, no filter, not loading, no error. |
| SeasonStore.SetFiltersOf | stores/season.store.ts:30-44 | `null` resets season and opens nothing. A filter keeps season, sets `isLoading` true and subscribes. Only `filters` changes from the updater. |
| SeasonStore.ResponsesOf | stores/season.store.ts:46-50 | A live emission sets season and `isLoading` false. A live error sets `error` and `isLoading` false and ends the subscription. |
| SeasonStore.SupersededOf | stores/season.store.ts:38 | Emissions of a superseded subscription never change the store. |
| ParticipantsStore.New | stores/participants.store.ts:14-19 | A fresh store with participants `[]`, no filter, not loading, no error. |
| ParticipantsStore.SetFiltersOf | stores/participants.store.ts:30-44 | `null` sets participants to `[]` and opens nothing. A filter keeps the list, sets `isLoading` true and subscribes. |
| ParticipantsStore.ResponsesOf | stores/participants.store.ts:46-50 | A live emission replaces participants and sets `isLoading` false. A live error sets `error` and `isLoading` false. |
| ParticipantsStore.SupersededOf | stores/participants.store.ts:38 | Emissions of a superseded subscription never change the store. |
| EventStore.New | stores/event.store.ts:14-19 | A fresh store in reset-on-every-filter, loading-tracking mode, with event null, no filter, not loading, no error. |
| EventStore.SetFiltersOf | stores/event.store.ts:30-45 | Every filter value, null or not, resets event to null. `null` opens nothing and leaves `isLoading`; a filter sets `isLoading` true and subscribes. |
| EventStore.ResponsesOf | stores/event.store.ts:47-51 | A live emission sets event and `isLoading` false. A live error sets `error` and `isLoading` false. |
| EventStore.SupersededOf | stores/event.store.ts:38 | Emissions of a superseded subscription never change the store. |
| DiscordEventStore.New | stores/discord-event.store.ts:14-19 | A fresh store in reset-on-every-filter mode, all null, not loading. |
| DiscordEventStore.SetFiltersOf | stores/discord-event.store.ts:30-46 | Every filter value resets discordEvent to null. `null` opens nothing; a filter sets `isLoading` true and subscribes. |
| DiscordEventStore.ResponsesOf | stores/discord-event.store.ts:49-53 | A live emission sets discordEvent and `isLoading` false. A live error sets `error` and `isLoading` false, with the entity unchanged. |
| DiscordEventStore.SupersededOf | stores/discord-event.store.ts:39 | Emissions of a superseded subscription never change the store. |
| DiscordChallengeStore.New | stores/discord-challenge.store.ts:17-22 | A fresh store in reset-on-every-filter mode, all null, not loading. |
| DiscordChallengeStore.SetFiltersOf | stores/discord-challenge.store.ts:37-53 | Every filter value resets discordChallenge to null. `null` opens nothing and leaves `isLoading`; a filter sets `isLoading` true and subscribes. |
| DiscordChallengeStore.ResponsesOf | stores/discord-challenge.store.ts:58-62 | A live emission sets discordChallenge and `isLoading` false. A live error sets `error` and `isLoading` false. |
| DiscordChallengeStore.SupersededOf | stores/discord-challenge.store.ts:46 | Emissions of a superseded subscription never change the store. |
| CodingChallengesStore.New | stores/coding-challenges.store.ts:17-22 | A fresh store in reset-on-null, never-loading mode, with list `[]`, no filter, not loading, no error. |
| CodingChallengesStore.SetFiltersOf | stores/coding-challenges.store.ts:37-52 | `null` sets the list to `[]` and opens nothing. A filter keeps the list, patches `isLoading` to false and subscribes. |
| CodingChallengesStore.ResponsesOf | stores/coding-challenges.store.ts:57-60 | A live emission changes only the list; a live error changes only `error` and ends the subscription. |
| CodingChallengesStore.NeverLoads | stores/coding-challenges.store.ts:52 | `isLoading` is false in every reachable state. |
| CodingChallengesStore.SupersededOf | stores/coding-challenges.store.ts:46 | Emissions of a superseded subscription never change the store. |
| SeasonsStore.New | stores/seasons.store.ts:13-17 | A fresh store: seasons `[]`, no error, not loading, one load started. |
| SeasonsStore.StepsOf | stores/seasons.store.ts:29-34 | Loading patches `isLoading` false. An emission replaces seasons wholesale. An error sets only `error` and ends the watch. |
| SeasonsStore.ReachableOf | stores/seasons.store.ts:40-44 | From construction: exactly one load, never loading, seasons the last list delivered before the first error. |
| EventsStore.New | stores/events.store.ts:13-17 | A fresh store: events `[]`, no error, not loading, one load started. |
| EventsStore.StepsOf | stores/events.store.ts:29-34 | Loading patches `isLoading` false. An emission replaces events wholesale. An error sets only `error`. |
| EventsStore.ReachableOf | stores/events.store.ts:40-44 | From construction: exactly one load, `isLoading` only ever false, events the last list delivered before the first error. |
| MutationRunner.RunEffects | actions/delete-event.action.ts:44-76 | A run opens by patching `isRunning` true, then `Starts`, then the call. It closes by patching `isRunning` false with the final error, then `Ends`. It has 6 effects on success and 7 on failure. |
| MutationRunner.NotificationsAppend | actions/delete-event.action.ts:46-74 | The outputs of two logs joined are the outputs of each, in order. |
| MutationRunner.CallsAppend | actions/delete-event.action.ts:49-51 | The calls of two logs joined are the calls of each, in order. |
| MutationRunner.ReplayAppend | actions/delete-event.action.ts:45-73 | Replaying two logs joined is replaying the second from the state the first leaves. |
| MutationRunner.RunOutputs | actions/delete-event.action.ts:44-76 | A run emits exactly `Starts, Success, Ends` or `Starts, Error(classified message), Ends`. It makes exactly one call, the given one. |
| MutationRunner.RunFinalState | actions/delete-event.action.ts:70-73 | A run ends with `isRunning` false. Success leaves `error` as it was (not cleared); failure leaves the classified message. |
| MutationRunner.RunningUntilEnds | actions/delete-event.action.ts:45-74 | Every output but `Ends` is emitted while `isRunning` is true, and `Ends` after it is false. On failure the stored error already equals the `Error` payload when it is emitted. |
| MutationRunner.RunAppendsOutputs | actions/delete-event.action.ts:44-76 | Across runs, each run appends its own three outputs and its one call after the earlier ones. |
| MutationRunner.Directive.constructor | actions/delete-event.action.ts:11-14 | `initialState`: not running, no error, empty log. |
| MutationRunner.Directive.Run | actions/delete-event.action.ts:44-76 | The log grows by exactly `RunEffects` of the old error, the call and the outcome. The state ends not running, with `ErrorAfter`. |
| UpdateCodingChallengeAction.New | actions/update-coding-challenge.action.ts:12-15 | A fresh directive, not running, no error, with this file's table. |
| UpdateCodingChallengeAction.Run | actions/update-coding-challenge.action.ts:53-96 | One run whose single call carries all seven arguments unchanged. |
| UpdateCodingChallengeAction.ClassifierOf | actions/update-coding-challenge.action.ts:79-88 | Strings are kept verbatim. Every Firebase code, permission-denied included, gives 'Unknown error updating coding challenge.'. Other values give their serialization. |
| UpdateCodingChallengeAction.FirebaseFailureOf | actions/update-coding-challenge.action.ts:76-95 | A Firebase failure emits Starts, Error(that sentence), Ends; stores the sentence; ends not running. |
| UpdateCodingChallengeRewardAction.New | actions/update-coding-challenge-reward.action.ts:12-15 | A fresh directive, not running, no error. |
| UpdateCodingChallengeRewardAction.Run | actions/update-coding-challenge-reward.action.ts:50-91 | One run whose single call carries the six arguments unchanged. |
| UpdateCodingChallengeRewardAction.ClassifierOf | actions/update-coding-challenge-reward.action.ts:74-83 | Strings are kept verbatim. Every Firebase code gives 'Unknown error updating reward.'. Other values give their serialization. |
| UpdateCodingChallengeRewardAction.FirebaseFailureOf | actions/update-coding-challenge-reward.action.ts:71-90 | A Firebase failure emits Starts, Error(that sentence), Ends and stores it. |
| UpdateEventInfoAction.New | actions/update-event-info.action.ts:11-14 | A fresh directive, not running, no error. |
| UpdateEventInfoAction.Run | actions/update-event-info.action.ts:51-99 | One run whose single call carries all eight arguments unchanged. |
| UpdateEventInfoAction.ClassifierOf | actions/update-event-info.action.ts:79-91 | `permission-denied` gives 'Permission denied.', other codes 'Unknown error updating event info.'. Strings are kept verbatim. |
| UpdateEventInfoAction.FirebaseFailureOf | actions/update-event-info.action.ts:76-98 | A Firebase failure emits Starts, Error(the code's sentence), Ends and stores it. |
| CreateEventAction.New | examples/create-event.action.ts:12-15 | A fresh directive, not running, no error. |
| CreateEventAction.Run | examples/create-event.action.ts:48-83 | One run whose single call carries name, title, description and type unchanged. |
| CreateEventAction.ClassifierOf | examples/create-event.action.ts:63-76 | `permission-denied` gives 'Permission denied.', other codes 'Unknown error creating event.'. Strings are kept verbatim. |
| CreateEventAction.FirebaseFailureOf | examples/create-event.action.ts:60-82 | A Firebase failure emits Starts, Error(the code's sentence), Ends and stores it. |
| CreateDiscordChallengeAction.New | actions/create-discord-challenge.action.ts:11-14 | A fresh directive, not running, no error. |
| CreateDiscordChallengeAction.Run | actions/create-discord-challenge.action.ts:46-78 | One run whose single call is `createDiscordChallenge({ challengeId })`. |
| CreateDiscordChallengeAction.ClassifierOf | actions/create-discord-challenge.action.ts:58-71 | `permission-denied` gives 'Permission denied.', other codes 'Unknown error creating discord challenge.'. |
| CreateDiscordChallengeAction.FirebaseFailureOf | actions/create-discord-challenge.action.ts:55-77 | A Firebase failure emits Starts, Error(the code's sentence), Ends and stores it. |
| StopDiscordChallengeAction.New | actions/stop-discord-challenge.action.ts:11-14 | A fresh directive, not running, no error. |
| StopDiscordChallengeAction.Run | actions/stop-discord-challenge.action.ts:46-78 | One run whose single call is `stopDiscordChallenge({ challengeId })`. |
| StopDiscordChallengeAction.ClassifierOf | actions/stop-discord-challenge.action.ts:58-71 | `permission-denied` gives 'Permission denied.'. Every other code gives the text as written, 'Unknown error creating discord challenge.'. |
| StopDiscordChallengeAction.FirebaseFailureOf | actions/stop-discord-challenge.action.ts:55-77 | A Firebase failure emits Starts, Error(the code's sentence), Ends and stores it. |
| DeleteCodingChallengeAction.New | examples/delete-coding-challenge.action.ts:11-14 | A fresh directive, not running, no error. |
| DeleteCodingChallengeAction.Run | examples/delete-coding-challenge.action.ts:44-73 | One run whose single call is `deleteCodingChallenge({ id })`. |
| DeleteCodingChallengeAction.ClassifierOf | examples/delete-coding-challenge.action.ts:56-66 | Every Firebase code, permission-denied included, gives 'Unknown error deleting coding challenge.'. Strings are kept verbatim. |
| DeleteCodingChallengeAction.FirebaseFailureOf | examples/delete-coding-challenge.action.ts:53-72 | A Firebase failure emits Starts, Error(that sentence), Ends and stores it. |
| DeleteEventAction.New | actions/delete-event.action.ts:11-14 | A fresh directive, not running, no error. |
| DeleteEventAction.Run | actions/delete-event.action.ts:44-76 | One run whose single call is `deleteEvent({ eventId })`. |
| DeleteEventAction.ClassifierOf | actions/delete-event.action.ts:56-69 | `permission-denied` gives 'Permission denied.', other codes 'Unknown error deleting event.'. Strings are kept verbatim. |
| DeleteEventAction.FirebaseFailureOf | actions/delete-event.action.ts:53-75 | A rejected `permission-denied` delete emits Starts, Error('Permission denied.'), Ends and stores the message. |

## Left out

- Firestore itself is not modelled: the client calls, network I/O, listeners and snapshot delivery. Plans and records are the values handed to the client. Snapshots and emissions are inputs, and the meaning of a plan is a reference definition over a list of stored documents.
- Entity mappers (`toCodingChallenge`, `toEvent`, `toSeason`, `toParticipant`, `toDiscordEvent`, `toCodingChallengeSubmission`) are foreign library code. They are function parameters.
- `serverTimestamp()` and `Timestamp.fromDate` are opaque values. Date conversion is not modelled.
- Values that are neither strings nor FirebaseErrors are carried with their `JSON.stringify` text. The serialization itself, including `JSON.stringify(undefined)`, is not modelled.
- The ngrx `select` operator drops a repeated filter value by reference (`distinctUntilChanged`). The model treats every `setFilters` call as a new value, because values have no identity here.
- Real concurrency is not modelled: overlapping `run` calls on one directive, and interleaving of an `await` with other work. One run is atomic with its outcome given; stores see events one at a time, in order.
- Angular DI, `@Output`/`EventEmitter` wiring and the `ComponentStore` machinery are not modelled. A subscriber that throws from an output emission is not modelled either.
- `DiscordChallengeApiService` and `CodingChallengeRewardApiService` are not part of this model. Their calls are abstract payloads, and the discord-challenge filter type is a type parameter.
- Firestore rejecting `updateDoc` on a missing document, and a `where` given an `undefined` value, are not modelled. The filters' optional fields are `Option`s.
- Dotted field paths in `updateDoc` are not modelled: `Merge` works at the top level only, which is all these records use.
