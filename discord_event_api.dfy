/**
 * `DiscordEventApiService`: the status records that drive a discord
 * event's lifecycle, and the one getter that checks for a missing document.
 */
module DiscordEventApi {
  import opened Firestore

  const Collection := "discord-events"

  /** Every payload of this service is `{ eventId }`. */
  datatype DiscordEventPayload = DiscordEventPayload(eventId: string)

  /** `{ eventId }`. */
  datatype DiscordEventFilter = DiscordEventFilter(eventId: string)

  /** `setDoc`: the whole document is replaced by a `creating` status and its creation stamp. */
  function CreateDiscordEvent(payload: DiscordEventPayload): (w: Write)
    ensures w.SetDoc? && w.path == DocPath(Collection, payload.eventId)
    ensures w.record == map["status" := Str("creating"), "createdAt" := ServerTimestamp]
  {
    SetDoc(DocPath(Collection, payload.eventId), map["status" := Str("creating"), "createdAt" := ServerTimestamp])
  }

  function StatusUpdate(eventId: string, status: string): Write
  {
    UpdateDoc(DocPath(Collection, eventId), map["status" := Str(status)])
  }

  function CancelDiscordEvent(payload: DiscordEventPayload): Write
  {
    StatusUpdate(payload.eventId, "cancelling")
  }

  function StartDiscordEvent(payload: DiscordEventPayload): Write
  {
    StatusUpdate(payload.eventId, "starting")
  }

  function EndDiscordEvent(payload: DiscordEventPayload): Write
  {
    StatusUpdate(payload.eventId, "ending")
  }

  /**
   * Cancel, start and end each update only `status` of
   * `discord-events/<eventId>`, to `cancelling`, `starting` and `ending`;
   * `createdAt` and every other stored field survive.
   */
  lemma StatusUpdatesEffect(stored: Record, payload: DiscordEventPayload)
    ensures CancelDiscordEvent(payload) == UpdateDoc(DocPath(Collection, payload.eventId), map["status" := Str("cancelling")])
    ensures StartDiscordEvent(payload) == UpdateDoc(DocPath(Collection, payload.eventId), map["status" := Str("starting")])
    ensures EndDiscordEvent(payload) == UpdateDoc(DocPath(Collection, payload.eventId), map["status" := Str("ending")])
    ensures forall w :: w in {CancelDiscordEvent(payload), StartDiscordEvent(payload), EndDiscordEvent(payload)} ==>
      w.UpdateDoc? && forall k :: k in stored && k != "status" ==> Merge(stored, w.record)[k] == stored[k]
  {
  }

  /** `getDiscordEvent` watches `discord-events/<eventId>` directly. */
  function GetDiscordEventPlan(filters: DiscordEventFilter): (plan: Plan)
    ensures plan.DocumentPlan? && plan.path == DocPath(Collection, filters.eventId)
  {
    DocumentPlan(DocPath(Collection, filters.eventId))
  }

  /** `null` exactly when the document does not exist; otherwise the mapped snapshot. */
  function SelectDiscordEvent<E>(snapshot: DocSnapshot, toDiscordEvent: Mapper<E>): (r: Option<E>)
    ensures r.None? <==> snapshot.data.None?
    ensures snapshot.data.Some? ==> r == Some(toDiscordEvent(snapshot.id, snapshot.data))
  {
    if snapshot.data.None? then None else Some(toDiscordEvent(snapshot.id, snapshot.data))
  }
}
