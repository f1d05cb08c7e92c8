/**
 * `EventApiService`: event records, the whole-collection plan of
 * `getEvents`, and the by-id / by-name plan of `getEvent`.
 */
module EventApi {
  import opened Firestore

  const Collection := "events"

  datatype CreateEventPayload =
    CreateEventPayload(name: string, title: string, description: string, eventType: string)

  datatype UpdateEventInfoPayload = UpdateEventInfoPayload(
    eventId: string, title: string, description: string, location: Option<string>,
    isDiscordEvent: bool, tags: string, startDate: Date, endDate: Date)

  datatype UpdateEventAdvancedPayload = UpdateEventAdvancedPayload(eventId: string, joinCode: Option<string>)

  datatype DeleteEventPayload = DeleteEventPayload(eventId: string)

  datatype UpdateImagePayload = UpdateImagePayload(eventId: string, imageUrl: string)

  /** `{ eventId }` or `{ fields: { name? } }`. */
  datatype EventFilter =
    | ById(eventId: string)
    | ByFields(name: Option<string>)

  // ---------------------------------------------------------------------
  // Writes
  // ---------------------------------------------------------------------

  /** A new event, never linked to a discord event at creation. */
  function CreateEvent(payload: CreateEventPayload): (w: Write)
    ensures w.AddDoc? && w.collection == Collection
    ensures w.record.Keys == {"title", "description", "name", "type", "isDiscordEventLinked", "createdAt"}
    ensures w.record["title"] == Str(payload.title) && w.record["description"] == Str(payload.description)
    ensures w.record["name"] == Str(payload.name) && w.record["type"] == Str(payload.eventType)
    ensures w.record["isDiscordEventLinked"] == Bool(false) && w.record["createdAt"] == ServerTimestamp
  {
    AddDoc(Collection, map[
      "title" := Str(payload.title),
      "description" := Str(payload.description),
      "name" := Str(payload.name),
      "type" := Str(payload.eventType),
      "isDiscordEventLinked" := Bool(false),
      "createdAt" := ServerTimestamp])
  }

  function EventInfoOf(payload: UpdateEventInfoPayload): map<string, Value>
  {
    map[
      "tags" := Str(payload.tags),
      "startDate" := Timestamp(payload.startDate),
      "endDate" := Timestamp(payload.endDate),
      "location" := StrOrNull(payload.location),
      "isDiscordEvent" := Bool(payload.isDiscordEvent)]
  }

  function UpdateEventInfo(payload: UpdateEventInfoPayload): (w: Write)
    ensures w.UpdateDoc? && w.path == DocPath(Collection, payload.eventId)
    ensures w.record.Keys == {"title", "description", "info"}
    ensures w.record["title"] == Str(payload.title) && w.record["description"] == Str(payload.description)
    ensures w.record["info"] == Object(EventInfoOf(payload))
  {
    UpdateDoc(DocPath(Collection, payload.eventId), map[
      "title" := Str(payload.title),
      "description" := Str(payload.description),
      "info" := Object(EventInfoOf(payload))])
  }

  /**
   * On a stored event the info update sets title and description, replaces
   * `info` whole (a null location is stored as null) and keeps every other
   * field, `advanced` included.
   */
  lemma UpdateEventInfoEffect(stored: Record, payload: UpdateEventInfoPayload)
    ensures var after := Merge(stored, UpdateEventInfo(payload).record);
      && after["title"] == Str(payload.title)
      && after["description"] == Str(payload.description)
      && after["info"].Object?
      && after["info"].fields.Keys == {"tags", "startDate", "endDate", "location", "isDiscordEvent"}
      && after["info"].fields["isDiscordEvent"] == Bool(payload.isDiscordEvent)
      && (payload.location.None? ==> after["info"].fields["location"] == Null)
      && (payload.location.Some? ==> after["info"].fields["location"] == Str(payload.location.value))
      && (forall k :: k in stored && k !in {"title", "description", "info"} ==> after[k] == stored[k])
  {
  }

  function UpdateEventAdvanced(payload: UpdateEventAdvancedPayload): Write
  {
    UpdateDoc(DocPath(Collection, payload.eventId), map[
      "advanced" := Object(map["joinCode" := StrOrNull(payload.joinCode)])])
  }

  /**
   * The advanced update writes the one top-level field `advanced`, an
   * object holding only `joinCode` (the code, or null). Applied to a stored
   * document it replaces `advanced` whole, so any earlier `advanced`
   * sub-field is dropped, and keeps every other field.
   */
  lemma UpdateEventAdvancedEffect(stored: Record, payload: UpdateEventAdvancedPayload)
    ensures UpdateEventAdvanced(payload).UpdateDoc?
    ensures UpdateEventAdvanced(payload).path == DocPath(Collection, payload.eventId)
    ensures var w := UpdateEventAdvanced(payload).record;
      w.Keys == {"advanced"} && w["advanced"].Object? && w["advanced"].fields.Keys == {"joinCode"}
      && (payload.joinCode.None? ==> w["advanced"].fields["joinCode"] == Null)
      && (payload.joinCode.Some? ==> w["advanced"].fields["joinCode"] == Str(payload.joinCode.value))
    ensures var after := Merge(stored, UpdateEventAdvanced(payload).record);
      && after.Keys == stored.Keys + {"advanced"}
      && after["advanced"] == Object(map["joinCode" := StrOrNull(payload.joinCode)])
      && (forall k :: k in stored && k != "advanced" ==> after[k] == stored[k])
  {
  }

  /** Deletes the one document of the collection whose id is the payload's. */
  function DeleteEvent(payload: DeleteEventPayload): (w: Write)
    ensures w.DeleteDoc? && |w.path| == |Collection| + 1 + |payload.eventId|
    ensures w.path[..|Collection|] == Collection && w.path[|Collection|] == '/'
    ensures w.path[|Collection| + 1..] == payload.eventId
  {
    DeleteDoc(DocPath(Collection, payload.eventId))
  }

  /** Two deletes point at the same document exactly when their payloads name the same event. */
  lemma DeleteEventTargets(a: DeleteEventPayload, b: DeleteEventPayload)
    ensures DeleteEvent(a) == DeleteEvent(b) <==> a == b
  {
  }

  function UpdateImage(payload: UpdateImagePayload): Write
  {
    UpdateDoc(DocPath(Collection, payload.eventId), map["imageUrl" := Str(payload.imageUrl)])
  }

  /** The image update changes `imageUrl` of `events/<eventId>` and nothing else. */
  lemma UpdateImageEffect(stored: Record, payload: UpdateImagePayload)
    ensures UpdateImage(payload).UpdateDoc? && UpdateImage(payload).path == DocPath(Collection, payload.eventId)
    ensures UpdateImage(payload).record.Keys == {"imageUrl"}
    ensures var after := Merge(stored, UpdateImage(payload).record);
      after["imageUrl"] == Str(payload.imageUrl) && forall k :: k in stored && k != "imageUrl" ==> after[k] == stored[k]
  {
  }

  // ---------------------------------------------------------------------
  // Getters
  // ---------------------------------------------------------------------

  /** `getEvents`: the whole collection, with no constraint and no limit. */
  function GetEventsPlan(): (plan: Plan)
    ensures plan.QueryPlan? && plan.collection == Collection && plan.constraints == []
  {
    QueryPlan(Collection, [])
  }

  /** A whole-collection plan yields every stored document, in store order. */
  lemma GetEventsYieldsAll(docs: seq<QueryDoc>)
    ensures Execute(GetEventsPlan().constraints, docs) == docs
  {
    KeepAll(docs);
  }

  lemma {:induction false} KeepAll(docs: seq<QueryDoc>)
    ensures Keep(docs, d => SatisfiesAll(d, [])) == docs
  {
    if docs != [] {
      KeepAll(docs[1..]);
    }
  }

  function SelectEvents<E>(docs: seq<QueryDoc>, toEvent: Mapper<E>): (r: seq<E>)
    ensures |r| == |docs|
    ensures forall i :: 0 <= i < |docs| ==> r[i] == toEvent(docs[i].id, Some(docs[i].data))
  {
    MapDocs(docs, toEvent)
  }

  /**
   * `getEvent`: a direct watch of `events/<eventId>`, or a query with a
   * `name` constraint exactly when the name is defined, then `limit(1)`.
   */
  method GetEventPlan(filter: EventFilter) returns (plan: Plan)
    ensures filter.ById? ==> plan == DocumentPlan(DocPath(Collection, filter.eventId))
    ensures filter.ByFields? ==> plan == QueryPlan(Collection, WhereEach(NameField(filter.name)) + [Limit(1)])
    ensures filter.ByFields? && filter.name.Some? ==>
      plan.constraints == [WhereEq("name", Str(filter.name.value)), Limit(1)]
    ensures filter.ByFields? && filter.name.None? ==> plan.constraints == [Limit(1)]
  {
    if filter.ById? {
      plan := DocumentPlan(DocPath(Collection, filter.eventId));
    } else {
      var constraints: seq<Constraint> := [];
      if filter.name.Some? {
        constraints := constraints + [WhereEq("name", Str(filter.name.value))];
      }
      constraints := constraints + [Limit(1)];
      plan := QueryPlan(Collection, constraints);
    }
  }

  /**
   * By id the source hands the document snapshot itself (not its data) to
   * `toEvent`, with the filter's `eventId` as the id; it never yields null.
   * By fields: `null` when empty, else the mapped first document.
   */
  function SelectEvent<E>(filter: EventFilter, emission: Emission,
                          toEvent: Mapper<E>, toEventFromSnapshot: (string, DocSnapshot) -> E): (r: Option<E>)
    requires filter.ById? <==> emission.DocumentEmission?
    ensures filter.ById? ==> r == Some(toEventFromSnapshot(filter.eventId, emission.snapshot))
    ensures filter.ByFields? ==> (r.None? <==> emission.docs == [])
    ensures filter.ByFields? && emission.docs != [] ==>
      r == Some(toEvent(emission.docs[0].id, Some(emission.docs[0].data)))
  {
    if filter.ById? then Some(toEventFromSnapshot(filter.eventId, emission.snapshot))
    else FirstOrNull(emission.docs, toEvent)
  }
}
