/**
 * `CodingChallengeApiService`: the records its write methods hand to the
 * client, the query plans its getters build, and how each getter turns a
 * snapshot into entities.
 */
module CodingChallengeApi {
  import opened Firestore

  const Collection := "coding-challenges"

  datatype CreateCodingChallengePayload =
    CreateCodingChallengePayload(id: string, name: string, title: string, description: string)

  datatype UpdateCodingChallengePayload = UpdateCodingChallengePayload(
    id: string, title: string, description: string, difficulty: string,
    tags: string, startDate: Date, endDate: Date)

  datatype UpdateCodingChallengeBodyPayload = UpdateCodingChallengeBodyPayload(id: string, body: string)

  datatype UpdateCodingChallengeImagePayload = UpdateCodingChallengeImagePayload(id: string, imageUrl: string)

  datatype DeleteCodingChallengePayload = DeleteCodingChallengePayload(id: string)

  /** `{ fields: { status? } }`: the filter of the collection getter. */
  datatype CodingChallengesFilter = CodingChallengesFilter(status: Option<string>)

  /** `{ id }` or `{ fields: { name?, status? } }`. */
  datatype CodingChallengeFilter =
    | ById(id: string)
    | ByFields(name: Option<string>, status: Option<string>)

  /** The optional fields of a by-fields filter, in the order the getter tests them. */
  function SingleFields(filter: CodingChallengeFilter): seq<FieldFilter>
    requires filter.ByFields?
  {
    [FieldFilter("name", OptStr(filter.name)), FieldFilter("status", OptStr(filter.status))]
  }

  // ---------------------------------------------------------------------
  // Writes
  // ---------------------------------------------------------------------

  /** A new document whose body is empty and that is not linked to a discord challenge. */
  function CreateCodingChallenge(payload: CreateCodingChallengePayload): (w: Write)
    ensures w.AddDoc? && w.collection == Collection
    ensures w.record.Keys == {"name", "title", "description", "body", "isDiscordChallengeLinked", "createdAt"}
    ensures w.record["name"] == Str(payload.name)
    ensures w.record["title"] == Str(payload.title)
    ensures w.record["description"] == Str(payload.description)
    ensures w.record["body"] == Str("") && w.record["isDiscordChallengeLinked"] == Bool(false)
    ensures w.record["createdAt"] == ServerTimestamp
  {
    AddDoc(Collection, map[
      "name" := Str(payload.name),
      "title" := Str(payload.title),
      "description" := Str(payload.description),
      "body" := Str(""),
      "isDiscordChallengeLinked" := Bool(false),
      "createdAt" := ServerTimestamp])
  }

  function InfoOf(payload: UpdateCodingChallengePayload): map<string, Value>
  {
    map[
      "difficulty" := Str(payload.difficulty),
      "tags" := Str(payload.tags),
      "startDate" := Timestamp(payload.startDate),
      "endDate" := Timestamp(payload.endDate)]
  }

  function UpdateCodingChallenge(payload: UpdateCodingChallengePayload): (w: Write)
    ensures w.UpdateDoc? && w.path == DocPath(Collection, payload.id)
    ensures w.record.Keys == {"title", "description", "info"}
    ensures w.record["title"] == Str(payload.title) && w.record["description"] == Str(payload.description)
    ensures w.record["info"] == Object(InfoOf(payload))
  {
    UpdateDoc(DocPath(Collection, payload.id), map[
      "title" := Str(payload.title),
      "description" := Str(payload.description),
      "info" := Object(InfoOf(payload))])
  }

  /**
   * Applied to any stored document, the update sets title and description,
   * replaces `info` whole with the four payload fields (earlier `info`
   * sub-fields are dropped) and keeps every other field, `body` included;
   * the id is used only in the path.
   */
  lemma UpdateCodingChallengeEffect(stored: Record, payload: UpdateCodingChallengePayload)
    ensures var after := Merge(stored, UpdateCodingChallenge(payload).record);
      && after["title"] == Str(payload.title)
      && after["description"] == Str(payload.description)
      && after["info"].Object?
      && after["info"].fields.Keys == {"difficulty", "tags", "startDate", "endDate"}
      && after["info"].fields["startDate"] == Timestamp(payload.startDate)
      && after["info"].fields["endDate"] == Timestamp(payload.endDate)
      && (forall k :: k in stored && k !in {"title", "description", "info"} ==> after[k] == stored[k])
      && ("id" in after <==> "id" in stored)
  {
  }

  function UpdateCodingChallengeBody(payload: UpdateCodingChallengeBodyPayload): Write
  {
    UpdateDoc(DocPath(Collection, payload.id), map["body" := Str(payload.body)])
  }

  function UpdateCodingChallengeImage(payload: UpdateCodingChallengeImagePayload): Write
  {
    UpdateDoc(DocPath(Collection, payload.id), map["imageUrl" := Str(payload.imageUrl)])
  }

  /** The body and image updates each change their one field of the stored document and nothing else. */
  lemma SingleFieldUpdatesEffect(stored: Record, body: UpdateCodingChallengeBodyPayload, image: UpdateCodingChallengeImagePayload)
    ensures UpdateCodingChallengeBody(body).UpdateDoc? && UpdateCodingChallengeBody(body).path == DocPath(Collection, body.id)
    ensures UpdateCodingChallengeBody(body).record.Keys == {"body"}
    ensures UpdateCodingChallengeImage(image).UpdateDoc? && UpdateCodingChallengeImage(image).path == DocPath(Collection, image.id)
    ensures UpdateCodingChallengeImage(image).record.Keys == {"imageUrl"}
    ensures var after := Merge(stored, UpdateCodingChallengeBody(body).record);
      after.Keys == stored.Keys + {"body"} && after["body"] == Str(body.body)
      && forall k :: k in stored && k != "body" ==> after[k] == stored[k]
    ensures var after := Merge(stored, UpdateCodingChallengeImage(image).record);
      after.Keys == stored.Keys + {"imageUrl"} && after["imageUrl"] == Str(image.imageUrl)
      && forall k :: k in stored && k != "imageUrl" ==> after[k] == stored[k]
  {
  }

  /** Deletes the one document of the collection whose id is the payload's. */
  function DeleteCodingChallenge(payload: DeleteCodingChallengePayload): (w: Write)
    ensures w.DeleteDoc? && |w.path| == |Collection| + 1 + |payload.id|
    ensures w.path[..|Collection|] == Collection && w.path[|Collection|] == '/'
    ensures w.path[|Collection| + 1..] == payload.id
  {
    DeleteDoc(DocPath(Collection, payload.id))
  }

  /** Two deletes point at the same document exactly when their payloads name the same coding challenge. */
  lemma DeleteCodingChallengeTargets(a: DeleteCodingChallengePayload, b: DeleteCodingChallengePayload)
    ensures DeleteCodingChallenge(a) == DeleteCodingChallenge(b) <==> a == b
  {
  }

  // ---------------------------------------------------------------------
  // Getters
  // ---------------------------------------------------------------------

  /**
   * The plan of `getCodingChallenges`: the whole collection, narrowed by
   * `status` exactly when it is defined, never limited.
   */
  method GetCodingChallengesPlan(filters: CodingChallengesFilter) returns (plan: Plan)
    ensures plan == QueryPlan(Collection, WhereEach([FieldFilter("status", OptStr(filters.status))]))
    ensures forall v :: WhereEq("status", v) in plan.constraints <==> filters.status.Some? && v == Str(filters.status.value)
    ensures filters.status.None? ==> plan.constraints == []
    ensures forall i :: 0 <= i < |plan.constraints| ==> !plan.constraints[i].Limit?
  {
    var constraints: seq<Constraint> := [];
    if filters.status.Some? {
      constraints := constraints + [WhereEq("status", Str(filters.status.value))];
    }
    plan := QueryPlan(Collection, constraints);
  }

  /** Every document of the snapshot, mapped one to one, in order. */
  function SelectCodingChallenges<E>(docs: seq<QueryDoc>, toCodingChallenge: Mapper<E>): (r: seq<E>)
    ensures |r| == |docs|
    ensures forall i :: 0 <= i < |docs| ==> r[i] == toCodingChallenge(docs[i].id, Some(docs[i].data))
  {
    MapDocs(docs, toCodingChallenge)
  }

  /**
   * The plan of `getCodingChallenge`: a direct watch of
   * `coding-challenges/<id>`, or a query with a `name` constraint, then a
   * `status` constraint (each only if defined), then `limit(1)` last.
   */
  method GetCodingChallengePlan(filter: CodingChallengeFilter) returns (plan: Plan)
    ensures filter.ById? ==> plan == DocumentPlan(DocPath(Collection, filter.id))
    ensures filter.ByFields? ==> plan == QueryPlan(Collection, WhereEach(SingleFields(filter)) + [Limit(1)])
    ensures filter.ByFields? ==>
      && plan.QueryPlan?
      && |plan.constraints| == 1 + (if filter.name.Some? then 1 else 0) + (if filter.status.Some? then 1 else 0)
      && plan.constraints[|plan.constraints| - 1] == Limit(1)
      && (forall i :: 0 <= i < |plan.constraints| - 1 ==> plan.constraints[i].WhereEq?)
      && (filter.name.Some? ==> plan.constraints[0] == WhereEq("name", Str(filter.name.value)))
      && (filter.status.Some? ==>
            plan.constraints[|plan.constraints| - 2] == WhereEq("status", Str(filter.status.value)))
  {
    if filter.ById? {
      plan := DocumentPlan(DocPath(Collection, filter.id));
    } else {
      var constraints: seq<Constraint> := [];
      if filter.name.Some? {
        constraints := constraints + [WhereEq("name", Str(filter.name.value))];
      }
      if filter.status.Some? {
        constraints := constraints + [WhereEq("status", Str(filter.status.value))];
      }
      constraints := constraints + [Limit(1)];
      plan := QueryPlan(Collection, constraints);
    }
  }

  /**
   * The entity of one emission. A by-id watch always maps the snapshot,
   * even when the document is missing (its absent data goes to the
   * mapper); a by-fields query gives `null` when empty and otherwise the
   * mapped first document.
   */
  function SelectCodingChallenge<E>(filter: CodingChallengeFilter, emission: Emission, toCodingChallenge: Mapper<E>): (r: Option<E>)
    requires filter.ById? <==> emission.DocumentEmission?
    ensures filter.ById? ==> r == Some(toCodingChallenge(emission.snapshot.id, emission.snapshot.data))
    ensures filter.ByFields? ==> (r.None? <==> emission.docs == [])
    ensures filter.ByFields? && emission.docs != [] ==>
      r == Some(toCodingChallenge(emission.docs[0].id, Some(emission.docs[0].data)))
  {
    if filter.ById? then Some(toCodingChallenge(emission.snapshot.id, emission.snapshot.data))
    else FirstOrNull(emission.docs, toCodingChallenge)
  }
}
