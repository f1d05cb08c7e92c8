/**
 * `SeasonApiService`: season records, the whole-collection plan of
 * `getSeasons`, and the by-id / by-name plan of `getSeason`.
 */
module SeasonApi {
  import opened Firestore

  const Collection := "seasons"

  datatype CreateSeasonPayload = CreateSeasonPayload(id: string, name: string, title: string, description: string)

  /** `attributes` holds the `SeasonAttribute` values as they are stored. */
  datatype UpdateSeasonPayload = UpdateSeasonPayload(
    id: string, title: string, description: string, website: string, symbol: string, attributes: seq<Value>)

  datatype UpdateSeasonImagePayload = UpdateSeasonImagePayload(id: string, imageUrl: string)

  datatype UpdateSeasonIsActivePayload = UpdateSeasonIsActivePayload(id: string, isActive: bool)

  datatype DeleteSeasonPayload = DeleteSeasonPayload(id: string)

  /** `{ id }` or `{ fields: { name? } }`. */
  datatype SeasonFilter =
    | ById(id: string)
    | ByFields(name: Option<string>)

  // ---------------------------------------------------------------------
  // Writes
  // ---------------------------------------------------------------------

  /** A new season: no attributes and not active. */
  function CreateSeason(payload: CreateSeasonPayload): (w: Write)
    ensures w.AddDoc? && w.collection == Collection
    ensures w.record.Keys == {"name", "title", "description", "createdAt", "attributes", "isActive"}
    ensures w.record["name"] == Str(payload.name) && w.record["title"] == Str(payload.title)
    ensures w.record["description"] == Str(payload.description) && w.record["createdAt"] == ServerTimestamp
    ensures w.record["attributes"] == Array([]) && w.record["isActive"] == Bool(false)
  {
    AddDoc(Collection, map[
      "name" := Str(payload.name),
      "title" := Str(payload.title),
      "description" := Str(payload.description),
      "createdAt" := ServerTimestamp,
      "attributes" := Array([]),
      "isActive" := Bool(false)])
  }

  function UpdateSeason(payload: UpdateSeasonPayload): (w: Write)
    ensures w.UpdateDoc? && w.path == DocPath(Collection, payload.id)
    ensures w.record.Keys == {"title", "description", "website", "symbol", "attributes"}
    ensures w.record["title"] == Str(payload.title) && w.record["description"] == Str(payload.description)
    ensures w.record["website"] == Str(payload.website) && w.record["symbol"] == Str(payload.symbol)
    ensures w.record["attributes"] == Array(payload.attributes)
  {
    UpdateDoc(DocPath(Collection, payload.id), map[
      "title" := Str(payload.title),
      "description" := Str(payload.description),
      "website" := Str(payload.website),
      "symbol" := Str(payload.symbol),
      "attributes" := Array(payload.attributes)])
  }

  /** The season update leaves name, isActive, imageUrl and every other unlisted field as stored. */
  lemma UpdateSeasonEffect(stored: Record, payload: UpdateSeasonPayload)
    ensures var after := Merge(stored, UpdateSeason(payload).record);
      forall k :: k in stored && k !in {"title", "description", "website", "symbol", "attributes"} ==> after[k] == stored[k]
  {
  }

  function UpdateSeasonImage(payload: UpdateSeasonImagePayload): Write
  {
    UpdateDoc(DocPath(Collection, payload.id), map["imageUrl" := Str(payload.imageUrl)])
  }

  function UpdateSeasonIsActive(payload: UpdateSeasonIsActivePayload): Write
  {
    UpdateDoc(DocPath(Collection, payload.id), map["isActive" := Bool(payload.isActive)])
  }

  /** The image and isActive updates each change their one field of `seasons/<id>` and nothing else. */
  lemma SingleFieldUpdatesEffect(stored: Record, image: UpdateSeasonImagePayload, active: UpdateSeasonIsActivePayload)
    ensures UpdateSeasonImage(image).UpdateDoc? && UpdateSeasonImage(image).path == DocPath(Collection, image.id)
    ensures UpdateSeasonImage(image).record.Keys == {"imageUrl"}
    ensures UpdateSeasonIsActive(active).UpdateDoc? && UpdateSeasonIsActive(active).path == DocPath(Collection, active.id)
    ensures UpdateSeasonIsActive(active).record.Keys == {"isActive"}
    ensures var after := Merge(stored, UpdateSeasonIsActive(active).record);
      after["isActive"] == Bool(active.isActive) && forall k :: k in stored && k != "isActive" ==> after[k] == stored[k]
    ensures var after := Merge(stored, UpdateSeasonImage(image).record);
      after["imageUrl"] == Str(image.imageUrl) && forall k :: k in stored && k != "imageUrl" ==> after[k] == stored[k]
  {
  }

  /** Deletes the one document of the collection whose id is the payload's. */
  function DeleteSeason(payload: DeleteSeasonPayload): (w: Write)
    ensures w.DeleteDoc? && |w.path| == |Collection| + 1 + |payload.id|
    ensures w.path[..|Collection|] == Collection && w.path[|Collection|] == '/'
    ensures w.path[|Collection| + 1..] == payload.id
  {
    DeleteDoc(DocPath(Collection, payload.id))
  }

  /** Two deletes point at the same document exactly when their payloads name the same season. */
  lemma DeleteSeasonTargets(a: DeleteSeasonPayload, b: DeleteSeasonPayload)
    ensures DeleteSeason(a) == DeleteSeason(b) <==> a == b
  {
  }

  // ---------------------------------------------------------------------
  // Getters
  // ---------------------------------------------------------------------

  /** `getSeasons`: the whole collection, with no constraint and no limit. */
  function GetSeasonsPlan(): (plan: Plan)
    ensures plan.QueryPlan? && plan.collection == Collection && plan.constraints == []
  {
    QueryPlan(Collection, [])
  }

  function SelectSeasons<E>(docs: seq<QueryDoc>, toSeason: Mapper<E>): (r: seq<E>)
    ensures |r| == |docs|
    ensures forall i :: 0 <= i < |docs| ==> r[i] == toSeason(docs[i].id, Some(docs[i].data))
  {
    MapDocs(docs, toSeason)
  }

  /**
   * `getSeason`: a direct watch of `seasons/<id>`, or a query with a `name`
   * constraint exactly when the name is defined, then `limit(1)`.
   */
  method GetSeasonPlan(filter: SeasonFilter) returns (plan: Plan)
    ensures filter.ById? ==> plan == DocumentPlan(DocPath(Collection, filter.id))
    ensures filter.ByFields? ==> plan == QueryPlan(Collection, WhereEach(NameField(filter.name)) + [Limit(1)])
    ensures filter.ByFields? && filter.name.Some? ==>
      plan.constraints == [WhereEq("name", Str(filter.name.value)), Limit(1)]
    ensures filter.ByFields? && filter.name.None? ==> plan.constraints == [Limit(1)]
  {
    if filter.ById? {
      plan := DocumentPlan(DocPath(Collection, filter.id));
    } else {
      var constraints: seq<Constraint> := [];
      if filter.name.Some? {
        constraints := constraints + [WhereEq("name", Str(filter.name.value))];
      }
      constraints := constraints + [Limit(1)];
      plan := QueryPlan(Collection, constraints);
    }
  }

  /** By id: the mapped snapshot, missing or not. By fields: `null` when empty, else the mapped first document. */
  function SelectSeason<E>(filter: SeasonFilter, emission: Emission, toSeason: Mapper<E>): (r: Option<E>)
    requires filter.ById? <==> emission.DocumentEmission?
    ensures filter.ById? ==> r == Some(toSeason(emission.snapshot.id, emission.snapshot.data))
    ensures filter.ByFields? ==> (r.None? <==> emission.docs == [])
    ensures filter.ByFields? && emission.docs != [] ==>
      r == Some(toSeason(emission.docs[0].id, Some(emission.docs[0].data)))
  {
    if filter.ById? then Some(toSeason(emission.snapshot.id, emission.snapshot.data))
    else FirstOrNull(emission.docs, toSeason)
  }
}
