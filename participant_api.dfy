/**
 * `ParticipantApiService`: the participants query, narrowed by whichever of
 * `userId` and `eventId` the filter carries.
 */
module ParticipantApi {
  import opened Firestore

  const Collection := "event-participants"

  /**
   * `{ eventId } | { userId }`, modelled by key presence: a key absent
   * from the filter object is `None`.
   */
  datatype ParticipantsFilter = ParticipantsFilter(userId: Option<string>, eventId: Option<string>)

  function KeyFields(filters: ParticipantsFilter): seq<FieldFilter>
  {
    [ FieldFilter("userId", if filters.userId.Some? then Some(Str(filters.userId.value)) else None),
      FieldFilter("eventId", if filters.eventId.Some? then Some(Str(filters.eventId.value)) else None) ]
  }

  /**
   * The plan of `getParticipants`: a `userId` constraint exactly when the
   * key is present, then an `eventId` constraint exactly when that key is
   * present, and never a limit.
   */
  method GetParticipantsPlan(filters: ParticipantsFilter) returns (plan: Plan)
    ensures plan == QueryPlan(Collection, WhereEach(KeyFields(filters)))
    ensures forall v :: WhereEq("userId", v) in plan.constraints <==> filters.userId.Some? && v == Str(filters.userId.value)
    ensures forall v :: WhereEq("eventId", v) in plan.constraints <==> filters.eventId.Some? && v == Str(filters.eventId.value)
    ensures filters.userId.Some? && filters.eventId.Some? ==>
      plan.constraints == [WhereEq("userId", Str(filters.userId.value)), WhereEq("eventId", Str(filters.eventId.value))]
    ensures forall i :: 0 <= i < |plan.constraints| ==> !plan.constraints[i].Limit?
  {
    var constraints: seq<Constraint> := [];
    if filters.userId.Some? {
      constraints := constraints + [WhereEq("userId", Str(filters.userId.value))];
    }
    if filters.eventId.Some? {
      constraints := constraints + [WhereEq("eventId", Str(filters.eventId.value))];
    }
    plan := QueryPlan(Collection, constraints);
  }

  /** `[]` for an empty snapshot, otherwise every document mapped one to one in order. */
  function SelectParticipants<E>(docs: seq<QueryDoc>, toParticipant: Mapper<E>): (r: seq<E>)
    ensures docs == [] ==> r == []
    ensures |r| == |docs|
    ensures forall i :: 0 <= i < |docs| ==> r[i] == toParticipant(docs[i].id, Some(docs[i].data))
  {
    if docs == [] then [] else MapDocs(docs, toParticipant)
  }

  /** The empty-snapshot branch changes nothing: the result is always the plain mapping. */
  lemma EmptyCheckIsRedundant<E>(docs: seq<QueryDoc>, toParticipant: Mapper<E>)
    ensures SelectParticipants(docs, toParticipant) == MapDocs(docs, toParticipant)
  {
  }
}
