/**
 * `CodingChallengeSubmissionApiService`: the review record, and the plans
 * of its two getters, which narrow by up to three optional fields.
 */
module CodingChallengeSubmissionApi {
  import opened Firestore

  const Collection := "coding-challenge-submissions"

  datatype ReviewCodingChallengeSubmissionPayload =
    ReviewCodingChallengeSubmissionPayload(id: string, isApproved: bool)

  /** `{ status?, codingChallengeId?, userId? }`. */
  datatype SubmissionFields =
    SubmissionFields(status: Option<string>, codingChallengeId: Option<string>, userId: Option<string>)

  /** `{ fields }`: the filter of the collection getter. */
  datatype CodingChallengeSubmissionsFilter = CodingChallengeSubmissionsFilter(fields: SubmissionFields)

  /** `{ id }` or `{ fields }`. */
  datatype CodingChallengeSubmissionFilter =
    | ById(id: string)
    | ByFields(fields: SubmissionFields)

  /** The optional fields in the order the getters test them. */
  function FieldList(fields: SubmissionFields): seq<FieldFilter>
  {
    [ FieldFilter("status", OptStr(fields.status)),
      FieldFilter("codingChallengeId", OptStr(fields.codingChallengeId)),
      FieldFilter("userId", OptStr(fields.userId)) ]
  }

  /** Approves or rejects a submission and marks it done, stamped by the server. */
  function ReviewCodingChallengeSubmission(payload: ReviewCodingChallengeSubmissionPayload): (w: Write)
    ensures w.UpdateDoc? && w.path == DocPath(Collection, payload.id)
    ensures w.record.Keys == {"isApproved", "doneAt", "status"}
    ensures w.record["isApproved"] == Bool(payload.isApproved)
    ensures w.record["status"] == Str("done") && w.record["doneAt"] == ServerTimestamp
  {
    UpdateDoc(DocPath(Collection, payload.id), map[
      "isApproved" := Bool(payload.isApproved),
      "doneAt" := ServerTimestamp,
      "status" := Str("done")])
  }

  /** The constraints of a three-field list are those of each field, in order. */
  lemma WhereEachOfThree(a: FieldFilter, b: FieldFilter, c: FieldFilter)
    ensures WhereEach([a, b, c]) == WhereEach([a]) + WhereEach([b]) + WhereEach([c])
  {
    assert [a, b, c][1..] == [b, c];
    assert [b, c][1..] == [c];
    assert [a][1..] == [] && [b][1..] == [] && [c][1..] == [];
  }

  /** A field named once in the list is constrained exactly as that entry says. */
  lemma FieldConstrained(list: seq<FieldFilter>, i: nat)
    requires i < |list|
    requires forall j :: 0 <= j < |list| && j != i ==> list[j].field != list[i].field
    ensures ConstrainsExactly(WhereEach(list), list[i].field, list[i].value)
  {
    forall v ensures WhereEq(list[i].field, v) in WhereEach(list) <==> list[i].value == Some(v) {
      WhereEachMembership(list, list[i].field, v);
    }
  }

  /** Pushes the conditional constraints shared by both getters, in their order. */
  method PushFieldConstraints(fields: SubmissionFields) returns (constraints: seq<Constraint>)
    ensures constraints == WhereEach(FieldList(fields))
    ensures ConstrainsExactly(constraints, "status", OptStr(fields.status))
    ensures ConstrainsExactly(constraints, "codingChallengeId", OptStr(fields.codingChallengeId))
    ensures ConstrainsExactly(constraints, "userId", OptStr(fields.userId))
    ensures |constraints| == (if fields.status.Some? then 1 else 0)
      + (if fields.codingChallengeId.Some? then 1 else 0) + (if fields.userId.Some? then 1 else 0)
  {
    var list := FieldList(fields);
    WhereEachOfThree(list[0], list[1], list[2]);
    constraints := [];
    if fields.status.Some? {
      constraints := constraints + [WhereEq("status", Str(fields.status.value))];
    }
    assert constraints == WhereEach([list[0]]);
    if fields.codingChallengeId.Some? {
      constraints := constraints + [WhereEq("codingChallengeId", Str(fields.codingChallengeId.value))];
    }
    assert constraints == WhereEach([list[0]]) + WhereEach([list[1]]);
    if fields.userId.Some? {
      constraints := constraints + [WhereEq("userId", Str(fields.userId.value))];
    }
    assert constraints == WhereEach(list);
    FieldConstrained(list, 0);
    FieldConstrained(list, 1);
    FieldConstrained(list, 2);
  }

  /** The collection plan: the three conditional constraints and no limit. */
  method GetCodingChallengeSubmissionsPlan(filters: CodingChallengeSubmissionsFilter) returns (plan: Plan)
    ensures plan == QueryPlan(Collection, WhereEach(FieldList(filters.fields)))
    ensures forall i :: 0 <= i < |plan.constraints| ==> plan.constraints[i].WhereEq?
    ensures ConstrainsExactly(plan.constraints, "status", OptStr(filters.fields.status))
    ensures ConstrainsExactly(plan.constraints, "codingChallengeId", OptStr(filters.fields.codingChallengeId))
    ensures ConstrainsExactly(plan.constraints, "userId", OptStr(filters.fields.userId))
  {
    var constraints := PushFieldConstraints(filters.fields);
    plan := QueryPlan(Collection, constraints);
  }

  /** Every document of the snapshot, mapped one to one, in order. */
  function SelectCodingChallengeSubmissions<E>(docs: seq<QueryDoc>, toSubmission: Mapper<E>): (r: seq<E>)
    ensures |r| == |docs|
    ensures forall i :: 0 <= i < |docs| ==> r[i] == toSubmission(docs[i].id, Some(docs[i].data))
  {
    MapDocs(docs, toSubmission)
  }

  /**
   * The single plan: a direct watch of `coding-challenge-submissions/<id>`,
   * or the same three conditional constraints in the same order with
   * `limit(1)` pushed last.
   */
  method GetCodingChallengeSubmissionPlan(filter: CodingChallengeSubmissionFilter) returns (plan: Plan)
    ensures filter.ById? ==> plan == DocumentPlan(DocPath(Collection, filter.id))
    ensures filter.ByFields? ==> plan == QueryPlan(Collection, WhereEach(FieldList(filter.fields)) + [Limit(1)])
    ensures filter.ByFields? ==>
      && plan.QueryPlan? && |plan.constraints| >= 1
      && plan.constraints[|plan.constraints| - 1] == Limit(1)
      && (forall i :: 0 <= i < |plan.constraints| - 1 ==> plan.constraints[i].WhereEq?)
      && ConstrainsExactly(plan.constraints, "status", OptStr(filter.fields.status))
      && ConstrainsExactly(plan.constraints, "codingChallengeId", OptStr(filter.fields.codingChallengeId))
      && ConstrainsExactly(plan.constraints, "userId", OptStr(filter.fields.userId))
  {
    if filter.ById? {
      plan := DocumentPlan(DocPath(Collection, filter.id));
    } else {
      var constraints := PushFieldConstraints(filter.fields);
      constraints := constraints + [Limit(1)];
      plan := QueryPlan(Collection, constraints);
    }
  }

  /** By id: the mapped snapshot, missing or not. By fields: `null` when empty, else the mapped first document. */
  function SelectCodingChallengeSubmission<E>(filter: CodingChallengeSubmissionFilter, emission: Emission, toSubmission: Mapper<E>): (r: Option<E>)
    requires filter.ById? <==> emission.DocumentEmission?
    ensures filter.ById? ==> r == Some(toSubmission(emission.snapshot.id, emission.snapshot.data))
    ensures filter.ByFields? ==> (r.None? <==> emission.docs == [])
    ensures filter.ByFields? && emission.docs != [] ==>
      r == Some(toSubmission(emission.docs[0].id, Some(emission.docs[0].data)))
  {
    if filter.ById? then Some(toSubmission(emission.snapshot.id, emission.snapshot.data))
    else FirstOrNull(emission.docs, toSubmission)
  }
}
