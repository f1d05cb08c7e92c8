/**
 * Abstract stand-ins for the document database the services talk to:
 * field values and records, the writes handed to the client, query plans
 * (a direct document path, or a collection with equality constraints and
 * an optional limit), the snapshots a live query emits, and the errors a
 * call can reject with.
 *
 * The client itself (network, persistence, ordering of documents) is not
 * modelled. `Execute` and `Merge` give the documented meaning of a plan and
 * of an update so that the builders in the service modules can be related
 * to what they ask for.
 */
module Firestore {

  datatype Option<+T> = None | Some(value: T)

  /** A JavaScript `Date`, kept opaque. */
  datatype Date = Date(epochMillis: int)

  /** A field value as the services write it. */
  datatype Value =
    | Str(s: string)
    | Bool(b: bool)
    | Null
    | ServerTimestamp                // the `serverTimestamp()` sentinel
    | Timestamp(date: Date)          // `Timestamp.fromDate(date)`
    | Array(items: seq<Value>)
    | Object(fields: map<string, Value>)

  /** The top-level fields of one document, or of one write. */
  type Record = map<string, Value>

  /** A `string | null` payload field as it is stored. */
  function StrOrNull(s: Option<string>): Value
  {
    if s.Some? then Str(s.value) else Null
  }

  /** A `string | undefined` filter field: a value to compare with, or nothing. */
  function OptStr(s: Option<string>): Option<Value>
  {
    if s.Some? then Some(Str(s.value)) else None
  }

  /** The one optional `name` field the by-fields getters of events and seasons test. */
  function NameField(name: Option<string>): seq<FieldFilter>
  {
    [FieldFilter("name", OptStr(name))]
  }

  /** The path of a document inside a collection: `<collection>/<id>`. */
  function DocPath(collection: string, id: string): (path: string)
    ensures |path| == |collection| + 1 + |id|
    ensures path[..|collection|] == collection && path[|collection|] == '/'
    ensures path[|collection| + 1..] == id
  {
    collection + "/" + id
  }

  /** One call into the client: `addDoc`, `setDoc`, `updateDoc` or `deleteDoc`. */
  datatype Write =
    | AddDoc(collection: string, record: Record)
    | SetDoc(path: string, record: Record)
    | UpdateDoc(path: string, record: Record)
    | DeleteDoc(path: string)

  /**
   * What `updateDoc` does to a stored document: every top-level field of
   * the update replaces the stored field (a nested object is replaced
   * whole), every other stored field is kept.
   */
  function Merge(stored: Record, update: Record): (r: Record)
    ensures r.Keys == stored.Keys + update.Keys
    ensures forall k :: k in update ==> r[k] == update[k]
    ensures forall k :: k in stored && k !in update ==> r[k] == stored[k]
  {
    stored + update
  }

  // ---------------------------------------------------------------------
  // Query plans
  // ---------------------------------------------------------------------

  /** `where(field, '==', value)` or `limit(n)`. */
  datatype Constraint = WhereEq(field: string, value: Value) | Limit(n: nat)

  /** A direct document watch, or a query over a collection. */
  datatype Plan =
    | DocumentPlan(path: string)
    | QueryPlan(collection: string, constraints: seq<Constraint>)

  /** One optional filter field: `value` is `None` when the field is undefined. */
  datatype FieldFilter = FieldFilter(field: string, value: Option<Value>)

  /**
   * The constraints the getters push for a list of optional fields: one
   * equality constraint per defined field, in the order of the list.
   */
  function WhereEach(filters: seq<FieldFilter>): (r: seq<Constraint>)
    ensures |r| <= |filters|
    ensures forall i :: 0 <= i < |r| ==> r[i].WhereEq?
  {
    if filters == [] then []
    else
      (if filters[0].value.Some? then [WhereEq(filters[0].field, filters[0].value.value)] else [])
      + WhereEach(filters[1..])
  }

  /** A constraint on `field` is present exactly when that field is defined with that value. */
  lemma {:induction false} WhereEachMembership(filters: seq<FieldFilter>, field: string, v: Value)
    ensures WhereEq(field, v) in WhereEach(filters) <==> FieldFilter(field, Some(v)) in filters
  {
    if filters != [] {
      WhereEachMembership(filters[1..], field, v);
      assert filters == [filters[0]] + filters[1..];
    }
  }

  /** The equality constraints on `field` in `cs` are exactly the one for `value`, or none when it is undefined. */
  ghost predicate ConstrainsExactly(cs: seq<Constraint>, field: string, value: Option<Value>)
  {
    forall v :: WhereEq(field, v) in cs <==> value == Some(v)
  }

  /** Constraints keep the order of the fields: those of earlier fields come first. */
  lemma {:induction false} WhereEachSplit(a: seq<FieldFilter>, b: seq<FieldFilter>)
    ensures WhereEach(a + b) == WhereEach(a) + WhereEach(b)
  {
    if a == [] {
      assert a + b == b;
    } else {
      assert (a + b)[1..] == a[1..] + b;
      WhereEachSplit(a[1..], b);
    }
  }

  /** Every field of the list undefined: no constraint at all. */
  lemma {:induction false} WhereEachNone(filters: seq<FieldFilter>)
    requires forall i :: 0 <= i < |filters| ==> filters[i].value.None?
    ensures WhereEach(filters) == []
  {
    if filters != [] {
      WhereEachNone(filters[1..]);
    }
  }

  // ---------------------------------------------------------------------
  // What a plan selects
  // ---------------------------------------------------------------------

  /** One document of a query snapshot (`docSnapshot.id`, `docSnapshot.data()`). */
  datatype QueryDoc = QueryDoc(id: string, data: Record)

  /** A document snapshot; `data` is `None` when the document does not exist. */
  datatype DocSnapshot = DocSnapshot(id: string, data: Option<Record>)

  /** What one emission of a live watch carries. */
  datatype Emission =
    | DocumentEmission(snapshot: DocSnapshot)
    | QueryEmission(docs: seq<QueryDoc>)

  /** An entity mapper such as `toEvent(id, data)`: foreign code, passed in. */
  type Mapper<!E> = (string, Option<Record>) -> E

  predicate Satisfies(data: Record, c: Constraint)
  {
    match c
    case WhereEq(field, v) => field in data && data[field] == v
    case Limit(_) => true
  }

  predicate SatisfiesAll(data: Record, cs: seq<Constraint>)
  {
    forall i :: 0 <= i < |cs| ==> Satisfies(data, cs[i])
  }

  /** The limit a list of constraints imposes: the last `limit` in it, if any. */
  function LimitOf(cs: seq<Constraint>): Option<nat>
  {
    if cs == [] then None
    else if cs[|cs| - 1].Limit? then Some(cs[|cs| - 1].n)
    else LimitOf(cs[..|cs| - 1])
  }

  /** The documents of `docs`, in their order, whose data `keep` accepts. */
  function Keep(docs: seq<QueryDoc>, keep: Record -> bool): (r: seq<QueryDoc>)
    ensures |r| <= |docs|
    ensures forall d :: d in r ==> d in docs && keep(d.data)
  {
    if docs == [] then []
    else (if keep(docs[0].data) then [docs[0]] else []) + Keep(docs[1..], keep)
  }

  /** The documents a query over `docs` yields: the matching ones, then the limit. */
  function Execute(cs: seq<Constraint>, docs: seq<QueryDoc>): seq<QueryDoc>
  {
    var matching := Keep(docs, d => SatisfiesAll(d, cs));
    match LimitOf(cs)
    case None => matching
    case Some(n) => if |matching| <= n then matching else matching[..n]
  }

  /** Independent meaning of a filter: every defined field is stored with that value. */
  predicate Holds(f: FieldFilter, data: Record)
  {
    f.value.Some? ==> f.field in data && data[f.field] == f.value.value
  }

  predicate FieldsMatch(filters: seq<FieldFilter>, data: Record)
  {
    forall i :: 0 <= i < |filters| ==> Holds(filters[i], data)
  }

  lemma {:induction false} WhereEachMeansFieldsMatch(filters: seq<FieldFilter>, data: Record)
    ensures SatisfiesAll(data, WhereEach(filters)) <==> FieldsMatch(filters, data)
  {
    if filters != [] {
      WhereEachMeansFieldsMatch(filters[1..], data);
      var head := if filters[0].value.Some? then [WhereEq(filters[0].field, filters[0].value.value)] else [];
      var tail := WhereEach(filters[1..]);
      assert WhereEach(filters) == head + tail;
      SatisfiesAllConcat(data, head, tail);
      assert FieldsMatch(filters, data) <==> Holds(filters[0], data) && FieldsMatch(filters[1..], data) by {
        assert forall i :: 1 <= i < |filters| ==> filters[i] == filters[1..][i - 1];
      }
    }
  }

  lemma SatisfiesAllConcat(data: Record, a: seq<Constraint>, b: seq<Constraint>)
    ensures SatisfiesAll(data, a + b) <==> SatisfiesAll(data, a) && SatisfiesAll(data, b)
  {
    assert forall i :: 0 <= i < |a| ==> (a + b)[i] == a[i];
    assert forall i :: 0 <= i < |b| ==> (a + b)[|a| + i] == b[i];
    if SatisfiesAll(data, a) && SatisfiesAll(data, b) {
      forall i | 0 <= i < |a + b| ensures Satisfies(data, (a + b)[i]) {
        if i >= |a| { assert (a + b)[i] == b[i - |a|]; }
      }
    }
  }

  lemma {:induction false} KeepExtensional(docs: seq<QueryDoc>, p: Record -> bool, q: Record -> bool)
    requires forall d :: d in docs ==> p(d.data) == q(d.data)
    ensures Keep(docs, p) == Keep(docs, q)
  {
    if docs != [] {
      KeepExtensional(docs[1..], p, q);
    }
  }

  lemma {:induction false} LimitOfWhereEach(filters: seq<FieldFilter>)
    ensures LimitOf(WhereEach(filters)) == None
    ensures LimitOf(WhereEach(filters) + [Limit(1)]) == Some(1)
  {
    var cs := WhereEach(filters);
    assert (cs + [Limit(1)])[|cs|] == Limit(1);
    NoLimitInWheres(cs);
  }

  lemma {:induction false} NoLimitInWheres(cs: seq<Constraint>)
    requires forall i :: 0 <= i < |cs| ==> cs[i].WhereEq?
    ensures LimitOf(cs) == None
  {
    if cs != [] {
      NoLimitInWheres(cs[..|cs| - 1]);
    }
  }

  /**
   * A collection plan built by `WhereEach` yields exactly the documents, in
   * store order, whose defined filter fields all match.
   */
  lemma CollectionPlanMeaning(filters: seq<FieldFilter>, docs: seq<QueryDoc>)
    ensures Execute(WhereEach(filters), docs) == Keep(docs, d => FieldsMatch(filters, d))
  {
    LimitOfWhereEach(filters);
    forall d | d in docs
      ensures SatisfiesAll(d.data, WhereEach(filters)) == FieldsMatch(filters, d.data)
    {
      WhereEachMeansFieldsMatch(filters, d.data);
    }
    KeepExtensional(docs, d => SatisfiesAll(d, WhereEach(filters)), d => FieldsMatch(filters, d));
  }

  /**
   * A single-entity plan (`WhereEach` then `limit(1)`) yields at most one
   * document: the first matching one in store order, if any.
   */
  lemma SinglePlanMeaning(filters: seq<FieldFilter>, docs: seq<QueryDoc>)
    ensures var matching := Keep(docs, d => FieldsMatch(filters, d));
      Execute(WhereEach(filters) + [Limit(1)], docs) == if matching == [] then [] else [matching[0]]
  {
    var cs := WhereEach(filters) + [Limit(1)];
    LimitOfWhereEach(filters);
    forall d | d in docs
      ensures SatisfiesAll(d.data, cs) == FieldsMatch(filters, d.data)
    {
      WhereEachMeansFieldsMatch(filters, d.data);
      assert SatisfiesAll(d.data, cs) <==> SatisfiesAll(d.data, WhereEach(filters)) by {
        assert forall i :: 0 <= i < |WhereEach(filters)| ==> cs[i] == WhereEach(filters)[i];
        assert Satisfies(d.data, cs[|cs| - 1]);
      }
    }
    KeepExtensional(docs, d => SatisfiesAll(d, cs), d => FieldsMatch(filters, d));
  }

  // ---------------------------------------------------------------------
  // Result selection
  // ---------------------------------------------------------------------

  /** `querySnapshot.docs.map(d => mapper(d.id, d.data()))`. */
  function MapDocs<E>(docs: seq<QueryDoc>, mapper: Mapper<E>): (r: seq<E>)
    ensures |r| == |docs|
    ensures forall i :: 0 <= i < |docs| ==> r[i] == mapper(docs[i].id, Some(docs[i].data))
  {
    if docs == [] then [] else [mapper(docs[0].id, Some(docs[0].data))] + MapDocs(docs[1..], mapper)
  }

  /** `null` for an empty snapshot, otherwise the mapped `docs[0]`. */
  function FirstOrNull<E>(docs: seq<QueryDoc>, mapper: Mapper<E>): Option<E>
  {
    if docs == [] then None else Some(mapper(docs[0].id, Some(docs[0].data)))
  }

  /**
   * However many documents match a single-entity plan, the lookup returns
   * one entity: the first match in store order, or `null` when none does.
   */
  lemma SingleLookupIsFirstMatch<E>(filters: seq<FieldFilter>, docs: seq<QueryDoc>, mapper: Mapper<E>)
    ensures var matching := Keep(docs, d => FieldsMatch(filters, d));
      FirstOrNull(Execute(WhereEach(filters) + [Limit(1)], docs), mapper)
        == if matching == [] then None else Some(mapper(matching[0].id, Some(matching[0].data)))
  {
    SinglePlanMeaning(filters, docs);
  }

  // ---------------------------------------------------------------------
  // Errors
  // ---------------------------------------------------------------------

  /**
   * What a failed call or subscription can throw: a plain string, a
   * `FirebaseError` with its code, or any other value, carried here by its
   * `JSON.stringify` text, which the model does not compute.
   */
  datatype Thrown =
    | StringThrown(message: string)
    | FirebaseThrown(code: string)
    | OtherThrown(serialized: string)
}
