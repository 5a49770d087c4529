/**
  The exists query (`src/search/query/exists.rs`): documents with a value
  in a field.  A derived one-field record: `{"field": f}`.
*/
module QueryExists {
  import opened JsonModel

  datatype ExistsQuery = ExistsQuery(field: string)

  /** `ExistsQuery::new`. */
  function New(field: string): (q: ExistsQuery)
    ensures q.field == field
  {
    ExistsQuery(field)
  }

  const Fields: seq<FieldSpec> := [("field", false)]

  function Encode(q: ExistsQuery): Json {
    JObject([("field", JString(q.field))])
  }

  function Decode(j: Json): (r: Result<ExistsQuery>)
    ensures r.Ok? && j.JObject? ==> ValuesAt(j.members, "field") == [JString(r.value.field)]
    ensures r.Ok? && !j.JObject? ==> j == JArray([JString(r.value.field)])
  {
    var ms :- Record(j, Fields);
    var field :- Required(ms, "field", AsString);
    Ok(ExistsQuery(field))
  }

  lemma RoundTrip(q: ExistsQuery)
    ensures Decode(Encode(q)) == Ok(q)
  {
  }

  /** `field` is required and must be a string. */
  lemma FieldRequired(ms: Members)
    requires "field" !in Keys(ms)
    ensures Decode(JObject(ms)).Err?
  {
  }

  lemma FieldMustBeString(v: Json)
    requires !v.JString?
    ensures Decode(JObject([("field", v)])).Err?
  {
  }
}
