/**
  The exists filter (`src/search/filter/types/exists.rs`): the input record
  taken from a caller and the record sent to Elasticsearch, both written as
  the derived one-field record `{"field": f}`.
*/
module FilterExists {
  import opened JsonModel

  datatype ExistsFilterInput = ExistsFilterInput(field: string)

  datatype ExistsFilter = ExistsFilter(field: string)

  const Fields: seq<FieldSpec> := [("field", false)]

  /** `From<ExistsFilterInput> for ExistsFilter`. */
  function FromInput(i: ExistsFilterInput): (f: ExistsFilter)
    ensures f.field == i.field
  {
    ExistsFilter(i.field)
  }

  function EncodeInput(i: ExistsFilterInput): Json {
    JObject([("field", JString(i.field))])
  }

  function Encode(f: ExistsFilter): Json {
    JObject([("field", JString(f.field))])
  }

  function Decode(j: Json): (r: Result<ExistsFilter>)
    ensures r.Ok? && j.JObject? ==> ValuesAt(j.members, "field") == [JString(r.value.field)]
    ensures r.Ok? && !j.JObject? ==> j == JArray([JString(r.value.field)])
  {
    var ms :- Record(j, Fields);
    var field :- Required(ms, "field", AsString);
    Ok(ExistsFilter(field))
  }

  /** The input and the filter it converts to are written alike. */
  lemma InputEncodesAsFilter(i: ExistsFilterInput)
    ensures EncodeInput(i) == Encode(FromInput(i))
    ensures Decode(EncodeInput(i)) == Ok(FromInput(i))
  {
  }

  lemma RoundTrip(f: ExistsFilter)
    ensures Decode(Encode(f)) == Ok(f)
  {
  }

  /** `field` is required and must be a string. */
  lemma FieldRequired(ms: Members)
    requires "field" !in Keys(ms)
    ensures Decode(JObject(ms)).Err?
  {
  }

  lemma FieldMustBeString(v: Json)
    requires !v.JString?
    ensures Decode(JObject([("field", v)])).Err?
  {
  }
}
