/**
  The simple query string query (`src/search/query/simple_query_string.rs`):
  a derived record `{"fields"?: [f…], "query": q}`.
*/
module QuerySimpleString {
  import opened JsonModel

  datatype SimpleQueryStringQuery = SimpleQueryStringQuery(fields: seq<string>, query: string)

  /** `fields` has a serde default and is skipped when empty. */
  function Slots(q: SimpleQueryStringQuery): seq<Slot> {
    [("fields", if q.fields == [] then None else Some(JStrings(q.fields))), ("query", Some(JString(q.query)))]
  }

  const Fields: seq<FieldSpec> := [("fields", true), ("query", false)]

  function Encode(q: SimpleQueryStringQuery): Json {
    JObject(Emit(Slots(q)))
  }

  function Decode(j: Json): Result<SimpleQueryStringQuery> {
    var ms :- Record(j, Fields);
    var fields :- Defaulted(ms, "fields", AsStrings, []);
    var query :- Required(ms, "query", AsString);
    Ok(SimpleQueryStringQuery(fields, query))
  }

  /** `fields` is written exactly when it is non-empty; `query` always. */
  lemma EncodeKeys(q: SimpleQueryStringQuery)
    ensures ValuesAt(Encode(q).members, "fields") == (if q.fields == [] then [] else [JStrings(q.fields)])
    ensures ValuesAt(Encode(q).members, "query") == [JString(q.query)]
  {
    EmitLookup(Slots(q), 0);
    EmitLookup(Slots(q), 1);
  }

  lemma RoundTrip(q: SimpleQueryStringQuery)
    ensures Decode(Encode(q)) == Ok(q)
  {
    EncodeKeys(q);
    StringsRoundTrip(q.fields);
  }

  /** An absent `fields` reads as empty. */
  lemma FieldsDefaultEmpty(query: string)
    ensures Decode(JObject([("query", JString(query))])) == Ok(SimpleQueryStringQuery([], query))
  {
  }

  /** `query` is required. */
  lemma QueryRequired(ms: Members)
    requires "query" !in Keys(ms)
    ensures Decode(JObject(ms)).Err?
  {
  }
}
