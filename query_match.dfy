/**
  The match query (`src/search/query/match_.rs`): full-text search of one
  field.  On the wire the field name is the one key of the outer object:
  `{field: {"query": q}}`, the inner object read as a string-to-string map.
*/
module QueryMatch {
  import opened JsonModel

  datatype MatchQuery = MatchQuery(field: string, query: string)

  /** `MatchQuery::new`: stores both arguments. */
  function New(field: string, query: string): (q: MatchQuery)
    ensures q.field == field && q.query == query
  {
    MatchQuery(field, query)
  }

  function Encode(q: MatchQuery): (j: Json)
    ensures j.JObject? && |j.members| == 1 && j.members[0].0 == q.field
  {
    JObject([(q.field, JObject([("query", JString(q.query))]))])
  }

  /** `MatchQueryVisitor`: the first key is the field; its value must be an
      object of strings holding `query`. */
  function Decode(j: Json): (r: Result<MatchQuery>)
    ensures r.Ok? ==> j.JObject? && |j.members| == 1 && r.value.field == j.members[0].0
    ensures j == JObject([]) ==> r == Err(MissingField("field"))
  {
    var (field, inner) :- OneEntry(j, "field");
    var m :- AsStringMap(inner);
    if "query" !in m then Err(MissingField("query"))
    else Ok(MatchQuery(field, m["query"]))
  }

  /** A decoded query carries the last string written under `query`. */
  lemma DecodeReadsLast(field: string, ms: Members)
    requires Decode(JObject([(field, JObject(ms))])).Ok?
    ensures Get(ms, "query") == Some(JString(Decode(JObject([(field, JObject(ms))])).value.query))
  {
    StringMapOfGet(ms);
  }

  lemma RoundTrip(q: MatchQuery)
    ensures Decode(Encode(q)) == Ok(q)
  {
    var ms := [("query", JString(q.query))];
    StringMapOfGet(ms);
    GetLast([], ms[0], "query");
  }

  /** An inner value that is not an object (a string, `null`) is refused. */
  lemma NonObjectInnerRefused(field: string, v: Json)
    requires !v.JObject?
    ensures Decode(JObject([(field, v)])).Err?
  {
  }

  /** A `query` that is not a string (a number, `null`) is refused. */
  lemma NonStringQueryRefused(field: string, ms: Members, i: nat)
    requires i < |ms| && !ms[i].1.JString?
    ensures Decode(JObject([(field, JObject(ms))])).Err?
  {
  }

  /** An inner object without `query` is refused. */
  lemma MissingQueryRefused(field: string, ms: Members)
    requires "query" !in Keys(ms)
    ensures Decode(JObject([(field, JObject(ms))])).Err?
  {
    if StringMapOf(ms).Ok? {
      assert "query" !in StringMapOf(ms).value;
    }
  }
}
