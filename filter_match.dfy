/**
  The match filter (`src/search/filter/types/match_.rs`): the input record
  and the filter record are both written `{field: {"query": q}}`, and the
  filter is read back by a visitor that takes the first key as the field and
  its value as a string-to-string map.
*/
module FilterMatch {
  import opened JsonModel

  datatype MatchFilterInput = MatchFilterInput(field: string, query: string)

  datatype MatchFilter = MatchFilter(field: string, query: string)

  /** `From<MatchFilterInput> for MatchFilter`. */
  function FromInput(i: MatchFilterInput): (f: MatchFilter)
    ensures f.field == i.field && f.query == i.query
  {
    MatchFilter(i.field, i.query)
  }

  /** The shape both `Serialize` impls write. */
  function Wire(field: string, query: string): (j: Json)
    ensures j.JObject? && |j.members| == 1 && j.members[0].0 == field
  {
    JObject([(field, JObject([("query", JString(query))]))])
  }

  function EncodeInput(i: MatchFilterInput): Json {
    Wire(i.field, i.query)
  }

  function Encode(f: MatchFilter): Json {
    Wire(f.field, f.query)
  }

  /** `MatchFilterVisitor`. */
  function Decode(j: Json): (r: Result<MatchFilter>)
    ensures r.Ok? ==> j.JObject? && |j.members| == 1 && r.value.field == j.members[0].0
    ensures j == JObject([]) ==> r == Err(MissingField("field"))
  {
    var (field, inner) :- OneEntry(j, "field");
    var m :- AsStringMap(inner);
    if "query" !in m then Err(MissingField("query"))
    else Ok(MatchFilter(field, m["query"]))
  }

  /** A decoded filter carries the last string written under `query`. */
  lemma DecodeReadsLast(field: string, ms: Members)
    requires Decode(JObject([(field, JObject(ms))])).Ok?
    ensures Get(ms, "query") == Some(JString(Decode(JObject([(field, JObject(ms))])).value.query))
  {
    StringMapOfGet(ms);
  }

  lemma RoundTrip(f: MatchFilter)
    ensures Decode(Encode(f)) == Ok(f)
  {
    var ms := [("query", JString(f.query))];
    StringMapOfGet(ms);
    GetLast([], ms[0], "query");
  }

  /** The input and the filter it converts to are written alike, so the
      input's encoding decodes to the converted filter. */
  lemma InputEncodesAsFilter(i: MatchFilterInput)
    ensures EncodeInput(i) == Encode(FromInput(i))
    ensures Decode(EncodeInput(i)) == Ok(FromInput(i))
  {
    RoundTrip(FromInput(i));
  }

  /** An inner value that is not an object (a string, `null`) is refused. */
  lemma NonObjectInnerRefused(field: string, v: Json)
    requires !v.JObject?
    ensures Decode(JObject([(field, v)])).Err?
  {
  }

  /** A `query` that is not a string (a number, `null`) is refused. */
  lemma NonStringQueryRefused(field: string, ms: Members, i: nat)
    requires i < |ms| && !ms[i].1.JString?
    ensures Decode(JObject([(field, JObject(ms))])).Err?
  {
  }

  /** An inner object without `query` is refused. */
  lemma MissingQueryRefused(field: string, ms: Members)
    requires "query" !in Keys(ms)
    ensures Decode(JObject([(field, JObject(ms))])).Err?
  {
    if StringMapOf(ms).Ok? {
      assert "query" !in StringMapOf(ms).value;
    }
  }
}
