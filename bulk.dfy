/**
  The response of Elasticsearch's bulk API (`src/bulk.rs`): one result per
  operation of the request, in the order the operations were submitted.
  It is only ever read; the document type `T` is read by a parameter.
*/
module Bulk {
  import opened JsonModel
  import SearchResponse

  /** `Get<T>`: the document, when it was asked for. */
  datatype Get<T> = Get(source: Option<T>)

  datatype OkItem<T> = OkItem(status: U16, id: string, index: string, get: Option<Get<T>>)

  /** The untagged `Item<T>`: a success, or an error with its HTTP status. */
  datatype Item<T> = OkResult(item: OkItem<T>) | ErrResult(error: SearchResponse.ErrResponse, status: U16)

  datatype ActionKind = Create | Index | Update | Delete

  datatype Action<T> = Action(kind: ActionKind, item: Item<T>)

  datatype Response<T> = Response(took: U64, errors: bool, items: seq<Action<T>>)

  // ---------------------------------------------------------------------
  // Items.

  const GetFields: seq<FieldSpec> := [("_source", false)]

  /** The derived `Deserialize for Get<T>`: `_source` may be absent or
      `null`. */
  function DecodeGet<T>(j: Json, read: Json -> Result<T>): Result<Get<T>> {
    var ms :- Record(j, GetFields);
    var source :- Optional(ms, "_source", read);
    Ok(Get(source))
  }

  const OkItemFields: seq<FieldSpec> := [("status", false), ("_id", false), ("_index", false), ("get", false)]

  /** The derived `Deserialize for OkItem<T>`. */
  function DecodeOkItem<T>(j: Json, read: Json -> Result<T>): (r: Result<OkItem<T>>)
    ensures r.Ok? ==> Record(j, OkItemFields).Ok?
    ensures r.Ok? ==> Required(Record(j, OkItemFields).value, "status", AsU16) == Ok(r.value.status)
    ensures r.Ok? ==> Required(Record(j, OkItemFields).value, "_id", AsString) == Ok(r.value.id)
    ensures r.Ok? ==> Required(Record(j, OkItemFields).value, "_index", AsString) == Ok(r.value.index)
  {
    var ms :- Record(j, OkItemFields);
    var status :- Required(ms, "status", AsU16);
    var id :- Required(ms, "_id", AsString);
    var index :- Required(ms, "_index", AsString);
    var get :- Optional(ms, "get", j => DecodeGet(j, read));
    Ok(OkItem(status, id, index, get))
  }

  const ErrItemFields: seq<FieldSpec> := [("error", false), ("status", false)]

  /** The `Err { error, status }` variant of `Item<T>`. */
  function DecodeErrItem(j: Json): Result<(SearchResponse.ErrResponse, U16)> {
    var ms :- Record(j, ErrItemFields);
    var error :- Required(ms, "error", SearchResponse.DecodeErr);
    var status :- Required(ms, "status", AsU16);
    Ok((error, status))
  }

  /** The untagged `Item<T>`: a success is tried first, then an error. */
  function DecodeItem<T>(j: Json, read: Json -> Result<T>): (r: Result<Item<T>>)
    ensures DecodeOkItem(j, read).Ok? ==> r == Ok(OkResult(DecodeOkItem(j, read).value))
    ensures DecodeOkItem(j, read).Err? && DecodeErrItem(j).Ok? ==>
      r == Ok(ErrResult(DecodeErrItem(j).value.0, DecodeErrItem(j).value.1))
    ensures r.Err? <==> DecodeOkItem(j, read).Err? && DecodeErrItem(j).Err?
    ensures r.Err? ==> r.error == NoVariantMatched
  {
    var ok := DecodeOkItem(j, read);
    if ok.Ok? then Ok(OkResult(ok.value))
    else
      var e := DecodeErrItem(j);
      if e.Ok? then Ok(ErrResult(e.value.0, e.value.1)) else Err(NoVariantMatched)
  }

  // ---------------------------------------------------------------------
  // Actions: externally tagged by the operation's snake_case name.

  function KindName(k: ActionKind): string {
    match k
    case Create => "create"
    case Index => "index"
    case Update => "update"
    case Delete => "delete"
  }

  function KindOf(s: string): (r: Option<ActionKind>)
    ensures r.Some? <==> s in {"create", "index", "update", "delete"}
    ensures r.Some? ==> KindName(r.value) == s
  {
    if s == "create" then Some(Create)
    else if s == "index" then Some(Index)
    else if s == "update" then Some(Update)
    else if s == "delete" then Some(Delete)
    else None
  }

  /** An action is a map with a single key naming the operation.  A bare
      string names a unit variant, which none of these is. */
  function DecodeAction<T>(j: Json, read: Json -> Result<T>): (r: Result<Action<T>>)
    ensures r.Ok? ==> j.JObject? && |j.members| == 1 && j.members[0].0 == KindName(r.value.kind)
  {
    match j
    case JObject(ms) =>
      if |ms| != 1 then Err(InvalidValue("a map with a single key"))
      else
        var kind := KindOf(ms[0].0);
        if kind.None? then Err(UnknownVariant(ms[0].0))
        else
          var item :- DecodeItem(ms[0].1, read);
          Ok(Action(kind.value, item))
    case JString(s) =>
      if KindOf(s).Some? then Err(InvalidType("a newtype variant")) else Err(UnknownVariant(s))
    case _ => Err(InvalidType("a string or map"))
  }

  function DecodeActions<T>(j: Json, read: Json -> Result<T>): (r: Result<seq<Action<T>>>)
    ensures r.Ok? ==> j.JArray? && |r.value| == |j.items|
    ensures r.Ok? ==> forall i :: 0 <= i < |j.items| ==> DecodeAction(j.items[i], read) == Ok(r.value[i])
  {
    if j.JArray? then DecodeActionItems(j.items, read) else Err(InvalidType("a sequence"))
  }

  /** Every action is decoded, in the order written. */
  function DecodeActionItems<T>(items: seq<Json>, read: Json -> Result<T>): (r: Result<seq<Action<T>>>)
    ensures r.Ok? ==> |r.value| == |items|
    ensures r.Ok? ==> forall i :: 0 <= i < |items| ==> DecodeAction(items[i], read) == Ok(r.value[i])
    ensures r.Err? ==> exists i :: 0 <= i < |items| && DecodeAction(items[i], read).Err?
  {
    if items == [] then Ok([])
    else
      var a :- DecodeAction(items[0], read);
      var rest :- DecodeActionItems(items[1..], read);
      assert forall i :: 1 <= i < |items| ==> items[i] == items[1..][i - 1];
      Ok([a] + rest)
  }

  const ResponseFields: seq<FieldSpec> := [("took", false), ("errors", false), ("items", true)]

  /** The derived `Deserialize for Response<T>`: `items` defaults to the
      empty list. */
  function DecodeResponse<T>(j: Json, read: Json -> Result<T>): Result<Response<T>> {
    var ms :- Record(j, ResponseFields);
    var took :- Required(ms, "took", AsU64);
    var errors :- Required(ms, "errors", AsBool);
    var items :- Defaulted(ms, "items", j => DecodeActions(j, read), []);
    Ok(Response(took, errors, items))
  }

  // ---------------------------------------------------------------------
  // Properties.

  lemma KindNamesRoundTrip(k: ActionKind)
    ensures KindOf(KindName(k)) == Some(k)
  {
  }

  /** A single-key map is an action exactly when the key names an
      operation and its value is an item. */
  lemma ActionOfOneKey<T>(name: string, v: Json, read: Json -> Result<T>)
    ensures DecodeAction(JObject([(name, v)]), read).Ok?
        <==> KindOf(name).Some? && DecodeItem(v, read).Ok?
    ensures DecodeAction(JObject([(name, v)]), read).Ok? ==>
      DecodeAction(JObject([(name, v)]), read).value == Action(KindOf(name).value, DecodeItem(v, read).value)
  {
  }

  /** A map with no key, or with two, is not an action. */
  lemma ActionNeedsOneKey<T>(ms: Members, read: Json -> Result<T>)
    requires |ms| != 1
    ensures DecodeAction(JObject(ms), read) == Err(InvalidValue("a map with a single key"))
  {
  }

  /** A successful item with no `get` carries no document. */
  lemma MinimalOkItem<T>(status: U16, id: string, index: string, read: Json -> Result<T>)
    ensures DecodeItem(JObject([("status", JInt(status)), ("_id", JString(id)), ("_index", JString(index))]), read)
      == Ok(OkResult(OkItem(status, id, index, None)))
  {
    var a, b, c := ("status", JInt(status)), ("_id", JString(id)), ("_index", JString(index));
    ValuesAtThree(a, b, c);
    assert ValuesAt([a, b, c], "get") == [];
    DecodeOkItemOf([a, b, c], status, id, index, read);
  }

  /** A record holding the three identifying fields and no `get` is that
      successful item, without a document. */
  lemma DecodeOkItemOf<T>(ms: Members, status: U16, id: string, index: string, read: Json -> Result<T>)
    requires ValuesAt(ms, "status") == [JInt(status)] && ValuesAt(ms, "_id") == [JString(id)]
    requires ValuesAt(ms, "_index") == [JString(index)] && ValuesAt(ms, "get") == []
    ensures DecodeItem(JObject(ms), read) == Ok(OkResult(OkItem(status, id, index, None)))
  {
    assert AsU16(JInt(status)) == Ok(status);
    assert Required(ms, "status", AsU16) == Ok(status);
    assert Required(ms, "_id", AsString) == Ok(id);
    assert Required(ms, "_index", AsString) == Ok(index);
    assert DecodeOkItem(JObject(ms), read) == Ok(OkItem(status, id, index, None));
  }

  /** A `get` whose `_source` is `null` or absent carries no document. */
  lemma NullSourceIsNone<T>(read: Json -> Result<T>)
    ensures DecodeGet(JObject([("_source", JNull)]), read) == Ok(Get(None))
    ensures DecodeGet(JObject([]), read) == Ok(Get(None))
  {
    assert ValuesAt([("_source", JNull)], "_source") == [JNull];
  }

  /** An error report with its status, lacking `_id`, is an error item. */
  lemma ErrorItem<T>(e: SearchResponse.ErrResponse, status: U16, read: Json -> Result<T>)
    ensures DecodeItem(JObject([("error", SearchResponse.ErrJson(e)), ("status", JInt(status))]), read)
      == Ok(ErrResult(e, status))
  {
    var ms := [("error", SearchResponse.ErrJson(e)), ("status", JInt(status))];
    assert ValuesAt(ms, "_id") == [];
    assert DecodeOkItem(JObject(ms), read).Err?;
    SearchResponse.ErrRoundTrip(e);
    assert ValuesAt(ms, "error") == [SearchResponse.ErrJson(e)];
    assert ValuesAt(ms, "status") == [JInt(status)];
  }

  /** Without `items` the response lists no results. */
  lemma ItemsDefault<T>(took: U64, errors: bool, read: Json -> Result<T>)
    ensures DecodeResponse(JObject([("took", JInt(took)), ("errors", JBool(errors))]), read)
      == Ok(Response(took, errors, []))
  {
    var ms := [("took", JInt(took)), ("errors", JBool(errors))];
    assert ValuesAt(ms, "took") == [JInt(took)];
    assert ValuesAt(ms, "errors") == [JBool(errors)];
    assert ValuesAt(ms, "items") == [];
  }

  /** The results keep the order of the operations: the `i`-th result is
      the `i`-th entry of `items`. */
  lemma ResultsInOrder<T>(j: Json, read: Json -> Result<T>, r: Response<T>)
    requires DecodeResponse(j, read) == Ok(r)
    ensures Record(j, ResponseFields).Ok?
    ensures var vs := ValuesAt(Record(j, ResponseFields).value, "items");
      (vs == [] && r.items == []) || (|vs| == 1 && DecodeActions(vs[0], read) == Ok(r.items))
  {
    var ms := Record(j, ResponseFields).value;
    var vs := ValuesAt(ms, "items");
    if |vs| == 1 {
      assert DecodeActions(vs[0], read) == Ok(r.items);
    }
  }
}
