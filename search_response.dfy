/**
  The body Elasticsearch answers a search with (`src/search/response.rs`).
  It is only ever read.  The body is tried first as a successful response
  and otherwise as an error report (serde's untagged enum).  The document
  type `T` of each hit's `_source` is the caller's: its reader is a
  parameter of the decoders.
*/
module SearchResponse {
  import opened JsonModel

  datatype CountRelation = EqualTo | GreaterThanOrEqualTo

  datatype Count = Count(relation: CountRelation, value: U64)

  /** `Count::default()`: an exact count of zero. */
  const DefaultCount: Count := Count(EqualTo, 0)

  datatype Hit<T> = Hit(
    id: string,
    index: string,
    source: T,
    version: Option<U64>,
    sequenceNumber: Option<U64>,
    primaryTerm: Option<U64>,
    score: Option<Float>,
    highlight: map<string, seq<string>>,
    sort: seq<Json>)

  datatype Hits<T> = Hits(totalCount: Count, maxScore: Option<Float>, hits: seq<Hit<T>>)

  datatype OkResponse<T> = OkResponse(took: U64, timedOut: bool, hits: Hits<T>)

  datatype ErrResponse = ErrResponse(ty: string, reason: string, index: string, indexUuid: string, rootCause: seq<ErrResponse>)

  /** `Response<T>`: a successful body, or an error with its HTTP status. */
  datatype Response<T> = OkBody(body: OkResponse<T>) | ErrBody(error: ErrResponse, status: U16)

  // ---------------------------------------------------------------------
  // Count.

  function RelationName(r: CountRelation): string {
    match r
    case EqualTo => "eq"
    case GreaterThanOrEqualTo => "gte"
  }

  /** The unit variants are read from their names or from `{name: null}`;
      any other name is an unknown variant. */
  function ReadRelation(j: Json): (r: Result<CountRelation>)
    ensures r.Ok? <==> j in UnitForms("eq") + UnitForms("gte")
    ensures r.Ok? ==> j in UnitForms(RelationName(r.value))
  {
    UnitTag(j, "eq");
    UnitTag(j, "gte");
    var (s, content) :- VariantTag(j);
    if s == "eq" then UnitContent(content, EqualTo)
    else if s == "gte" then UnitContent(content, GreaterThanOrEqualTo)
    else Err(UnknownVariant(s))
  }

  const CountFields: seq<FieldSpec> := [("relation", false), ("value", false)]

  /** The derived `Deserialize for Count`: both fields are required. */
  function DecodeCount(j: Json): Result<Count> {
    var ms :- Record(j, CountFields);
    var relation :- Required(ms, "relation", ReadRelation);
    var value :- Required(ms, "value", AsU64);
    Ok(Count(relation, value))
  }

  /** The count as Elasticsearch writes it. */
  function CountJson(c: Count): Json {
    JObject([("relation", JString(RelationName(c.relation))), ("value", JInt(c.value))])
  }

  lemma CountRoundTrip(c: Count)
    ensures DecodeCount(CountJson(c)) == Ok(c)
  {
    var ms := CountJson(c).members;
    assert ValuesAt(ms, "relation") == [JString(RelationName(c.relation))];
    assert ValuesAt(ms, "value") == [JInt(c.value)];
  }

  /** A `total` must carry both its fields. */
  lemma CountNeedsBothFields(relation: CountRelation, value: U64)
    ensures DecodeCount(JObject([("value", JInt(value))])) == Err(MissingField("relation"))
    ensures DecodeCount(JObject([("relation", JString(RelationName(relation)))])) == Err(MissingField("value"))
  {
    assert ValuesAt([("value", JInt(value))], "relation") == [];
    assert ValuesAt([("relation", JString(RelationName(relation)))], "value") == [];
  }

  /** The GraphQL `Count.value`: the count as an `i32`, which fails for a
      count of 2^31 or more. */
  function CountValue(c: Count): (r: Result<I32>)
    ensures r.Ok? <==> c.value < I32_LIMIT
    ensures r.Ok? ==> r.value == c.value
  {
    if c.value < I32_LIMIT then Ok(c.value) else Err(InvalidValue("an i32"))
  }

  // ---------------------------------------------------------------------
  // Hits.

  /** `sort` of a hit: a list of arbitrary values. */
  function AsValues(j: Json): (r: Result<seq<Json>>)
    ensures r.Ok? <==> j.JArray?
    ensures r.Ok? ==> r.value == j.items
  {
    if j.JArray? then Ok(j.items) else Err(InvalidType("a sequence"))
  }

  /** `HashMap<String, Vec<String>>`: every entry is read; of a key written
      twice the later value is kept. */
  function AsHighlight(j: Json): (r: Result<map<string, seq<string>>>)
    ensures r.Ok? ==> j.JObject? && r.value.Keys == set i | 0 <= i < |j.members| :: j.members[i].0
  {
    if j.JObject? then HighlightOf(j.members) else Err(InvalidType("a map"))
  }

  function HighlightOf(ms: Members): (r: Result<map<string, seq<string>>>)
    ensures r.Ok? ==> r.value.Keys == set i | 0 <= i < |ms| :: ms[i].0
    ensures r.Ok? && ms != [] ==> AsStrings(ms[|ms| - 1].1) == Ok(r.value[ms[|ms| - 1].0])
    decreases |ms|
  {
    if ms == [] then Ok(map[])
    else
      var init :- HighlightOf(ms[..|ms| - 1]);
      var v :- AsStrings(ms[|ms| - 1].1);
      var r := init[ms[|ms| - 1].0 := v];
      assert r.Keys == set i | 0 <= i < |ms| :: ms[i].0 by {
        forall k | k in r.Keys ensures k in set i | 0 <= i < |ms| :: ms[i].0 {
          if k != ms[|ms| - 1].0 {
            var i :| 0 <= i < |ms| - 1 && ms[..|ms| - 1][i].0 == k;
            assert ms[i].0 == k;
          }
        }
        forall k | k in set i | 0 <= i < |ms| :: ms[i].0 ensures k in r.Keys {
          var i :| 0 <= i < |ms| && ms[i].0 == k;
          if i < |ms| - 1 {
            assert ms[..|ms| - 1][i].0 == k;
          }
        }
      }
      Ok(r)
  }

  /** Each key of the highlight map holds the strings written last under
      that key. */
  lemma {:induction false} HighlightOfGet(ms: Members)
    requires HighlightOf(ms).Ok?
    ensures forall k :: k in HighlightOf(ms).value ==>
      Get(ms, k).Some? && AsStrings(Get(ms, k).value) == Ok(HighlightOf(ms).value[k])
    decreases |ms|
  {
    if ms != [] {
      var init := ms[..|ms| - 1];
      var e := ms[|ms| - 1];
      assert ms == init + [e];
      HighlightOfGet(init);
      forall k | k in HighlightOf(ms).value
        ensures Get(ms, k).Some? && AsStrings(Get(ms, k).value) == Ok(HighlightOf(ms).value[k])
      {
        GetLast(init, e, k);
      }
    }
  }

  /** The same for a highlight read from an object. */
  lemma AsHighlightGet(j: Json)
    requires AsHighlight(j).Ok?
    ensures forall k :: k in AsHighlight(j).value ==>
      Get(j.members, k).Some? && AsStrings(Get(j.members, k).value) == Ok(AsHighlight(j).value[k])
  {
    HighlightOfGet(j.members);
  }

  const HitFields: seq<FieldSpec> := [
    ("_id", false), ("_index", false), ("_source", false), ("_version", false),
    ("_seq_no", false), ("_primary_term", false), ("_score", false),
    ("highlight", true), ("sort", true)]

  /** The derived `Deserialize for Hit<T>`.  The `Option` fields may be
      absent or `null`; `highlight` and `sort` default to empty. */
  function DecodeHit<T>(j: Json, read: Json -> Result<T>): (r: Result<Hit<T>>)
    ensures r.Ok? ==> Record(j, HitFields).Ok?
    ensures r.Ok? ==> Required(Record(j, HitFields).value, "_id", AsString) == Ok(r.value.id)
    ensures r.Ok? ==> Required(Record(j, HitFields).value, "_index", AsString) == Ok(r.value.index)
    ensures r.Ok? ==> Required(Record(j, HitFields).value, "_source", read) == Ok(r.value.source)
  {
    var ms :- Record(j, HitFields);
    var id :- Required(ms, "_id", AsString);
    var index :- Required(ms, "_index", AsString);
    var source :- Required(ms, "_source", read);
    var version :- Optional(ms, "_version", AsU64);
    var sequenceNumber :- Optional(ms, "_seq_no", AsU64);
    var primaryTerm :- Optional(ms, "_primary_term", AsU64);
    var score :- Optional(ms, "_score", AsFloat);
    var highlight :- Defaulted(ms, "highlight", AsHighlight, map[]);
    var sort :- Defaulted(ms, "sort", AsValues, []);
    Ok(Hit(id, index, source, version, sequenceNumber, primaryTerm, score, highlight, sort))
  }

  function DecodeHitList<T>(j: Json, read: Json -> Result<T>): (r: Result<seq<Hit<T>>>)
    ensures r.Ok? ==> j.JArray? && |r.value| == |j.items|
  {
    if j.JArray? then DecodeHitItems(j.items, read) else Err(InvalidType("a sequence"))
  }

  function DecodeHitItems<T>(items: seq<Json>, read: Json -> Result<T>): (r: Result<seq<Hit<T>>>)
    ensures r.Ok? ==> |r.value| == |items|
    ensures r.Ok? ==> forall i :: 0 <= i < |items| ==> DecodeHit(items[i], read) == Ok(r.value[i])
  {
    if items == [] then Ok([])
    else
      var h :- DecodeHit(items[0], read);
      var rest :- DecodeHitItems(items[1..], read);
      assert forall i :: 1 <= i < |items| ==> items[i] == items[1..][i - 1];
      Ok([h] + rest)
  }

  const HitsFields: seq<FieldSpec> := [("total", true), ("max_score", true), ("hits", true)]

  /** The derived `Deserialize for Hits<T>`: every field has a default. */
  function DecodeHits<T>(j: Json, read: Json -> Result<T>): Result<Hits<T>> {
    var ms :- Record(j, HitsFields);
    var total :- Defaulted(ms, "total", DecodeCount, DefaultCount);
    var maxScore :- Optional(ms, "max_score", AsFloat);
    var hits :- Defaulted(ms, "hits", j => DecodeHitList(j, read), []);
    Ok(Hits(total, maxScore, hits))
  }

  /** `Hits::first_doc`. */
  function FirstDoc<T>(h: Hits<T>): (r: Option<T>)
    ensures r.None? <==> h.hits == []
    ensures r.Some? ==> r.value == h.hits[0].source
  {
    if |h.hits| > 0 then Some(h.hits[0].source) else None
  }

  /** An object without hits has no first document, and missing fields take
      their defaults. */
  lemma EmptyHits<T>(read: Json -> Result<T>)
    ensures DecodeHits(JObject([]), read) == Ok(Hits(DefaultCount, None, []))
    ensures FirstDoc(DecodeHits(JObject([]), read).value) == None
  {
  }

  /** The first document is what `read` made of some `_source`. */
  lemma FirstDocIsFirstSource<T>(j: Json, read: Json -> Result<T>, h: Hits<T>)
    requires DecodeHits(j, read) == Ok(h) && h.hits != []
    ensures exists v :: read(v) == Ok(FirstDoc(h).value)
  {
    var item := FirstItem(j, read, h);
    SourceWasRead(item, read, h.hits[0]);
  }

  lemma FirstItem<T>(j: Json, read: Json -> Result<T>, h: Hits<T>) returns (item: Json)
    requires DecodeHits(j, read) == Ok(h) && h.hits != []
    ensures DecodeHit(item, read) == Ok(h.hits[0])
  {
    var ms := Record(j, HitsFields).value;
    var list := (v: Json) => DecodeHitList(v, read);
    assert Defaulted(ms, "hits", list, []) == Ok(h.hits);
    var vs := ValuesAt(ms, "hits");
    assert |vs| == 1 && list(vs[0]) == Ok(h.hits);
    item := vs[0].items[0];
  }

  lemma SourceWasRead<T>(item: Json, read: Json -> Result<T>, hit: Hit<T>)
    requires DecodeHit(item, read) == Ok(hit)
    ensures exists v :: read(v) == Ok(hit.source)
  {
    var vs := ValuesAt(Record(item, HitFields).value, "_source");
    assert read(vs[0]) == Ok(hit.source);
  }

  /** A hit with only its required fields set. */
  lemma MinimalHit<T>(id: string, index: string, source: Json, read: Json -> Result<T>, v: T)
    requires read(source) == Ok(v)
    ensures DecodeHit(JObject([("_id", JString(id)), ("_index", JString(index)), ("_source", source)]), read)
      == Ok(Hit(id, index, v, None, None, None, None, map[], []))
  {
    var a, b, c := ("_id", JString(id)), ("_index", JString(index)), ("_source", source);
    var ms := [a, b, c];
    ValuesAtThree(a, b, c);
    assert Keys(ms) == ["_id", "_index", "_source"];
    assert Required(ms, "_source", read) == Ok(v);
    assert Optional(ms, "_version", AsU64) == Ok(None) && Optional(ms, "_seq_no", AsU64) == Ok(None);
    assert Optional(ms, "_primary_term", AsU64) == Ok(None) && Optional(ms, "_score", AsFloat) == Ok(None);
    assert Defaulted(ms, "highlight", AsHighlight, map[]) == Ok(map[]);
    assert Defaulted(ms, "sort", AsValues, []) == Ok([]);
  }

  /** A hit without `_id` is refused. */
  lemma HitNeedsId<T>(index: string, source: Json, read: Json -> Result<T>)
    ensures DecodeHit(JObject([("_index", JString(index)), ("_source", source)]), read) == Err(MissingField("_id"))
  {
    assert ValuesAt([("_index", JString(index)), ("_source", source)], "_id") == [];
  }

  // ---------------------------------------------------------------------
  // Whole responses.

  const OkFields: seq<FieldSpec> := [("took", false), ("timed_out", false), ("hits", false)]

  /** The derived `Deserialize for OkResponse<T>`: all three fields are
      required. */
  function DecodeOk<T>(j: Json, read: Json -> Result<T>): Result<OkResponse<T>> {
    var ms :- Record(j, OkFields);
    var took :- Required(ms, "took", AsU64);
    var timedOut :- Required(ms, "timed_out", AsBool);
    var hits :- Required(ms, "hits", j => DecodeHits(j, read));
    Ok(OkResponse(took, timedOut, hits))
  }

  const ErrFields: seq<FieldSpec> :=
    [("type", false), ("reason", false), ("index", false), ("index_uuid", false), ("root_cause", true)]

  /** The derived `Deserialize for ErrResponse`: `type` is read into `ty`
      and `root_cause` defaults to the empty list. */
  function DecodeErr(j: Json): (r: Result<ErrResponse>)
    ensures r.Ok? ==> Record(j, ErrFields).Ok? && ReadRootCause(j, Record(j, ErrFields).value) == Ok(r.value.rootCause)
    decreases j, 2, 0
  {
    var ms :- Record(j, ErrFields);
    var ty :- Required(ms, "type", AsString);
    var reason :- Required(ms, "reason", AsString);
    var index :- Required(ms, "index", AsString);
    var indexUuid :- Required(ms, "index_uuid", AsString);
    var rootCause :- ReadRootCause(j, ms);
    Ok(ErrResponse(ty, reason, index, indexUuid, rootCause))
  }

  function ReadRootCause(j: Json, ms: Members): (r: Result<seq<ErrResponse>>)
    requires Record(j, ErrFields) == Ok(ms)
    ensures r.Ok? ==> ValuesAt(ms, "root_cause") == [] || (|ValuesAt(ms, "root_cause")| == 1 && ValuesAt(ms, "root_cause")[0].JArray?)
    decreases j, 1, 0
  {
    var vs := ValuesAt(ms, "root_cause");
    if |vs| == 0 then Ok([])
    else if |vs| > 1 then Err(DuplicateField("root_cause"))
    else if !vs[0].JArray? then Err(InvalidType("a sequence"))
    else
      RecordInside(j, ErrFields, "root_cause", 0);
      DecodeErrItems(vs[0], 0)
  }

  function DecodeErrItems(v: Json, n: nat): (r: Result<seq<ErrResponse>>)
    requires v.JArray? && n <= |v.items|
    ensures r.Ok? ==> |r.value| == |v.items| - n
    decreases v, 0, |v.items| - n
  {
    if n == |v.items| then Ok([])
    else
      var e :- DecodeErrAt(v, n);
      var rest :- DecodeErrItems(v, n + 1);
      Ok([e] + rest)
  }

  /** The `n`-th root cause. */
  function DecodeErrAt(v: Json, n: nat): (r: Result<ErrResponse>)
    requires v.JArray? && n < |v.items|
    ensures r == DecodeErr(v.items[n])
    decreases v, 0, 0
  {
    DecodeErr(v.items[n])
  }

  const ErrBodyFields: seq<FieldSpec> := [("error", false), ("status", false)]

  /** The `Err { error, status }` variant. */
  function DecodeErrBody(j: Json): Result<(ErrResponse, U16)> {
    var ms :- Record(j, ErrBodyFields);
    var error :- Required(ms, "error", DecodeErr);
    var status :- Required(ms, "status", AsU16);
    Ok((error, status))
  }

  /** The untagged `Response<T>`: the first variant that reads the body
      wins; when neither does, no variant matched. */
  function DecodeResponse<T>(j: Json, read: Json -> Result<T>): (r: Result<Response<T>>)
    ensures DecodeOk(j, read).Ok? ==> r == Ok(OkBody(DecodeOk(j, read).value))
    ensures DecodeOk(j, read).Err? && DecodeErrBody(j).Ok? ==>
      r == Ok(ErrBody(DecodeErrBody(j).value.0, DecodeErrBody(j).value.1))
    ensures r.Err? <==> DecodeOk(j, read).Err? && DecodeErrBody(j).Err?
    ensures r.Err? ==> r.error == NoVariantMatched
  {
    var ok := DecodeOk(j, read);
    if ok.Ok? then Ok(OkBody(ok.value))
    else
      var e := DecodeErrBody(j);
      if e.Ok? then Ok(ErrBody(e.value.0, e.value.1)) else Err(NoVariantMatched)
  }

  /** A body without `took` is never a successful response. */
  lemma NoTookNoOk<T>(ms: Members, read: Json -> Result<T>)
    requires "took" !in Keys(ms)
    ensures DecodeOk(JObject(ms), read) == Err(MissingField("took"))
  {
  }

  // ---------------------------------------------------------------------
  // Error reports as Elasticsearch writes them.

  function ErrJson(e: ErrResponse): Json
    decreases e, 1
  {
    JObject([("type", JString(e.ty)), ("reason", JString(e.reason)), ("index", JString(e.index)),
             ("index_uuid", JString(e.indexUuid)), ("root_cause", ErrListJson(e, e.rootCause))])
  }

  function ErrListJson(e: ErrResponse, causes: seq<ErrResponse>): (j: Json)
    requires causes == e.rootCause
    ensures j.JArray? && |j.items| == |causes|
    decreases e, 0
  {
    JArray(seq(|causes|, i requires 0 <= i < |causes| => ErrJson(causes[i])))
  }

  lemma ErrKeys(e: ErrResponse)
    ensures ValuesAt(ErrJson(e).members, "type") == [JString(e.ty)]
    ensures ValuesAt(ErrJson(e).members, "reason") == [JString(e.reason)]
    ensures ValuesAt(ErrJson(e).members, "index") == [JString(e.index)]
    ensures ValuesAt(ErrJson(e).members, "index_uuid") == [JString(e.indexUuid)]
    ensures ValuesAt(ErrJson(e).members, "root_cause") == [ErrListJson(e, e.rootCause)]
  {
    var ms := ErrJson(e).members;
    assert DistinctKeys(ms);
    ValuesAtDistinct(ms, 0);
    ValuesAtDistinct(ms, 1);
    ValuesAtDistinct(ms, 2);
    ValuesAtDistinct(ms, 3);
    ValuesAtDistinct(ms, 4);
  }

  /** An error report, root causes and all, is read back as written. */
  lemma {:induction false} ErrRoundTrip(e: ErrResponse)
    ensures DecodeErr(ErrJson(e)) == Ok(e)
    decreases e, 1
  {
    var j := ErrJson(e);
    ErrKeys(e);
    ErrItemsRoundTrip(e, 0);
    DecodeErrOf(j.members, e, ErrListJson(e, e.rootCause));
  }

  /** A record whose fields hold the report's values, with root causes that
      decode to the report's own, decodes to that report. */
  lemma DecodeErrOf(ms: Members, e: ErrResponse, causes: Json)
    requires ValuesAt(ms, "type") == [JString(e.ty)] && ValuesAt(ms, "reason") == [JString(e.reason)]
    requires ValuesAt(ms, "index") == [JString(e.index)] && ValuesAt(ms, "index_uuid") == [JString(e.indexUuid)]
    requires ValuesAt(ms, "root_cause") == [causes] && causes.JArray?
    requires DecodeErrItems(causes, 0) == Ok(e.rootCause)
    ensures DecodeErr(JObject(ms)) == Ok(e)
  {
  }

  lemma {:induction false} ErrItemsRoundTrip(e: ErrResponse, n: nat)
    requires n <= |e.rootCause|
    ensures DecodeErrItems(ErrListJson(e, e.rootCause), n) == Ok(e.rootCause[n..])
    decreases e, 0, |e.rootCause| - n
  {
    var v := ErrListJson(e, e.rootCause);
    if n < |e.rootCause| {
      var c := e.rootCause[n];
      assert DecodeErrAt(v, n) == Ok(c) by {
        assert v.items[n] == ErrJson(c);
        ErrRoundTrip(c);
      }
      ErrItemsRoundTrip(e, n + 1);
      SuffixCons(e.rootCause, n);
    } else {
      assert e.rootCause[n..] == [];
    }
  }

  /** A report without `root_cause` has none. */
  lemma RootCauseDefault(ty: string, reason: string, index: string, uuid: string)
    ensures DecodeErr(JObject([("type", JString(ty)), ("reason", JString(reason)), ("index", JString(index)),
                               ("index_uuid", JString(uuid))])) == Ok(ErrResponse(ty, reason, index, uuid, []))
  {
    var ms := [("type", JString(ty)), ("reason", JString(reason)), ("index", JString(index)), ("index_uuid", JString(uuid))];
    ValuesAtFour(ms[0], ms[1], ms[2], ms[3]);
    assert "root_cause" !in Keys(ms);
    assert Required(ms, "type", AsString) == Ok(ty);
    assert Required(ms, "reason", AsString) == Ok(reason);
    assert Required(ms, "index", AsString) == Ok(index);
    assert Required(ms, "index_uuid", AsString) == Ok(uuid);
    assert ReadRootCause(JObject(ms), ms) == Ok([]);
  }

  /** A `root_cause` of `null` is refused: the default applies only to an
      absent key. */
  lemma NullRootCauseRefused(ms: Members)
    requires ValuesAt(ms, "root_cause") == [JNull]
    ensures DecodeErr(JObject(ms)).Err?
  {
  }

  /** An error body is read as the error variant: it has no `took`. */
  lemma ErrorBodyIsErr<T>(e: ErrResponse, status: U16, read: Json -> Result<T>)
    ensures DecodeResponse(JObject([("error", ErrJson(e)), ("status", JInt(status))]), read)
      == Ok(ErrBody(e, status))
  {
    var ms := [("error", ErrJson(e)), ("status", JInt(status))];
    NoTookNoOk(ms, read);
    ErrRoundTrip(e);
    assert ValuesAt(ms, "error") == [ErrJson(e)];
    assert ValuesAt(ms, "status") == [JInt(status)];
  }
}
