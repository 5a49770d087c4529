/**
  Sorting (`src/search/sort.rs`).  A sort is written as a one-key object
  `{field: {order?, mode?, unmapped_type?}}`.  Three field names are
  renamed to Elasticsearch's special sort keys, and every field whose name
  does not start with `_` asks for `unmapped_type: "keyword"`, so that an
  index without a mapping for the field does not fail the search.  The
  `unmapped_type` test looks at the field name before renaming.
*/
module Sort {
  import opened JsonModel

  datatype SortOrder = Asc | Desc

  datatype SortMode = Min | Max | Sum | Avg | Median

  /** `rename_all = "snake_case"` on the two enums. */
  function OrderName(o: SortOrder): string {
    match o
    case Asc => "asc"
    case Desc => "desc"
  }

  function ModeName(m: SortMode): string {
    match m
    case Min => "min"
    case Max => "max"
    case Sum => "sum"
    case Avg => "avg"
    case Median => "median"
  }

  function JOrder(o: SortOrder): Json {
    JString(OrderName(o))
  }

  function JMode(m: SortMode): Json {
    JString(ModeName(m))
  }

  /** The derived enums read a variant from its name or from
      `{name: null}`; any other name is an unknown variant. */
  function ReadOrder(j: Json): (r: Result<SortOrder>)
    ensures r.Ok? <==> j in UnitForms("asc") + UnitForms("desc")
    ensures r.Ok? ==> j in UnitForms(OrderName(r.value))
  {
    UnitTag(j, "asc");
    UnitTag(j, "desc");
    var (s, content) :- VariantTag(j);
    if s == "asc" then UnitContent(content, Asc)
    else if s == "desc" then UnitContent(content, Desc)
    else Err(UnknownVariant(s))
  }

  function ReadMode(j: Json): (r: Result<SortMode>)
    ensures r.Ok? <==> j in UnitForms("min") + UnitForms("max") + UnitForms("sum") + UnitForms("avg") + UnitForms("median")
    ensures r.Ok? ==> j in UnitForms(ModeName(r.value))
  {
    UnitTag(j, "min");
    UnitTag(j, "max");
    UnitTag(j, "sum");
    UnitTag(j, "avg");
    UnitTag(j, "median");
    var (s, content) :- VariantTag(j);
    if s == "min" then UnitContent(content, Min)
    else if s == "max" then UnitContent(content, Max)
    else if s == "sum" then UnitContent(content, Sum)
    else if s == "avg" then UnitContent(content, Avg)
    else if s == "median" then UnitContent(content, Median)
    else Err(UnknownVariant(s))
  }

  /** Each variant is read back from both of its forms, and no two share a
      name. */
  lemma NamesRoundTrip(o: SortOrder, m: SortMode)
    ensures ReadOrder(JOrder(o)) == Ok(o) && ReadMode(JMode(m)) == Ok(m)
    ensures ReadOrder(JObject([(OrderName(o), JNull)])) == Ok(o)
    ensures ReadMode(JObject([(ModeName(m), JNull)])) == Ok(m)
  {
  }

  lemma NamesDistinct(o1: SortOrder, o2: SortOrder, m1: SortMode, m2: SortMode)
    ensures OrderName(o1) == OrderName(o2) ==> o1 == o2
    ensures ModeName(m1) == ModeName(m2) ==> m1 == m2
  {
  }

  datatype Sort = Sort(field: string, order: Option<SortOrder>, mode: Option<SortMode>)

  /** `Default for Sort`: `id` is the tie-breaker field. */
  const DefaultSort: Sort := Sort("id", None, None)

  /** The key a sort is written under. */
  function WireField(field: string): (k: string)
    ensures field == "score" ==> k == "_score"
    ensures field == "key" ==> k == "_key"
    ensures field == "count" ==> k == "_count"
    ensures field !in ["score", "key", "count"] ==> k == field
  {
    if field == "score" then "_score"
    else if field == "key" then "_key"
    else if field == "count" then "_count"
    else field
  }

  predicate Special(field: string) {
    |field| > 0 && field[0] == '_'
  }

  /** `InnerSortValue::from(&Sort)`: the options, and the unmapped-type hint
      for a field whose name does not start with `_`. */
  function InnerSlots(s: Sort): seq<Slot> {
    [ ("order", OptJson(s.order, JOrder)),
      ("mode", OptJson(s.mode, JMode)),
      ("unmapped_type", if Special(s.field) then None else Some(JString("keyword"))) ]
  }

  function Encode(s: Sort): (j: Json)
    ensures j.JObject? && |j.members| == 1 && j.members[0].0 == WireField(s.field)
  {
    JObject([(WireField(s.field), JObject(Emit(InnerSlots(s))))])
  }

  /** The derived `InnerSortValue`: every field is an `Option` without a
      serde default, so an absent key reads as `None` in the object form but
      the array form must hold all three. */
  const InnerFields: seq<FieldSpec> := [("order", false), ("mode", false), ("unmapped_type", false)]

  /** The sort visitor: the first key is the field, read as it stands; the
      value is an `InnerSortValue` whose `unmapped_type` is checked to be a
      string and then dropped. */
  function Decode(j: Json): (r: Result<Sort>)
    ensures r.Ok? ==> j.JObject? && |j.members| == 1 && r.value.field == j.members[0].0
    ensures j == JObject([]) ==> r == Err(MissingField("field"))
  {
    var (field, inner) :- OneEntry(j, "field");
    var ms :- Record(inner, InnerFields);
    var order :- Optional(ms, "order", ReadOrder);
    var mode :- Optional(ms, "mode", ReadMode);
    var unmappedType :- Optional(ms, "unmapped_type", AsString);
    Ok(Sort(field, order, mode))
  }

  /** What each inner key holds. */
  lemma InnerKeys(s: Sort)
    ensures ValuesAt(Emit(InnerSlots(s)), "order") == SlotValues(OptJson(s.order, JOrder))
    ensures ValuesAt(Emit(InnerSlots(s)), "mode") == SlotValues(OptJson(s.mode, JMode))
    ensures ValuesAt(Emit(InnerSlots(s)), "unmapped_type") == (if Special(s.field) then [] else [JString("keyword")])
  {
    var slots := InnerSlots(s);
    EmitLookup(slots, 0);
    EmitLookup(slots, 1);
    EmitLookup(slots, 2);
  }

  /** `unmapped_type: "keyword"` is written exactly when the field name, as
      given and not as renamed, does not start with `_`. */
  lemma UnmappedTypeRule(s: Sort)
    ensures var inner := Encode(s).members[0].1;
      inner.JObject? && (!Special(s.field) <==> ValuesAt(inner.members, "unmapped_type") == [JString("keyword")])
    ensures var inner := Encode(s).members[0].1;
      Special(s.field) <==> ValuesAt(inner.members, "unmapped_type") == []
  {
    InnerKeys(s);
  }

  /** So `score` is renamed but still carries the hint, while `_score`
      given directly and with no options is written as an empty object. */
  lemma ScoreExamples()
    ensures Encode(Sort("score", None, None)) == JObject([("_score", JObject([("unmapped_type", JString("keyword"))]))])
    ensures Encode(Sort("_score", None, None)) == JObject([("_score", JObject([]))])
    ensures Encode(Sort("_key", None, Some(Avg))) == JObject([("_key", JObject([("mode", JString("avg"))]))])
  {
    ScoreRenamed();
    ScoreDirect();
    KeyWithMode();
  }

  lemma ScoreRenamed()
    ensures Encode(Sort("score", None, None)) == JObject([("_score", JObject([("unmapped_type", JString("keyword"))]))])
  {
    var a := InnerSlots(Sort("score", None, None));
    assert !Special("score");
    EmitTriple(a[0], a[1], a[2]);
    assert Emit(a) == [("unmapped_type", JString("keyword"))];
  }

  lemma ScoreDirect()
    ensures Encode(Sort("_score", None, None)) == JObject([("_score", JObject([]))])
  {
    var b := InnerSlots(Sort("_score", None, None));
    assert Special("_score");
    EmitTriple(b[0], b[1], b[2]);
    assert Emit(b) == [];
  }

  lemma KeyWithMode()
    ensures Encode(Sort("_key", None, Some(Avg))) == JObject([("_key", JObject([("mode", JString("avg"))]))])
  {
    var c := InnerSlots(Sort("_key", None, Some(Avg)));
    assert Special("_key");
    EmitTriple(c[0], c[1], c[2]);
    assert Emit(c) == [("mode", JString("avg"))];
  }

  /** The default sort is written `{"id": {"unmapped_type": "keyword"}}`. */
  lemma DefaultEncoding()
    ensures Encode(DefaultSort) == JObject([("id", JObject([("unmapped_type", JString("keyword"))]))])
  {
    var a := InnerSlots(DefaultSort);
    assert !Special("id");
    EmitTriple(a[0], a[1], a[2]);
    assert Emit(a) == [("unmapped_type", JString("keyword"))];
  }

  /** The inner object is read back as written: the options, and an
      `unmapped_type` that is a string when present. */
  lemma InnerReadBack(s: Sort)
    ensures Optional(Emit(InnerSlots(s)), "order", ReadOrder) == Ok(s.order)
    ensures Optional(Emit(InnerSlots(s)), "mode", ReadMode) == Ok(s.mode)
    ensures Optional(Emit(InnerSlots(s)), "unmapped_type", AsString).Ok?
  {
    InnerKeys(s);
    InnerOf(Emit(InnerSlots(s)), s.order, s.mode, if Special(s.field) then [] else [JString("keyword")]);
  }

  /** Any inner object holding the two options as written, and at most the
      string `keyword` under `unmapped_type`, reads them back. */
  lemma InnerOf(ms: Members, order: Option<SortOrder>, mode: Option<SortMode>, unmapped: seq<Json>)
    requires ValuesAt(ms, "order") == SlotValues(OptJson(order, JOrder))
    requires ValuesAt(ms, "mode") == SlotValues(OptJson(mode, JMode))
    requires ValuesAt(ms, "unmapped_type") == unmapped && (unmapped == [] || unmapped == [JString("keyword")])
    ensures Optional(ms, "order", ReadOrder) == Ok(order)
    ensures Optional(ms, "mode", ReadMode) == Ok(mode)
    ensures Optional(ms, "unmapped_type", AsString).Ok?
  {
    assert Optional(ms, "order", ReadOrder) == Ok(order) by {
      if order.Some? {
        NamesRoundTrip(order.value, Min);
      }
      OptionalReadBack(ms, "order", order, JOrder, ReadOrder);
    }
    assert Optional(ms, "mode", ReadMode) == Ok(mode) by {
      if mode.Some? {
        NamesRoundTrip(Asc, mode.value);
      }
      OptionalReadBack(ms, "mode", mode, JMode, ReadMode);
    }
  }

  /** The options are read back whatever the field, and the field comes
      back as the key it was written under. */
  lemma DecodeEncode(s: Sort)
    ensures Decode(Encode(s)) == Ok(Sort(WireField(s.field), s.order, s.mode))
  {
    var ms := Emit(InnerSlots(s));
    assert OneEntry(Encode(s), "field") == Ok((WireField(s.field), JObject(ms)));
    assert Record(JObject(ms), InnerFields) == Ok(ms);
    InnerReadBack(s);
  }

  /** Hence a sort survives its round trip unless its field is one of the
      three renamed names, which come back with their underscore. */
  lemma RoundTrip(s: Sort)
    ensures s.field !in ["score", "key", "count"] <==> Decode(Encode(s)) == Ok(s)
  {
    DecodeEncode(s);
  }

  /** Tabled decoding: all three inner keys present. */
  lemma DecodeEverything()
    ensures Decode(JObject([("id", JObject([("mode", JString("max")), ("order", JString("desc")),
      ("unmapped_type", JString("keyword"))]))])) == Ok(Sort("id", Some(Desc), Some(Max)))
  {
    var m, o, u := ("mode", JString("max")), ("order", JString("desc")), ("unmapped_type", JString("keyword"));
    ValuesAtThree(m, o, u);
    InnerOf([m, o, u], Some(Desc), Some(Max), [JString("keyword")]);
    assert Record(JObject([m, o, u]), InnerFields) == Ok([m, o, u]);
  }

  /** The array form of the inner record must hold all three fields, since
      none has a serde default; the object form may leave any out. */
  lemma ShortInnerArrayRefused(field: string, items: seq<Json>)
    requires |items| < 3
    ensures Decode(JObject([(field, JArray(items))])).Err?
  {
    assert |items| <= 2 < |InnerFields| && !InnerFields[2].1;
    assert Record(JArray(items), InnerFields).Err?;
  }

  /** An order outside the listed names is refused. */
  lemma UnknownOrderRefused(field: string, v: Json)
    requires v != JNull && v !in UnitForms("asc") + UnitForms("desc")
    ensures Decode(JObject([(field, JObject([("order", v)]))])).Err?
  {
    assert ValuesAt([("order", v)], "order") == [v];
  }
}
