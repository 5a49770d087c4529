/**
  The range query (`src/search/query/range.rs`): documents whose field lies
  within bounds.  On the wire the field name is the one key of the outer
  object: `{field: {"gt"?, "gte"?, "lt"?, "lte"?, "boost"?}}`.
*/
module QueryRange {
  import opened JsonModel

  datatype RangeQuery = RangeQuery(
    field: string,
    greaterThan: Option<string>,
    greaterThanOrEqualTo: Option<string>,
    lessThan: Option<string>,
    lessThanOrEqualTo: Option<string>,
    boost: Option<Float>)

  /** The inner record `InnerRangeQuery`: every field has a serde default
      and is skipped when `None`; the bounds are renamed to their short
      wire names. */
  function InnerSlots(q: RangeQuery): seq<Slot> {
    [ ("gt", OptJson(q.greaterThan, JStr)),
      ("gte", OptJson(q.greaterThanOrEqualTo, JStr)),
      ("lt", OptJson(q.lessThan, JStr)),
      ("lte", OptJson(q.lessThanOrEqualTo, JStr)),
      ("boost", OptJson(q.boost, JFloat)) ]
  }

  const InnerFields: seq<FieldSpec> := [("gt", true), ("gte", true), ("lt", true), ("lte", true), ("boost", true)]

  function Encode(q: RangeQuery): (j: Json)
    ensures j.JObject? && |j.members| == 1 && j.members[0].0 == q.field
  {
    JObject([(q.field, JObject(Emit(InnerSlots(q))))])
  }

  /** `RangeQueryVisitor`: the first key is the field and its value is read
      as an `InnerRangeQuery`. */
  function Decode(j: Json): (r: Result<RangeQuery>)
    ensures r.Ok? ==> j.JObject? && |j.members| == 1 && r.value.field == j.members[0].0
    ensures j == JObject([]) ==> r == Err(MissingField("field"))
  {
    var (field, inner) :- OneEntry(j, "field");
    DecodeInner(field, inner)
  }

  function DecodeInner(field: string, inner: Json): (r: Result<RangeQuery>)
    ensures r.Ok? ==> r.value.field == field
  {
    var ms :- Record(inner, InnerFields);
    DecodeFields(field, ms)
  }

  function DecodeFields(field: string, ms: Members): (r: Result<RangeQuery>)
    ensures r.Ok? ==> r.value.field == field
  {
    var gt :- Optional(ms, "gt", AsString);
    var gte :- Optional(ms, "gte", AsString);
    var lt :- Optional(ms, "lt", AsString);
    var lte :- Optional(ms, "lte", AsString);
    var boost :- Optional(ms, "boost", AsFloat);
    Ok(RangeQuery(field, gt, gte, lt, lte, boost))
  }

  function InnerMembers(q: RangeQuery): Members {
    Emit(InnerSlots(q))
  }

  /** Each wire key is written exactly when its option is set, under its
      short name. */
  lemma EncodeKeys(q: RangeQuery)
    ensures Encode(q).members[0].1 == JObject(InnerMembers(q))
    ensures ValuesAt(InnerMembers(q), "gt") == StrValues(q.greaterThan)
    ensures ValuesAt(InnerMembers(q), "gte") == StrValues(q.greaterThanOrEqualTo)
    ensures ValuesAt(InnerMembers(q), "lt") == StrValues(q.lessThan)
    ensures ValuesAt(InnerMembers(q), "lte") == StrValues(q.lessThanOrEqualTo)
    ensures ValuesAt(InnerMembers(q), "boost") == SlotValues(OptJson(q.boost, JFloat))
  {
    var slots := InnerSlots(q);
    EmitLookup(slots, 0);
    EmitLookup(slots, 1);
    EmitLookup(slots, 2);
    EmitLookup(slots, 3);
    EmitLookup(slots, 4);
  }

  /** No other key is written. */
  lemma EncodeOnlyKnownKeys(q: RangeQuery, k: string)
    requires k !in {"gt", "gte", "lt", "lte", "boost"}
    ensures ValuesAt(InnerMembers(q), k) == []
  {
    EmitAbsent(InnerSlots(q), k);
  }

  lemma RoundTrip(q: RangeQuery)
    ensures Decode(Encode(q)) == Ok(q)
  {
    EncodeKeys(q);
    var ms := InnerMembers(q);
    OptionalReadBack(ms, "gt", q.greaterThan, JStr, AsString);
    OptionalReadBack(ms, "gte", q.greaterThanOrEqualTo, JStr, AsString);
    OptionalReadBack(ms, "lt", q.lessThan, JStr, AsString);
    OptionalReadBack(ms, "lte", q.lessThanOrEqualTo, JStr, AsString);
    OptionalReadBack(ms, "boost", q.boost, JFloat, AsFloat);
  }

  /** No bound is required: an empty inner object is a range with every
      bound and the boost unset. */
  lemma EmptyInner(field: string)
    ensures Decode(JObject([(field, JObject([]))])) == Ok(RangeQuery(field, None, None, None, None, None))
  {
  }

  /** An inner value that is neither an object nor an array is refused. */
  lemma ScalarInnerRefused(field: string, v: Json)
    requires v.JNull? || v.JString? || v.JNumber? || v.JBool?
    ensures Decode(JObject([(field, v)])).Err?
  {
  }

  /** Bounds are strings: a number (or any other non-string, non-null
      value) under a bound's key is refused. */
  lemma BoundMustBeString(field: string, k: string, v: Json)
    requires k in {"gt", "gte", "lt", "lte"}
    requires !v.JString? && !v.JNull?
    ensures Decode(JObject([(field, JObject([(k, v)]))])).Err?
  {
    assert ValuesAt([(k, v)], k) == [v];
  }

  /** A `boost` that is not a number is refused. */
  lemma BoostMustBeNumber(field: string, ms: Members, b: Json)
    requires !b.JNumber? && !b.JNull?
    requires "boost" !in Keys(ms)
    ensures Decode(JObject([(field, JObject(ms + [("boost", b)]))])).Err?
  {
    ValuesAtAppend(ms, [("boost", b)], "boost");
  }

  /** Keys of the inner object other than the five known ones are ignored. */
  lemma UnknownKeyIgnored(field: string, ms: Members, e: (string, Json))
    requires e.0 !in {"gt", "gte", "lt", "lte", "boost"}
    ensures Decode(JObject([(field, JObject(ms + [e]))])) == Decode(JObject([(field, JObject(ms))]))
  {
    var a := ms + [e];
    assert DecodeFields(field, a) == DecodeFields(field, ms) by {
      ValuesAtOther(ms, e, "gt");
      ValuesAtOther(ms, e, "gte");
      ValuesAtOther(ms, e, "lt");
      ValuesAtOther(ms, e, "lte");
      ValuesAtOther(ms, e, "boost");
      OptionalSameValues(a, ms, "gt", AsString);
      OptionalSameValues(a, ms, "gte", AsString);
      OptionalSameValues(a, ms, "lt", AsString);
      OptionalSameValues(a, ms, "lte", AsString);
      OptionalSameValues(a, ms, "boost", AsFloat);
    }
    assert DecodeInner(field, JObject(a)) == DecodeInner(field, JObject(ms));
    assert OneEntry(JObject([(field, JObject(a))]), "field") == Ok((field, JObject(a)));
    assert OneEntry(JObject([(field, JObject(ms))]), "field") == Ok((field, JObject(ms)));
  }

  lemma TableCase()
    ensures Decode(JObject([("currentAge", JObject([("gte", JString("10")), ("lte", JString("20"))]))]))
         == Ok(RangeQuery("currentAge", None, Some("10"), None, Some("20"), None))
  {
    var ms := [("gte", JString("10")), ("lte", JString("20"))];
    ValuesAtCons(ms[0], [ms[1]], "gte");
    ValuesAtCons(ms[0], [ms[1]], "lte");
    assert ms == [ms[0]] + [ms[1]];
  }
}
