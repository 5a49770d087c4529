/**
  The term query (`src/search/query/term.rs`): documents holding an exact
  term in one field.  On the wire the field name is the one key of the
  outer object: `{field: {"value": v, "boost"?: b}}`.
*/
module QueryTerm {
  import opened JsonModel

  datatype TermQuery = TermQuery(field: string, value: string, boost: Option<Float>)

  /** The inner record `InnerTermQuery`: `boost` has a serde default and is
      skipped when `None`. */
  function InnerSlots(t: TermQuery): seq<Slot> {
    [("value", Some(JString(t.value))), ("boost", OptJson(t.boost, JFloat))]
  }

  const InnerFields: seq<FieldSpec> := [("value", false), ("boost", true)]

  function Encode(t: TermQuery): (j: Json)
    ensures j.JObject? && |j.members| == 1 && j.members[0].0 == t.field
  {
    JObject([(t.field, JObject(Emit(InnerSlots(t))))])
  }

  /** `TermQueryVisitor`: the first key is the field and its value is read
      as an `InnerTermQuery`. */
  function Decode(j: Json): (r: Result<TermQuery>)
    ensures r.Ok? ==> j.JObject? && |j.members| == 1 && r.value.field == j.members[0].0
    ensures j == JObject([]) ==> r == Err(MissingField("field"))
  {
    var (field, inner) :- OneEntry(j, "field");
    DecodeInner(field, inner)
  }

  function DecodeInner(field: string, inner: Json): (r: Result<TermQuery>)
    ensures r.Ok? ==> r.value.field == field
  {
    var ms :- Record(inner, InnerFields);
    var value :- Required(ms, "value", AsString);
    var boost :- Optional(ms, "boost", AsFloat);
    Ok(TermQuery(field, value, boost))
  }

  /** The encoding writes `value` once and `boost` exactly when it is set. */
  lemma EncodeKeys(t: TermQuery)
    ensures ValuesAt(Encode(t).members[0].1.members, "value") == [JString(t.value)]
    ensures ValuesAt(Encode(t).members[0].1.members, "boost") == (if t.boost.Some? then [JNumber(t.boost.value)] else [])
  {
    EmitLookup(InnerSlots(t), 0);
    EmitLookup(InnerSlots(t), 1);
  }

  lemma RoundTrip(t: TermQuery)
    ensures Decode(Encode(t)) == Ok(t)
  {
    EncodeKeys(t);
  }

  /** An inner value that is neither an object nor an array is refused. */
  lemma ScalarInnerRefused(field: string, v: Json)
    requires v.JNull? || v.JString? || v.JNumber? || v.JBool?
    ensures Decode(JObject([(field, v)])).Err?
  {
  }

  /** A `value` that is not a string is refused. */
  lemma ValueMustBeString(field: string, v: Json, rest: Members)
    requires !v.JString?
    ensures Decode(JObject([(field, JObject([("value", v)] + rest))])).Err?
  {
    var ms := [("value", v)] + rest;
    assert ms[1..] == rest;
  }

  /** A `boost` that is not a number (a string, or `null` alongside another
      `boost`) is refused, and so is `boost` written twice. */
  lemma BoostMustBeNumber(field: string, value: string, b: Json)
    requires !b.JNumber? && !b.JNull?
    ensures Decode(JObject([(field, JObject([("value", JString(value)), ("boost", b)]))])).Err?
  {
    var ms := [("value", JString(value)), ("boost", b)];
    assert ValuesAt(ms, "boost") == [b];
  }

  lemma BoostTwiceRefused(field: string, value: string, b1: Json, b2: Json)
    ensures Decode(JObject([(field, JObject([("value", JString(value)), ("boost", b1), ("boost", b2)]))])).Err?
  {
    var ms := [("value", JString(value)), ("boost", b1), ("boost", b2)];
    ValuesAtCons(("value", JString(value)), [("boost", b1), ("boost", b2)], "boost");
    ValuesAtCons(("boost", b1), [("boost", b2)], "boost");
    assert ms == [("value", JString(value))] + [("boost", b1), ("boost", b2)];
    assert [("boost", b1), ("boost", b2)] == [("boost", b1)] + [("boost", b2)];
    assert ValuesAt(ms, "boost") == [b1, b2];
  }

  /** Keys of the inner object other than `value` and `boost` are ignored. */
  lemma {:induction false} UnknownKeyIgnored(field: string, ms: Members, e: (string, Json))
    requires e.0 != "value" && e.0 != "boost"
    ensures Decode(JObject([(field, JObject(ms + [e]))])) == Decode(JObject([(field, JObject(ms))]))
  {
    var a := ms + [e];
    assert DecodeInner(field, JObject(a)) == DecodeInner(field, JObject(ms)) by {
      ValuesAtOther(ms, e, "value");
      ValuesAtOther(ms, e, "boost");
      assert Record(JObject(a), InnerFields) == Ok(a);
      assert Required(a, "value", AsString) == Required(ms, "value", AsString);
      OptionalSameValues(a, ms, "boost", AsFloat);
    }
    assert OneEntry(JObject([(field, JObject(a))]), "field") == Ok((field, JObject(a)));
    assert OneEntry(JObject([(field, JObject(ms))]), "field") == Ok((field, JObject(ms)));
  }

  /** The positional form of the inner record: `boost` may be left out. */
  lemma PositionalInner(field: string, value: string)
    ensures Decode(JObject([(field, JArray([JString(value)]))])) == Ok(TermQuery(field, value, None))
  {
    var ms := [("value", JString(value))];
    assert Positional([JString(value)], InnerFields) == ms;
  }

  /** The tabled cases: encoding gives the tabled JSON and decoding it
      gives the query back. */
  lemma TableCases()
    ensures Encode(TermQuery("userProfile", "Kimchy", None)) == JObject([("userProfile", JObject([("value", JString("Kimchy"))]))])
    ensures Encode(TermQuery("user", "Kimchy", Some(Number(11, -1)))) == JObject([("user", JObject([("value", JString("Kimchy")), ("boost", JNumber(Number(11, -1)))]))])
  {
    assert InnerSlots(TermQuery("userProfile", "Kimchy", None)) == [("value", Some(JString("Kimchy"))), ("boost", None)];
    EmitPair(("value", Some(JString("Kimchy"))), ("boost", None));
    assert Emit(InnerSlots(TermQuery("userProfile", "Kimchy", None))) == [("value", JString("Kimchy"))];
    var boost := Some(JNumber(Number(11, -1)));
    assert InnerSlots(TermQuery("user", "Kimchy", Some(Number(11, -1)))) == [("value", Some(JString("Kimchy"))), ("boost", boost)];
    EmitPair(("value", Some(JString("Kimchy"))), ("boost", boost));
    assert Emit(InnerSlots(TermQuery("user", "Kimchy", Some(Number(11, -1))))) == [("value", JString("Kimchy")), ("boost", JNumber(Number(11, -1)))];
  }
}
