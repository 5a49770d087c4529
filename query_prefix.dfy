/**
  The prefix query (`src/search/query/prefix.rs`): documents with a term
  starting with a given prefix.  On the wire the field name is the one key
  of the outer object: `{field: {"value": v, "case_insensitive": b}}`.
*/
module QueryPrefix {
  import opened JsonModel

  datatype PrefixQuery = PrefixQuery(field: string, value: string, caseInsensitive: bool)

  /** `PrefixQuery::new`: case-sensitive matching. */
  function New(field: string, value: string): (q: PrefixQuery)
    ensures q.field == field && q.value == value && !q.caseInsensitive
  {
    PrefixQuery(field, value, false)
  }

  /** The inner record `InnerPrefixQuery`: both fields are always written;
      `case_insensitive` has a serde default of `false`. */
  function InnerMembers(q: PrefixQuery): Members {
    [("value", JString(q.value)), ("case_insensitive", JBool(q.caseInsensitive))]
  }

  const InnerFields: seq<FieldSpec> := [("value", false), ("case_insensitive", true)]

  function Encode(q: PrefixQuery): (j: Json)
    ensures j.JObject? && |j.members| == 1 && j.members[0].0 == q.field
  {
    JObject([(q.field, JObject(InnerMembers(q)))])
  }

  function Decode(j: Json): (r: Result<PrefixQuery>)
    ensures r.Ok? ==> j.JObject? && |j.members| == 1 && r.value.field == j.members[0].0
    ensures j == JObject([]) ==> r == Err(MissingField("field"))
  {
    var (field, inner) :- OneEntry(j, "field");
    var ms :- Record(inner, InnerFields);
    var value :- Required(ms, "value", AsString);
    var caseInsensitive :- Defaulted(ms, "case_insensitive", AsBool, false);
    Ok(PrefixQuery(field, value, caseInsensitive))
  }

  /** `case_insensitive` is written even when it is `false`. */
  lemma EncodeKeys(q: PrefixQuery)
    ensures ValuesAt(InnerMembers(q), "value") == [JString(q.value)]
    ensures ValuesAt(InnerMembers(q), "case_insensitive") == [JBool(q.caseInsensitive)]
  {
    var ms := InnerMembers(q);
    ValuesAtCons(ms[0], [ms[1]], "value");
    ValuesAtCons(ms[0], [ms[1]], "case_insensitive");
    assert ms == [ms[0]] + [ms[1]];
  }

  lemma RoundTrip(q: PrefixQuery)
    ensures Decode(Encode(q)) == Ok(q)
  {
    EncodeKeys(q);
  }

  /** An absent `case_insensitive` reads as `false`. */
  lemma CaseSensitiveByDefault(field: string, value: string)
    ensures Decode(JObject([(field, JObject([("value", JString(value))]))])) == Ok(New(field, value))
  {
  }

  /** A `case_insensitive` that is not a boolean is refused, `null`
      included, and so is one written twice. */
  lemma CaseInsensitiveMustBeBool(field: string, value: string, b: Json)
    requires !b.JBool?
    ensures Decode(JObject([(field, JObject([("value", JString(value)), ("case_insensitive", b)]))])).Err?
  {
    var ms := [("value", JString(value)), ("case_insensitive", b)];
    ValuesAtCons(ms[0], [ms[1]], "case_insensitive");
    assert ms == [ms[0]] + [ms[1]];
  }

  lemma CaseInsensitiveTwiceRefused(field: string, value: string, b1: Json, b2: Json)
    ensures Decode(JObject([(field, JObject([("value", JString(value)), ("case_insensitive", b1), ("case_insensitive", b2)]))])).Err?
  {
    var a, b, c := ("value", JString(value)), ("case_insensitive", b1), ("case_insensitive", b2);
    assert [a, b, c] == [a] + [b, c] && [b, c] == [b] + [c];
    ValuesAtCons(b, [c], "case_insensitive");
    ValuesAtCons(a, [b, c], "case_insensitive");
    assert |ValuesAt([a, b, c], "case_insensitive")| == 2;
    assert Defaulted([a, b, c], "case_insensitive", AsBool, false).Err?;
  }

  /** A `value` that is not a string is refused. */
  lemma ValueMustBeString(field: string, v: Json, rest: Members)
    requires !v.JString?
    ensures Decode(JObject([(field, JObject([("value", v)] + rest))])).Err?
  {
    ValuesAtCons(("value", v), rest, "value");
  }

  /** An inner value that is neither an object nor an array is refused. */
  lemma ScalarInnerRefused(field: string, v: Json)
    requires v.JNull? || v.JString? || v.JNumber? || v.JBool?
    ensures Decode(JObject([(field, v)])).Err?
  {
  }
}
