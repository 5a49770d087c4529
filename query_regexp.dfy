/**
  The regexp query (`src/search/query/regexp.rs`): documents with a term
  matching a regular expression.  On the wire the field name is the one
  key of the outer object: `{field: {"value": v, "flags"?: f}}`.  The
  inner object is read as a string-to-string map, not as a record.
*/
module QueryRegexp {
  import opened JsonModel

  datatype RegexpQuery = RegexpQuery(field: string, value: string, flags: Option<string>)

  /** `RegexpQuery::new`: stores its arguments. */
  function New(field: string, value: string, flags: Option<string>): (q: RegexpQuery)
    ensures q.field == field && q.value == value && q.flags == flags
  {
    RegexpQuery(field, value, flags)
  }

  /** The inner map: `value`, and `flags` only when set.  The source fills
      a `HashMap`, whose order is unspecified; this model writes `value`
      first. */
  function InnerMembers(q: RegexpQuery): Members {
    [("value", JString(q.value))] + (if q.flags.Some? then [("flags", JString(q.flags.value))] else [])
  }

  function Encode(q: RegexpQuery): (j: Json)
    ensures j.JObject? && |j.members| == 1 && j.members[0].0 == q.field
  {
    JObject([(q.field, JObject(InnerMembers(q)))])
  }

  /** `RegexpQueryVisitor`: the first key is the field; its value must be
      an object of strings, of which `value` is required and `flags`
      optional. */
  function Decode(j: Json): (r: Result<RegexpQuery>)
    ensures r.Ok? ==> j.JObject? && |j.members| == 1 && r.value.field == j.members[0].0
    ensures j == JObject([]) ==> r == Err(MissingField("field"))
  {
    var (field, inner) :- OneEntry(j, "field");
    var m :- AsStringMap(inner);
    if "value" !in m then Err(MissingField("value"))
    else Ok(RegexpQuery(field, m["value"], if "flags" in m then Some(m["flags"]) else None))
  }

  /** A decoded query carries the last string written under `value` and
      under `flags`. */
  lemma DecodeReadsLast(field: string, ms: Members)
    requires Decode(JObject([(field, JObject(ms))])).Ok?
    ensures var q := Decode(JObject([(field, JObject(ms))])).value;
      Get(ms, "value") == Some(JString(q.value))
      && (q.flags.Some? <==> "flags" in Keys(ms))
      && (q.flags.Some? ==> Get(ms, "flags") == Some(JString(q.flags.value)))
  {
    StringMapOfGet(ms);
    var m := StringMapOf(ms).value;
    if "flags" in Keys(ms) {
      var i :| 0 <= i < |ms| && ms[i].0 == "flags";
      assert "flags" in m;
    }
  }

  lemma RoundTrip(q: RegexpQuery)
    ensures Decode(Encode(q)) == Ok(q)
  {
    var ms := InnerMembers(q);
    assert ms[0] == ("value", JString(q.value));
    assert StringMapOf(ms).Ok?;
    StringMapOfGet(ms);
    var m := StringMapOf(ms).value;
    assert "value" in m;
    GetLast([], ms[0], "value");
    if q.flags.Some? {
      assert ms == [ms[0]] + [ms[1]];
      GetLast([ms[0]], ms[1], "value");
      GetLast([ms[0]], ms[1], "flags");
      assert "flags" in m;
    } else {
      assert "flags" !in m;
    }
  }

  /** Every entry of the inner object must be a string: a number or `null`
      under `value`, `flags` or any other key is refused. */
  lemma NonStringEntryRefused(field: string, ms: Members, i: nat)
    requires i < |ms| && !ms[i].1.JString?
    ensures Decode(JObject([(field, JObject(ms))])).Err?
  {
  }

  /** An inner object without `value` is refused. */
  lemma MissingValueRefused(field: string, ms: Members)
    requires "value" !in Keys(ms)
    ensures Decode(JObject([(field, JObject(ms))])).Err?
  {
    if StringMapOf(ms).Ok? {
      assert "value" !in StringMapOf(ms).value;
    }
  }

  /** An inner value that is not an object is refused. */
  lemma NonObjectInnerRefused(field: string, v: Json)
    requires !v.JObject?
    ensures Decode(JObject([(field, v)])).Err?
  {
  }

  /** Unlike a derived record, a key written twice is not an error: the
      map keeps the later value. */
  lemma DuplicateValueKeepsLast(field: string, a: string, b: string)
    ensures Decode(JObject([(field, JObject([("value", JString(a)), ("value", JString(b))]))])) == Ok(RegexpQuery(field, b, None))
  {
    var ms := [("value", JString(a)), ("value", JString(b))];
    assert ms == [ms[0]] + [ms[1]];
    GetLast([ms[0]], ms[1], "value");
    DecodeReadsLast(field, ms);
  }
}
