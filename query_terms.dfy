/**
  The terms query (`src/search/query/terms.rs`): documents holding one or
  more of several exact terms in a field.  On the wire the field name is a
  key of the object, beside an optional `boost`:
  `{field: [v…], "boost"?: b}`.
*/
module QueryTerms {
  import opened JsonModel

  datatype TermsQuery = TermsQuery(field: string, values: seq<string>, boost: Option<Float>)

  /** `TermsQuery::new`: the values in the order given, no boost. */
  function New(field: string, values: seq<string>): (t: TermsQuery)
    ensures t.field == field && t.values == values && t.boost.None?
  {
    TermsQuery(field, values, None)
  }

  function BoostMembers(boost: Option<Float>): Members {
    if boost.Some? then [("boost", JNumber(boost.value))] else []
  }

  function Encode(t: TermsQuery): (j: Json)
    ensures j.JObject? && |j.members| >= 1 && j.members[0] == (t.field, JStrings(t.values))
  {
    JObject([(t.field, JStrings(t.values))] + BoostMembers(t.boost))
  }

  /** The entries whose key is not `boost`, in written order. */
  function Others(ms: Members): (os: Members)
    ensures |os| <= |ms|
  {
    if ms == [] then []
    else (if ms[0].0 != "boost" then [ms[0]] else []) + Others(ms[1..])
  }

  lemma {:induction false} OthersAppend(a: Members, b: Members)
    ensures Others(a + b) == Others(a) + Others(b)
    decreases |a|
  {
    if a == [] {
      assert a + b == b;
    } else {
      assert (a + b)[1..] == a[1..] + b;
      OthersAppend(a[1..], b);
    }
  }

  /** What the visitor decodes, stated over the whole object: at most one
      `boost`, which must be a number, and exactly one other key, whose
      value must be an array of strings. */
  function Decode(j: Json): (r: Result<TermsQuery>)
    ensures r.Ok? ==> j.JObject? && Others(j.members) == [(r.value.field, JStrings(r.value.values))]
    ensures r.Ok? ==> ValuesAt(j.members, "boost") == BoostValues(r.value.boost)
  {
    var ms :- AsObject(j);
    var boosts := ValuesAt(ms, "boost");
    var others := Others(ms);
    if |boosts| > 1 then Err(DuplicateField("boost"))
    else if |others| > 1 then Err(DuplicateField("field"))
    else if |others| == 0 then Err(MissingField("field"))
    else
      var boost :- ReadBoost(boosts);
      var values :- AsStrings(others[0].1);
      Ok(TermsQuery(others[0].0, values, boost))
  }

  function BoostValues(boost: Option<Float>): seq<Json> {
    if boost.Some? then [JNumber(boost.value)] else []
  }

  function ReadBoost(boosts: seq<Json>): (r: Result<Option<Float>>)
    requires |boosts| <= 1
    ensures r.Ok? ==> boosts == BoostValues(r.value)
  {
    if boosts == [] then Ok(None)
    else var b :- AsFloat(boosts[0]); Ok(Some(b))
  }

  /** What the visitor holds after reading the prefix `p`: the boost read
      so far, and the field with its values once a non-`boost` key was
      read. */
  predicate Seen(p: Members, field: Option<string>, values: seq<string>, boost: Option<Float>) {
    ValuesAt(p, "boost") == BoostValues(boost)
    && Others(p) == (if field.Some? then [(field.value, JStrings(values))] else [])
  }

  /** `TermsQueryVisitor::visit_map`: one pass over the keys, returning at
      the first error. */
  method Read(j: Json) returns (r: Result<TermsQuery>)
    ensures r.Ok? <==> Decode(j).Ok?
    ensures r.Ok? ==> r == Decode(j)
  {
    if !j.JObject? {
      return Err(InvalidType("a map"));
    }
    var ms := j.members;
    var field: Option<string> := None;
    var values: seq<string> := [];
    var boost: Option<Float> := None;
    var i := 0;
    while i < |ms|
      invariant 0 <= i <= |ms|
      invariant Seen(ms[..i], field, values, boost)
    {
      var err;
      err, field, values, boost := ReadEntry(ms, i, field, values, boost);
      if err.Some? {
        return Err(err.value);
      }
      i := i + 1;
    }
    assert ms[..i] == ms;
    if field.None? {
      return Err(MissingField("field"));
    }
    r := Ok(TermsQuery(field.value, values, boost));
    StringsRoundTrip(values);
  }

  /** One iteration of the visitor's loop: the entry at `i`. */
  method ReadEntry(ms: Members, i: nat, field: Option<string>, values: seq<string>, boost: Option<Float>)
    returns (err: Option<DecodeError>, field': Option<string>, values': seq<string>, boost': Option<Float>)
    requires i < |ms| && Seen(ms[..i], field, values, boost)
    ensures err.None? ==> Seen(ms[..i + 1], field', values', boost')
    ensures err.Some? ==> Decode(JObject(ms)).Err?
  {
    field', values', boost' := field, values, boost;
    err := None;
    var (key, value) := ms[i];
    assert ms[..i + 1] == ms[..i] + [ms[i]];
    ValuesAtAppend(ms[..i], [ms[i]], "boost");
    OthersAppend(ms[..i], [ms[i]]);
    if key == "boost" {
      if boost.Some? {
        PrefixRefused(ms, i + 1);
        return Some(DuplicateField("boost")), field', values', boost';
      }
      var b := AsFloat(value);
      if b.Err? {
        PrefixRefused(ms, i + 1);
        return Some(b.error), field', values', boost';
      }
      boost' := Some(b.value);
    } else {
      if field.Some? {
        PrefixRefused(ms, i + 1);
        return Some(DuplicateField("field")), field', values', boost';
      }
      var vs := AsStrings(value);
      if vs.Err? {
        PrefixRefused(ms, i + 1);
        return Some(vs.error), field', values', boost';
      }
      field' := Some(key);
      values' := vs.value;
    }
  }

  /** A prefix the visitor cannot get past: two `boost` keys, a `boost`
      that is not a number, two other keys, or another key whose value is
      not an array of strings. */
  predicate Refused(p: Members) {
    |ValuesAt(p, "boost")| > 1
    || (|ValuesAt(p, "boost")| == 1 && !ValuesAt(p, "boost")[0].JNumber?)
    || |Others(p)| > 1
    || (|Others(p)| == 1 && AsStrings(Others(p)[0].1).Err?)
  }

  /** Once a prefix of the object is refused, the whole object is. */
  lemma PrefixRefused(ms: Members, n: nat)
    requires n <= |ms| && Refused(ms[..n])
    ensures Decode(JObject(ms)).Err?
  {
    assert ms == ms[..n] + ms[n..];
    ValuesAtAppend(ms[..n], ms[n..], "boost");
    OthersAppend(ms[..n], ms[n..]);
  }

  /** The order of the keys does not matter. */
  lemma KeyOrderIrrelevant(a: Members, b: Members)
    ensures Decode(JObject(a + b)) == Decode(JObject(b + a))
  {
    ValuesAtAppend(a, b, "boost");
    ValuesAtAppend(b, a, "boost");
    OthersAppend(a, b);
    OthersAppend(b, a);
    if |ValuesAt(a, "boost")| + |ValuesAt(b, "boost")| <= 1 {
      Swap(ValuesAt(a, "boost"), ValuesAt(b, "boost"));
    }
    if |Others(a)| + |Others(b)| <= 1 {
      Swap(Others(a), Others(b));
    }
  }

  lemma Swap<T>(x: seq<T>, y: seq<T>)
    requires |x| + |y| <= 1
    ensures x + y == y + x
  {
    if x == [] {
      assert x + y == y == y + x;
    } else {
      assert y == [];
      assert x + y == x == y + x;
    }
  }

  /** A query whose field is not `boost` is decoded back. */
  lemma RoundTrip(t: TermsQuery)
    requires t.field != "boost"
    ensures Decode(Encode(t)) == Ok(t)
  {
    var head := [(t.field, JStrings(t.values))];
    var ms := head + BoostMembers(t.boost);
    ValuesAtAppend(head, BoostMembers(t.boost), "boost");
    OthersAppend(head, BoostMembers(t.boost));
    StringsRoundTrip(t.values);
    if t.boost.Some? {
      assert ValuesAt(BoostMembers(t.boost), "boost") == [JNumber(t.boost.value)];
    }
  }

  /** A field named `boost` is read back as the boost: the encoding of such
      a query does not decode. */
  lemma BoostFieldNotReadBack(values: seq<string>, boost: Option<Float>)
    ensures Decode(Encode(TermsQuery("boost", values, boost))).Err?
  {
    var head := [("boost", JStrings(values))];
    ValuesAtAppend(head, BoostMembers(boost), "boost");
    if boost.Some? {
      assert ValuesAt(BoostMembers(boost), "boost") == [JNumber(boost.value)];
    }
  }

  /** An object without a non-`boost` key lacks its field. */
  lemma NoFieldRefused(ms: Members)
    requires forall i :: 0 <= i < |ms| ==> ms[i].0 == "boost"
    ensures Decode(JObject(ms)).Err?
  {
    NoOthers(ms);
  }

  lemma {:induction false} NoOthers(ms: Members)
    requires forall i :: 0 <= i < |ms| ==> ms[i].0 == "boost"
    ensures Others(ms) == []
    decreases |ms|
  {
    if ms != [] {
      NoOthers(ms[1..]);
    }
  }

  /** The values must be an array of strings: an object, `null`, a number
      or an array holding a non-string is refused. */
  lemma ValuesMustBeStrings(field: string, v: Json)
    requires field != "boost"
    requires !(v.JArray? && AllStrings(v.items))
    ensures Decode(JObject([(field, v)])).Err?
  {
    var ms := [(field, v)];
    assert Others(ms) == [(field, v)];
  }

  lemma TableCases()
    ensures Encode(New("userProfile", ["Kimchy", "elasticsearch"])) == JObject([("userProfile", JArray([JString("Kimchy"), JString("elasticsearch")]))])
    ensures Encode(TermsQuery("user", ["Kimchy", "elasticsearch"], Some(Number(11, -1)))) == JObject([("user", JArray([JString("Kimchy"), JString("elasticsearch")])), ("boost", JNumber(Number(11, -1)))])
  {
    assert JStrings(["Kimchy", "elasticsearch"]) == JArray([JString("Kimchy"), JString("elasticsearch")]);
  }
}
