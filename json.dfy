/**
  JSON values (the value grammar of section 3 of RFC 8259) and the serde
  conventions elastiql's encoders and decoders are built on.

  Decoders are modelled as serde_json reads JSON text: an object is its
  members in written order, duplicate keys included, so a derived record
  refuses a duplicate known field and a map keeps the last value.  The one
  exception is an aggregation entry whose value is not a node: it is dropped
  whole, as `serde_json::from_value` drops it from an already parsed value.
  Numbers are kept as written (mantissa and decimal exponent), so the
  floats the crate only carries (`boost`, `value`, `max_score`) are never
  rounded or computed on.
*/
module JsonModel {

  datatype Option<+T> = None | Some(value: T)

  /** The errors a decoder reports.  Which one is reported when several
      apply is not modelled: the properties speak of success or failure. */
  datatype DecodeError =
    | MissingField(field: string)
    | DuplicateField(field: string)
    | InvalidType(expected: string)
    | InvalidValue(expected: string)
    | TrailingEntries
    | UnknownVariant(tag: string)
    | NoVariantMatched

  datatype Result<+T> = Ok(value: T) | Err(error: DecodeError) {
    predicate IsFailure() {
      Err?
    }

    function PropagateFailure<U>(): Result<U>
      requires Err?
    {
      Err(error)
    }

    function Extract(): T
      requires Ok?
    {
      value
    }
  }

  /** A JSON number as written: `mantissa * 10^exponent`.  A number written
      with neither fraction nor exponent part has exponent 0. */
  datatype Number = Number(mantissa: int, exponent: int)

  /** A floating-point value the crate only carries (`f64`, `f32`). */
  type Float = Number

  const U64_LIMIT: int := 0x1_0000_0000_0000_0000
  const U16_LIMIT: int := 0x1_0000
  const I32_LIMIT: int := 0x8000_0000

  type U64 = n: int | 0 <= n < U64_LIMIT
  type U16 = n: int | 0 <= n < U16_LIMIT
  type I32 = n: int | -I32_LIMIT <= n < I32_LIMIT

  datatype Json =
    | JNull
    | JBool(b: bool)
    | JNumber(n: Number)
    | JString(s: string)
    | JArray(items: seq<Json>)
    | JObject(members: Members)

  type Members = seq<(string, Json)>

  /** The JSON form of an integer. */
  function JInt(n: int): Json {
    JNumber(Number(n, 0))
  }

  function JStrings(ss: seq<string>): (j: Json)
    ensures j.JArray? && |j.items| == |ss|
    ensures forall i :: 0 <= i < |ss| ==> j.items[i] == JString(ss[i])
  {
    JArray(seq(|ss|, i requires 0 <= i < |ss| => JString(ss[i])))
  }

  // ---------------------------------------------------------------------
  // Typed readers: what serde_json accepts for each Rust scalar type.

  function AsString(j: Json): (r: Result<string>)
    ensures r.Ok? <==> j.JString?
    ensures r.Ok? ==> j == JString(r.value)
  {
    if j.JString? then Ok(j.s) else Err(InvalidType("a string"))
  }

  function AsBool(j: Json): (r: Result<bool>)
    ensures r.Ok? <==> j.JBool?
    ensures r.Ok? ==> j == JBool(r.value)
  {
    if j.JBool? then Ok(j.b) else Err(InvalidType("a boolean"))
  }

  /** `f64`/`f32`: any number, written with or without fraction. */
  function AsFloat(j: Json): (r: Result<Float>)
    ensures r.Ok? <==> j.JNumber?
    ensures r.Ok? ==> j == JNumber(r.value)
  {
    if j.JNumber? then Ok(j.n) else Err(InvalidType("a number"))
  }

  /** An integer type of the given bounds accepts only a number written
      without fraction or exponent, and only within its range. */
  function AsInteger(j: Json, lo: int, hi: int): (r: Result<int>)
    ensures r.Ok? <==> j.JNumber? && j.n.exponent == 0 && lo <= j.n.mantissa < hi
    ensures r.Ok? ==> j == JInt(r.value) && lo <= r.value < hi
  {
    if !j.JNumber? || j.n.exponent != 0 then Err(InvalidType("an integer"))
    else if j.n.mantissa < lo || hi <= j.n.mantissa then Err(InvalidValue("an integer in range"))
    else Ok(j.n.mantissa)
  }

  function AsU64(j: Json): (r: Result<U64>)
    ensures r.Ok? <==> j.JNumber? && j.n.exponent == 0 && 0 <= j.n.mantissa < U64_LIMIT
    ensures r.Ok? ==> j == JInt(r.value)
  {
    var n :- AsInteger(j, 0, U64_LIMIT);
    Ok(n)
  }

  function AsU16(j: Json): (r: Result<U16>)
    ensures r.Ok? <==> j.JNumber? && j.n.exponent == 0 && 0 <= j.n.mantissa < U16_LIMIT
    ensures r.Ok? ==> j == JInt(r.value)
  {
    var n :- AsInteger(j, 0, U16_LIMIT);
    Ok(n)
  }

  function AsI32(j: Json): (r: Result<I32>)
    ensures r.Ok? <==> j.JNumber? && j.n.exponent == 0 && -I32_LIMIT <= j.n.mantissa < I32_LIMIT
    ensures r.Ok? ==> j == JInt(r.value)
  {
    var n :- AsInteger(j, -I32_LIMIT, I32_LIMIT);
    Ok(n)
  }

  function AsObject(j: Json): (r: Result<Members>)
    ensures r.Ok? <==> j.JObject?
    ensures r.Ok? ==> j == JObject(r.value)
  {
    if j.JObject? then Ok(j.members) else Err(InvalidType("a map"))
  }

  /** An externally tagged enum as serde_json reads it: a bare string names
      a variant and carries no content (read as `null`), and an object with
      exactly one member names the variant by its key and carries its value
      as the content. */
  function VariantTag(j: Json): Result<(string, Json)> {
    if j.JString? then Ok((j.s, JNull))
    else if j.JObject? && |j.members| == 1 then Ok(j.members[0])
    else Err(InvalidType("a string or a map with a single key"))
  }

  /** A unit variant takes no content. */
  function UnitContent<T>(content: Json, v: T): Result<T> {
    if content == JNull then Ok(v) else Err(InvalidType("a unit variant"))
  }

  /** The two forms serde_json reads the unit variant `name` from. */
  function UnitForms(name: string): seq<Json> {
    [JString(name), JObject([(name, JNull)])]
  }

  /** A unit variant is named exactly by its two forms. */
  lemma UnitTag(j: Json, name: string)
    ensures (VariantTag(j).Ok? && VariantTag(j).value.0 == name &&
             UnitContent(VariantTag(j).value.1, 0).Ok?) <==> j in UnitForms(name)
  {
    if j.JObject? && |j.members| == 1 && j.members[0] == (name, JNull) {
      assert j.members == [(name, JNull)];
    }
  }

  predicate AllStrings(items: seq<Json>) {
    forall i :: 0 <= i < |items| ==> items[i].JString?
  }

  /** `Vec<String>`: an array whose every element is a string. */
  function AsStrings(j: Json): (r: Result<seq<string>>)
    ensures r.Ok? <==> j.JArray? && AllStrings(j.items)
    ensures r.Ok? ==> j == JStrings(r.value)
  {
    if j.JArray? && AllStrings(j.items) then
      Ok(seq(|j.items|, i requires 0 <= i < |j.items| => j.items[i].s))
    else Err(InvalidType("a sequence of strings"))
  }

  lemma StringsRoundTrip(ss: seq<string>)
    ensures AsStrings(JStrings(ss)) == Ok(ss)
  {
    var j := JStrings(ss);
    assert AllStrings(j.items);
    assert AsStrings(j).value == ss;
  }

  // ---------------------------------------------------------------------
  // Object members.

  function Keys(ms: Members): (ks: seq<string>)
    ensures |ks| == |ms|
    ensures forall i :: 0 <= i < |ms| ==> ks[i] == ms[i].0
  {
    seq(|ms|, i requires 0 <= i < |ms| => ms[i].0)
  }

  predicate DistinctKeys(ms: Members) {
    forall i, j :: 0 <= i < j < |ms| ==> ms[i].0 != ms[j].0
  }

  /** The values written under key `k`, in written order. */
  function ValuesAt(ms: Members, k: string): (vs: seq<Json>)
    ensures |vs| <= |ms|
    ensures |vs| == 0 <==> k !in Keys(ms)
  {
    if ms == [] then []
    else (if ms[0].0 == k then [ms[0].1] else []) + ValuesAt(ms[1..], k)
  }

  lemma {:induction false} ValuesAtAppend(a: Members, b: Members, k: string)
    ensures ValuesAt(a + b, k) == ValuesAt(a, k) + ValuesAt(b, k)
    decreases |a|
  {
    if a == [] {
      assert a + b == b;
    } else {
      var e, rest := a[0], a[1..];
      var head := if e.0 == k then [e.1] else [];
      calc {
        ValuesAt(a + b, k);
        { assert a + b == [e] + (rest + b); ValuesAtCons(e, rest + b, k); }
        head + ValuesAt(rest + b, k);
        { ValuesAtAppend(rest, b, k); }
        head + (ValuesAt(rest, k) + ValuesAt(b, k));
        { ConcatAssoc(head, ValuesAt(rest, k), ValuesAt(b, k)); }
        (head + ValuesAt(rest, k)) + ValuesAt(b, k);
        { assert a == [e] + rest; ValuesAtCons(e, rest, k); }
        ValuesAt(a, k) + ValuesAt(b, k);
      }
    }
  }

  lemma ConcatAssoc<T>(x: seq<T>, y: seq<T>, z: seq<T>)
    ensures x + (y + z) == (x + y) + z
  {
  }

  lemma ValuesAtCons(e: (string, Json), ms: Members, k: string)
    ensures ValuesAt([e] + ms, k) == (if e.0 == k then [e.1] else []) + ValuesAt(ms, k)
  {
    assert ([e] + ms)[1..] == ms;
  }

  /** In a three-entry record with distinct keys each key holds its own
      value. */
  lemma ValuesAtThree(a: (string, Json), b: (string, Json), c: (string, Json))
    requires a.0 != b.0 && a.0 != c.0 && b.0 != c.0
    ensures ValuesAt([a, b, c], a.0) == [a.1]
    ensures ValuesAt([a, b, c], b.0) == [b.1]
    ensures ValuesAt([a, b, c], c.0) == [c.1]
  {
    assert [a, b, c] == [a] + ([b] + [c]);
    ValuesAtCons(a, [b] + [c], a.0);
    ValuesAtCons(a, [b] + [c], b.0);
    ValuesAtCons(a, [b] + [c], c.0);
    ValuesAtCons(b, [c], a.0);
    ValuesAtCons(b, [c], b.0);
    ValuesAtCons(b, [c], c.0);
  }

  /** In a four-entry record with distinct keys each key holds its own
      value. */
  lemma ValuesAtFour(a: (string, Json), b: (string, Json), c: (string, Json), d: (string, Json))
    requires a.0 != b.0 && a.0 != c.0 && a.0 != d.0 && b.0 != c.0 && b.0 != d.0 && c.0 != d.0
    ensures ValuesAt([a, b, c, d], a.0) == [a.1]
    ensures ValuesAt([a, b, c, d], b.0) == [b.1]
    ensures ValuesAt([a, b, c, d], c.0) == [c.1]
    ensures ValuesAt([a, b, c, d], d.0) == [d.1]
  {
    var rest := [b, c, d];
    assert [a, b, c, d] == [a] + rest;
    assert ValuesAt(rest, a.0) == [] by {
      assert a.0 !in Keys(rest);
    }
    ValuesAtCons(a, rest, a.0);
    ValuesAtThree(b, c, d);
    ValuesAtCons(a, rest, b.0);
    ValuesAtCons(a, rest, c.0);
    ValuesAtCons(a, rest, d.0);
  }

  /** An entry written under another key leaves the values of `k` alone:
      a decoder that looks keys up ignores entries it does not know. */
  lemma ValuesAtOther(ms: Members, e: (string, Json), k: string)
    requires e.0 != k
    ensures ValuesAt(ms + [e], k) == ValuesAt(ms, k)
  {
    ValuesAtAppend(ms, [e], k);
  }

  /** With distinct keys, a present key is written exactly once. */
  lemma {:induction false} ValuesAtDistinct(ms: Members, i: nat)
    requires DistinctKeys(ms) && i < |ms|
    ensures ValuesAt(ms, ms[i].0) == [ms[i].1]
    decreases |ms|
  {
    if i == 0 {
      assert ms[0].0 !in Keys(ms[1..]) by {
        forall j | 0 <= j < |ms[1..]| ensures ms[1..][j].0 != ms[0].0 {
          assert ms[1..][j] == ms[j + 1];
        }
      }
    } else {
      assert ms[1..][i - 1] == ms[i];
      ValuesAtDistinct(ms[1..], i - 1);
    }
  }

  /** `Map::get`: the value of key `k`; when a key is written twice the map
      holds the later value. */
  function Get(ms: Members, k: string): (r: Option<Json>)
    ensures r.None? <==> k !in Keys(ms)
    ensures r.Some? ==> r.value == ValuesAt(ms, k)[|ValuesAt(ms, k)| - 1]
  {
    var vs := ValuesAt(ms, k);
    if |vs| == 0 then None else Some(vs[|vs| - 1])
  }

  // ---------------------------------------------------------------------
  // Encoding a record: each field is written under its key when present.

  type Slot = (string, Option<Json>)

  /** The members an encoder writes for a list of named optional slots:
      `None` slots are skipped (`skip_serializing_if`). */
  function Emit(slots: seq<Slot>): (ms: Members)
    ensures |ms| <= |slots|
  {
    if slots == [] then [] else Member(slots[0]) + Emit(slots[1..])
  }

  /** The member one slot contributes: none when the slot is `None`. */
  function Member(s: Slot): Members {
    if s.1.Some? then [(s.0, s.1.value)] else []
  }

  lemma EmitCons(s: Slot, rest: seq<Slot>)
    ensures Emit([s] + rest) == Member(s) + Emit(rest)
  {
    assert ([s] + rest)[1..] == rest;
  }

  lemma EmitPair(a: Slot, b: Slot)
    ensures Emit([a, b]) == Member(a) + Member(b)
  {
    assert [a, b][1..] == [b];
    assert [b][1..] == [];
  }

  /** Encoding two runs of slots writes the first run, then the second. */
  lemma {:induction false} EmitAppend(a: seq<Slot>, b: seq<Slot>)
    ensures Emit(a + b) == Emit(a) + Emit(b)
    decreases |a|
  {
    if a != [] {
      assert (a + b)[1..] == a[1..] + b;
      EmitAppend(a[1..], b);
    } else {
      assert a + b == b;
    }
  }

  /** Slots that are all empty write nothing. */
  lemma {:induction false} EmitNone(slots: seq<Slot>)
    requires forall i :: 0 <= i < |slots| ==> slots[i].1.None?
    ensures Emit(slots) == []
    decreases |slots|
  {
    if slots != [] {
      EmitNone(slots[1..]);
    }
  }

  lemma EmitTriple(a: Slot, b: Slot, c: Slot)
    ensures Emit([a, b, c]) == Member(a) + Member(b) + Member(c)
  {
    assert [a, b, c][1..] == [b, c];
    EmitPair(b, c);
  }

  predicate DistinctSlots(slots: seq<Slot>) {
    forall i, j :: 0 <= i < j < |slots| ==> slots[i].0 != slots[j].0
  }

  function SlotValues(o: Option<Json>): seq<Json> {
    if o.Some? then [o.value] else []
  }

  /** Decoding a slot back out of an encoded record finds what was put in. */
  lemma {:induction false} EmitLookup(slots: seq<Slot>, i: nat)
    requires DistinctSlots(slots) && i < |slots|
    ensures ValuesAt(Emit(slots), slots[i].0) == SlotValues(slots[i].1)
    decreases |slots|
  {
    ValuesAtAppend(Member(slots[0]), Emit(slots[1..]), slots[i].0);
    if i == 0 {
      EmitAbsent(slots[1..], slots[0].0);
    } else {
      assert slots[1..][i - 1] == slots[i];
      EmitLookup(slots[1..], i - 1);
    }
  }

  /** A key no slot carries is absent from the encoding. */
  lemma {:induction false} EmitAbsent(slots: seq<Slot>, k: string)
    requires forall i :: 0 <= i < |slots| ==> slots[i].0 != k
    ensures ValuesAt(Emit(slots), k) == []
    decreases |slots|
  {
    if slots != [] {
      ValuesAtAppend(Member(slots[0]), Emit(slots[1..]), k);
      EmitAbsent(slots[1..], k);
    }
  }

  /** The keys of a record's slots, in order. */
  function SlotKeys(slots: seq<Slot>): (ks: seq<string>)
    ensures |ks| == |slots| && forall i :: 0 <= i < |slots| ==> ks[i] == slots[i].0
  {
    seq(|slots|, i requires 0 <= i < |slots| => slots[i].0)
  }

  /** A key outside the slots' keys is absent from the encoding. */
  lemma EmitMissing(slots: seq<Slot>, k: string)
    requires k !in SlotKeys(slots)
    ensures ValuesAt(Emit(slots), k) == []
  {
    EmitAbsent(slots, k);
  }

  /** A record written as three runs of slots: a key found in one run only
      is read from that run. */
  lemma InRun1(a: seq<Slot>, b: seq<Slot>, c: seq<Slot>, k: string)
    requires k !in SlotKeys(b) && k !in SlotKeys(c)
    ensures ValuesAt(Emit(a) + Emit(b) + Emit(c), k) == ValuesAt(Emit(a), k)
  {
    ValuesAtAppend(Emit(a), Emit(b), k);
    ValuesAtAppend(Emit(a) + Emit(b), Emit(c), k);
    EmitMissing(b, k);
    EmitMissing(c, k);
  }

  lemma InRun2(a: seq<Slot>, b: seq<Slot>, c: seq<Slot>, k: string)
    requires k !in SlotKeys(a) && k !in SlotKeys(c)
    ensures ValuesAt(Emit(a) + Emit(b) + Emit(c), k) == ValuesAt(Emit(b), k)
  {
    ValuesAtAppend(Emit(a), Emit(b), k);
    ValuesAtAppend(Emit(a) + Emit(b), Emit(c), k);
    EmitMissing(a, k);
    EmitMissing(c, k);
  }

  lemma InRun3(a: seq<Slot>, b: seq<Slot>, c: seq<Slot>, k: string)
    requires k !in SlotKeys(a) && k !in SlotKeys(b)
    ensures ValuesAt(Emit(a) + Emit(b) + Emit(c), k) == ValuesAt(Emit(c), k)
  {
    ValuesAtAppend(Emit(a), Emit(b), k);
    ValuesAtAppend(Emit(a) + Emit(b), Emit(c), k);
    EmitMissing(a, k);
    EmitMissing(b, k);
  }

  lemma {:induction false} EmitKeys(slots: seq<Slot>, k: string)
    ensures k in Keys(Emit(slots)) <==> exists i :: 0 <= i < |slots| && slots[i].0 == k && slots[i].1.Some?
    decreases |slots|
  {
    if slots != [] {
      ValuesAtAppend(Member(slots[0]), Emit(slots[1..]), k);
      EmitKeys(slots[1..], k);
      if exists i :: 0 <= i < |slots[1..]| && slots[1..][i].0 == k && slots[1..][i].1.Some? {
        var i :| 0 <= i < |slots[1..]| && slots[1..][i].0 == k && slots[1..][i].1.Some?;
        assert slots[i + 1] == slots[1..][i];
      }
      if exists i :: 0 <= i < |slots| && slots[i].0 == k && slots[i].1.Some? {
        var i :| 0 <= i < |slots| && slots[i].0 == k && slots[i].1.Some?;
        if i > 0 {
          assert slots[1..][i - 1] == slots[i];
        }
      }
    }
  }

  // ---------------------------------------------------------------------
  // Decoding a derived record (`#[derive(Deserialize)]`) from either of the
  // forms serde accepts for a struct.

  /** A field of a derived record: its wire name, and whether it has a
      serde default (so that a short array may leave it out). */
  type FieldSpec = (string, bool)

  /** The members a derived record is read from.  An object gives its own
      members.  An array gives its elements in field order: it may not be
      longer than the field list, and every field it leaves out must have a
      default. */
  function Record(j: Json, fields: seq<FieldSpec>): (r: Result<Members>)
    ensures j.JObject? ==> r == Ok(j.members)
    ensures r.Ok? ==> j.JObject? || j.JArray?
    ensures j.JArray? ==> (r.Ok? <==> |j.items| <= |fields| && forall i :: |j.items| <= i < |fields| ==> fields[i].1)
  {
    match j
    case JObject(ms) => Ok(ms)
    case JArray(items) =>
      if |items| > |fields| then Err(TrailingEntries)
      else if exists i :: |items| <= i < |fields| && !fields[i].1 then Err(InvalidValue("a longer array"))
      else Ok(Positional(items, fields))
    case _ => Err(InvalidType("a struct"))
  }

  /** The array elements paired with the names of the fields they fill. */
  function Positional(items: seq<Json>, fields: seq<FieldSpec>): (ms: Members)
    requires |items| <= |fields|
    ensures |ms| == |items|
    ensures forall i :: 0 <= i < |items| ==> ms[i] == (fields[i].0, items[i])
  {
    seq(|items|, i requires 0 <= i < |items| => (fields[i].0, items[i]))
  }

  // ---------------------------------------------------------------------
  // Decoding a derived record (`#[derive(Deserialize)]`): unknown keys are
  // ignored and a known key written twice is an error.

  /** A field with neither `Option` type nor `#[serde(default)]`. */
  function Required<T>(ms: Members, k: string, read: Json -> Result<T>): (r: Result<T>)
    ensures r.Ok? ==> |ValuesAt(ms, k)| == 1 && read(ValuesAt(ms, k)[0]) == r
    ensures |ValuesAt(ms, k)| == 0 ==> r == Err(MissingField(k))
  {
    var vs := ValuesAt(ms, k);
    if |vs| == 0 then Err(MissingField(k))
    else if |vs| > 1 then Err(DuplicateField(k))
    else read(vs[0])
  }

  /** An `Option<T>` field: absent or `null` gives `None`. */
  function Optional<T>(ms: Members, k: string, read: Json -> Result<T>): (r: Result<Option<T>>)
    ensures |ValuesAt(ms, k)| == 0 ==> r == Ok(None)
  {
    var vs := ValuesAt(ms, k);
    if |vs| == 0 then Ok(None)
    else if |vs| > 1 then Err(DuplicateField(k))
    else if vs[0] == JNull then Ok(None)
    else var v :- read(vs[0]); Ok(Some(v))
  }

  /** A field is read from the values written under its key and nothing
      else. */
  lemma OptionalSameValues<T>(a: Members, b: Members, k: string, read: Json -> Result<T>)
    requires ValuesAt(a, k) == ValuesAt(b, k)
    ensures Optional(a, k, read) == Optional(b, k, read)
  {
  }

  /** A `#[serde(default)]` field of non-`Option` type: absent gives the
      default; `null` is read like any other value. */
  function Defaulted<T>(ms: Members, k: string, read: Json -> Result<T>, default: T): (r: Result<T>)
    ensures |ValuesAt(ms, k)| == 0 ==> r == Ok(default)
  {
    var vs := ValuesAt(ms, k);
    if |vs| == 0 then Ok(default)
    else if |vs| > 1 then Err(DuplicateField(k))
    else read(vs[0])
  }

  /** The one non-`null` value written under `k`, if any: how an `Option`
      field of a recursive record type is read before its value is decoded. */
  function Present(ms: Members, k: string): (r: Result<Option<Json>>)
    ensures r == Ok(None) <==> |ValuesAt(ms, k)| == 0 || ValuesAt(ms, k) == [JNull]
    ensures r.Ok? && r.value.Some? ==> ValuesAt(ms, k) == [r.value.value] && r.value.value != JNull
  {
    var vs := ValuesAt(ms, k);
    if |vs| == 0 then Ok(None)
    else if |vs| > 1 then Err(DuplicateField(k))
    else if vs[0] == JNull then Ok(None)
    else Ok(Some(vs[0]))
  }

  /** `v` is one of the values directly inside `j`. */
  predicate Inside(v: Json, j: Json) {
    (j.JObject? && exists i :: 0 <= i < |j.members| && j.members[i].1 == v)
    || (j.JArray? && exists i :: 0 <= i < |j.items| && j.items[i] == v)
  }

  lemma {:induction false} ValuesAtInside(ms: Members, k: string, n: nat)
    requires n < |ValuesAt(ms, k)|
    ensures exists i :: 0 <= i < |ms| && ms[i].1 == ValuesAt(ms, k)[n]
    decreases |ms|
  {
    var head: seq<Json> := if ms[0].0 == k then [ms[0].1] else [];
    assert ValuesAt(ms, k) == head + ValuesAt(ms[1..], k);
    if n >= |head| {
      ValuesAtInside(ms[1..], k, n - |head|);
      var i :| 0 <= i < |ms[1..]| && ms[1..][i].1 == ValuesAt(ms[1..], k)[n - |head|];
      assert ms[i + 1] == ms[1..][i];
    }
  }

  /** A value read from a record's key lies directly inside the record. */
  lemma RecordInside(j: Json, fields: seq<FieldSpec>, k: string, n: nat)
    requires Record(j, fields).Ok? && n < |ValuesAt(Record(j, fields).value, k)|
    ensures Inside(ValuesAt(Record(j, fields).value, k)[n], j)
  {
    var ms := Record(j, fields).value;
    ValuesAtInside(ms, k, n);
    var i :| 0 <= i < |ms| && ms[i].1 == ValuesAt(ms, k)[n];
    if j.JArray? {
      assert ms[i].1 == j.items[i];
    }
  }

  function OptJson<T>(o: Option<T>, f: T -> Json): Option<Json> {
    if o.Some? then Some(f(o.value)) else None
  }

  // Reading back what an encoder wrote: a field written once (or, for an
  // option, written exactly when set, never as `null`) is read back by a
  // reader that inverts the writer.

  lemma RequiredReadBack<T>(ms: Members, k: string, x: T, write: T -> Json, read: Json -> Result<T>)
    requires ValuesAt(ms, k) == [write(x)] && read(write(x)) == Ok(x)
    ensures Required(ms, k, read) == Ok(x)
  {
  }

  lemma OptionalReadBack<T>(ms: Members, k: string, o: Option<T>, write: T -> Json, read: Json -> Result<T>)
    requires ValuesAt(ms, k) == SlotValues(OptJson(o, write))
    requires o.Some? ==> write(o.value) != JNull && read(write(o.value)) == Ok(o.value)
    ensures Optional(ms, k, read) == Ok(o)
  {
  }

  lemma DefaultedReadBack<T>(ms: Members, k: string, x: T, default: T, write: T -> Json, read: Json -> Result<T>)
    requires ValuesAt(ms, k) == [write(x)] && read(write(x)) == Ok(x)
    ensures Defaulted(ms, k, read, default) == Ok(x)
  {
  }

  function JStr(s: string): Json {
    JString(s)
  }

  /** What an optional string field writes: nothing, or the string. */
  function StrValues(o: Option<string>): seq<Json> {
    if o.Some? then [JString(o.value)] else []
  }

  function JFloat(x: Float): Json {
    JNumber(x)
  }

  // ---------------------------------------------------------------------
  // Hand-written `visit_map` visitors that read one entry.

  /** The one entry a single-entry visitor reads.  serde_json rejects an
      object with entries left over once the visitor returns, and an empty
      object leaves the visitor without its field. */
  function OneEntry(j: Json, field: string): (r: Result<(string, Json)>)
    ensures r.Ok? <==> j.JObject? && |j.members| == 1
    ensures r.Ok? ==> r.value == j.members[0]
    ensures j == JObject([]) ==> r == Err(MissingField(field))
  {
    match j
    case JObject(ms) =>
      if |ms| == 0 then Err(MissingField(field))
      else if |ms| > 1 then Err(TrailingEntries)
      else Ok(ms[0])
    case _ => Err(InvalidType("a map"))
  }

  // ---------------------------------------------------------------------
  // `HashMap<String, String>`: every value must be a string; a key written
  // twice keeps its last value.

  function AsStringMap(j: Json): (r: Result<map<string, string>>)
    ensures r.Ok? <==> j.JObject? && forall i :: 0 <= i < |j.members| ==> j.members[i].1.JString?
    ensures r.Ok? ==> r.value.Keys == set i | 0 <= i < |j.members| :: j.members[i].0
  {
    if j.JObject? then StringMapOf(j.members) else Err(InvalidType("a map"))
  }

  function {:induction false} StringMapOf(ms: Members): (r: Result<map<string, string>>)
    ensures r.Ok? <==> forall i :: 0 <= i < |ms| ==> ms[i].1.JString?
    ensures r.Ok? ==> r.value.Keys == set i | 0 <= i < |ms| :: ms[i].0
    decreases |ms|
  {
    if ms == [] then Ok(map[])
    else
      var init := ms[..|ms| - 1];
      var rest := StringMapOf(init);
      var (k, v) := ms[|ms| - 1];
      if rest.Err? then rest
      else if !v.JString? then Err(InvalidType("a string"))
      else
        assert forall i :: 0 <= i < |init| ==> init[i] == ms[i];
        assert (set i | 0 <= i < |ms| :: ms[i].0) == (set i | 0 <= i < |init| :: init[i].0) + {k};
        Ok(rest.value[k := v.s])
  }

  lemma GetLast(init: Members, e: (string, Json), k: string)
    ensures Get(init + [e], k) == if e.0 == k then Some(e.1) else Get(init, k)
  {
    ValuesAtAppend(init, [e], k);
  }

  /** Each key of the map holds the string written last under that key. */
  lemma {:induction false} StringMapOfGet(ms: Members)
    requires StringMapOf(ms).Ok?
    ensures forall k :: k in StringMapOf(ms).value ==> Get(ms, k) == Some(JString(StringMapOf(ms).value[k]))
    decreases |ms|
  {
    if ms != [] {
      var init := ms[..|ms| - 1];
      var e := ms[|ms| - 1];
      assert ms == init + [e];
      StringMapOfGet(init);
      forall k | k in StringMapOf(ms).value
        ensures Get(ms, k) == Some(JString(StringMapOf(ms).value[k]))
      {
        GetLast(init, e, k);
      }
    }
  }

  /** The map read from a one-key-per-value object of strings. */
  function StringObject(m: seq<(string, string)>): Json {
    JObject(seq(|m|, i requires 0 <= i < |m| => (m[i].0, JString(m[i].1))))
  }

  /** A suffix of a sequence is its first element followed by the rest. */
  lemma SuffixCons<T>(s: seq<T>, n: nat)
    requires n < |s|
    ensures s[n..] == [s[n]] + s[n + 1..]
  {
  }
}
