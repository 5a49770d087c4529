/**
  The filter records sent to and read from Elasticsearch
  (`src/search/filter/mod.rs`, `src/search/filter/types/nested.rs`).  A
  `Filter` is a record of ten optional slots, a `BooleanFilter` has four
  clause lists, a `CompoundFilter` holds an optional boolean filter, and a
  `NestedFilter` runs a compound filter on nested objects.

  The term, terms, range, regexp, simple-query-string and query-string
  filter kinds are declared in files that are not part of this model; they
  are carried as JSON payloads.
*/
module FilterDsl {
  import opened JsonModel
  import opened SlotLayout
  import FilterExists
  import FilterMatch
  // ---------------------------------------------------------------------
  // The records on the wire.

  datatype Filter = Filter(
    exists_: Option<FilterExists.ExistsFilter>,
    term: Option<Json>,
    terms: Option<Json>,
    range: Option<Json>,
    regexp: Option<Json>,
    match_: Option<FilterMatch.MatchFilter>,
    simpleQueryString: Option<Json>,
    queryString: Option<Json>,
    nested: Option<NestedFilter>,
    boolean: Option<BooleanFilter>)

  datatype BooleanFilter = BooleanFilter(
    must: seq<Filter>,
    filter: seq<Filter>,
    should: seq<Filter>,
    mustNot: seq<Filter>,
    minimumShouldMatch: Option<string>,
    boost: Option<Float>)

  datatype CompoundFilter = CompoundFilter(boolean: Option<BooleanFilter>)

  datatype NestedFilter = NestedFilter(path: string, query: CompoundFilter, ignoreUnmapped: bool)

  // ---------------------------------------------------------------------
  // Building and inspecting wire records.

  const NoFilter: Filter := Filter(None, None, None, None, None, None, None, None, None, None)

  const EmptyBoolean: BooleanFilter := BooleanFilter([], [], [], [], None, None)

  function SlotCount(f: Filter): nat {
    (if f.exists_.Some? then 1 else 0) + (if f.term.Some? then 1 else 0)
    + (if f.terms.Some? then 1 else 0) + (if f.range.Some? then 1 else 0)
    + (if f.regexp.Some? then 1 else 0) + (if f.match_.Some? then 1 else 0)
    + (if f.simpleQueryString.Some? then 1 else 0) + (if f.queryString.Some? then 1 else 0)
    + (if f.nested.Some? then 1 else 0) + (if f.boolean.Some? then 1 else 0)
  }

  /** `From<T: Into<Filter>> for BooleanFilter`. */
  function BooleanFrom(f: Filter): (b: BooleanFilter)
    ensures b.filter == [f] && b.must == [] && b.should == [] && b.mustNot == []
    ensures b.minimumShouldMatch.None? && b.boost.None?
  {
    EmptyBoolean.(filter := [f])
  }

  /** `BooleanFilter::is_empty`. */
  predicate IsEmptyBoolean(b: BooleanFilter) {
    b.must == [] && b.filter == [] && b.should == [] && b.mustNot == []
  }

  /** `CompoundFilter::is_empty`. */
  predicate IsEmpty(c: CompoundFilter) {
    c.boolean.None? || IsEmptyBoolean(c.boolean.value)
  }

  /** The leaf kinds carried as payloads are written as they are. */
  function Payload(j: Json): Json {
    j
  }

  function AsPayload(j: Json): (r: Result<Json>)
    ensures r == Ok(j)
  {
    Ok(j)
  }

  /** No payload slot holds `null`. */
  predicate PayloadsSet(f: Filter) {
    (f.term.Some? ==> f.term.value != JNull) && (f.terms.Some? ==> f.terms.value != JNull)
    && (f.range.Some? ==> f.range.value != JNull) && (f.regexp.Some? ==> f.regexp.value != JNull)
    && (f.simpleQueryString.Some? ==> f.simpleQueryString.value != JNull)
    && (f.queryString.Some? ==> f.queryString.value != JNull)
  }

  // ---------------------------------------------------------------------
  // Encoding.  Every slot is skipped when `None` and every clause list when
  // empty; the boolean slot is written under `bool` and the match slot
  // under `match`.

  const FilterFields: seq<FieldSpec> := [
    ("exists", true), ("term", true), ("terms", true), ("range", true), ("regexp", true),
    ("match", true), ("simple_query_string", true), ("query_string", true), ("nested", true), ("bool", true)]

  const BooleanFields: seq<FieldSpec> := [
    ("must", true), ("filter", true), ("should", true), ("must_not", true),
    ("minimum_should_match", true), ("boost", true)]

  const CompoundFields: seq<FieldSpec> := [("bool", true)]

  const NestedFields: seq<FieldSpec> := [("path", false), ("query", false), ("ignore_unmapped", false)]

  /** The first four leaf slots. */
  function LeafSlotsA(q: Filter): seq<Slot> {
    [ ("exists", OptJson(q.exists_, FilterExists.Encode)),
      ("term", OptJson(q.term, Payload)),
      ("terms", OptJson(q.terms, Payload)),
      ("range", OptJson(q.range, Payload)) ]
  }

  /** The other four leaf slots. */
  function LeafSlotsB(q: Filter): seq<Slot> {
    [ ("regexp", OptJson(q.regexp, Payload)),
      ("match", OptJson(q.match_, FilterMatch.Encode)),
      ("simple_query_string", OptJson(q.simpleQueryString, Payload)),
      ("query_string", OptJson(q.queryString, Payload)) ]
  }

  /** The two recursive slots. */
  function InnerSlots(q: Filter): seq<Slot>
    decreases q, 1
  {
    [ ("nested", if q.nested.Some? then Some(EncodeNested(q.nested.value)) else None),
      ("bool", if q.boolean.Some? then Some(EncodeBoolean(q.boolean.value)) else None) ]
  }

  function FilterMembers(q: Filter): Members
    decreases q, 2
  {
    Emit(LeafSlotsA(q)) + Emit(LeafSlotsB(q)) + Emit(InnerSlots(q))
  }

  function EncodeFilter(q: Filter): (j: Json)
    decreases q, 3
  {
    JObject(FilterMembers(q))
  }

  /** One clause list, as an array of encoded queries, or nothing when
      empty. */
  function ClauseSlot(b: BooleanFilter, qs: seq<Filter>): Option<Json>
    requires qs == b.must || qs == b.filter || qs == b.should || qs == b.mustNot
    decreases b, 0
  {
    if qs == [] then None
    else Some(JArray(seq(|qs|, i requires 0 <= i < |qs| => EncodeFilter(qs[i]))))
  }

  function BooleanSlots(b: BooleanFilter): seq<Slot>
    decreases b, 1
  {
    [ ("must", ClauseSlot(b, b.must)),
      ("filter", ClauseSlot(b, b.filter)),
      ("should", ClauseSlot(b, b.should)),
      ("must_not", ClauseSlot(b, b.mustNot)),
      ("minimum_should_match", OptJson(b.minimumShouldMatch, JStr)),
      ("boost", OptJson(b.boost, JFloat)) ]
  }

  function EncodeBoolean(b: BooleanFilter): Json
    decreases b, 3
  {
    JObject(Emit(BooleanSlots(b)))
  }

  function EncodeCompound(c: CompoundFilter): Json
    decreases c, 3
  {
    JObject(if c.boolean.Some? then [("bool", EncodeBoolean(c.boolean.value))] else [])
  }

  /** The three fields are always written. */
  function EncodeNested(n: NestedFilter): Json
    decreases n, 3
  {
    JObject([("path", JString(n.path)), ("query", EncodeCompound(n.query)), ("ignore_unmapped", JBool(n.ignoreUnmapped))])
  }

  // ---------------------------------------------------------------------
  // Decoding: each record is a derived record decode.  A `Filter` is not
  // checked to have exactly one slot.

  function DecodeFilter(j: Json): Result<Filter>
    decreases j, 2, 0
  {
    var ms :- Record(j, FilterFields);
    var a :- ReadLeavesA(ms);
    var b :- ReadLeavesB(ms);
    var nested :- ReadNested(j, ms);
    var boolean :- ReadBool(j, FilterFields, ms);
    Ok(Filter(a.0, a.1, a.2, a.3, b.0, b.1, b.2, b.3, nested, boolean))
  }

  function ReadLeavesA(ms: Members)
    : Result<(Option<FilterExists.ExistsFilter>, Option<Json>, Option<Json>, Option<Json>)>
  {
    var e :- Optional(ms, "exists", FilterExists.Decode);
    var t :- Optional(ms, "term", AsPayload);
    var ts :- Optional(ms, "terms", AsPayload);
    var r :- Optional(ms, "range", AsPayload);
    Ok((e, t, ts, r))
  }

  function ReadLeavesB(ms: Members)
    : Result<(Option<Json>, Option<FilterMatch.MatchFilter>,
              Option<Json>, Option<Json>)>
  {
    var r :- Optional(ms, "regexp", AsPayload);
    var m :- Optional(ms, "match", FilterMatch.Decode);
    var s :- Optional(ms, "simple_query_string", AsPayload);
    var qs :- Optional(ms, "query_string", AsPayload);
    Ok((r, m, s, qs))
  }

  /** The `nested` slot of a query record. */
  function ReadNested(j: Json, ms: Members): Result<Option<NestedFilter>>
    requires Record(j, FilterFields) == Ok(ms)
    decreases j, 1, 0
  {
    var p :- Present(ms, "nested");
    if p.None? then Ok(None)
    else
      RecordInside(j, FilterFields, "nested", 0);
      var n :- DecodeNested(p.value);
      Ok(Some(n))
  }

  /** The `bool` slot of a query or compound query record. */
  function ReadBool(j: Json, fields: seq<FieldSpec>, ms: Members): Result<Option<BooleanFilter>>
    requires Record(j, fields) == Ok(ms)
    decreases j, 1, 0
  {
    var p :- Present(ms, "bool");
    if p.None? then Ok(None)
    else
      RecordInside(j, fields, "bool", 0);
      var b :- DecodeBoolean(p.value);
      Ok(Some(b))
  }

  function DecodeBoolean(j: Json): Result<BooleanFilter>
    decreases j, 2, 0
  {
    var ms :- Record(j, BooleanFields);
    var must :- ReadClauses(j, ms, "must");
    var filter :- ReadClauses(j, ms, "filter");
    var should :- ReadClauses(j, ms, "should");
    var mustNot :- ReadClauses(j, ms, "must_not");
    var msm :- Optional(ms, "minimum_should_match", AsString);
    var boost :- Optional(ms, "boost", AsFloat);
    Ok(BooleanFilter(must, filter, should, mustNot, msm, boost))
  }

  /** A clause list has a serde default: absent gives the empty list. */
  function ReadClauses(j: Json, ms: Members, k: string): Result<seq<Filter>>
    requires Record(j, BooleanFields) == Ok(ms)
    decreases j, 1, 0
  {
    var vs := ValuesAt(ms, k);
    if |vs| == 0 then Ok([])
    else if |vs| > 1 then Err(DuplicateField(k))
    else
      RecordInside(j, BooleanFields, k, 0);
      DecodeList(vs[0])
  }

  function DecodeList(v: Json): Result<seq<Filter>>
    decreases v, 1, 0
  {
    if v.JArray? then DecodeItems(v, 0) else Err(InvalidType("a sequence"))
  }

  /** The queries of `v.items[n..]`, stopping at the first failure. */
  function DecodeItems(v: Json, n: nat): (r: Result<seq<Filter>>)
    requires v.JArray? && n <= |v.items|
    ensures r.Ok? ==> |r.value| == |v.items| - n
    decreases v, 0, |v.items| - n
  {
    if n == |v.items| then Ok([])
    else
      var q :- DecodeFilter(v.items[n]);
      var rest :- DecodeItems(v, n + 1);
      Ok([q] + rest)
  }

  function DecodeCompound(j: Json): Result<CompoundFilter>
    decreases j, 2, 0
  {
    var ms :- Record(j, CompoundFields);
    var b :- ReadBool(j, CompoundFields, ms);
    Ok(CompoundFilter(b))
  }

  /** `ignore_unmapped` has no serde default: it is required. */
  function DecodeNested(j: Json): Result<NestedFilter>
    decreases j, 2, 0
  {
    var ms :- Record(j, NestedFields);
    var path :- Required(ms, "path", AsString);
    var query :- ReadCompound(j, ms);
    var ignoreUnmapped :- Required(ms, "ignore_unmapped", AsBool);
    Ok(NestedFilter(path, query, ignoreUnmapped))
  }

  function ReadCompound(j: Json, ms: Members): Result<CompoundFilter>
    requires Record(j, NestedFields) == Ok(ms)
    decreases j, 1, 0
  {
    var vs := ValuesAt(ms, "query");
    if |vs| == 0 then Err(MissingField("query"))
    else if |vs| > 1 then Err(DuplicateField("query"))
    else
      RecordInside(j, NestedFields, "query", 0);
      DecodeCompound(vs[0])
  }

  // ---------------------------------------------------------------------
  // Round trip.  The leaf kinds carried as payloads come back unchanged
  // unless the payload is `null`, which reads as an absent slot.

  predicate WellFormedFilter(q: Filter)
    decreases q, 1
  {
    PayloadsSet(q)
    && (q.nested.Some? ==> WellFormedCompound(q.nested.value.query))
    && (q.boolean.Some? ==> WellFormedBoolean(q.boolean.value))
  }

  predicate WellFormedBoolean(b: BooleanFilter)
    decreases b, 0
  {
    (forall i :: 0 <= i < |b.must| ==> WellFormedFilter(b.must[i]))
    && (forall i :: 0 <= i < |b.filter| ==> WellFormedFilter(b.filter[i]))
    && (forall i :: 0 <= i < |b.should| ==> WellFormedFilter(b.should[i]))
    && (forall i :: 0 <= i < |b.mustNot| ==> WellFormedFilter(b.mustNot[i]))
  }

  predicate WellFormedCompound(c: CompoundFilter)
    decreases c, 1
  {
    c.boolean.Some? ==> WellFormedBoolean(c.boolean.value)
  }

  /** Each slot of a query is found in its encoding under its own key. */
  lemma FilterKeys(q: Filter)
    ensures ValuesAt(FilterMembers(q), "exists") == SlotValues(OptJson(q.exists_, FilterExists.Encode))
    ensures ValuesAt(FilterMembers(q), "term") == SlotValues(OptJson(q.term, Payload))
    ensures ValuesAt(FilterMembers(q), "terms") == SlotValues(OptJson(q.terms, Payload))
    ensures ValuesAt(FilterMembers(q), "range") == SlotValues(OptJson(q.range, Payload))
    ensures ValuesAt(FilterMembers(q), "regexp") == SlotValues(OptJson(q.regexp, Payload))
    ensures ValuesAt(FilterMembers(q), "match") == SlotValues(OptJson(q.match_, FilterMatch.Encode))
    ensures ValuesAt(FilterMembers(q), "simple_query_string") == SlotValues(OptJson(q.simpleQueryString, Payload))
    ensures ValuesAt(FilterMembers(q), "query_string") == SlotValues(OptJson(q.queryString, Payload))
    ensures ValuesAt(FilterMembers(q), "nested") == (if q.nested.Some? then [EncodeNested(q.nested.value)] else [])
    ensures ValuesAt(FilterMembers(q), "bool") == (if q.boolean.Some? then [EncodeBoolean(q.boolean.value)] else [])
  {
    KeysA(q);
    KeysB(q);
    KeysInner(q);
  }

  lemma RunKeys(q: Filter)
    ensures SlotKeys(LeafSlotsA(q)) == LeafKeysA
    ensures SlotKeys(LeafSlotsB(q)) == LeafKeysB
    ensures SlotKeys(InnerSlots(q)) == InnerKeys
  {
  }

  lemma DistinctRuns(q: Filter)
    ensures DistinctSlots(LeafSlotsA(q)) && DistinctSlots(LeafSlotsB(q)) && DistinctSlots(InnerSlots(q))
  {
  }

  lemma LocalA(q: Filter)
    ensures ValuesAt(Emit(LeafSlotsA(q)), "exists") == SlotValues(OptJson(q.exists_, FilterExists.Encode))
    ensures ValuesAt(Emit(LeafSlotsA(q)), "term") == SlotValues(OptJson(q.term, Payload))
    ensures ValuesAt(Emit(LeafSlotsA(q)), "terms") == SlotValues(OptJson(q.terms, Payload))
    ensures ValuesAt(Emit(LeafSlotsA(q)), "range") == SlotValues(OptJson(q.range, Payload))
  {
    DistinctRuns(q);
    var s := LeafSlotsA(q);
    EmitLookup(s, 0);
    EmitLookup(s, 1);
    EmitLookup(s, 2);
    EmitLookup(s, 3);
  }

  lemma LocalB(q: Filter)
    ensures ValuesAt(Emit(LeafSlotsB(q)), "regexp") == SlotValues(OptJson(q.regexp, Payload))
    ensures ValuesAt(Emit(LeafSlotsB(q)), "match") == SlotValues(OptJson(q.match_, FilterMatch.Encode))
    ensures ValuesAt(Emit(LeafSlotsB(q)), "simple_query_string") == SlotValues(OptJson(q.simpleQueryString, Payload))
    ensures ValuesAt(Emit(LeafSlotsB(q)), "query_string") == SlotValues(OptJson(q.queryString, Payload))
  {
    DistinctRuns(q);
    var s := LeafSlotsB(q);
    EmitLookup(s, 0);
    EmitLookup(s, 1);
    EmitLookup(s, 2);
    EmitLookup(s, 3);
  }

  lemma LocalInner(q: Filter)
    ensures ValuesAt(Emit(InnerSlots(q)), "nested") == (if q.nested.Some? then [EncodeNested(q.nested.value)] else [])
    ensures ValuesAt(Emit(InnerSlots(q)), "bool") == (if q.boolean.Some? then [EncodeBoolean(q.boolean.value)] else [])
  {
    DistinctRuns(q);
    var s := InnerSlots(q);
    EmitLookup(s, 0);
    EmitLookup(s, 1);
  }

  lemma KeysA(q: Filter)
    ensures ValuesAt(FilterMembers(q), "exists") == SlotValues(OptJson(q.exists_, FilterExists.Encode))
    ensures ValuesAt(FilterMembers(q), "term") == SlotValues(OptJson(q.term, Payload))
    ensures ValuesAt(FilterMembers(q), "terms") == SlotValues(OptJson(q.terms, Payload))
    ensures ValuesAt(FilterMembers(q), "range") == SlotValues(OptJson(q.range, Payload))
  {
    RunKeys(q);
    LocalA(q);
    var a, b, c := LeafSlotsA(q), LeafSlotsB(q), InnerSlots(q);
    InLeavesA(a, b, c, "exists");
    InLeavesA(a, b, c, "term");
    InLeavesA(a, b, c, "terms");
    InLeavesA(a, b, c, "range");
  }

  lemma KeysB(q: Filter)
    ensures ValuesAt(FilterMembers(q), "regexp") == SlotValues(OptJson(q.regexp, Payload))
    ensures ValuesAt(FilterMembers(q), "match") == SlotValues(OptJson(q.match_, FilterMatch.Encode))
    ensures ValuesAt(FilterMembers(q), "simple_query_string") == SlotValues(OptJson(q.simpleQueryString, Payload))
    ensures ValuesAt(FilterMembers(q), "query_string") == SlotValues(OptJson(q.queryString, Payload))
  {
    RunKeys(q);
    LocalB(q);
    var a, b, c := LeafSlotsA(q), LeafSlotsB(q), InnerSlots(q);
    InLeavesB(a, b, c, "regexp");
    InLeavesB(a, b, c, "match");
    InLeavesB(a, b, c, "simple_query_string");
    InLeavesB(a, b, c, "query_string");
  }

  lemma KeysInner(q: Filter)
    ensures ValuesAt(FilterMembers(q), "nested") == (if q.nested.Some? then [EncodeNested(q.nested.value)] else [])
    ensures ValuesAt(FilterMembers(q), "bool") == (if q.boolean.Some? then [EncodeBoolean(q.boolean.value)] else [])
  {
    RunKeys(q);
    LocalInner(q);
    var a, b, c := LeafSlotsA(q), LeafSlotsB(q), InnerSlots(q);
    InInner(a, b, c, "nested");
    InInner(a, b, c, "bool");
  }

  lemma LeavesRoundTripA(q: Filter)
    requires PayloadsSet(q)
    ensures ReadLeavesA(FilterMembers(q)) == Ok((q.exists_, q.term, q.terms, q.range))
  {
    ExistsReadBack(q);
    TermReadBack(q);
    TermsReadBack(q);
    RangeReadBack(q);
  }

  lemma LeavesRoundTripB(q: Filter)
    requires PayloadsSet(q)
    ensures ReadLeavesB(FilterMembers(q)) == Ok((q.regexp, q.match_, q.simpleQueryString, q.queryString))
  {
    RegexpReadBack(q);
    MatchReadBack(q);
    SimpleStringReadBack(q);
    QueryStringReadBack(q);
  }

  lemma ExistsReadBack(q: Filter)
    requires PayloadsSet(q)
    ensures Optional(FilterMembers(q), "exists", FilterExists.Decode) == Ok(q.exists_)
  {
    KeysA(q);
    if q.exists_.Some? { FilterExists.RoundTrip(q.exists_.value); }
    OptionalReadBack(FilterMembers(q), "exists", q.exists_, FilterExists.Encode, FilterExists.Decode);
  }

  lemma TermReadBack(q: Filter)
    requires PayloadsSet(q)
    ensures Optional(FilterMembers(q), "term", AsPayload) == Ok(q.term)
  {
    KeysA(q);
    OptionalReadBack(FilterMembers(q), "term", q.term, Payload, AsPayload);
  }

  lemma TermsReadBack(q: Filter)
    requires PayloadsSet(q)
    ensures Optional(FilterMembers(q), "terms", AsPayload) == Ok(q.terms)
  {
    KeysA(q);
    OptionalReadBack(FilterMembers(q), "terms", q.terms, Payload, AsPayload);
  }

  lemma RangeReadBack(q: Filter)
    requires PayloadsSet(q)
    ensures Optional(FilterMembers(q), "range", AsPayload) == Ok(q.range)
  {
    KeysA(q);
    OptionalReadBack(FilterMembers(q), "range", q.range, Payload, AsPayload);
  }

  lemma RegexpReadBack(q: Filter)
    requires PayloadsSet(q)
    ensures Optional(FilterMembers(q), "regexp", AsPayload) == Ok(q.regexp)
  {
    KeysB(q);
    OptionalReadBack(FilterMembers(q), "regexp", q.regexp, Payload, AsPayload);
  }

  lemma MatchReadBack(q: Filter)
    requires PayloadsSet(q)
    ensures Optional(FilterMembers(q), "match", FilterMatch.Decode) == Ok(q.match_)
  {
    KeysB(q);
    if q.match_.Some? { FilterMatch.RoundTrip(q.match_.value); }
    OptionalReadBack(FilterMembers(q), "match", q.match_, FilterMatch.Encode, FilterMatch.Decode);
  }

  lemma SimpleStringReadBack(q: Filter)
    requires PayloadsSet(q)
    ensures Optional(FilterMembers(q), "simple_query_string", AsPayload) == Ok(q.simpleQueryString)
  {
    KeysB(q);
    OptionalReadBack(FilterMembers(q), "simple_query_string", q.simpleQueryString, Payload, AsPayload);
  }

  lemma QueryStringReadBack(q: Filter)
    requires PayloadsSet(q)
    ensures Optional(FilterMembers(q), "query_string", AsPayload) == Ok(q.queryString)
  {
    KeysB(q);
    OptionalReadBack(FilterMembers(q), "query_string", q.queryString, Payload, AsPayload);
  }

  /** Encoding then decoding gives back every well-formed query tree. */
  lemma {:induction false} FilterRoundTrip(q: Filter)
    requires WellFormedFilter(q)
    ensures DecodeFilter(EncodeFilter(q)) == Ok(q)
    decreases q, 1, 0
  {
    LeavesRoundTripA(q);
    LeavesRoundTripB(q);
    var j, ms := EncodeFilter(q), FilterMembers(q);
    KeysInner(q);
    NestedSlotRoundTrip(j, ms, q.nested);
    BoolSlotRoundTrip(j, FilterFields, ms, q.boolean);
    DecodeFilterParts(j, ms, (q.exists_, q.term, q.terms, q.range),
      (q.regexp, q.match_, q.simpleQueryString, q.queryString), q.nested, q.boolean);
  }

  lemma {:induction false} NestedSlotRoundTrip(j: Json, ms: Members, o: Option<NestedFilter>)
    requires Record(j, FilterFields) == Ok(ms)
    requires ValuesAt(ms, "nested") == (if o.Some? then [EncodeNested(o.value)] else [])
    requires o.Some? ==> WellFormedCompound(o.value.query)
    ensures ReadNested(j, ms) == Ok(o)
    decreases o, 0, 0
  {
    if o.Some? {
      NestedRoundTrip(o.value);
    }
  }

  lemma {:induction false} BoolSlotRoundTrip(j: Json, fields: seq<FieldSpec>, ms: Members, o: Option<BooleanFilter>)
    requires Record(j, fields) == Ok(ms)
    requires ValuesAt(ms, "bool") == (if o.Some? then [EncodeBoolean(o.value)] else [])
    requires o.Some? ==> WellFormedBoolean(o.value)
    ensures ReadBool(j, fields, ms) == Ok(o)
    decreases o, 0, 0
  {
    if o.Some? {
      BooleanRoundTrip(o.value);
    }
  }

  /** How `DecodeFilter` puts together what it has read. */
  lemma DecodeFilterParts(j: Json, ms: Members,
      a: (Option<FilterExists.ExistsFilter>, Option<Json>, Option<Json>, Option<Json>),
      b: (Option<Json>, Option<FilterMatch.MatchFilter>, Option<Json>, Option<Json>),
      nested: Option<NestedFilter>, boolean: Option<BooleanFilter>)
    requires Record(j, FilterFields) == Ok(ms)
    requires ReadLeavesA(ms) == Ok(a) && ReadLeavesB(ms) == Ok(b)
    requires ReadNested(j, ms) == Ok(nested) && ReadBool(j, FilterFields, ms) == Ok(boolean)
    ensures DecodeFilter(j) == Ok(Filter(a.0, a.1, a.2, a.3, b.0, b.1, b.2, b.3, nested, boolean))
  {
  }

  lemma {:induction false} NestedRoundTrip(n: NestedFilter)
    requires WellFormedCompound(n.query)
    ensures DecodeNested(EncodeNested(n)) == Ok(n)
    decreases n, 1, 0
  {
    var j := EncodeNested(n);
    CompoundRoundTrip(n.query);
    ValuesAtThree(j.members[0], j.members[1], j.members[2]);
    assert j.members == [j.members[0], j.members[1], j.members[2]];
    DecodeNestedOf(j, j.members, n);
  }

  /** How `DecodeNested` puts together what it has read. */
  lemma DecodeNestedOf(j: Json, ms: Members, n: NestedFilter)
    requires Record(j, NestedFields) == Ok(ms)
    requires ValuesAt(ms, "path") == [JString(n.path)]
    requires ValuesAt(ms, "query") == [EncodeCompound(n.query)]
    requires ValuesAt(ms, "ignore_unmapped") == [JBool(n.ignoreUnmapped)]
    requires DecodeCompound(EncodeCompound(n.query)) == Ok(n.query)
    ensures DecodeNested(j) == Ok(n)
  {
  }

  lemma {:induction false} CompoundRoundTrip(c: CompoundFilter)
    requires WellFormedCompound(c)
    ensures DecodeCompound(EncodeCompound(c)) == Ok(c)
    decreases c, 1, 0
  {
    if c.boolean.Some? {
      BooleanRoundTrip(c.boolean.value);
      var ms := [("bool", EncodeBoolean(c.boolean.value))];
      assert ValuesAt(ms, "bool") == [EncodeBoolean(c.boolean.value)];
    }
  }

  lemma BooleanKeys(b: BooleanFilter)
    ensures ValuesAt(Emit(BooleanSlots(b)), "must") == SlotValues(ClauseSlot(b, b.must))
    ensures ValuesAt(Emit(BooleanSlots(b)), "filter") == SlotValues(ClauseSlot(b, b.filter))
    ensures ValuesAt(Emit(BooleanSlots(b)), "should") == SlotValues(ClauseSlot(b, b.should))
    ensures ValuesAt(Emit(BooleanSlots(b)), "must_not") == SlotValues(ClauseSlot(b, b.mustNot))
    ensures ValuesAt(Emit(BooleanSlots(b)), "minimum_should_match") == StrValues(b.minimumShouldMatch)
    ensures ValuesAt(Emit(BooleanSlots(b)), "boost") == SlotValues(OptJson(b.boost, JFloat))
  {
    var s := BooleanSlots(b);
    EmitLookup(s, 0);
    EmitLookup(s, 1);
    EmitLookup(s, 2);
    EmitLookup(s, 3);
    EmitLookup(s, 4);
    EmitLookup(s, 5);
  }

  lemma {:induction false} BooleanRoundTrip(b: BooleanFilter)
    requires WellFormedBoolean(b)
    ensures DecodeBoolean(EncodeBoolean(b)) == Ok(b)
    decreases b, 1, 0
  {
    var ms := Emit(BooleanSlots(b));
    BooleanKeys(b);
    ClausesRoundTrip(b, b.must, "must");
    ClausesRoundTrip(b, b.filter, "filter");
    ClausesRoundTrip(b, b.should, "should");
    ClausesRoundTrip(b, b.mustNot, "must_not");
    SettingsRoundTrip(b);
  }

  lemma SettingsRoundTrip(b: BooleanFilter)
    ensures Optional(Emit(BooleanSlots(b)), "minimum_should_match", AsString) == Ok(b.minimumShouldMatch)
    ensures Optional(Emit(BooleanSlots(b)), "boost", AsFloat) == Ok(b.boost)
  {
    var ms := Emit(BooleanSlots(b));
    BooleanKeys(b);
    OptionalReadBack(ms, "minimum_should_match", b.minimumShouldMatch, JStr, AsString);
    OptionalReadBack(ms, "boost", b.boost, JFloat, AsFloat);
  }

  lemma {:induction false} ClausesRoundTrip(b: BooleanFilter, qs: seq<Filter>, k: string)
    requires qs == b.must || qs == b.filter || qs == b.should || qs == b.mustNot
    requires WellFormedBoolean(b)
    requires ValuesAt(Emit(BooleanSlots(b)), k) == SlotValues(ClauseSlot(b, qs))
    ensures ReadClauses(EncodeBoolean(b), Emit(BooleanSlots(b)), k) == Ok(qs)
    decreases b, 0, 1
  {
    if qs != [] {
      var v := ClauseSlot(b, qs).value;
      forall i | 0 <= i < |qs|
        ensures DecodeFilter(v.items[i]) == Ok(qs[i])
      {
        ItemRoundTrip(b, qs, v, i);
      }
      ItemsRoundTrip(v, qs, 0);
      assert qs[0..] == qs;
    }
  }

  /** Decoding the items of an array from position `n` on. */
  lemma {:induction false} ItemsRoundTrip(v: Json, qs: seq<Filter>, n: nat)
    requires v.JArray? && |v.items| == |qs| && n <= |qs|
    requires forall i :: n <= i < |qs| ==> DecodeFilter(v.items[i]) == Ok(qs[i])
    ensures DecodeItems(v, n) == Ok(qs[n..])
    decreases |qs| - n
  {
    if n == |qs| {
      ItemsEnd(v);
      assert qs[n..] == [];
    } else {
      var q, rest := qs[n], qs[n + 1..];
      assert DecodeItems(v, n + 1) == Ok(rest) by {
        ItemsRoundTrip(v, qs, n + 1);
      }
      assert DecodeItems(v, n) == Ok([q] + rest) by {
        assert DecodeFilter(v.items[n]) == Ok(q);
        ItemsStep(v, n, q, rest);
      }
      SuffixCons(qs, n);
    }
  }

  lemma ItemsEnd(v: Json)
    requires v.JArray?
    ensures DecodeItems(v, |v.items|) == Ok([])
  {
  }

  lemma {:induction false} ItemRoundTrip(b: BooleanFilter, qs: seq<Filter>, v: Json, n: nat)
    requires qs == b.must || qs == b.filter || qs == b.should || qs == b.mustNot
    requires WellFormedBoolean(b)
    requires v.JArray? && |v.items| == |qs| && n < |qs|
    requires forall i :: 0 <= i < |qs| ==> v.items[i] == EncodeFilter(qs[i])
    ensures DecodeFilter(v.items[n]) == Ok(qs[n])
    decreases b, 0, 0
  {
    assert WellFormedFilter(qs[n]);
    FilterRoundTrip(qs[n]);
  }

  lemma ItemsStep(v: Json, n: nat, q: Filter, rest: seq<Filter>)
    requires v.JArray? && n < |v.items|
    requires DecodeFilter(v.items[n]) == Ok(q) && DecodeItems(v, n + 1) == Ok(rest)
    ensures DecodeItems(v, n) == Ok([q] + rest)
  {
  }


  /** A nested filter is always written with its three keys, in order. */
  lemma NestedKeys(n: NestedFilter)
    ensures Keys(EncodeNested(n).members) == ["path", "query", "ignore_unmapped"]
  {
  }

  /** `ignore_unmapped` has no default: leaving it out is refused. */
  lemma IgnoreUnmappedRequired(path: string, query: Json)
    ensures DecodeNested(JObject([("path", JString(path)), ("query", query)])).Err?
  {
    var ms := [("path", JString(path)), ("query", query)];
    assert ValuesAt(ms, "ignore_unmapped") == [];
  }
}
