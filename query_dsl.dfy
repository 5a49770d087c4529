/**
  The query DSL records (`src/search/query/mod.rs`): a `Query` is a record
  of ten optional slots, one per kind of query, of which the caller is
  expected to fill one; a `BooleanQuery` combines queries in four clause
  lists; a `CompoundQuery` optionally holds one boolean query; and a
  `NestedQuery` (`src/search/query/nested.rs`) runs a compound query on
  nested objects.  The four records are mutually recursive, and so are
  their encoders and decoders.
*/
module QueryDsl {
  import opened JsonModel
  import opened SlotLayout
  import QueryExists
  import QueryTerm
  import QueryTerms
  import QueryRange
  import QueryRegexp
  import QueryMatch
  import QuerySimpleString
  import QueryString

  /** The slots `exists` and `match` carry a trailing underscore, as in the
      source, because both names are keywords. */
  datatype Query = Query(
    exists_: Option<QueryExists.ExistsQuery>,
    term: Option<QueryTerm.TermQuery>,
    terms: Option<QueryTerms.TermsQuery>,
    range: Option<QueryRange.RangeQuery>,
    regexp: Option<QueryRegexp.RegexpQuery>,
    match_: Option<QueryMatch.MatchQuery>,
    simpleQueryString: Option<QuerySimpleString.SimpleQueryStringQuery>,
    queryString: Option<QueryString.QueryStringQuery>,
    nested: Option<NestedQuery>,
    boolean: Option<BooleanQuery>)

  datatype BooleanQuery = BooleanQuery(
    must: seq<Query>,
    filter: seq<Query>,
    should: seq<Query>,
    mustNot: seq<Query>,
    minimumShouldMatch: Option<string>,
    boost: Option<Float>)

  datatype CompoundQuery = CompoundQuery(boolean: Option<BooleanQuery>)

  datatype NestedQuery = NestedQuery(path: string, query: CompoundQuery, ignoreUnmapped: bool)

  // ---------------------------------------------------------------------
  // Constructors and in-place updates.

  /** A query with every slot empty. */
  const NoQuery: Query := Query(None, None, None, None, None, None, None, None, None, None)

  /** `Default for BooleanQuery`. */
  const EmptyBoolean: BooleanQuery := BooleanQuery([], [], [], [], None, None)

  /** The number of inhabited slots. */
  function SlotCount(q: Query): nat {
    (if q.exists_.Some? then 1 else 0) + (if q.term.Some? then 1 else 0)
    + (if q.terms.Some? then 1 else 0) + (if q.range.Some? then 1 else 0)
    + (if q.regexp.Some? then 1 else 0) + (if q.match_.Some? then 1 else 0)
    + (if q.simpleQueryString.Some? then 1 else 0) + (if q.queryString.Some? then 1 else 0)
    + (if q.nested.Some? then 1 else 0) + (if q.boolean.Some? then 1 else 0)
  }

  /** `From<ExistsQuery> for Query`, and likewise for the eight other leaf
      kinds: the named slot holds the argument and no other is filled. */
  function FromExists(e: QueryExists.ExistsQuery): (q: Query)
    ensures q.exists_ == Some(e) && SlotCount(q) == 1
  {
    NoQuery.(exists_ := Some(e))
  }

  function FromTerm(t: QueryTerm.TermQuery): (q: Query)
    ensures q.term == Some(t) && SlotCount(q) == 1
  {
    NoQuery.(term := Some(t))
  }

  function FromTerms(t: QueryTerms.TermsQuery): (q: Query)
    ensures q.terms == Some(t) && SlotCount(q) == 1
  {
    NoQuery.(terms := Some(t))
  }

  function FromRange(r: QueryRange.RangeQuery): (q: Query)
    ensures q.range == Some(r) && SlotCount(q) == 1
  {
    NoQuery.(range := Some(r))
  }

  function FromRegexp(r: QueryRegexp.RegexpQuery): (q: Query)
    ensures q.regexp == Some(r) && SlotCount(q) == 1
  {
    NoQuery.(regexp := Some(r))
  }

  function FromMatch(m: QueryMatch.MatchQuery): (q: Query)
    ensures q.match_ == Some(m) && SlotCount(q) == 1
  {
    NoQuery.(match_ := Some(m))
  }

  function FromSimpleQueryString(s: QuerySimpleString.SimpleQueryStringQuery): (q: Query)
    ensures q.simpleQueryString == Some(s) && SlotCount(q) == 1
  {
    NoQuery.(simpleQueryString := Some(s))
  }

  function FromQueryString(s: QueryString.QueryStringQuery): (q: Query)
    ensures q.queryString == Some(s) && SlotCount(q) == 1
  {
    NoQuery.(queryString := Some(s))
  }

  function FromNested(n: NestedQuery): (q: Query)
    ensures q.nested == Some(n) && SlotCount(q) == 1
  {
    NoQuery.(nested := Some(n))
  }

  /** `BooleanQuery::from`: the query alone in `filter`. */
  function BooleanFrom(q: Query): (b: BooleanQuery)
    ensures b.filter == [q] && b.must == [] && b.should == [] && b.mustNot == []
    ensures b.minimumShouldMatch.None? && b.boost.None?
  {
    EmptyBoolean.(filter := [q])
  }

  /** `CompoundQuery::from`. */
  function CompoundFrom(b: BooleanQuery): (c: CompoundQuery)
    ensures c.boolean == Some(b)
  {
    CompoundQuery(Some(b))
  }

  /** `NestedQuery::new`. */
  function NewNested(path: string, query: CompoundQuery, ignoreUnmapped: bool): (n: NestedQuery)
    ensures n.path == path && n.query == query && n.ignoreUnmapped == ignoreUnmapped
  {
    NestedQuery(path, query, ignoreUnmapped)
  }

  /** `BooleanQuery::is_empty`: only the four clause lists count. */
  predicate IsEmptyBoolean(b: BooleanQuery) {
    b.must == [] && b.filter == [] && b.should == [] && b.mustNot == []
  }

  /** `CompoundQuery::is_empty`. */
  predicate IsEmpty(c: CompoundQuery) {
    c.boolean.None? || IsEmptyBoolean(c.boolean.value)
  }

  /** `BooleanQuery::push`: the clause goes to the end of `filter`; the
      record is otherwise unchanged. */
  function PushBoolean(b: BooleanQuery, q: Query): (r: BooleanQuery)
    ensures r.filter == b.filter + [q]
    ensures r.must == b.must && r.should == b.should && r.mustNot == b.mustNot
    ensures r.minimumShouldMatch == b.minimumShouldMatch && r.boost == b.boost
  {
    b.(filter := b.filter + [q])
  }

  /** `CompoundQuery::push`: pushes onto the boolean query, creating one
      that holds only this clause when there is none. */
  function Push(c: CompoundQuery, q: Query): (r: CompoundQuery)
    ensures c.boolean.None? ==> r.boolean == Some(BooleanFrom(q))
    ensures c.boolean.Some? ==> r.boolean == Some(PushBoolean(c.boolean.value, q))
  {
    if c.boolean.Some? then CompoundQuery(Some(PushBoolean(c.boolean.value, q)))
    else CompoundQuery(Some(BooleanFrom(q)))
  }

  /** After a push the compound query is not empty, and the pushed clause
      is its last `filter` clause. */
  lemma PushNotEmpty(c: CompoundQuery, q: Query)
    ensures !IsEmpty(Push(c, q))
    ensures var f := Push(c, q).boolean.value.filter; |f| > 0 && f[|f| - 1] == q
  {
  }

  /** Pushing onto an empty compound query gives `CompoundQuery::from` of
      `BooleanQuery::from` of the clause. */
  lemma PushOntoNone(q: Query)
    ensures Push(CompoundQuery(None), q) == CompoundFrom(BooleanFrom(q))
  {
  }

  /** Pushes accumulate: the clauses pushed one after the other end up in
      `filter` in the order pushed. */
  lemma PushTwice(c: CompoundQuery, q1: Query, q2: Query)
    requires c.boolean.Some?
    ensures Push(Push(c, q1), q2).boolean.value.filter == c.boolean.value.filter + [q1, q2]
  {
  }

  /** `is_empty` ignores `minimum_should_match` and `boost`. */
  lemma IsEmptyIgnoresSettings(b: BooleanQuery, msm: Option<string>, boost: Option<Float>)
    ensures IsEmptyBoolean(b.(minimumShouldMatch := msm, boost := boost)) == IsEmptyBoolean(b)
  {
  }

  // ---------------------------------------------------------------------
  // Encoding.  Every slot is skipped when `None` and every clause list when
  // empty; the boolean slot is written under `bool` and the match slot
  // under `match`.

  const QueryFields: seq<FieldSpec> := [
    ("exists", true), ("term", true), ("terms", true), ("range", true), ("regexp", true),
    ("match", true), ("simple_query_string", true), ("query_string", true), ("nested", true), ("bool", true)]

  const BooleanFields: seq<FieldSpec> := [
    ("must", true), ("filter", true), ("should", true), ("must_not", true),
    ("minimum_should_match", true), ("boost", true)]

  const CompoundFields: seq<FieldSpec> := [("bool", true)]

  const NestedFields: seq<FieldSpec> := [("path", false), ("query", false), ("ignore_unmapped", false)]

  /** The first four leaf slots. */
  function LeafSlotsA(q: Query): seq<Slot> {
    [ ("exists", OptJson(q.exists_, QueryExists.Encode)),
      ("term", OptJson(q.term, QueryTerm.Encode)),
      ("terms", OptJson(q.terms, QueryTerms.Encode)),
      ("range", OptJson(q.range, QueryRange.Encode)) ]
  }

  /** The other four leaf slots. */
  function LeafSlotsB(q: Query): seq<Slot> {
    [ ("regexp", OptJson(q.regexp, QueryRegexp.Encode)),
      ("match", OptJson(q.match_, QueryMatch.Encode)),
      ("simple_query_string", OptJson(q.simpleQueryString, QuerySimpleString.Encode)),
      ("query_string", OptJson(q.queryString, QueryString.Encode)) ]
  }

  /** The two recursive slots. */
  function InnerSlots(q: Query): seq<Slot>
    decreases q, 1
  {
    [ ("nested", if q.nested.Some? then Some(EncodeNested(q.nested.value)) else None),
      ("bool", if q.boolean.Some? then Some(EncodeBoolean(q.boolean.value)) else None) ]
  }

  function QueryMembers(q: Query): Members
    decreases q, 2
  {
    Emit(LeafSlotsA(q)) + Emit(LeafSlotsB(q)) + Emit(InnerSlots(q))
  }

  function EncodeQuery(q: Query): (j: Json)
    decreases q, 3
  {
    JObject(QueryMembers(q))
  }

  /** One clause list, as an array of encoded queries, or nothing when
      empty. */
  function ClauseSlot(b: BooleanQuery, qs: seq<Query>): Option<Json>
    requires qs == b.must || qs == b.filter || qs == b.should || qs == b.mustNot
    decreases b, 0
  {
    if qs == [] then None
    else Some(JArray(seq(|qs|, i requires 0 <= i < |qs| => EncodeQuery(qs[i]))))
  }

  function BooleanSlots(b: BooleanQuery): seq<Slot>
    decreases b, 1
  {
    [ ("must", ClauseSlot(b, b.must)),
      ("filter", ClauseSlot(b, b.filter)),
      ("should", ClauseSlot(b, b.should)),
      ("must_not", ClauseSlot(b, b.mustNot)),
      ("minimum_should_match", OptJson(b.minimumShouldMatch, JStr)),
      ("boost", OptJson(b.boost, JFloat)) ]
  }

  function EncodeBoolean(b: BooleanQuery): Json
    decreases b, 3
  {
    JObject(Emit(BooleanSlots(b)))
  }

  function EncodeCompound(c: CompoundQuery): Json
    decreases c, 3
  {
    JObject(if c.boolean.Some? then [("bool", EncodeBoolean(c.boolean.value))] else [])
  }

  /** The three fields are always written. */
  function EncodeNested(n: NestedQuery): Json
    decreases n, 3
  {
    JObject([("path", JString(n.path)), ("query", EncodeCompound(n.query)), ("ignore_unmapped", JBool(n.ignoreUnmapped))])
  }

  // ---------------------------------------------------------------------
  // Decoding: each record is a derived record decode.  A `Query` is not
  // checked to have exactly one slot.

  function DecodeQuery(j: Json): Result<Query>
    decreases j, 2, 0
  {
    var ms :- Record(j, QueryFields);
    var a :- ReadLeavesA(ms);
    var b :- ReadLeavesB(ms);
    var nested :- ReadNested(j, ms);
    var boolean :- ReadBool(j, QueryFields, ms);
    Ok(Query(a.0, a.1, a.2, a.3, b.0, b.1, b.2, b.3, nested, boolean))
  }

  function ReadLeavesA(ms: Members)
    : Result<(Option<QueryExists.ExistsQuery>, Option<QueryTerm.TermQuery>, Option<QueryTerms.TermsQuery>, Option<QueryRange.RangeQuery>)>
  {
    var e :- Optional(ms, "exists", QueryExists.Decode);
    var t :- Optional(ms, "term", QueryTerm.Decode);
    var ts :- Optional(ms, "terms", QueryTerms.Decode);
    var r :- Optional(ms, "range", QueryRange.Decode);
    Ok((e, t, ts, r))
  }

  function ReadLeavesB(ms: Members)
    : Result<(Option<QueryRegexp.RegexpQuery>, Option<QueryMatch.MatchQuery>,
              Option<QuerySimpleString.SimpleQueryStringQuery>, Option<QueryString.QueryStringQuery>)>
  {
    var r :- Optional(ms, "regexp", QueryRegexp.Decode);
    var m :- Optional(ms, "match", QueryMatch.Decode);
    var s :- Optional(ms, "simple_query_string", QuerySimpleString.Decode);
    var qs :- Optional(ms, "query_string", QueryString.Decode);
    Ok((r, m, s, qs))
  }

  /** The `nested` slot of a query record. */
  function ReadNested(j: Json, ms: Members): Result<Option<NestedQuery>>
    requires Record(j, QueryFields) == Ok(ms)
    decreases j, 1, 0
  {
    var p :- Present(ms, "nested");
    if p.None? then Ok(None)
    else
      RecordInside(j, QueryFields, "nested", 0);
      var n :- DecodeNested(p.value);
      Ok(Some(n))
  }

  /** The `bool` slot of a query or compound query record. */
  function ReadBool(j: Json, fields: seq<FieldSpec>, ms: Members): Result<Option<BooleanQuery>>
    requires Record(j, fields) == Ok(ms)
    decreases j, 1, 0
  {
    var p :- Present(ms, "bool");
    if p.None? then Ok(None)
    else
      RecordInside(j, fields, "bool", 0);
      var b :- DecodeBoolean(p.value);
      Ok(Some(b))
  }

  function DecodeBoolean(j: Json): Result<BooleanQuery>
    decreases j, 2, 0
  {
    var ms :- Record(j, BooleanFields);
    var must :- ReadClauses(j, ms, "must");
    var filter :- ReadClauses(j, ms, "filter");
    var should :- ReadClauses(j, ms, "should");
    var mustNot :- ReadClauses(j, ms, "must_not");
    var msm :- Optional(ms, "minimum_should_match", AsString);
    var boost :- Optional(ms, "boost", AsFloat);
    Ok(BooleanQuery(must, filter, should, mustNot, msm, boost))
  }

  /** A clause list has a serde default: absent gives the empty list. */
  function ReadClauses(j: Json, ms: Members, k: string): Result<seq<Query>>
    requires Record(j, BooleanFields) == Ok(ms)
    decreases j, 1, 0
  {
    var vs := ValuesAt(ms, k);
    if |vs| == 0 then Ok([])
    else if |vs| > 1 then Err(DuplicateField(k))
    else
      RecordInside(j, BooleanFields, k, 0);
      DecodeList(vs[0])
  }

  function DecodeList(v: Json): Result<seq<Query>>
    decreases v, 1, 0
  {
    if v.JArray? then DecodeItems(v, 0) else Err(InvalidType("a sequence"))
  }

  /** The queries of `v.items[n..]`, stopping at the first failure. */
  function DecodeItems(v: Json, n: nat): (r: Result<seq<Query>>)
    requires v.JArray? && n <= |v.items|
    ensures r.Ok? ==> |r.value| == |v.items| - n
    decreases v, 0, |v.items| - n
  {
    if n == |v.items| then Ok([])
    else
      var q :- DecodeQuery(v.items[n]);
      var rest :- DecodeItems(v, n + 1);
      Ok([q] + rest)
  }

  function DecodeCompound(j: Json): Result<CompoundQuery>
    decreases j, 2, 0
  {
    var ms :- Record(j, CompoundFields);
    var b :- ReadBool(j, CompoundFields, ms);
    Ok(CompoundQuery(b))
  }

  /** `ignore_unmapped` has no serde default: it is required. */
  function DecodeNested(j: Json): Result<NestedQuery>
    decreases j, 2, 0
  {
    var ms :- Record(j, NestedFields);
    var path :- Required(ms, "path", AsString);
    var query :- ReadCompound(j, ms);
    var ignoreUnmapped :- Required(ms, "ignore_unmapped", AsBool);
    Ok(NestedQuery(path, query, ignoreUnmapped))
  }

  function ReadCompound(j: Json, ms: Members): Result<CompoundQuery>
    requires Record(j, NestedFields) == Ok(ms)
    decreases j, 1, 0
  {
    var vs := ValuesAt(ms, "query");
    if |vs| == 0 then Err(MissingField("query"))
    else if |vs| > 1 then Err(DuplicateField("query"))
    else
      RecordInside(j, NestedFields, "query", 0);
      DecodeCompound(vs[0])
  }

  // ---------------------------------------------------------------------
  // Round trip.  A terms query whose field is `boost` does not survive its
  // own round trip, so neither does a query tree holding one.

  predicate WellFormedQuery(q: Query)
    decreases q, 1
  {
    (q.terms.Some? ==> q.terms.value.field != "boost")
    && (q.nested.Some? ==> WellFormedCompound(q.nested.value.query))
    && (q.boolean.Some? ==> WellFormedBoolean(q.boolean.value))
  }

  predicate WellFormedBoolean(b: BooleanQuery)
    decreases b, 0
  {
    (forall i :: 0 <= i < |b.must| ==> WellFormedQuery(b.must[i]))
    && (forall i :: 0 <= i < |b.filter| ==> WellFormedQuery(b.filter[i]))
    && (forall i :: 0 <= i < |b.should| ==> WellFormedQuery(b.should[i]))
    && (forall i :: 0 <= i < |b.mustNot| ==> WellFormedQuery(b.mustNot[i]))
  }

  predicate WellFormedCompound(c: CompoundQuery)
    decreases c, 1
  {
    c.boolean.Some? ==> WellFormedBoolean(c.boolean.value)
  }

  /** Each slot of a query is found in its encoding under its own key. */
  lemma QueryKeys(q: Query)
    ensures ValuesAt(QueryMembers(q), "exists") == SlotValues(OptJson(q.exists_, QueryExists.Encode))
    ensures ValuesAt(QueryMembers(q), "term") == SlotValues(OptJson(q.term, QueryTerm.Encode))
    ensures ValuesAt(QueryMembers(q), "terms") == SlotValues(OptJson(q.terms, QueryTerms.Encode))
    ensures ValuesAt(QueryMembers(q), "range") == SlotValues(OptJson(q.range, QueryRange.Encode))
    ensures ValuesAt(QueryMembers(q), "regexp") == SlotValues(OptJson(q.regexp, QueryRegexp.Encode))
    ensures ValuesAt(QueryMembers(q), "match") == SlotValues(OptJson(q.match_, QueryMatch.Encode))
    ensures ValuesAt(QueryMembers(q), "simple_query_string") == SlotValues(OptJson(q.simpleQueryString, QuerySimpleString.Encode))
    ensures ValuesAt(QueryMembers(q), "query_string") == SlotValues(OptJson(q.queryString, QueryString.Encode))
    ensures ValuesAt(QueryMembers(q), "nested") == (if q.nested.Some? then [EncodeNested(q.nested.value)] else [])
    ensures ValuesAt(QueryMembers(q), "bool") == (if q.boolean.Some? then [EncodeBoolean(q.boolean.value)] else [])
  {
    KeysA(q);
    KeysB(q);
    KeysInner(q);
  }

  lemma RunKeys(q: Query)
    ensures SlotKeys(LeafSlotsA(q)) == LeafKeysA
    ensures SlotKeys(LeafSlotsB(q)) == LeafKeysB
    ensures SlotKeys(InnerSlots(q)) == InnerKeys
  {
  }

  lemma DistinctRuns(q: Query)
    ensures DistinctSlots(LeafSlotsA(q)) && DistinctSlots(LeafSlotsB(q)) && DistinctSlots(InnerSlots(q))
  {
  }

  lemma LocalA(q: Query)
    ensures ValuesAt(Emit(LeafSlotsA(q)), "exists") == SlotValues(OptJson(q.exists_, QueryExists.Encode))
    ensures ValuesAt(Emit(LeafSlotsA(q)), "term") == SlotValues(OptJson(q.term, QueryTerm.Encode))
    ensures ValuesAt(Emit(LeafSlotsA(q)), "terms") == SlotValues(OptJson(q.terms, QueryTerms.Encode))
    ensures ValuesAt(Emit(LeafSlotsA(q)), "range") == SlotValues(OptJson(q.range, QueryRange.Encode))
  {
    DistinctRuns(q);
    var s := LeafSlotsA(q);
    EmitLookup(s, 0);
    EmitLookup(s, 1);
    EmitLookup(s, 2);
    EmitLookup(s, 3);
  }

  lemma LocalB(q: Query)
    ensures ValuesAt(Emit(LeafSlotsB(q)), "regexp") == SlotValues(OptJson(q.regexp, QueryRegexp.Encode))
    ensures ValuesAt(Emit(LeafSlotsB(q)), "match") == SlotValues(OptJson(q.match_, QueryMatch.Encode))
    ensures ValuesAt(Emit(LeafSlotsB(q)), "simple_query_string") == SlotValues(OptJson(q.simpleQueryString, QuerySimpleString.Encode))
    ensures ValuesAt(Emit(LeafSlotsB(q)), "query_string") == SlotValues(OptJson(q.queryString, QueryString.Encode))
  {
    DistinctRuns(q);
    var s := LeafSlotsB(q);
    EmitLookup(s, 0);
    EmitLookup(s, 1);
    EmitLookup(s, 2);
    EmitLookup(s, 3);
  }

  lemma LocalInner(q: Query)
    ensures ValuesAt(Emit(InnerSlots(q)), "nested") == (if q.nested.Some? then [EncodeNested(q.nested.value)] else [])
    ensures ValuesAt(Emit(InnerSlots(q)), "bool") == (if q.boolean.Some? then [EncodeBoolean(q.boolean.value)] else [])
  {
    DistinctRuns(q);
    var s := InnerSlots(q);
    EmitLookup(s, 0);
    EmitLookup(s, 1);
  }

  lemma KeysA(q: Query)
    ensures ValuesAt(QueryMembers(q), "exists") == SlotValues(OptJson(q.exists_, QueryExists.Encode))
    ensures ValuesAt(QueryMembers(q), "term") == SlotValues(OptJson(q.term, QueryTerm.Encode))
    ensures ValuesAt(QueryMembers(q), "terms") == SlotValues(OptJson(q.terms, QueryTerms.Encode))
    ensures ValuesAt(QueryMembers(q), "range") == SlotValues(OptJson(q.range, QueryRange.Encode))
  {
    RunKeys(q);
    LocalA(q);
    var a, b, c := LeafSlotsA(q), LeafSlotsB(q), InnerSlots(q);
    InLeavesA(a, b, c, "exists");
    InLeavesA(a, b, c, "term");
    InLeavesA(a, b, c, "terms");
    InLeavesA(a, b, c, "range");
  }

  lemma KeysB(q: Query)
    ensures ValuesAt(QueryMembers(q), "regexp") == SlotValues(OptJson(q.regexp, QueryRegexp.Encode))
    ensures ValuesAt(QueryMembers(q), "match") == SlotValues(OptJson(q.match_, QueryMatch.Encode))
    ensures ValuesAt(QueryMembers(q), "simple_query_string") == SlotValues(OptJson(q.simpleQueryString, QuerySimpleString.Encode))
    ensures ValuesAt(QueryMembers(q), "query_string") == SlotValues(OptJson(q.queryString, QueryString.Encode))
  {
    RunKeys(q);
    LocalB(q);
    var a, b, c := LeafSlotsA(q), LeafSlotsB(q), InnerSlots(q);
    InLeavesB(a, b, c, "regexp");
    InLeavesB(a, b, c, "match");
    InLeavesB(a, b, c, "simple_query_string");
    InLeavesB(a, b, c, "query_string");
  }

  lemma KeysInner(q: Query)
    ensures ValuesAt(QueryMembers(q), "nested") == (if q.nested.Some? then [EncodeNested(q.nested.value)] else [])
    ensures ValuesAt(QueryMembers(q), "bool") == (if q.boolean.Some? then [EncodeBoolean(q.boolean.value)] else [])
  {
    RunKeys(q);
    LocalInner(q);
    var a, b, c := LeafSlotsA(q), LeafSlotsB(q), InnerSlots(q);
    InInner(a, b, c, "nested");
    InInner(a, b, c, "bool");
  }

  lemma LeavesRoundTripA(q: Query)
    requires q.terms.Some? ==> q.terms.value.field != "boost"
    ensures ReadLeavesA(QueryMembers(q)) == Ok((q.exists_, q.term, q.terms, q.range))
  {
    ExistsReadBack(q);
    TermReadBack(q);
    TermsReadBack(q);
    RangeReadBack(q);
  }

  lemma ExistsReadBack(q: Query)
    ensures Optional(QueryMembers(q), "exists", QueryExists.Decode) == Ok(q.exists_)
  {
    KeysA(q);
    if q.exists_.Some? { QueryExists.RoundTrip(q.exists_.value); }
    OptionalReadBack(QueryMembers(q), "exists", q.exists_, QueryExists.Encode, QueryExists.Decode);
  }

  lemma TermReadBack(q: Query)
    ensures Optional(QueryMembers(q), "term", QueryTerm.Decode) == Ok(q.term)
  {
    KeysA(q);
    if q.term.Some? { QueryTerm.RoundTrip(q.term.value); }
    OptionalReadBack(QueryMembers(q), "term", q.term, QueryTerm.Encode, QueryTerm.Decode);
  }

  lemma TermsReadBack(q: Query)
    requires q.terms.Some? ==> q.terms.value.field != "boost"
    ensures Optional(QueryMembers(q), "terms", QueryTerms.Decode) == Ok(q.terms)
  {
    KeysA(q);
    if q.terms.Some? { QueryTerms.RoundTrip(q.terms.value); }
    OptionalReadBack(QueryMembers(q), "terms", q.terms, QueryTerms.Encode, QueryTerms.Decode);
  }

  lemma RangeReadBack(q: Query)
    ensures Optional(QueryMembers(q), "range", QueryRange.Decode) == Ok(q.range)
  {
    KeysA(q);
    if q.range.Some? { QueryRange.RoundTrip(q.range.value); }
    OptionalReadBack(QueryMembers(q), "range", q.range, QueryRange.Encode, QueryRange.Decode);
  }

  lemma LeavesRoundTripB(q: Query)
    ensures ReadLeavesB(QueryMembers(q)) == Ok((q.regexp, q.match_, q.simpleQueryString, q.queryString))
  {
    RegexpReadBack(q);
    MatchReadBack(q);
    SimpleStringReadBack(q);
    QueryStringReadBack(q);
  }

  lemma RegexpReadBack(q: Query)
    ensures Optional(QueryMembers(q), "regexp", QueryRegexp.Decode) == Ok(q.regexp)
  {
    KeysB(q);
    if q.regexp.Some? { QueryRegexp.RoundTrip(q.regexp.value); }
    OptionalReadBack(QueryMembers(q), "regexp", q.regexp, QueryRegexp.Encode, QueryRegexp.Decode);
  }

  lemma MatchReadBack(q: Query)
    ensures Optional(QueryMembers(q), "match", QueryMatch.Decode) == Ok(q.match_)
  {
    KeysB(q);
    if q.match_.Some? { QueryMatch.RoundTrip(q.match_.value); }
    OptionalReadBack(QueryMembers(q), "match", q.match_, QueryMatch.Encode, QueryMatch.Decode);
  }

  lemma SimpleStringReadBack(q: Query)
    ensures Optional(QueryMembers(q), "simple_query_string", QuerySimpleString.Decode) == Ok(q.simpleQueryString)
  {
    KeysB(q);
    if q.simpleQueryString.Some? { QuerySimpleString.RoundTrip(q.simpleQueryString.value); }
    OptionalReadBack(QueryMembers(q), "simple_query_string", q.simpleQueryString, QuerySimpleString.Encode, QuerySimpleString.Decode);
  }

  lemma QueryStringReadBack(q: Query)
    ensures Optional(QueryMembers(q), "query_string", QueryString.Decode) == Ok(q.queryString)
  {
    KeysB(q);
    if q.queryString.Some? { QueryString.RoundTrip(q.queryString.value); }
    OptionalReadBack(QueryMembers(q), "query_string", q.queryString, QueryString.Encode, QueryString.Decode);
  }

  /** Encoding then decoding gives back every well-formed query tree. */
  lemma {:induction false} QueryRoundTrip(q: Query)
    requires WellFormedQuery(q)
    ensures DecodeQuery(EncodeQuery(q)) == Ok(q)
    decreases q, 1, 0
  {
    var j, ms := EncodeQuery(q), QueryMembers(q);
    LeavesRoundTripA(q);
    LeavesRoundTripB(q);
    KeysInner(q);
    if q.nested.Some? {
      NestedRoundTrip(q.nested.value);
    }
    ReadNestedOf(j, ms, q.nested);
    if q.boolean.Some? {
      BooleanRoundTrip(q.boolean.value);
    }
    ReadBoolOf(j, QueryFields, ms, q.boolean);
  }

  /** A `nested` slot holding an encoding that decodes is read back. */
  lemma ReadNestedOf(j: Json, ms: Members, n: Option<NestedQuery>)
    requires Record(j, QueryFields) == Ok(ms)
    requires ValuesAt(ms, "nested") == (if n.Some? then [EncodeNested(n.value)] else [])
    requires n.Some? ==> DecodeNested(EncodeNested(n.value)) == Ok(n.value)
    ensures ReadNested(j, ms) == Ok(n)
  {
  }

  /** A `bool` slot holding an encoding that decodes is read back. */
  lemma ReadBoolOf(j: Json, fields: seq<FieldSpec>, ms: Members, b: Option<BooleanQuery>)
    requires Record(j, fields) == Ok(ms)
    requires ValuesAt(ms, "bool") == (if b.Some? then [EncodeBoolean(b.value)] else [])
    requires b.Some? ==> DecodeBoolean(EncodeBoolean(b.value)) == Ok(b.value)
    ensures ReadBool(j, fields, ms) == Ok(b)
  {
  }

  lemma {:induction false} NestedRoundTrip(n: NestedQuery)
    requires WellFormedCompound(n.query)
    ensures DecodeNested(EncodeNested(n)) == Ok(n)
    decreases n, 1, 0
  {
    var j := EncodeNested(n);
    CompoundRoundTrip(n.query);
    ValuesAtThree(j.members[0], j.members[1], j.members[2]);
    assert j.members == [j.members[0], j.members[1], j.members[2]];
    DecodeNestedOf(j, j.members, n);
  }

  /** How `DecodeNested` puts together what it has read. */
  lemma DecodeNestedOf(j: Json, ms: Members, n: NestedQuery)
    requires Record(j, NestedFields) == Ok(ms)
    requires ValuesAt(ms, "path") == [JString(n.path)]
    requires ValuesAt(ms, "query") == [EncodeCompound(n.query)]
    requires ValuesAt(ms, "ignore_unmapped") == [JBool(n.ignoreUnmapped)]
    requires DecodeCompound(EncodeCompound(n.query)) == Ok(n.query)
    ensures DecodeNested(j) == Ok(n)
  {
  }

  lemma {:induction false} CompoundRoundTrip(c: CompoundQuery)
    requires WellFormedCompound(c)
    ensures DecodeCompound(EncodeCompound(c)) == Ok(c)
    decreases c, 1, 0
  {
    if c.boolean.Some? {
      BooleanRoundTrip(c.boolean.value);
      var ms := [("bool", EncodeBoolean(c.boolean.value))];
      assert ValuesAt(ms, "bool") == [EncodeBoolean(c.boolean.value)];
    }
  }

  lemma BooleanKeys(b: BooleanQuery)
    ensures ValuesAt(Emit(BooleanSlots(b)), "must") == SlotValues(ClauseSlot(b, b.must))
    ensures ValuesAt(Emit(BooleanSlots(b)), "filter") == SlotValues(ClauseSlot(b, b.filter))
    ensures ValuesAt(Emit(BooleanSlots(b)), "should") == SlotValues(ClauseSlot(b, b.should))
    ensures ValuesAt(Emit(BooleanSlots(b)), "must_not") == SlotValues(ClauseSlot(b, b.mustNot))
    ensures ValuesAt(Emit(BooleanSlots(b)), "minimum_should_match") == StrValues(b.minimumShouldMatch)
    ensures ValuesAt(Emit(BooleanSlots(b)), "boost") == SlotValues(OptJson(b.boost, JFloat))
  {
    var s := BooleanSlots(b);
    EmitLookup(s, 0);
    EmitLookup(s, 1);
    EmitLookup(s, 2);
    EmitLookup(s, 3);
    EmitLookup(s, 4);
    EmitLookup(s, 5);
  }

  lemma {:induction false} BooleanRoundTrip(b: BooleanQuery)
    requires WellFormedBoolean(b)
    ensures DecodeBoolean(EncodeBoolean(b)) == Ok(b)
    decreases b, 1, 0
  {
    var j := EncodeBoolean(b);
    assert ReadClauses(j, j.members, "must") == Ok(b.must) by {
      BooleanKeys(b);
      ClausesRoundTrip(b, b.must, "must");
    }
    assert ReadClauses(j, j.members, "filter") == Ok(b.filter) by {
      BooleanKeys(b);
      ClausesRoundTrip(b, b.filter, "filter");
    }
    assert ReadClauses(j, j.members, "should") == Ok(b.should) by {
      BooleanKeys(b);
      ClausesRoundTrip(b, b.should, "should");
    }
    assert ReadClauses(j, j.members, "must_not") == Ok(b.mustNot) by {
      BooleanKeys(b);
      ClausesRoundTrip(b, b.mustNot, "must_not");
    }
    SettingsRoundTrip(b);
    DecodeBooleanOf(j, b);
  }

  /** How `DecodeBoolean` puts together what it has read. */
  lemma DecodeBooleanOf(j: Json, b: BooleanQuery)
    requires j.JObject?
    requires ReadClauses(j, j.members, "must") == Ok(b.must)
    requires ReadClauses(j, j.members, "filter") == Ok(b.filter)
    requires ReadClauses(j, j.members, "should") == Ok(b.should)
    requires ReadClauses(j, j.members, "must_not") == Ok(b.mustNot)
    requires Optional(j.members, "minimum_should_match", AsString) == Ok(b.minimumShouldMatch)
    requires Optional(j.members, "boost", AsFloat) == Ok(b.boost)
    ensures DecodeBoolean(j) == Ok(b)
  {
  }

  lemma SettingsRoundTrip(b: BooleanQuery)
    ensures Optional(Emit(BooleanSlots(b)), "minimum_should_match", AsString) == Ok(b.minimumShouldMatch)
    ensures Optional(Emit(BooleanSlots(b)), "boost", AsFloat) == Ok(b.boost)
  {
    var ms := Emit(BooleanSlots(b));
    BooleanKeys(b);
    OptionalReadBack(ms, "minimum_should_match", b.minimumShouldMatch, JStr, AsString);
    OptionalReadBack(ms, "boost", b.boost, JFloat, AsFloat);
  }

  lemma {:induction false} ClausesRoundTrip(b: BooleanQuery, qs: seq<Query>, k: string)
    requires qs == b.must || qs == b.filter || qs == b.should || qs == b.mustNot
    requires WellFormedBoolean(b)
    requires ValuesAt(Emit(BooleanSlots(b)), k) == SlotValues(ClauseSlot(b, qs))
    ensures ReadClauses(EncodeBoolean(b), Emit(BooleanSlots(b)), k) == Ok(qs)
    decreases b, 0, 1
  {
    if qs != [] {
      var v := ClauseSlot(b, qs).value;
      forall i | 0 <= i < |qs|
        ensures DecodeQuery(v.items[i]) == Ok(qs[i])
      {
        ItemRoundTrip(b, qs, v, i);
      }
      ItemsRoundTrip(v, qs, 0);
      assert qs[0..] == qs;
    }
  }

  /** Decoding the items of an array from position `n` on. */
  lemma {:induction false} ItemsRoundTrip(v: Json, qs: seq<Query>, n: nat)
    requires v.JArray? && |v.items| == |qs| && n <= |qs|
    requires forall i :: n <= i < |qs| ==> DecodeQuery(v.items[i]) == Ok(qs[i])
    ensures DecodeItems(v, n) == Ok(qs[n..])
    decreases |qs| - n
  {
    if n == |qs| {
      ItemsEnd(v);
      assert qs[n..] == [];
    } else {
      var q, rest := qs[n], qs[n + 1..];
      assert DecodeItems(v, n + 1) == Ok(rest) by {
        ItemsRoundTrip(v, qs, n + 1);
      }
      assert DecodeItems(v, n) == Ok([q] + rest) by {
        assert DecodeQuery(v.items[n]) == Ok(q);
        ItemsStep(v, n, q, rest);
      }
      SuffixCons(qs, n);
    }
  }

  lemma ItemsEnd(v: Json)
    requires v.JArray?
    ensures DecodeItems(v, |v.items|) == Ok([])
  {
  }

  lemma {:induction false} ItemRoundTrip(b: BooleanQuery, qs: seq<Query>, v: Json, n: nat)
    requires qs == b.must || qs == b.filter || qs == b.should || qs == b.mustNot
    requires WellFormedBoolean(b)
    requires v.JArray? && |v.items| == |qs| && n < |qs|
    requires forall i :: 0 <= i < |qs| ==> v.items[i] == EncodeQuery(qs[i])
    ensures DecodeQuery(v.items[n]) == Ok(qs[n])
    decreases b, 0, 0
  {
    assert WellFormedQuery(qs[n]);
    QueryRoundTrip(qs[n]);
  }

  lemma ItemsStep(v: Json, n: nat, q: Query, rest: seq<Query>)
    requires v.JArray? && n < |v.items|
    requires DecodeQuery(v.items[n]) == Ok(q) && DecodeItems(v, n + 1) == Ok(rest)
    ensures DecodeItems(v, n) == Ok([q] + rest)
  {
  }

  /** `is_empty` holds exactly when the encoded boolean query carries none
      of the four clause keys. */
  lemma IsEmptyEncoding(b: BooleanQuery)
    ensures IsEmptyBoolean(b) <==>
      ValuesAt(Emit(BooleanSlots(b)), "must") == [] && ValuesAt(Emit(BooleanSlots(b)), "filter") == []
      && ValuesAt(Emit(BooleanSlots(b)), "should") == [] && ValuesAt(Emit(BooleanSlots(b)), "must_not") == []
  {
    BooleanKeys(b);
  }

  /** The empty object decodes to the query with no slot filled: decoding
      does not demand that some slot be present. */
  lemma DecodeNoSlots()
    ensures DecodeQuery(JObject([])) == Ok(NoQuery)
  {
    var ms: Members := [];
    assert Record(JObject([]), QueryFields) == Ok(ms);
    assert ReadNested(JObject([]), ms) == Ok(None);
    assert ReadBool(JObject([]), QueryFields, ms) == Ok(None);
  }

  /** Nor does it reject a query with several slots filled. */
  lemma DecodeSeveralSlots(e: QueryExists.ExistsQuery, t: QueryTerm.TermQuery)
    ensures var q := NoQuery.(exists_ := Some(e), term := Some(t));
      SlotCount(q) == 2 && DecodeQuery(EncodeQuery(q)) == Ok(q)
  {
    var q := NoQuery.(exists_ := Some(e), term := Some(t));
    QueryRoundTrip(q);
  }

  /** A nested query is always written with its three keys, in order. */
  lemma NestedKeys(n: NestedQuery)
    ensures Keys(EncodeNested(n).members) == ["path", "query", "ignore_unmapped"]
  {
  }

  /** `ignore_unmapped` has no default: leaving it out is refused. */
  lemma IgnoreUnmappedRequired(path: string, query: Json)
    ensures DecodeNested(JObject([("path", JString(path)), ("query", query)])).Err?
  {
    var ms := [("path", JString(path)), ("query", query)];
    assert ValuesAt(ms, "ignore_unmapped") == [];
  }
}
