/**
  The query string query (`src/search/query/query_string.rs`): a derived
  record whose settings have serde defaults.  Optional settings are written
  only when set, `fields` only when non-empty, and every other setting is
  always written.
*/
module QueryString {
  import opened JsonModel

  /** `QueryStringBooleanOperator`, written in upper case. */
  datatype Operator = Or | And

  function OperatorName(o: Operator): string {
    match o
    case Or => "OR"
    case And => "AND"
  }

  function JOperator(o: Operator): Json {
    JString(OperatorName(o))
  }

  /** A unit variant is read from its name or from `{name: null}`; any
      other name is an unknown variant. */
  function ReadOperator(j: Json): (r: Result<Operator>)
    ensures r.Ok? <==> j in UnitForms("OR") + UnitForms("AND")
    ensures r.Ok? ==> j in UnitForms(OperatorName(r.value))
  {
    UnitTag(j, "OR");
    UnitTag(j, "AND");
    var (s, content) :- VariantTag(j);
    if s == "OR" then UnitContent(content, Or)
    else if s == "AND" then UnitContent(content, And)
    else Err(UnknownVariant(s))
  }

  lemma OperatorRoundTrip(o: Operator)
    ensures ReadOperator(JOperator(o)) == Ok(o)
    ensures ReadOperator(JObject([(OperatorName(o), JNull)])) == Ok(o)
  {
  }

  /** `Default for QueryStringBooleanOperator`. */
  const DefaultOperator: Operator := Or

  datatype QueryStringQuery = QueryStringQuery(
    query: string,
    fields: seq<string>,
    defaultField: Option<string>,
    allowLeadingWildcard: bool,
    analyzeWildcard: bool,
    analyzer: Option<string>,
    quoteAnalyzer: Option<string>,
    autoGenerateSynonymsPhraseQuery: bool,
    boost: Float,
    defaultOperator: Operator,
    enablePositionIncrements: bool,
    fuzziness: Option<string>,
    fuzzyMaxExpansions: I32,
    fuzzyPrefixLength: I32,
    fuzzyTranspositions: bool,
    lenient: bool,
    maxDeterminizedStates: I32,
    minimumShouldMatch: Option<string>,
    phraseSlop: I32,
    quoteFieldSuffix: Option<string>,
    rewrite: Option<string>,
    timeZone: Option<string>)

  /** `default_one_f32`: the float 1.0, as serde_json writes it. */
  const OneF32: Float := Number(10, -1)

  /** The query read from `{"query": q}`: every setting at its default. */
  function WithDefaults(query: string): QueryStringQuery {
    QueryStringQuery(query, [], None, true, false, None, None, true, OneF32, DefaultOperator,
      true, None, 50, 0, true, false, 10000, None, 0, None, None, None)
  }

  function JBoolOf(b: bool): Json {
    JBool(b)
  }

  function JIntOf(n: I32): Json {
    JInt(n)
  }

  /** The written fields in declaration order, in four runs: the query and
      the analysis settings, the scoring settings, the fuzzy settings, and
      the rest. */
  function SlotsA(q: QueryStringQuery): seq<Slot> {
    [ ("query", Some(JString(q.query))),
      ("fields", if q.fields == [] then None else Some(JStrings(q.fields))),
      ("default_field", OptJson(q.defaultField, JStr)),
      ("allow_leading_wildcard", Some(JBool(q.allowLeadingWildcard))),
      ("analyze_wildcard", Some(JBool(q.analyzeWildcard))),
      ("analyzer", OptJson(q.analyzer, JStr)) ]
  }

  function SlotsB(q: QueryStringQuery): seq<Slot> {
    [ ("quote_analyzer", OptJson(q.quoteAnalyzer, JStr)),
      ("auto_generate_synonyms_phrase_query", Some(JBool(q.autoGenerateSynonymsPhraseQuery))),
      ("boost", Some(JNumber(q.boost))),
      ("default_operator", Some(JOperator(q.defaultOperator))),
      ("enable_position_increments", Some(JBool(q.enablePositionIncrements))) ]
  }

  function SlotsC(q: QueryStringQuery): seq<Slot> {
    [ ("fuzziness", OptJson(q.fuzziness, JStr)),
      ("fuzzy_max_expansions", Some(JInt(q.fuzzyMaxExpansions))),
      ("fuzzy_prefix_length", Some(JInt(q.fuzzyPrefixLength))),
      ("fuzzy_transpositions", Some(JBool(q.fuzzyTranspositions))),
      ("lenient", Some(JBool(q.lenient))),
      ("max_determinized_states", Some(JInt(q.maxDeterminizedStates))) ]
  }

  function SlotsD(q: QueryStringQuery): seq<Slot> {
    [ ("minimum_should_match", OptJson(q.minimumShouldMatch, JStr)),
      ("phrase_slop", Some(JInt(q.phraseSlop))),
      ("quote_field_suffix", OptJson(q.quoteFieldSuffix, JStr)),
      ("rewrite", OptJson(q.rewrite, JStr)),
      ("time_zone", OptJson(q.timeZone, JStr)) ]
  }

  /** The wire names of each run. */
  const NamesA: seq<string> := ["query", "fields", "default_field", "allow_leading_wildcard", "analyze_wildcard", "analyzer"]
  const NamesB: seq<string> := ["quote_analyzer", "auto_generate_synonyms_phrase_query", "boost", "default_operator", "enable_position_increments"]
  const NamesC: seq<string> := ["fuzziness", "fuzzy_max_expansions", "fuzzy_prefix_length", "fuzzy_transpositions", "lenient", "max_determinized_states"]
  const NamesD: seq<string> := ["minimum_should_match", "phrase_slop", "quote_field_suffix", "rewrite", "time_zone"]

  /** Every field but `query` has a serde default. */
  const Fields: seq<FieldSpec> := [
    ("query", false), ("fields", true), ("default_field", true), ("allow_leading_wildcard", true),
    ("analyze_wildcard", true), ("analyzer", true), ("quote_analyzer", true),
    ("auto_generate_synonyms_phrase_query", true), ("boost", true), ("default_operator", true),
    ("enable_position_increments", true), ("fuzziness", true), ("fuzzy_max_expansions", true),
    ("fuzzy_prefix_length", true), ("fuzzy_transpositions", true), ("lenient", true),
    ("max_determinized_states", true), ("minimum_should_match", true), ("phrase_slop", true),
    ("quote_field_suffix", true), ("rewrite", true), ("time_zone", true)]

  function Members(q: QueryStringQuery): Members {
    Emit(SlotsA(q)) + Emit(SlotsB(q)) + Emit(SlotsC(q)) + Emit(SlotsD(q))
  }

  function Encode(q: QueryStringQuery): Json {
    JObject(Members(q))
  }

  function Decode(j: Json): Result<QueryStringQuery> {
    var ms :- Record(j, Fields);
    DecodeFields(ms)
  }

  /** The fields are read in declaration order; the first failure is the
      error. */
  function DecodeFields(ms: Members): Result<QueryStringQuery> {
    var a :- ReadA(ms);
    var b :- ReadB(ms);
    var c :- ReadC(ms);
    var d :- ReadD(ms);
    Ok(QueryStringQuery(a.0, a.1, a.2, a.3, a.4, a.5, b.0, b.1, b.2, b.3, b.4,
      c.0, c.1, c.2, c.3, c.4, c.5, d.0, d.1, d.2, d.3, d.4))
  }

  function ReadA(ms: Members): Result<(string, seq<string>, Option<string>, bool, bool, Option<string>)> {
    var query :- Required(ms, "query", AsString);
    var fields :- Defaulted(ms, "fields", AsStrings, []);
    var defaultField :- Optional(ms, "default_field", AsString);
    var allowLeadingWildcard :- Defaulted(ms, "allow_leading_wildcard", AsBool, true);
    var analyzeWildcard :- Defaulted(ms, "analyze_wildcard", AsBool, false);
    var analyzer :- Optional(ms, "analyzer", AsString);
    Ok((query, fields, defaultField, allowLeadingWildcard, analyzeWildcard, analyzer))
  }

  function ReadB(ms: Members): Result<(Option<string>, bool, Float, Operator, bool)> {
    var quoteAnalyzer :- Optional(ms, "quote_analyzer", AsString);
    var autoGenerate :- Defaulted(ms, "auto_generate_synonyms_phrase_query", AsBool, true);
    var boost :- Defaulted(ms, "boost", AsFloat, OneF32);
    var defaultOperator :- Defaulted(ms, "default_operator", ReadOperator, DefaultOperator);
    var enablePositionIncrements :- Defaulted(ms, "enable_position_increments", AsBool, true);
    Ok((quoteAnalyzer, autoGenerate, boost, defaultOperator, enablePositionIncrements))
  }

  function ReadC(ms: Members): Result<(Option<string>, I32, I32, bool, bool, I32)> {
    var fuzziness :- Optional(ms, "fuzziness", AsString);
    var fuzzyMaxExpansions :- Defaulted(ms, "fuzzy_max_expansions", AsI32, 50);
    var fuzzyPrefixLength :- Defaulted(ms, "fuzzy_prefix_length", AsI32, 0);
    var fuzzyTranspositions :- Defaulted(ms, "fuzzy_transpositions", AsBool, true);
    var lenient :- Defaulted(ms, "lenient", AsBool, false);
    var maxDeterminizedStates :- Defaulted(ms, "max_determinized_states", AsI32, 10000);
    Ok((fuzziness, fuzzyMaxExpansions, fuzzyPrefixLength, fuzzyTranspositions, lenient, maxDeterminizedStates))
  }

  function ReadD(ms: Members): Result<(Option<string>, I32, Option<string>, Option<string>, Option<string>)> {
    var minimumShouldMatch :- Optional(ms, "minimum_should_match", AsString);
    var phraseSlop :- Defaulted(ms, "phrase_slop", AsI32, 0);
    var quoteFieldSuffix :- Optional(ms, "quote_field_suffix", AsString);
    var rewrite :- Optional(ms, "rewrite", AsString);
    var timeZone :- Optional(ms, "time_zone", AsString);
    Ok((minimumShouldMatch, phraseSlop, quoteFieldSuffix, rewrite, timeZone))
  }

  /** Absent settings decode to their defaults: `query` alone gives the
      defaults of every other setting. */
  lemma Defaults(query: string)
    ensures Decode(JObject([("query", JString(query))])) == Ok(WithDefaults(query))
  {
  }

  /** `query` is required. */
  lemma QueryRequired(ms: Members)
    requires "query" !in Keys(ms)
    ensures Decode(JObject(ms)).Err?
  {
  }

  /** The values under a key are those its run contributes, the others
      contributing none. */
  lemma Split(q: QueryStringQuery, k: string)
    ensures ValuesAt(Members(q), k)
         == ValuesAt(Emit(SlotsA(q)), k) + ValuesAt(Emit(SlotsB(q)), k) + ValuesAt(Emit(SlotsC(q)), k) + ValuesAt(Emit(SlotsD(q)), k)
  {
    ValuesAtAppend(Emit(SlotsA(q)), Emit(SlotsB(q)), k);
    ValuesAtAppend(Emit(SlotsA(q)) + Emit(SlotsB(q)), Emit(SlotsC(q)), k);
    ValuesAtAppend(Emit(SlotsA(q)) + Emit(SlotsB(q)) + Emit(SlotsC(q)), Emit(SlotsD(q)), k);
  }

  lemma KeysOfRuns(q: QueryStringQuery)
    ensures SlotKeys(SlotsA(q)) == NamesA && SlotKeys(SlotsB(q)) == NamesB
    ensures SlotKeys(SlotsC(q)) == NamesC && SlotKeys(SlotsD(q)) == NamesD
  {
  }

  /** No wire name belongs to two runs. */
  lemma DisjointA()
    ensures forall k :: k in NamesA ==> k !in NamesB && k !in NamesC && k !in NamesD
  {
  }

  lemma DisjointB()
    ensures forall k :: k in NamesB ==> k !in NamesA && k !in NamesC && k !in NamesD
  {
    DisjointA();
  }

  lemma DisjointCD()
    ensures forall k :: k in NamesC ==> k !in NamesD
  {
  }

  /** A key of the first run is found where that run is written. */
  lemma InFirst(a: seq<Slot>, b: seq<Slot>, c: seq<Slot>, d: seq<Slot>, k: string)
    requires k !in SlotKeys(b) && k !in SlotKeys(c) && k !in SlotKeys(d)
    ensures ValuesAt(Emit(a) + Emit(b) + Emit(c) + Emit(d), k) == ValuesAt(Emit(a), k)
  {
    ValuesAtAppend(Emit(a), Emit(b), k);
    ValuesAtAppend(Emit(a) + Emit(b), Emit(c), k);
    ValuesAtAppend(Emit(a) + Emit(b) + Emit(c), Emit(d), k);
    EmitMissing(b, k);
    EmitMissing(c, k);
    EmitMissing(d, k);
  }

  /** A key of the second run only is found where that run is written. */
  lemma InSecond(a: seq<Slot>, b: seq<Slot>, c: seq<Slot>, d: seq<Slot>, k: string)
    requires k !in SlotKeys(a) && k !in SlotKeys(c) && k !in SlotKeys(d)
    ensures ValuesAt(Emit(a) + Emit(b) + Emit(c) + Emit(d), k) == ValuesAt(Emit(b), k)
  {
    ValuesAtAppend(Emit(a), Emit(b), k);
    ValuesAtAppend(Emit(a) + Emit(b), Emit(c), k);
    ValuesAtAppend(Emit(a) + Emit(b) + Emit(c), Emit(d), k);
    EmitMissing(a, k);
    EmitMissing(c, k);
    EmitMissing(d, k);
  }

  /** A key of the third run only is found where that run is written. */
  lemma InThird(a: seq<Slot>, b: seq<Slot>, c: seq<Slot>, d: seq<Slot>, k: string)
    requires k !in SlotKeys(a) && k !in SlotKeys(b) && k !in SlotKeys(d)
    ensures ValuesAt(Emit(a) + Emit(b) + Emit(c) + Emit(d), k) == ValuesAt(Emit(c), k)
  {
    ValuesAtAppend(Emit(a), Emit(b), k);
    ValuesAtAppend(Emit(a) + Emit(b), Emit(c), k);
    ValuesAtAppend(Emit(a) + Emit(b) + Emit(c), Emit(d), k);
    EmitMissing(a, k);
    EmitMissing(b, k);
    EmitMissing(d, k);
  }

  /** A key of the fourth run only is found where that run is written. */
  lemma InFourth(a: seq<Slot>, b: seq<Slot>, c: seq<Slot>, d: seq<Slot>, k: string)
    requires k !in SlotKeys(a) && k !in SlotKeys(b) && k !in SlotKeys(c)
    ensures ValuesAt(Emit(a) + Emit(b) + Emit(c) + Emit(d), k) == ValuesAt(Emit(d), k)
  {
    ValuesAtAppend(Emit(a), Emit(b), k);
    ValuesAtAppend(Emit(a) + Emit(b), Emit(c), k);
    ValuesAtAppend(Emit(a) + Emit(b) + Emit(c), Emit(d), k);
    EmitMissing(a, k);
    EmitMissing(b, k);
    EmitMissing(c, k);
  }

  lemma InA(q: QueryStringQuery, k: string)
    requires k in NamesA
    ensures ValuesAt(Members(q), k) == ValuesAt(Emit(SlotsA(q)), k)
  {
    KeysOfRuns(q);
    DisjointA();
    InFirst(SlotsA(q), SlotsB(q), SlotsC(q), SlotsD(q), k);
  }

  lemma InB(q: QueryStringQuery, k: string)
    requires k in NamesB
    ensures ValuesAt(Members(q), k) == ValuesAt(Emit(SlotsB(q)), k)
  {
    KeysOfRuns(q);
    DisjointB();
    InSecond(SlotsA(q), SlotsB(q), SlotsC(q), SlotsD(q), k);
  }

  lemma InC(q: QueryStringQuery, k: string)
    requires k in NamesC
    ensures ValuesAt(Members(q), k) == ValuesAt(Emit(SlotsC(q)), k)
  {
    KeysOfRuns(q);
    DisjointA();
    DisjointB();
    DisjointCD();
    InThird(SlotsA(q), SlotsB(q), SlotsC(q), SlotsD(q), k);
  }

  lemma InD(q: QueryStringQuery, k: string)
    requires k in NamesD
    ensures ValuesAt(Members(q), k) == ValuesAt(Emit(SlotsD(q)), k)
  {
    KeysOfRuns(q);
    DisjointA();
    DisjointB();
    DisjointCD();
    InFourth(SlotsA(q), SlotsB(q), SlotsC(q), SlotsD(q), k);
  }

  /** No key outside the record's fields is written. */
  lemma EncodeOnlyKnownKeys(q: QueryStringQuery, k: string)
    requires k !in NamesA + NamesB + NamesC + NamesD
    ensures ValuesAt(Encode(q).members, k) == []
  {
    Split(q, k);
    KeysOfRuns(q);
    EmitMissing(SlotsA(q), k);
    EmitMissing(SlotsB(q), k);
    EmitMissing(SlotsC(q), k);
    EmitMissing(SlotsD(q), k);
  }

  /** `query` and the flags of the first run are always written; `fields`
      only when non-empty, the optional settings only when set. */
  lemma DistinctA(q: QueryStringQuery)
    ensures DistinctSlots(SlotsA(q))
  {
  }

  lemma LocalA1(q: QueryStringQuery)
    ensures ValuesAt(Emit(SlotsA(q)), "query") == [JString(q.query)]
    ensures ValuesAt(Emit(SlotsA(q)), "fields") == (if q.fields == [] then [] else [JStrings(q.fields)])
    ensures ValuesAt(Emit(SlotsA(q)), "default_field") == StrValues(q.defaultField)
  {
    var s := SlotsA(q);
    DistinctA(q);
    EmitLookup(s, 0);
    EmitLookup(s, 1);
    EmitLookup(s, 2);
  }

  lemma LocalA2(q: QueryStringQuery)
    ensures ValuesAt(Emit(SlotsA(q)), "allow_leading_wildcard") == [JBool(q.allowLeadingWildcard)]
    ensures ValuesAt(Emit(SlotsA(q)), "analyze_wildcard") == [JBool(q.analyzeWildcard)]
    ensures ValuesAt(Emit(SlotsA(q)), "analyzer") == StrValues(q.analyzer)
  {
    var s := SlotsA(q);
    DistinctA(q);
    EmitLookup(s, 3);
    EmitLookup(s, 4);
    EmitLookup(s, 5);
  }

  lemma EncodeA(q: QueryStringQuery)
    ensures ValuesAt(Encode(q).members, "query") == [JString(q.query)]
    ensures ValuesAt(Encode(q).members, "fields") == (if q.fields == [] then [] else [JStrings(q.fields)])
    ensures ValuesAt(Encode(q).members, "default_field") == StrValues(q.defaultField)
    ensures ValuesAt(Encode(q).members, "allow_leading_wildcard") == [JBool(q.allowLeadingWildcard)]
    ensures ValuesAt(Encode(q).members, "analyze_wildcard") == [JBool(q.analyzeWildcard)]
    ensures ValuesAt(Encode(q).members, "analyzer") == StrValues(q.analyzer)
  {
    LocalA1(q);
    LocalA2(q);
    InA(q, "query");
    InA(q, "fields");
    InA(q, "default_field");
    InA(q, "allow_leading_wildcard");
    InA(q, "analyze_wildcard");
    InA(q, "analyzer");
  }

  /** The boost, the operator and the flags are always written, even at
      their default value. */
  lemma DistinctB(q: QueryStringQuery)
    ensures DistinctSlots(SlotsB(q))
  {
  }

  lemma LocalB1(q: QueryStringQuery)
    ensures ValuesAt(Emit(SlotsB(q)), "quote_analyzer") == StrValues(q.quoteAnalyzer)
    ensures ValuesAt(Emit(SlotsB(q)), "auto_generate_synonyms_phrase_query") == [JBool(q.autoGenerateSynonymsPhraseQuery)]
    ensures ValuesAt(Emit(SlotsB(q)), "boost") == [JNumber(q.boost)]
  {
    var s := SlotsB(q);
    DistinctB(q);
    EmitLookup(s, 0);
    EmitLookup(s, 1);
    EmitLookup(s, 2);
  }

  lemma LocalB2(q: QueryStringQuery)
    ensures ValuesAt(Emit(SlotsB(q)), "default_operator") == [JString(OperatorName(q.defaultOperator))]
    ensures ValuesAt(Emit(SlotsB(q)), "enable_position_increments") == [JBool(q.enablePositionIncrements)]
  {
    var s := SlotsB(q);
    DistinctB(q);
    EmitLookup(s, 3);
    EmitLookup(s, 4);
  }

  lemma EncodeB(q: QueryStringQuery)
    ensures ValuesAt(Encode(q).members, "quote_analyzer") == StrValues(q.quoteAnalyzer)
    ensures ValuesAt(Encode(q).members, "auto_generate_synonyms_phrase_query") == [JBool(q.autoGenerateSynonymsPhraseQuery)]
    ensures ValuesAt(Encode(q).members, "boost") == [JNumber(q.boost)]
    ensures ValuesAt(Encode(q).members, "default_operator") == [JString(OperatorName(q.defaultOperator))]
    ensures ValuesAt(Encode(q).members, "enable_position_increments") == [JBool(q.enablePositionIncrements)]
  {
    LocalB1(q);
    LocalB2(q);
    InB(q, "quote_analyzer");
    InB(q, "auto_generate_synonyms_phrase_query");
    InB(q, "boost");
    InB(q, "default_operator");
    InB(q, "enable_position_increments");
  }

  /** The integer settings and the flags are always written; `fuzziness`
      only when set. */
  lemma DistinctC(q: QueryStringQuery)
    ensures DistinctSlots(SlotsC(q))
  {
  }

  lemma LocalC1(q: QueryStringQuery)
    ensures ValuesAt(Emit(SlotsC(q)), "fuzziness") == StrValues(q.fuzziness)
    ensures ValuesAt(Emit(SlotsC(q)), "fuzzy_max_expansions") == [JInt(q.fuzzyMaxExpansions)]
    ensures ValuesAt(Emit(SlotsC(q)), "fuzzy_prefix_length") == [JInt(q.fuzzyPrefixLength)]
  {
    var s := SlotsC(q);
    DistinctC(q);
    EmitLookup(s, 0);
    EmitLookup(s, 1);
    EmitLookup(s, 2);
  }

  lemma LocalC2(q: QueryStringQuery)
    ensures ValuesAt(Emit(SlotsC(q)), "fuzzy_transpositions") == [JBool(q.fuzzyTranspositions)]
    ensures ValuesAt(Emit(SlotsC(q)), "lenient") == [JBool(q.lenient)]
    ensures ValuesAt(Emit(SlotsC(q)), "max_determinized_states") == [JInt(q.maxDeterminizedStates)]
  {
    var s := SlotsC(q);
    DistinctC(q);
    EmitLookup(s, 3);
    EmitLookup(s, 4);
    EmitLookup(s, 5);
  }

  lemma EncodeC(q: QueryStringQuery)
    ensures ValuesAt(Encode(q).members, "fuzziness") == StrValues(q.fuzziness)
    ensures ValuesAt(Encode(q).members, "fuzzy_max_expansions") == [JInt(q.fuzzyMaxExpansions)]
    ensures ValuesAt(Encode(q).members, "fuzzy_prefix_length") == [JInt(q.fuzzyPrefixLength)]
    ensures ValuesAt(Encode(q).members, "fuzzy_transpositions") == [JBool(q.fuzzyTranspositions)]
    ensures ValuesAt(Encode(q).members, "lenient") == [JBool(q.lenient)]
    ensures ValuesAt(Encode(q).members, "max_determinized_states") == [JInt(q.maxDeterminizedStates)]
  {
    LocalC1(q);
    LocalC2(q);
    InC(q, "fuzziness");
    InC(q, "fuzzy_max_expansions");
    InC(q, "fuzzy_prefix_length");
    InC(q, "fuzzy_transpositions");
    InC(q, "lenient");
    InC(q, "max_determinized_states");
  }

  /** `phrase_slop` is always written; the optional settings only when set. */
  lemma DistinctD(q: QueryStringQuery)
    ensures DistinctSlots(SlotsD(q))
  {
  }

  lemma LocalD(q: QueryStringQuery)
    ensures ValuesAt(Emit(SlotsD(q)), "minimum_should_match") == StrValues(q.minimumShouldMatch)
    ensures ValuesAt(Emit(SlotsD(q)), "phrase_slop") == [JInt(q.phraseSlop)]
    ensures ValuesAt(Emit(SlotsD(q)), "quote_field_suffix") == StrValues(q.quoteFieldSuffix)
    ensures ValuesAt(Emit(SlotsD(q)), "rewrite") == StrValues(q.rewrite)
    ensures ValuesAt(Emit(SlotsD(q)), "time_zone") == StrValues(q.timeZone)
  {
    var s := SlotsD(q);
    DistinctD(q);
    EmitLookup(s, 0);
    EmitLookup(s, 1);
    EmitLookup(s, 2);
    EmitLookup(s, 3);
    EmitLookup(s, 4);
  }

  lemma EncodeD(q: QueryStringQuery)
    ensures ValuesAt(Encode(q).members, "minimum_should_match") == StrValues(q.minimumShouldMatch)
    ensures ValuesAt(Encode(q).members, "phrase_slop") == [JInt(q.phraseSlop)]
    ensures ValuesAt(Encode(q).members, "quote_field_suffix") == StrValues(q.quoteFieldSuffix)
    ensures ValuesAt(Encode(q).members, "rewrite") == StrValues(q.rewrite)
    ensures ValuesAt(Encode(q).members, "time_zone") == StrValues(q.timeZone)
  {
    LocalD(q);
    InD(q, "minimum_should_match");
    InD(q, "phrase_slop");
    InD(q, "quote_field_suffix");
    InD(q, "rewrite");
    InD(q, "time_zone");
  }

  lemma RoundTripA(q: QueryStringQuery)
    ensures ReadA(Members(q)) == Ok((q.query, q.fields, q.defaultField, q.allowLeadingWildcard, q.analyzeWildcard, q.analyzer))
  {
    EncodeA(q);
    ReadAOf(Members(q), q);
  }

  /** `ReadA` reads back whatever values the encoding writes for its keys. */
  lemma ReadAOf(ms: Members, q: QueryStringQuery)
    requires ValuesAt(ms, "query") == [JString(q.query)]
    requires ValuesAt(ms, "fields") == (if q.fields == [] then [] else [JStrings(q.fields)])
    requires ValuesAt(ms, "default_field") == StrValues(q.defaultField)
    requires ValuesAt(ms, "allow_leading_wildcard") == [JBool(q.allowLeadingWildcard)]
    requires ValuesAt(ms, "analyze_wildcard") == [JBool(q.analyzeWildcard)]
    requires ValuesAt(ms, "analyzer") == StrValues(q.analyzer)
    ensures ReadA(ms) == Ok((q.query, q.fields, q.defaultField, q.allowLeadingWildcard, q.analyzeWildcard, q.analyzer))
  {
    assert Required(ms, "query", AsString) == Ok(q.query) by {
      RequiredReadBack(ms, "query", q.query, JStr, AsString);
    }
    assert Defaulted(ms, "fields", AsStrings, []) == Ok(q.fields) by {
      StringsRoundTrip(q.fields);
    }
    assert Optional(ms, "default_field", AsString) == Ok(q.defaultField) by {
      OptionalReadBack(ms, "default_field", q.defaultField, JStr, AsString);
    }
    assert Defaulted(ms, "allow_leading_wildcard", AsBool, true) == Ok(q.allowLeadingWildcard) by {
      DefaultedReadBack(ms, "allow_leading_wildcard", q.allowLeadingWildcard, true, JBoolOf, AsBool);
    }
    assert Defaulted(ms, "analyze_wildcard", AsBool, false) == Ok(q.analyzeWildcard) by {
      DefaultedReadBack(ms, "analyze_wildcard", q.analyzeWildcard, false, JBoolOf, AsBool);
    }
    assert Optional(ms, "analyzer", AsString) == Ok(q.analyzer) by {
      OptionalReadBack(ms, "analyzer", q.analyzer, JStr, AsString);
    }
  }

  lemma RoundTripB(q: QueryStringQuery)
    ensures ReadB(Members(q)) == Ok((q.quoteAnalyzer, q.autoGenerateSynonymsPhraseQuery, q.boost, q.defaultOperator, q.enablePositionIncrements))
  {
    EncodeB(q);
    ReadBOf(Members(q), q);
  }

  /** `ReadB` reads back whatever values the encoding writes for its keys. */
  lemma ReadBOf(ms: Members, q: QueryStringQuery)
    requires ValuesAt(ms, "quote_analyzer") == StrValues(q.quoteAnalyzer)
    requires ValuesAt(ms, "auto_generate_synonyms_phrase_query") == [JBool(q.autoGenerateSynonymsPhraseQuery)]
    requires ValuesAt(ms, "boost") == [JNumber(q.boost)]
    requires ValuesAt(ms, "default_operator") == [JOperator(q.defaultOperator)]
    requires ValuesAt(ms, "enable_position_increments") == [JBool(q.enablePositionIncrements)]
    ensures ReadB(ms) == Ok((q.quoteAnalyzer, q.autoGenerateSynonymsPhraseQuery, q.boost, q.defaultOperator, q.enablePositionIncrements))
  {
    OptionalReadBack(ms, "quote_analyzer", q.quoteAnalyzer, JStr, AsString);
    DefaultedReadBack(ms, "auto_generate_synonyms_phrase_query", q.autoGenerateSynonymsPhraseQuery, true, JBoolOf, AsBool);
    DefaultedReadBack(ms, "boost", q.boost, OneF32, (f: Float) => JNumber(f), AsFloat);
    OperatorRoundTrip(q.defaultOperator);
    DefaultedReadBack(ms, "default_operator", q.defaultOperator, DefaultOperator, JOperator, ReadOperator);
    DefaultedReadBack(ms, "enable_position_increments", q.enablePositionIncrements, true, JBoolOf, AsBool);
  }

  lemma RoundTripC(q: QueryStringQuery)
    ensures ReadC(Members(q)) == Ok((q.fuzziness, q.fuzzyMaxExpansions, q.fuzzyPrefixLength, q.fuzzyTranspositions, q.lenient, q.maxDeterminizedStates))
  {
    EncodeC(q);
    ReadCOf(Members(q), q);
  }

  /** `ReadC` reads back whatever values the encoding writes for its keys. */
  lemma ReadCOf(ms: Members, q: QueryStringQuery)
    requires ValuesAt(ms, "fuzziness") == StrValues(q.fuzziness)
    requires ValuesAt(ms, "fuzzy_max_expansions") == [JInt(q.fuzzyMaxExpansions)]
    requires ValuesAt(ms, "fuzzy_prefix_length") == [JInt(q.fuzzyPrefixLength)]
    requires ValuesAt(ms, "fuzzy_transpositions") == [JBool(q.fuzzyTranspositions)]
    requires ValuesAt(ms, "lenient") == [JBool(q.lenient)]
    requires ValuesAt(ms, "max_determinized_states") == [JInt(q.maxDeterminizedStates)]
    ensures ReadC(ms) == Ok((q.fuzziness, q.fuzzyMaxExpansions, q.fuzzyPrefixLength, q.fuzzyTranspositions, q.lenient, q.maxDeterminizedStates))
  {
    OptionalReadBack(ms, "fuzziness", q.fuzziness, JStr, AsString);
    DefaultedReadBack(ms, "fuzzy_max_expansions", q.fuzzyMaxExpansions, 50, JIntOf, AsI32);
    DefaultedReadBack(ms, "fuzzy_prefix_length", q.fuzzyPrefixLength, 0, JIntOf, AsI32);
    DefaultedReadBack(ms, "fuzzy_transpositions", q.fuzzyTranspositions, true, JBoolOf, AsBool);
    DefaultedReadBack(ms, "lenient", q.lenient, false, JBoolOf, AsBool);
    DefaultedReadBack(ms, "max_determinized_states", q.maxDeterminizedStates, 10000, JIntOf, AsI32);
  }

  lemma RoundTripD(q: QueryStringQuery)
    ensures ReadD(Members(q)) == Ok((q.minimumShouldMatch, q.phraseSlop, q.quoteFieldSuffix, q.rewrite, q.timeZone))
  {
    EncodeD(q);
    ReadDOf(Members(q), q);
  }

  /** `ReadD` reads back whatever values the encoding writes for its keys. */
  lemma ReadDOf(ms: Members, q: QueryStringQuery)
    requires ValuesAt(ms, "minimum_should_match") == StrValues(q.minimumShouldMatch)
    requires ValuesAt(ms, "phrase_slop") == [JInt(q.phraseSlop)]
    requires ValuesAt(ms, "quote_field_suffix") == StrValues(q.quoteFieldSuffix)
    requires ValuesAt(ms, "rewrite") == StrValues(q.rewrite)
    requires ValuesAt(ms, "time_zone") == StrValues(q.timeZone)
    ensures ReadD(ms) == Ok((q.minimumShouldMatch, q.phraseSlop, q.quoteFieldSuffix, q.rewrite, q.timeZone))
  {
    OptionalReadBack(ms, "minimum_should_match", q.minimumShouldMatch, JStr, AsString);
    DefaultedReadBack(ms, "phrase_slop", q.phraseSlop, 0, JIntOf, AsI32);
    OptionalReadBack(ms, "quote_field_suffix", q.quoteFieldSuffix, JStr, AsString);
    OptionalReadBack(ms, "rewrite", q.rewrite, JStr, AsString);
    OptionalReadBack(ms, "time_zone", q.timeZone, JStr, AsString);
  }

  lemma RoundTrip(q: QueryStringQuery)
    ensures Decode(Encode(q)) == Ok(q)
  {
    RoundTripA(q);
    RoundTripB(q);
    RoundTripC(q);
    RoundTripD(q);
  }
}
