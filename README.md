# elastiql, modelled in Dafny

elastiql is a typed adapter between Rust values and the JSON bodies of
Elasticsearch's search, bulk and aggregation REST API. It has no search
logic of its own. It builds request bodies (queries, filters, sorts,
aggregations) out of typed records, and reads response bodies (hits,
error reports, bulk results, aggregation trees) back into typed records.
It has one real algorithm: the walk that flattens an aggregation response
tree into one computed result per `(parent, name)`.

This project models that behaviour over a JSON value datatype with the
value grammar of section 3 of RFC 8259 (`json.dfy`). Objects are ordered
member lists, so duplicate keys and key order can be stated. On top of the
datatype sit the rules that serde's derived and hand-written codecs
follow:
- a required field must be present;
- an `Option` field may be absent or `null`;
- a `#[serde(default)]` field may be absent;
- unknown keys are ignored;
- a duplicate known key is an error (objects are member lists in written order, as serde_json presents JSON text to a visitor);
- a one-key visitor refuses entries left over.

Each component of the crate is one module:
- `QueryTerm`, `QueryTerms`, `QueryRange`, `QueryRegexp`, `QueryPrefix`,
  `QueryMatch`, `QueryExists`, `QuerySimpleString` and `QueryString` are
  the query leaves. Each has an encoder, the decoder its visitor or derive
  implements, round trips, and the rejected inputs of its tests.
- `QueryDsl` is the ten-slot `Query` record, the boolean, compound and
  nested queries, `push` and `is_empty`, and the `From` constructors.
- `Sort` is the sort encoder, which renames `score`, `key` and `count` and
  adds `unmapped_type`, together with its decoder.
- `FilterExists`, `FilterMatch`, `FilterDsl` and `FilterInputs` are the
  filter wire records and the caller-built filter inputs, with their
  conversions.
- `SearchRequest` is the request body, with key elision, and `query_mut`
  as a method of a `Request` class.
- `SearchResponse` and `Bulk` are the response envelopes, with defaults,
  untagged and externally tagged enums.
- `AggregationRequest` is the aggregation request encoder and decoder.
- `AggregationResponse` is the `Ty` tag table.
- `AggregationResult` is the response-tree node decoder, with its entry
  loop as a method, and the key, value and `_skip` readings.
- `AggregationFlatten` is the flattener. It is an imperative walk with an
  explicit stack, proved to build the grouping of an ordering of exactly
  the contributions of the tree.

The document type `T` of a hit or a bulk result belongs to the caller. Its
reader is a parameter of the decoders. Floats (`boost`, `value`,
`max_score`, `score`) are carried as opaque numbers and never computed on.

## Model

| member | source | states |
|---|---|---|
| QueryTerm.Encode | src/search/query/term.rs:134-148 | the encoding is a one-key object whose key is the field |
| QueryTerm.Decode | src/search/query/term.rs:170-186 | a decoded query comes from a one-key object and takes its field from that key; an empty object is a missing `field` |
| QueryTerm.EncodeKeys | src/search/query/term.rs:11-17 | the inner record carries `value` once and `boost` exactly when it is set |
| QueryTerm.RoundTrip | src/search/query/term.rs:134-186 | decoding the encoding of any term query gives it back |
| QueryTerm.ScalarInnerRefused | src/search/query/term.rs:261-272 | an inner value that is a string, number, boolean or `null` is refused |
| QueryTerm.ValueMustBeString | src/search/query/term.rs:274-305 | a `value` that is not a string is refused |
| QueryTerm.BoostMustBeNumber | src/search/query/term.rs:243-256 | a `boost` that is neither a number nor `null` is refused |
| QueryTerm.BoostTwiceRefused | src/search/query/term.rs:257-258 | `boost` written twice is refused |
| QueryTerm.UnknownKeyIgnored | src/search/query/term.rs:11-17 | inner keys other than `value` and `boost` do not change the result |
| QueryTerm.PositionalInner | src/search/query/term.rs:12-17 | the inner record written as a one-element array reads with no boost |
| QueryTerm.TableCases | src/search/query/term.rs:213-241 | the tabled queries encode to the tabled JSON and decode back |
| QueryTerms.New | src/search/query/terms.rs:117-127 | `new` keeps the field and the values in the order given, with no boost |
| QueryTerms.Encode | src/search/query/terms.rs:143-153 | the first entry of the encoding is the field with its values as a string array |
| QueryTerms.Decode | src/search/query/terms.rs:175-209 | a decoded query comes from an object whose only non-`boost` entry is the field with a string array, and whose `boost` entries are exactly the boost read |
| QueryTerms.Read | src/search/query/terms.rs:175-209 | the visitor's key loop succeeds exactly when the whole-object reading does, with the same query |
| QueryTerms.ReadEntry | src/search/query/terms.rs:184-198 | one iteration either extends what was read so far or returns an error only where the whole object is refused |
| QueryTerms.PrefixRefused | src/search/query/terms.rs:185-197 | once a prefix of the keys holds two `boost`s, two other keys or a bad value, the whole object is refused |
| QueryTerms.KeyOrderIrrelevant | src/search/query/terms.rs:184-199 | swapping two parts of the object does not change the result |
| QueryTerms.RoundTrip | src/search/query/terms.rs:143-209 | a query whose field is not `boost` is decoded back from its encoding |
| QueryTerms.BoostFieldNotReadBack | src/search/query/terms.rs:185-190 | a query whose field is named `boost` does not decode from its own encoding |
| QueryTerms.NoFieldRefused | src/search/query/terms.rs:201 | an object with no non-`boost` key is refused |
| QueryTerms.ValuesMustBeStrings | src/search/query/terms.rs:197 | a field value that is not an array of strings is refused |
| QueryTerms.TableCases | src/search/query/terms.rs:236-264 | the tabled queries encode to the tabled JSON |
| QueryRange.Encode | src/search/query/range.rs:177-194 | the encoding is a one-key object whose key is the field |
| QueryRange.Decode | src/search/query/range.rs:216-236 | a decoded query comes from a one-key object and takes its field from that key; an empty object is a missing `field` |
| QueryRange.EncodeKeys | src/search/query/range.rs:13-30 | `gt`, `gte`, `lt`, `lte` and `boost` are each written exactly when their option is set |
| QueryRange.EncodeOnlyKnownKeys | src/search/query/range.rs:13-30 | no key other than the five is written |
| QueryRange.RoundTrip | src/search/query/range.rs:177-236 | decoding the encoding of any range query gives it back |
| QueryRange.EmptyInner | src/search/query/range.rs:13-30 | an empty inner object is a range with no bound and no boost |
| QueryRange.ScalarInnerRefused | src/search/query/range.rs:224 | an inner value that is a string, number, boolean or `null` is refused |
| QueryRange.BoundMustBeString | src/search/query/range.rs:364-387 | a bound that is neither a string nor `null` is refused |
| QueryRange.BoostMustBeNumber | src/search/query/range.rs:302-338 | a `boost` that is neither a number nor `null` is refused |
| QueryRange.UnknownKeyIgnored | src/search/query/range.rs:13-30 | inner keys other than the five known ones do not change the result |
| QueryRange.TableCase | src/search/query/range.rs:263-274 | the tabled JSON decodes to the tabled query |
| QueryRegexp.New | src/search/query/regexp.rs:127-137 | `new` stores its three arguments |
| QueryRegexp.Encode | src/search/query/regexp.rs:153-171 | the encoding is a one-key object whose key is the field |
| QueryRegexp.Decode | src/search/query/regexp.rs:193-216 | a decoded query comes from a one-key object and takes its field from that key; an empty object is a missing `field` |
| QueryRegexp.DecodeReadsLast | src/search/query/regexp.rs:201-209 | the decoded `value` is the last string under `value`, and `flags` is set exactly when the key is present, to its last string |
| QueryRegexp.RoundTrip | src/search/query/regexp.rs:153-216 | decoding the encoding of any regexp query gives it back |
| QueryRegexp.NonStringEntryRefused | src/search/query/regexp.rs:201 | an inner entry that is not a string is refused, whatever its key |
| QueryRegexp.MissingValueRefused | src/search/query/regexp.rs:203-206 | an inner object without `value` is refused |
| QueryRegexp.NonObjectInnerRefused | src/search/query/regexp.rs:201 | an inner value that is not an object is refused |
| QueryRegexp.DuplicateValueKeepsLast | src/search/query/regexp.rs:201-206 | `value` written twice keeps the later string |
| QueryPrefix.New | src/search/query/prefix.rs:112-118 | `new` stores the field and value and matches case-sensitively |
| QueryPrefix.Encode | src/search/query/prefix.rs:134-148 | the encoding is a one-key object whose key is the field |
| QueryPrefix.Decode | src/search/query/prefix.rs:170-186 | a decoded query comes from a one-key object and takes its field from that key; an empty object is a missing `field` |
| QueryPrefix.EncodeKeys | src/search/query/prefix.rs:9-15 | `value` and `case_insensitive` are both always written, the latter even when `false` |
| QueryPrefix.RoundTrip | src/search/query/prefix.rs:134-186 | decoding the encoding of any prefix query gives it back |
| QueryPrefix.CaseSensitiveByDefault | src/search/query/prefix.rs:13-14 | an absent `case_insensitive` reads as `false` |
| QueryPrefix.CaseInsensitiveMustBeBool | src/search/query/prefix.rs:242-255 | a `case_insensitive` that is not a boolean is refused |
| QueryPrefix.CaseInsensitiveTwiceRefused | src/search/query/prefix.rs:256-257 | `case_insensitive` written twice is refused |
| QueryPrefix.ValueMustBeString | src/search/query/prefix.rs:273-304 | a `value` that is not a string is refused |
| QueryPrefix.ScalarInnerRefused | src/search/query/prefix.rs:260-271 | an inner value that is a string, number, boolean or `null` is refused |
| QueryMatch.New | src/search/query/match_.rs:108-113 | `new` stores the field and the query text |
| QueryMatch.Encode | src/search/query/match_.rs:128-140 | the encoding is a one-key object whose key is the field |
| QueryMatch.Decode | src/search/query/match_.rs:162-178 | a decoded query comes from a one-key object and takes its field from that key; an empty object is a missing `field` |
| QueryMatch.DecodeReadsLast | src/search/query/match_.rs:170-175 | the decoded query text is the last string written under `query` |
| QueryMatch.RoundTrip | src/search/query/match_.rs:128-178 | decoding the encoding of any match query gives it back |
| QueryMatch.NonObjectInnerRefused | src/search/query/match_.rs:211-222 | an inner value that is not an object is refused |
| QueryMatch.NonStringQueryRefused | src/search/query/match_.rs:224-239 | an inner entry that is not a string is refused |
| QueryMatch.MissingQueryRefused | src/search/query/match_.rs:172-174 | an inner object without `query` is refused |
| QueryExists.New | src/search/query/exists.rs:51-55 | `new` stores the field |
| QueryExists.Decode | src/search/query/exists.rs:41-46 | a decoded query has the string written under `field` |
| QueryExists.RoundTrip | src/search/query/exists.rs:41-46 | decoding the encoding `{"field": f}` gives the query back |
| QueryExists.FieldRequired | src/search/query/exists.rs:45 | an object without `field` is refused |
| QueryExists.FieldMustBeString | src/search/query/exists.rs:45 | a `field` that is not a string is refused |
| QuerySimpleString.EncodeKeys | src/search/query/simple_query_string.rs:74-80 | `fields` is written exactly when non-empty and `query` always |
| QuerySimpleString.RoundTrip | src/search/query/simple_query_string.rs:63-81 | decoding the encoding of any simple query string query gives it back |
| QuerySimpleString.FieldsDefaultEmpty | src/search/query/simple_query_string.rs:75 | an absent `fields` reads as the empty list |
| QuerySimpleString.QueryRequired | src/search/query/simple_query_string.rs:79-80 | an object without `query` is refused |
| QueryString.ReadOperator | src/search/query/query_string.rs:490-503 | the operator reads exactly from `"OR"`, `"AND"`, `{"OR": null}` or `{"AND": null}`, and from the forms of its own name |
| QueryString.OperatorRoundTrip | src/search/query/query_string.rs:490-503 | each operator reads back from its upper-case name, bare or as `{name: null}` |
| QueryString.Defaults | src/search/query/query_string.rs:316-560 | `{"query": q}` alone reads with every setting at its default: the true flags, the false flags, 50, 0, 10000, 0, boost 1.0 and operator `OR` |
| QueryString.QueryRequired | src/search/query/query_string.rs:273-274 | an object without `query` is refused |
| QueryString.EncodeOnlyKnownKeys | src/search/query/query_string.rs:271-488 | no key outside the declared wire names is written |
| QueryString.EncodeA | src/search/query/query_string.rs:273-334 | `query` and both wildcard flags are always written; `fields` only when non-empty; `default_field` and `analyzer` only when set |
| QueryString.EncodeB | src/search/query/query_string.rs:343-378 | boost, operator and the two flags are always written, `quote_analyzer` only when set |
| QueryString.EncodeC | src/search/query/query_string.rs:385-433 | the integer settings and flags are always written, `fuzziness` only when set |
| QueryString.EncodeD | src/search/query/query_string.rs:442-487 | `phrase_slop` is always written; the four optional settings only when set |
| QueryString.RoundTrip | src/search/query/query_string.rs:271-488 | decoding the encoding of any query string query gives it back |
| QueryDsl.FromExists | src/search/query/mod.rs:694-710 | `From<ExistsQuery>` fills the `exists` slot and no other |
| QueryDsl.FromTerm | src/search/query/mod.rs:712-728 | `From<TermQuery>` fills the `term` slot and no other |
| QueryDsl.FromTerms | src/search/query/mod.rs:730-746 | `From<TermsQuery>` fills the `terms` slot and no other |
| QueryDsl.FromRange | src/search/query/mod.rs:748-764 | `From<RangeQuery>` fills the `range` slot and no other |
| QueryDsl.FromRegexp | src/search/query/mod.rs:766-782 | `From<RegexpQuery>` fills the `regexp` slot and no other |
| QueryDsl.FromMatch | src/search/query/mod.rs:784-800 | `From<MatchQuery>` fills the `match` slot and no other |
| QueryDsl.FromSimpleQueryString | src/search/query/mod.rs:802-818 | `From<SimpleQueryStringQuery>` fills the `simple_query_string` slot and no other |
| QueryDsl.FromQueryString | src/search/query/mod.rs:820-836 | `From<QueryStringQuery>` fills the `query_string` slot and no other |
| QueryDsl.FromNested | src/search/query/mod.rs:838-854 | `From<NestedQuery>` fills the `nested` slot and no other |
| QueryDsl.BooleanFrom | src/search/query/mod.rs:380-392 | `BooleanQuery::from(q)` has `q` alone in `filter`, the other lists empty and no settings |
| QueryDsl.CompoundFrom | src/search/query/mod.rs:140-147 | `CompoundQuery::from(b)` holds `Some(b)` |
| QueryDsl.NewNested | src/search/query/nested.rs:104-114 | `NestedQuery::new` stores path, query and flag as given |
| QueryDsl.PushBoolean | src/search/query/mod.rs:358-361 | `BooleanQuery::push` appends to the end of `filter` and changes nothing else |
| QueryDsl.Push | src/search/query/mod.rs:124-137 | `CompoundQuery::push` pushes onto an existing boolean, or creates one holding only the clause in `filter` |
| QueryDsl.PushNotEmpty | src/search/query/mod.rs:114-137 | after a push the compound query is not empty and the clause is the last of `filter` |
| QueryDsl.PushOntoNone | src/search/query/mod.rs:127-135 | pushing onto an empty compound query equals `CompoundQuery::from(BooleanQuery::from(q))` |
| QueryDsl.PushTwice | src/search/query/mod.rs:124-137 | two pushes leave both clauses at the end of `filter` in the order pushed |
| QueryDsl.IsEmptyIgnoresSettings | src/search/query/mod.rs:349-354 | `is_empty` does not depend on `minimum_should_match` or `boost` |
| QueryDsl.QueryKeys | src/search/query/mod.rs:632-673 | each slot of a query is written under its wire key (`match`, `bool` renamed) exactly when it is filled |
| QueryDsl.QueryRoundTrip | src/search/query/mod.rs:624-673 | decoding the encoding of any well-formed query tree gives it back |
| QueryDsl.NestedRoundTrip | src/search/query/nested.rs:77-99 | decoding the encoding of any well-formed nested query gives it back |
| QueryDsl.CompoundRoundTrip | src/search/query/mod.rs:100-111 | decoding the encoding of any well-formed compound query gives it back |
| QueryDsl.BooleanKeys | src/search/query/mod.rs:282-344 | each clause list is written exactly when non-empty and each setting exactly when set |
| QueryDsl.BooleanRoundTrip | src/search/query/mod.rs:282-344 | decoding the encoding of any well-formed boolean query gives it back |
| QueryDsl.IsEmptyEncoding | src/search/query/mod.rs:286-354 | `is_empty` holds exactly when the encoded boolean query carries none of the four clause keys |
| QueryDsl.DecodeNoSlots | src/search/query/mod.rs:624-673 | the empty object decodes to the query with no slot filled |
| QueryDsl.DecodeSeveralSlots | src/search/query/mod.rs:624-673 | a query with two slots filled is encoded and decoded back, not refused |
| QueryDsl.NestedKeys | src/search/query/nested.rs:77-99 | a nested query is always written with `path`, `query` and `ignore_unmapped` |
| QueryDsl.IgnoreUnmappedRequired | src/search/query/nested.rs:95-98 | a nested query without `ignore_unmapped` is refused |
| Sort.ReadOrder | src/search/sort.rs:13-24 | an order reads exactly from `"asc"`, `"desc"`, `{"asc": null}` or `{"desc": null}`, and from the forms of its own name |
| Sort.ReadMode | src/search/sort.rs:26-49 | a mode reads exactly from one of `min`, `max`, `sum`, `avg`, `median`, written bare or as `{name: null}`, and from the forms of its own name |
| Sort.NamesRoundTrip | src/search/sort.rs:13-49 | every order and mode reads back from its snake_case name, bare or as `{name: null}` |
| Sort.NamesDistinct | src/search/sort.rs:13-49 | no two orders and no two modes share a wire name |
| Sort.WireField | src/search/sort.rs:179-184 | `score`, `key`, `count` are written as `_score`, `_key`, `_count`; any other field as it stands |
| Sort.Encode | src/search/sort.rs:174-188 | a sort is written as a one-key object under its wire field |
| Sort.Decode | src/search/sort.rs:207-222 | a decoded sort comes from a one-key object and takes its field from that key unchanged; an empty object is a missing `field` |
| Sort.InnerKeys | src/search/sort.rs:229-276 | `order` and `mode` are written exactly when set; `unmapped_type` is `"keyword"` exactly when the field does not start with `_` |
| Sort.UnmappedTypeRule | src/search/sort.rs:270-274 | the hint is present iff the field as given, not as renamed, does not start with `_` |
| Sort.ScoreExamples | src/search/sort.rs:355-380 | `score` is renamed and keeps the hint; `_score` alone is `{}`; `_key` with mode avg is `{"mode": "avg"}` |
| Sort.DefaultEncoding | src/search/sort.rs:147-159 | the default sort is field `id` and is written `{"id": {"unmapped_type": "keyword"}}` |
| Sort.DecodeEncode | src/search/sort.rs:174-227 | decoding an encoding gives the options back and the field as it was written on the wire |
| Sort.InnerReadBack | src/search/sort.rs:207-222 | the inner object of an encoded sort is read back: its options as written, and an `unmapped_type` that is a string |
| Sort.RoundTrip | src/search/sort.rs:174-227 | a sort survives its round trip iff its field is not `score`, `key` or `count` |
| Sort.DecodeEverything | src/search/sort.rs:382-394 | the tabled object with all three inner keys decodes to field `id`, order desc, mode max |
| Sort.UnknownOrderRefused | src/search/sort.rs:13-24 | an order that is neither `null` nor one of the two forms of a listed name is refused |
| Sort.ShortInnerArrayRefused | src/search/sort.rs:230-238 | the array form of the inner record must hold all three fields, none of which has a serde default |
| FilterExists.FromInput | src/search/filter/types/exists.rs:33-38 | the converted filter keeps the input's field |
| FilterExists.Decode | src/search/filter/types/exists.rs:23-31 | a decoded filter has the one string written under `field` (or the positional one-item array) |
| FilterExists.InputEncodesAsFilter | src/search/filter/types/exists.rs:9-38 | the input and the filter it converts to are written alike, and the input's encoding decodes to the converted filter |
| FilterExists.RoundTrip | src/search/filter/types/exists.rs:23-31 | decoding the encoding `{"field": f}` gives the filter back |
| FilterExists.FieldRequired | src/search/filter/types/exists.rs:30 | an object without `field` is refused |
| FilterExists.FieldMustBeString | src/search/filter/types/exists.rs:30 | a `field` that is not a string is refused |
| FilterMatch.FromInput | src/search/filter/types/match_.rs:81-89 | the converted filter keeps field and query text |
| FilterMatch.Wire | src/search/filter/types/match_.rs:92-104 | the written shape is a one-key object whose key is the field |
| FilterMatch.Decode | src/search/filter/types/match_.rs:126-139 | a decoded filter comes from a one-key object and takes its field from that key; an empty object is a missing `field` |
| FilterMatch.DecodeReadsLast | src/search/filter/types/match_.rs:134-139 | the decoded query text is the last string written under `query` |
| FilterMatch.RoundTrip | src/search/filter/types/match_.rs:92-139 | decoding the encoding of any match filter gives it back |
| FilterMatch.InputEncodesAsFilter | src/search/filter/types/match_.rs:38-104 | the input and the filter it converts to are written alike, and the input's encoding decodes to the converted filter |
| FilterMatch.NonObjectInnerRefused | src/search/filter/types/match_.rs:176-187 | an inner value that is not an object (a string, `null`) is refused |
| FilterMatch.NonStringQueryRefused | src/search/filter/types/match_.rs:189-204 | an inner entry that is not a string (a number, `null`) is refused |
| FilterMatch.MissingQueryRefused | src/search/filter/types/match_.rs:136-138 | an inner object without `query` is refused |
| FilterDsl.BooleanFrom | src/search/filter/mod.rs:330-342 | a filter converted to a boolean filter is the only clause, in `filter`, with no settings |
| FilterDsl.FilterKeys | src/search/filter/mod.rs:572-614 | each filled slot of a filter is written once under its own key (`match`, `bool` renamed), an empty slot not at all |
| FilterDsl.FilterRoundTrip | src/search/filter/mod.rs:572-614 | decoding the encoding of any well-formed filter tree gives it back |
| FilterDsl.BooleanKeys | src/search/filter/mod.rs:239-301 | each clause list is written only when not empty, each setting only when set, under its own key |
| FilterDsl.BooleanRoundTrip | src/search/filter/mod.rs:239-301 | decoding the encoding of any well-formed boolean filter gives it back; absent lists read as empty |
| FilterDsl.CompoundRoundTrip | src/search/filter/mod.rs:89-99 | decoding the encoding of any well-formed compound filter gives it back |
| FilterDsl.NestedRoundTrip | src/search/filter/types/nested.rs:66-88 | decoding the encoding of any well-formed nested filter gives it back |
| FilterDsl.NestedKeys | src/search/filter/types/nested.rs:66-88 | a nested filter is always written with `path`, `query` and `ignore_unmapped` |
| FilterDsl.IgnoreUnmappedRequired | src/search/filter/types/nested.rs:84-87 | `ignore_unmapped` has no default: a nested filter without it is refused |
| FilterInputs.FromExistsInput | src/search/filter/mod.rs:403-419 | `From<ExistsFilterInput>` fills the `exists` slot and no other |
| FilterInputs.FromTermInput | src/search/filter/mod.rs:421-437 | `From<TermFilterInput>` fills the `term` slot and no other |
| FilterInputs.FromTermsInput | src/search/filter/mod.rs:439-455 | `From<TermsFilterInput>` fills the `terms` slot and no other |
| FilterInputs.FromRangeInput | src/search/filter/mod.rs:457-473 | `From<RangeFilterInput>` fills the `range` slot and no other |
| FilterInputs.FromRegexpInput | src/search/filter/mod.rs:475-491 | `From<RegexpFilterInput>` fills the `regexp` slot and no other |
| FilterInputs.FromMatchInput | src/search/filter/mod.rs:493-509 | `From<MatchFilterInput>` fills the `match` slot and no other |
| FilterInputs.FromSimpleQueryStringInput | src/search/filter/mod.rs:511-527 | `From<SimpleQueryStringFilterInput>` fills the `simple_query_string` slot and no other |
| FilterInputs.FromQueryStringInput | src/search/filter/mod.rs:529-545 | `From<QueryStringFilterInput>` fills the `query_string` slot and no other |
| FilterInputs.FromNestedInput | src/search/filter/mod.rs:547-563 | `From<NestedFilterInput>` fills the `nested` slot and no other |
| FilterInputs.BooleanInputFrom | src/search/filter/mod.rs:216-230 | a filter input converted to a boolean input is the only clause, in `filter`, with no settings |
| FilterInputs.CompoundInputFrom | src/search/filter/mod.rs:71-78 | a boolean input converted to a compound input is held as its boolean filter |
| FilterInputs.CompoundInputFromOption | src/search/filter/mod.rs:64-69 | `None` converts to the default compound input, `Some(c)` to `c` |
| FilterInputs.NewNestedInput | src/search/filter/types/nested.rs:43-53 | `new` stores path and query and ignores unmapped paths |
| FilterInputs.PushBooleanInput | src/search/filter/mod.rs:210-213 | `push` appends to `filter` and changes nothing else |
| FilterInputs.PushInput | src/search/filter/mod.rs:48-61 | `push` creates a boolean input holding only the clause when there is none, and appends to its `filter` otherwise |
| FilterInputs.PushNotEmpty | src/search/filter/mod.rs:40-61 | after a push the compound input is not empty and its last `filter` clause is the one pushed |
| FilterInputs.PushTwice | src/search/filter/mod.rs:48-61 | two pushes leave both clauses at the end of `filter` in the order pushed |
| FilterInputs.ToFilters | src/search/filter/mod.rs:315-328 | each converted clause list has the same length and converts item by item |
| FilterInputs.ToCompound | src/search/filter/mod.rs:112-119 | the converted compound filter always holds a boolean filter, the default one when the input has none |
| FilterInputs.ToNested | src/search/filter/types/nested.rs:90-99 | the converted nested filter keeps path and `ignore_unmapped` |
| FilterInputs.ConvertKeepsSlots | src/search/filter/mod.rs:616-631 | converting a filter input fills exactly the slots the input fills |
| FilterInputs.ConvertKeepsEmptiness | src/search/filter/mod.rs:37-119 | a compound input is empty iff the compound filter it converts to is empty |
| FilterInputs.EmptyInputWritesBool | src/search/filter/mod.rs:89-119 | the default compound input converts to a filter written as `{"bool": {}}` |
| FilterInputs.PushThenConvert | src/search/filter/mod.rs:48-61 | pushing then converting equals converting then appending the converted clause to `filter` |
| FilterInputs.NewNestedIgnoresUnmapped | src/search/filter/types/nested.rs:43-99 | a nested input built with `new` converts to a nested filter that ignores unmapped paths |
| SearchRequest.EncodeCursorValue | src/scalars/number_or_string.rs:5-13 | an untagged scalar is written as the bare integer, float or string |
| SearchRequest.EncodeCursor | src/search/request.rs:102-107 | `search_after` is written as an array of the cursor's values, one per value, in order |
| SearchRequest.EncodeSorts | src/search/request.rs:92-95 | `sort` is written as an array of the sorts' encodings, in order |
| SearchRequest.HighlightRoundTrip | src/search/request.rs:168-189 | highlight options are read back as written |
| SearchRequest.Request.constructor | src/search/request.rs:86-134 | a new request holds exactly the fields it is given |
| SearchRequest.Request.QueryMut | src/search/request.rs:136-142 | an edit through `query_mut` changes the query and leaves every other field as it was |
| SearchRequest.Request.PushQuery | src/search/request.rs:136-142 | pushing through `query_mut` makes the query the pushed one and leaves every other field as it was |
| SearchRequest.SlotKeysAreBodyKeys | src/search/request.rs:86-134 | the body's keys are the eight fields, in declaration order, each once |
| SearchRequest.KeyElision | src/search/request.rs:86-134 | the query is written iff not empty, `sort` and `search_after` iff not empty, the options iff set, and `version` and `seq_no_primary_term` always |
| SearchRequest.WrittenValues | src/search/request.rs:88-133 | the values written for query, `size`, `track_total_hits` and `highlight` are their own encodings |
| SearchRequest.PushedQueryWritten | src/search/request.rs:88-90 | after a push the query is not empty, so it is written |
| SearchRequest.MinimalBody | src/search/request.rs:86-134 | a request with nothing set writes only the two flags |
| SearchResponse.ReadRelation | src/search/response.rs:150-161 | a relation is read iff it is `eq` or `gte`, written bare or as `{name: null}`, and it is the one so named |
| SearchResponse.CountRoundTrip | src/search/response.rs:171-178 | a count is read back as Elasticsearch writes it |
| SearchResponse.CountNeedsBothFields | src/search/response.rs:171-178 | a `total` without `relation` or without `value` is refused as a missing field |
| SearchResponse.CountValue | src/search/response.rs:191-194 | the GraphQL count succeeds iff the value fits an `i32`, and then equals it |
| SearchResponse.AsValues | src/search/response.rs:145-146 | `sort` is read iff it is an array, and holds its items |
| SearchResponse.AsHighlight | src/search/response.rs:139-140 | a highlight map comes from an object and has exactly its keys |
| SearchResponse.HighlightOf | src/search/response.rs:139-140 | the map has exactly the keys written, and the last entry's key holds the last entry's strings |
| SearchResponse.HighlightOfGet | src/search/response.rs:139-140 | every key of the map holds the strings of the last value written under that key |
| SearchResponse.AsHighlightGet | src/search/response.rs:139-140 | every key of a highlight read from an object holds the strings of the last value written under that key |
| SearchResponse.DecodeHit | src/search/response.rs:93-147 | a decoded hit has the strings under `_id` and `_index` and what the caller's reader made of `_source` |
| SearchResponse.DecodeHitList | src/search/response.rs:80-81 | a decoded `hits` list comes from an array and has one hit per item |
| SearchResponse.DecodeHitItems | src/search/response.rs:80-81 | the `i`-th decoded hit is the decoding of the `i`-th item |
| SearchResponse.FirstDoc | src/search/response.rs:84-90 | there is no first document iff there are no hits; otherwise it is the first hit's source |
| SearchResponse.EmptyHits | src/search/response.rs:68-82 | `{}` reads as an exact count of zero, no maximum score and no hits, hence no first document |
| SearchResponse.FirstDocIsFirstSource | src/search/response.rs:84-90 | the first document of decoded hits is what the reader made of some `_source` |
| SearchResponse.MinimalHit | src/search/response.rs:93-147 | a hit with only `_id`, `_index` and `_source` has no options, an empty highlight and no sort values |
| SearchResponse.HitNeedsId | src/search/response.rs:97-98 | a hit without `_id` is refused as a missing field |
| SearchResponse.DecodeErr | src/search/response.rs:26-43 | a decoded error report has the root causes read from `root_cause` |
| SearchResponse.ReadRootCause | src/search/response.rs:41-42 | root causes are read only from an absent `root_cause` or a single array |
| SearchResponse.DecodeErrItems | src/search/response.rs:41-42 | the decoded root causes are one per array item |
| SearchResponse.DecodeResponse | src/search/response.rs:8-22 | a body is read as the success variant when it can be, else as the error variant; no variant matches iff neither reads |
| SearchResponse.NoTookNoOk | src/search/response.rs:56-65 | a body without `took` is never a successful response |
| SearchResponse.ErrKeys | src/search/response.rs:26-43 | an error report is written with each field once under its own key, `type` renamed |
| SearchResponse.ErrRoundTrip | src/search/response.rs:26-43 | an error report, root causes and all, is read back as written |
| SearchResponse.ErrItemsRoundTrip | src/search/response.rs:41-42 | a list of root causes is read back as written, in order |
| SearchResponse.RootCauseDefault | src/search/response.rs:41-42 | a report without `root_cause` has no root causes |
| SearchResponse.NullRootCauseRefused | src/search/response.rs:41-42 | a `root_cause` of `null` is refused: the default covers only an absent key |
| SearchResponse.ErrorBodyIsErr | src/search/response.rs:8-22 | an `{error, status}` body is read as the error variant with that report and status |
| Bulk.DecodeOkItem | src/bulk.rs:65-79 | a decoded success has the status, `_id` and `_index` written |
| Bulk.DecodeItem | src/bulk.rs:48-62 | an item is read as a success when it can be, else as an error with its status; no variant matches iff neither reads |
| Bulk.KindOf | src/bulk.rs:29-43 | a key names an operation iff it is `create`, `index`, `update` or `delete`, and the operation is the one so named |
| Bulk.KindNamesRoundTrip | src/bulk.rs:29-43 | each operation is read back from its own snake-case name |
| Bulk.DecodeAction | src/bulk.rs:29-43 | a decoded action comes from a one-key object whose key names its operation |
| Bulk.ActionOfOneKey | src/bulk.rs:29-43 | a one-key object is an action iff its key names an operation and its value is an item, and then it is that action |
| Bulk.ActionNeedsOneKey | src/bulk.rs:29-43 | an object with no key, or with several, is refused |
| Bulk.DecodeActions | src/bulk.rs:24-25 | decoded `items` come from an array, one action per entry, the `i`-th the decoding of the `i`-th entry |
| Bulk.DecodeActionItems | src/bulk.rs:24-25 | every entry is decoded in order, and a failure comes from some entry that does not decode |
| Bulk.MinimalOkItem | src/bulk.rs:65-79 | a success without `get` carries no document |
| Bulk.NullSourceIsNone | src/bulk.rs:82-87 | a `get` whose `_source` is `null` or absent carries no document |
| Bulk.ErrorItem | src/bulk.rs:48-62 | an `{error, status}` item is read as the error variant with that report and status |
| Bulk.ItemsDefault | src/bulk.rs:14-26 | a response without `items` lists no results |
| Bulk.ResultsInOrder | src/bulk.rs:14-26 | the results are none when `items` is absent, and otherwise the decoding, entry by entry, of the one `items` array |
| AggregationRequest.EncodeChildren | src/aggregation/serialization_deserialization.rs:476-492 | the child map has one entry per child, in order, each under the child's name |
| AggregationRequest.Encode | src/aggregation/serialization_deserialization.rs:213-222 | an aggregation is written as a one-key object whose key is its name |
| AggregationRequest.Decode | src/aggregation/serialization_deserialization.rs:240-252 | a decoded aggregation comes from a one-key object and is named by that key; an empty object is a missing `name` |
| AggregationRequest.BodyValues | src/aggregation/serialization_deserialization.rs:28-96 | every kind, `filter`, `meta` and `aggs` is written once under its own key when set, and not at all when unset |
| AggregationRequest.FlatRoundTrip | src/aggregation/serialization_deserialization.rs:28-96 | every field but `aggs` of a well-formed body is read back from its encoding |
| AggregationRequest.SubRoundTrip | src/aggregation/serialization_deserialization.rs:28-96 | decoding the encoding of a well-formed body gives it back, children included |
| AggregationRequest.ChildrenRoundTrip | src/aggregation/serialization_deserialization.rs:476-509 | the children of a well-formed body are read back from the child map in order |
| AggregationRequest.RoundTrip | src/aggregation/serialization_deserialization.rs:213-258 | decoding the encoding of an aggregation whose body is well formed gives it back |
| AggregationRequest.DistinctAllKept | src/aggregation/serialization_deserialization.rs:503-506 | a child map whose names are distinct keeps every entry, in order |
| AggregationRequest.LastWinsIsAMap | src/aggregation/serialization_deserialization.rs:503-506 | the children read from a map have distinct names, one for every name written, each taken from the entries |
| AggregationRequest.LaterChildKept | src/aggregation/serialization_deserialization.rs:503 | of two children written under one name, the later is kept |
| AggregationRequest.EveryEntryDecoded | src/aggregation/serialization_deserialization.rs:503 | a child body that does not decode fails the whole map, even when a later entry replaces it |
| AggregationRequest.EmptyObjectDefaults | src/aggregation/serialization_deserialization.rs:28-96 | every field has a default: `{}` reads as the empty body |
| AggregationRequest.NullAggsDefaults | src/aggregation/serialization_deserialization.rs:498-509 | `"aggs": null` reads as no children |
| AggregationRequest.AggsMustBeAMap | src/aggregation/serialization_deserialization.rs:502-503 | `aggs` holding anything but a map is refused |
| AggregationResponse.Lower | src/aggregation/response.rs:120 | lower-casing keeps the length and maps each character |
| AggregationResponse.WireTagRoundTrip | src/aggregation/response.rs:116-148 | each known type is read back from its own tag |
| AggregationResponse.TableRoundTrip | src/aggregation/response.rs:121-145 | the table maps each tag to its own type |
| AggregationResponse.TyOfLowerTag | src/aggregation/response.rs:121-146 | a known type is yielded only for that type's own tag |
| AggregationResponse.TyFromIff | src/aggregation/response.rs:116-148 | a string names a known type exactly when its lower-cased form is that type's tag |
| AggregationResponse.CaseInsensitive | src/aggregation/response.rs:120 | strings that lower-case alike name the same type |
| AggregationResponse.LowerOfLower | src/aggregation/response.rs:120 | lower-casing twice is lower-casing once |
| AggregationResponse.UpperCaseTag | src/aggregation/response.rs:120-132 | `VALUE_COUNT` names the value-count type |
| AggregationResponse.UnlistedTags | src/aggregation/response.rs:136-146 | `sterms` is significant terms; `histogram`, `variable_width_histogram` and `significant_terms` are unknown |
| AggregationResult.Insert | src/aggregation/serialization_deserialization.rs:439 | inserting under a name keeps names distinct, holds the new node under that name and keeps every other entry |
| AggregationResult.Split | src/aggregation/serialization_deserialization.rs:335 | splitting on `#` gives at least one piece and no piece holds `#` |
| AggregationResult.SplitJoin | src/aggregation/serialization_deserialization.rs:335 | joining the pieces back with `#` gives the key |
| AggregationResult.ConcatSplit | src/aggregation/serialization_deserialization.rs:341 | joining the pieces with "" drops exactly the `#` characters |
| AggregationResult.SplitWithoutHash | src/aggregation/serialization_deserialization.rs:337-339 | a key without `#` is an unknown-typed aggregation of that name |
| AggregationResult.SplitWithHash | src/aggregation/serialization_deserialization.rs:340-342 | a key with `#` has the type named before the first `#` and the rest, without `#`, as its name |
| AggregationResult.SplitNestedHashes | src/aggregation/serialization_deserialization.rs:341 | `a#b#c` names the aggregation `bc` |
| AggregationResult.SplitTypedKey | src/aggregation/serialization_deserialization.rs:340-342 | `sterms#top` is the significant-terms aggregation `top` |
| AggregationResult.ValueOrDocCount | src/aggregation/serialization_deserialization.rs:358-369 | a node has a value iff it has `value`, or `doc_count` and no buckets; `value` wins |
| AggregationResult.ShouldSkip | src/aggregation/serialization_deserialization.rs:371-381 | a node is skipped iff its metadata holds `_skip` with the boolean `true` |
| AggregationResult.Stamp | src/aggregation/serialization_deserialization.rs:448-456 | each child takes the node's key as its `parent_key`; nothing else changes |
| AggregationResult.DecodeNodes | src/aggregation/serialization_deserialization.rs:429 | a decoded `buckets` array has one node per element |
| AggregationResult.ReadNode | src/aggregation/serialization_deserialization.rs:401-459 | the visitor's loop over the entries computes the node the decoder specifies |
| AggregationResult.ReadNodes | src/aggregation/serialization_deserialization.rs:429 | the loop over a `buckets` array computes the decoded list |
| AggregationResult.VisitAppend | src/aggregation/serialization_deserialization.rs:420-446 | reading one more entry continues from the node read so far |
| AggregationResult.ChildrenStamped | src/aggregation/serialization_deserialization.rs:448-456 | every child of a decoded node carries the node's key |
| AggregationResult.DecodedNamesDistinct | src/aggregation/serialization_deserialization.rs:436-440 | a decoded node names each child aggregation once |
| AggregationResult.NodeShape | src/aggregation/serialization_deserialization.rs:385-418 | only objects are nodes; `{}` is the empty node |
| AggregationResult.UndecodableEntryDropped | src/aggregation/serialization_deserialization.rs:436-444 | an unreserved entry whose value is not a node is dropped without error, as when decoding an already parsed `serde_json::Value` |
| AggregationResult.DecodableEntryKept | src/aggregation/serialization_deserialization.rs:436-456 | an unreserved entry whose value is a node becomes a child under its key, stamped with the parent's key |
| AggregationResult.KeyEntry | src/aggregation/serialization_deserialization.rs:422-426 | `key` sets the key only when it is a string and never fails |
| AggregationResult.KeyAsStringEntry | src/aggregation/serialization_deserialization.rs:427 | `key_as_string` must be a string and replaces any earlier key |
| AggregationResult.DecodeAggregations | src/aggregation/serialization_deserialization.rs:261-265 | the top-level aggregations of a decoded response have distinct names |
| AggregationResult.PositionalAggregations | src/aggregation/serialization_deserialization.rs:261-265 | the derived record also reads the array form: `[]` has no aggregations, `[m]` holds the map `m`, and a longer array is refused |
| AggregationResult.NoAggregations | src/aggregation/serialization_deserialization.rs:263 | a response without `aggregations` or `aggs` has none |
| AggregationResult.BothSpellings | src/aggregation/serialization_deserialization.rs:263 | `aggregations` and its alias `aggs` together are refused as a duplicate field |
| AggregationFlatten.HandleLeaf | src/aggregation/serialization_deserialization.rs:285-310 | the leaf step adds the node's contribution, if any, to the results map |
| AggregationFlatten.WalkBuckets | src/aggregation/serialization_deserialization.rs:316-322 | walking the buckets logs or pushes exactly their contributions and keeps the map the grouping of the log |
| AggregationFlatten.WalkBucket | src/aggregation/serialization_deserialization.rs:317-321 | a bucket without aggregations is a leaf; one with aggregations has them pushed under the aggregation's `parent_key` |
| AggregationFlatten.WalkEntry | src/aggregation/serialization_deserialization.rs:282-323 | one aggregation contributes itself, its children (pushed with no parent) and its buckets |
| AggregationFlatten.FlattenResults | src/aggregation/serialization_deserialization.rs:273-324 | the walk's map is the grouping of an ordering of exactly the contributions of the tree |
| AggregationFlatten.ResponseFrom | src/aggregation/serialization_deserialization.rs:267-330 | the response lists each grouped result once |
| AggregationFlatten.WalkFrame | src/aggregation/serialization_deserialization.rs:282-320 | walking one popped frame adds exactly that frame's contributions to the log and the pending stack, keeps the map equal to the grouping of the log, and grows the stack by no more than the frame's size |
| AggregationFlatten.ListResults | src/aggregation/serialization_deserialization.rs:327-329 | collecting a map keyed by each result's `(parent, name)` lists every value once |
| AggregationFlatten.GroupKeysConsistent | src/aggregation/serialization_deserialization.rs:291-299 | each result sits under its own `(parent, name)` |
| AggregationFlatten.GroupKeys | src/aggregation/serialization_deserialization.rs:289-299 | there is a result for a key iff some contribution has that key |
| AggregationFlatten.GroupContents | src/aggregation/serialization_deserialization.rs:301-307 | a result holds every value under its key in order, and the fields of the contributions that had one |
| AggregationFlatten.GroupFirst | src/aggregation/serialization_deserialization.rs:292-299 | a result's type and metadata are those of the first contribution under its key |
| AggregationFlatten.FieldsNeverOutnumberValues | src/aggregation/serialization_deserialization.rs:301-307 | no result has more fields than values |
| AggregationFlatten.SkippedNodeStillWalked | src/aggregation/serialization_deserialization.rs:286-322 | a skipped node adds nothing of its own, but its children and buckets are still walked |
| AggregationFlatten.ChildrenWalkedWithoutParent | src/aggregation/serialization_deserialization.rs:314 | a node's own aggregations are walked with no parent |

## Left out

- Network I/O through the Elasticsearch client and its async runtime (`examples/search.rs`) is not modelled. The model starts and ends at JSON values.
- `AggregationResult.UndecodableEntryDropped`: decoders follow serde_json reading JSON text, for written order and duplicate keys, except here. An unreserved aggregation entry whose value is not a node is dropped, as `serde_json::from_value` drops it from an already parsed value. Read straight from text (`response.json()`), serde_json may instead fail the whole decode at such an entry whose value it refused part way, such as an array; that reading is not modelled. An already parsed `serde_json::Value` cannot hold duplicate keys and, without the `preserve_order` feature, iterates its keys in sorted order; that reading is not modelled either.
- JSON text is not modelled: there is no lexing, parsing or printing, and no number rounding. Numbers are a mantissa and a decimal exponent. The `u64`, `u16` and `i32` readers take integer lexemes in range, and the float readers take any number.
- Floating point is not modelled: `boost`, `value`, `max_score` and `score` are opaque. The `doc_count as f64` cast is the exact value, with no rounding above 2^53.
- `HashMap` order is not modelled; each decoded map keeps one entry per key in one of the orders the source allows. `AggregationRequest.LastWins` (the child map of a request body) keeps the last entry of each name, in the order of those last entries. `AggregationResult.Insert`, and so `AggregationResult.DecodeNamedNodes` and the visitor's child map, keep a repeated name at the position of its first occurrence, holding the last value written. The flattener's results are stated for every order in which entries may be met, and its output list is stated only as listing each result once.
- The filter leaf kinds term, terms, range, regexp, simple query string and query string are carried as opaque JSON payloads in the filter records. Their files under `src/search/filter/types/` are not part of this model.
- The payloads of the aggregation kinds (`src/aggregation/types/`) and of scripts (`src/search/script.rs`) are carried as opaque JSON. They are serde-derived records with no hand-written logic.
- The request-side `Aggregation` record and `AggregationInput` are declared in a file that is not part of this model (`src/aggregation/request.rs` is not part of this model). An aggregation is modelled as a name paired with its `SubAggregation` body, which the conversions copy field for field.
- The GraphQL surface is not modelled: the `*Input` query types and their `From` conversions into query records, `NestedQueryInput::new` (`src/search/query/nested.rs:50-60`), `RequestInput`, `SortInput`, `HighlightOptionsInput`, input defaults and async resolvers. The one resolver with logic, `Count.value`, is modelled as `SearchResponse.CountValue`.
- The wrapper types are not modelled: the cursor (`src/search/cursor.rs`, a base64 wrapper), `src/scalars/json.rs` (a `serde_json::Map` wrapper; the model uses JSON objects directly) and `SortedValue` (`src/scalars/sorted_value.rs`). `NumberOrString` is modelled only as it is written in `search_after`.
- Which error is reported when several apply is not modelled. Most refusal lemmas state only that decoding fails, and they name the error only where one alone applies.
- Duplicate keys inside user metadata maps (`meta`) are kept as written; no lemma speaks of them.
- `AggregationResponse.Lower`: lower-casing in `Ty::from` is modelled for ASCII letters only. Rust's `to_lowercase` also folds non-ASCII characters, and some of them lower-case to ASCII letters: the Kelvin sign U+212A becomes `k`, so the source reads `"BUC\u{212A}ET_SORT"` as the bucket-sort type, while `AggregationResponse.TyFromIff` calls it unknown.
- `push` on the query and filter records is modelled as a function from the old record to the new one, because these records are values inside recursive trees. The in-place edit is modelled where the source hands out the reference, in `SearchRequest.Request.QueryMut`.
- The inner maps that the regexp and match encoders build from a local `HashMap` are written in one fixed key order. The source leaves that order to the map.
- `terms`: the visitor's final `missing("values")` branch cannot be reached once a field has been read, and the model has no such branch.
- A hit's `_source` is required. For a document type `T` that is itself an `Option`, serde would accept an absent `_source`; that case is not modelled.
- `HighlightOptions.fields` is an object carried as its member list. Its key order is kept as written, not as a map would give it, and a duplicate key is kept as written, where a `serde_json::Map` keeps only the last value.
- Bulk: the `errors` flag is read as written and not checked against the items, as in the source.
