/**
  The body of a search request (`src/search/request.rs`): a record that is
  only ever written.  Most fields are left out of the body when they hold
  nothing; `version` and `seq_no_primary_term` are always written.  The
  query is reached for in-place edits through `query_mut`.
*/
module SearchRequest {
  import opened JsonModel
  import QueryDsl
  import Sort

  /** `NumberOrString`: an untagged scalar, written as the bare value. */
  datatype NumberOrString = Int(i: I32) | Float(f: JsonModel.Float) | Str(s: string)

  function EncodeCursorValue(v: NumberOrString): (j: Json)
    ensures v.Int? ==> j == JInt(v.i)
    ensures v.Float? ==> j == JNumber(v.f)
    ensures v.Str? ==> j == JString(v.s)
  {
    match v
    case Int(i) => JInt(i)
    case Float(f) => JNumber(f)
    case Str(s) => JString(s)
  }

  function EncodeCursor(vs: seq<NumberOrString>): (j: Json)
    ensures j.JArray? && |j.items| == |vs|
    ensures forall i :: 0 <= i < |vs| ==> j.items[i] == EncodeCursorValue(vs[i])
  {
    JArray(seq(|vs|, i requires 0 <= i < |vs| => EncodeCursorValue(vs[i])))
  }

  function EncodeSorts(ss: seq<Sort.Sort>): (j: Json)
    ensures j.JArray? && |j.items| == |ss|
    ensures forall i :: 0 <= i < |ss| ==> j.items[i] == Sort.Encode(ss[i])
  {
    JArray(seq(|ss|, i requires 0 <= i < |ss| => Sort.Encode(ss[i])))
  }

  /** `HighlightOptions`: three required fields, `fields` an object. */
  datatype HighlightOptions = HighlightOptions(tagsSchema: string, numberOfFragments: I32, fields: Members)

  function EncodeHighlight(h: HighlightOptions): Json {
    JObject([("tags_schema", JString(h.tagsSchema)),
             ("number_of_fragments", JInt(h.numberOfFragments)),
             ("fields", JObject(h.fields))])
  }

  const HighlightFields: seq<FieldSpec> :=
    [("tags_schema", false), ("number_of_fragments", false), ("fields", false)]

  /** The derived `Deserialize for HighlightOptions`. */
  function DecodeHighlight(j: Json): Result<HighlightOptions> {
    var ms :- Record(j, HighlightFields);
    var tagsSchema :- Required(ms, "tags_schema", AsString);
    var numberOfFragments :- Required(ms, "number_of_fragments", AsI32);
    var fields :- Required(ms, "fields", AsObject);
    Ok(HighlightOptions(tagsSchema, numberOfFragments, fields))
  }

  /** Highlight options read back as written. */
  lemma HighlightRoundTrip(h: HighlightOptions)
    ensures DecodeHighlight(EncodeHighlight(h)) == Ok(h)
  {
    var ms := EncodeHighlight(h).members;
    assert DistinctKeys(ms);
    ValuesAtDistinct(ms, 0);
    ValuesAtDistinct(ms, 1);
    ValuesAtDistinct(ms, 2);
  }

  /** The keys of the body, in the order the fields are declared. */
  const BodyKeys: seq<string> :=
    ["query", "sort", "size", "search_after", "version", "seq_no_primary_term", "track_total_hits", "highlight"]

  class Request {
    var query: QueryDsl.CompoundQuery
    var sort: seq<Sort.Sort>
    var size: Option<U64>
    var after: seq<NumberOrString>
    var version: bool
    var seqNoPrimaryTerm: bool
    var trackTotalHits: Option<U64>
    var highlight: Option<HighlightOptions>

    constructor (query: QueryDsl.CompoundQuery, sort: seq<Sort.Sort>, size: Option<U64>,
                 after: seq<NumberOrString>, version: bool, seqNoPrimaryTerm: bool,
                 trackTotalHits: Option<U64>, highlight: Option<HighlightOptions>)
      ensures this.query == query && this.sort == sort && this.size == size && this.after == after
      ensures this.version == version && this.seqNoPrimaryTerm == seqNoPrimaryTerm
      ensures this.trackTotalHits == trackTotalHits && this.highlight == highlight
    {
      this.query := query;
      this.sort := sort;
      this.size := size;
      this.after := after;
      this.version := version;
      this.seqNoPrimaryTerm := seqNoPrimaryTerm;
      this.trackTotalHits := trackTotalHits;
      this.highlight := highlight;
    }

    /** One slot per field; a slot left empty is not written. */
    function Slots(): seq<Slot>
      reads this
    {
      [ ("query", if QueryDsl.IsEmpty(query) then None else Some(QueryDsl.EncodeCompound(query))),
        ("sort", if sort == [] then None else Some(EncodeSorts(sort))),
        ("size", if size.Some? then Some(JInt(size.value)) else None),
        ("search_after", if after == [] then None else Some(EncodeCursor(after))),
        ("version", Some(JBool(version))),
        ("seq_no_primary_term", Some(JBool(seqNoPrimaryTerm))),
        ("track_total_hits", if trackTotalHits.Some? then Some(JInt(trackTotalHits.value)) else None),
        ("highlight", OptJson(highlight, EncodeHighlight)) ]
    }

    /** The derived `Serialize for Request`. */
    function Encode(): Json
      reads this
    {
      JObject(Emit(Slots()))
    }

    /** `query_mut`: the caller edits the query in place; every other field
        keeps its value. */
    method QueryMut(edit: QueryDsl.CompoundQuery -> QueryDsl.CompoundQuery)
      modifies this
      ensures query == edit(old(query))
      ensures sort == old(sort) && size == old(size) && after == old(after)
      ensures version == old(version) && seqNoPrimaryTerm == old(seqNoPrimaryTerm)
      ensures trackTotalHits == old(trackTotalHits) && highlight == old(highlight)
    {
      query := edit(query);
    }

    /** `request.query_mut().push(q)`: the clause is appended to the query's
        `filter` list and nothing else changes. */
    method PushQuery(q: QueryDsl.Query)
      modifies this
      ensures query == QueryDsl.Push(old(query), q)
      ensures sort == old(sort) && size == old(size) && after == old(after)
      ensures version == old(version) && seqNoPrimaryTerm == old(seqNoPrimaryTerm)
      ensures trackTotalHits == old(trackTotalHits) && highlight == old(highlight)
    {
      QueryMut(c => QueryDsl.Push(c, q));
    }
  }

  lemma SlotKeysAreBodyKeys(r: Request)
    ensures SlotKeys(r.Slots()) == BodyKeys
    ensures DistinctSlots(r.Slots())
  {
  }

  /** What is written for each field: the query only when it is not empty,
      `sort` and `search_after` only when they hold something, the options
      only when set, and the two flags always. */
  lemma KeyElision(r: Request)
    ensures "query" in Keys(r.Encode().members) <==> !QueryDsl.IsEmpty(r.query)
    ensures "sort" in Keys(r.Encode().members) <==> r.sort != []
    ensures "search_after" in Keys(r.Encode().members) <==> r.after != []
    ensures "size" in Keys(r.Encode().members) <==> r.size.Some?
    ensures "track_total_hits" in Keys(r.Encode().members) <==> r.trackTotalHits.Some?
    ensures "highlight" in Keys(r.Encode().members) <==> r.highlight.Some?
    ensures ValuesAt(r.Encode().members, "version") == [JBool(r.version)]
    ensures ValuesAt(r.Encode().members, "seq_no_primary_term") == [JBool(r.seqNoPrimaryTerm)]
  {
    var slots := r.Slots();
    SlotKeysAreBodyKeys(r);
    EmitLookup(slots, 0);
    EmitLookup(slots, 1);
    EmitLookup(slots, 2);
    EmitLookup(slots, 3);
    EmitLookup(slots, 4);
    EmitLookup(slots, 5);
    EmitLookup(slots, 6);
    EmitLookup(slots, 7);
  }

  /** The values written for the options are the options' own encodings. */
  lemma WrittenValues(r: Request)
    ensures !QueryDsl.IsEmpty(r.query) ==> ValuesAt(r.Encode().members, "query") == [QueryDsl.EncodeCompound(r.query)]
    ensures r.size.Some? ==> ValuesAt(r.Encode().members, "size") == [JInt(r.size.value)]
    ensures r.trackTotalHits.Some? ==> ValuesAt(r.Encode().members, "track_total_hits") == [JInt(r.trackTotalHits.value)]
    ensures r.highlight.Some? ==> ValuesAt(r.Encode().members, "highlight") == [EncodeHighlight(r.highlight.value)]
  {
    var slots := r.Slots();
    SlotKeysAreBodyKeys(r);
    EmitLookup(slots, 0);
    EmitLookup(slots, 2);
    EmitLookup(slots, 6);
    EmitLookup(slots, 7);
  }

  /** After a push through `query_mut` the query is written. */
  lemma PushedQueryWritten(r: Request, before: QueryDsl.CompoundQuery, q: QueryDsl.Query)
    requires r.query == QueryDsl.Push(before, q)
    ensures "query" in Keys(r.Encode().members)
  {
    QueryDsl.PushNotEmpty(before, q);
    KeyElision(r);
  }

  /** A request with nothing set but the two flags writes only them. */
  lemma MinimalBody(r: Request)
    requires QueryDsl.IsEmpty(r.query) && r.sort == [] && r.after == []
    requires r.size.None? && r.trackTotalHits.None? && r.highlight.None?
    ensures r.Encode() == JObject([("version", JBool(r.version)), ("seq_no_primary_term", JBool(r.seqNoPrimaryTerm))])
  {
    var s := r.Slots();
    assert s == [s[0], s[1], s[2], s[3], s[4], s[5], s[6], s[7]];
    MiddlePairOnly(s[0], s[1], s[2], s[3], s[4], s[5], s[6], s[7]);
  }

  /** Eight slots of which only the fifth and sixth hold a value write those two. */
  lemma MiddlePairOnly(a: Slot, b: Slot, c: Slot, d: Slot, e: Slot, f: Slot, g: Slot, h: Slot)
    requires a.1.None? && b.1.None? && c.1.None? && d.1.None? && g.1.None? && h.1.None?
    ensures Emit([a, b, c, d, e, f, g, h]) == Member(e) + Member(f)
  {
    assert [a, b, c, d, e, f, g, h] == [a, b, c, d] + ([e, f] + [g, h]);
    EmitAppend([a, b, c, d], [e, f] + [g, h]);
    EmitAppend([e, f], [g, h]);
    EmitNone([a, b, c, d]);
    EmitNone([g, h]);
    EmitPair(e, f);
  }
}
