/**
  The aggregation request encoder (`src/aggregation/serialization_deserialization.rs`).
  An aggregation is a name and a body; on the wire it is the one-key object
  `{name: body}`.  The body (`SubAggregation`) holds one optional slot per
  kind of aggregation, the `filter` slot (a compound query), the metadata
  under `meta`, and the child aggregations under `aggs` as an object from
  child name to child body.

  The request-side `Aggregation` record is declared in a file that is not
  part of this model; it carries the same fields as `SubAggregation` plus
  the name, and the conversions between the two copy every field, so the
  model writes it as a name paired with a body.  The payload of every kind
  other than `filter` is carried as an opaque JSON value.
*/
module AggregationRequest {
  import opened JsonModel
  import QueryDsl

  /** The metric kinds, in declaration order, before the `filter` slot. */
  const MetricNames: seq<string> := [
    "avg", "weighted_avg", "cardinality", "max", "min", "median_absolute_deviation",
    "percentiles", "percentile_ranks", "stats", "extended_stats", "sum", "value_count"]

  /** The bucketing and pipeline kinds after it. */
  const BucketNames: seq<string> := [
    "terms", "range", "date_range", "date_histogram", "auto_date_histogram", "histogram",
    "variable_width_histogram", "bucket_script", "bucket_selector", "bucket_sort",
    "nested", "reverse_nested"]

  /** Every key a body is written with, in order. */
  const AllNames: seq<string> := MetricNames + ["filter"] + BucketNames + ["meta", "aggs"]

  /** One optional payload per kind of a run of twelve. */
  type Payloads = s: seq<Option<Json>> | |s| == 12 witness seq(12, i => None)

  datatype SubAggregation = SubAggregation(
    metrics: Payloads,
    filters: Option<QueryDsl.CompoundQuery>,
    buckets: Payloads,
    metadata: Option<Members>,
    aggregations: Children)

  /** The optional map of child aggregations, with its entries in order.
      (A dedicated type rather than `Option` so that termination can see a
      child is smaller than its parent.) */
  datatype Children = NoChildren | Children(list: seq<Aggregation>)

  datatype Aggregation = Aggregation(name: string, body: SubAggregation)

  /** `From<Aggregation> for SubAggregation`. */
  function ToSub(a: Aggregation): SubAggregation {
    a.body
  }

  /** `Aggregation::from_sub_aggregation`. */
  function FromSub(name: string, s: SubAggregation): Aggregation {
    Aggregation(name, s)
  }

  // ---------------------------------------------------------------------
  // Encoding.

  function KindSlots(names: seq<string>, kinds: Payloads): (slots: seq<Slot>)
    requires |names| == 12
    ensures SlotKeys(slots) == names
    ensures forall i :: 0 <= i < 12 ==> slots[i] == (names[i], kinds[i])
  {
    seq(12, i requires 0 <= i < 12 => (names[i], kinds[i]))
  }

  function BodySlots(s: SubAggregation): seq<Slot>
    decreases s, 1
  {
    KindSlots(MetricNames, s.metrics)
    + [("filter", if s.filters.Some? then Some(QueryDsl.EncodeCompound(s.filters.value)) else None)]
    + KindSlots(BucketNames, s.buckets)
    + [ ("meta", if s.metadata.Some? then Some(JObject(s.metadata.value)) else None),
        ("aggs", if s.aggregations.Children? then Some(EncodeChildren(s, s.aggregations.list)) else None) ]
  }

  /** The derived `Serialize for SubAggregation`. */
  function EncodeSub(s: SubAggregation): Json
    decreases s, 2
  {
    JObject(Emit(BodySlots(s)))
  }

  /** `serde_sub_aggregations::serialize`: each child under its own name,
      in order. */
  function EncodeChildren(s: SubAggregation, children: seq<Aggregation>): (j: Json)
    requires s.aggregations == Children(children)
    ensures j.JObject? && |j.members| == |children|
    ensures forall i :: 0 <= i < |children| ==> j.members[i].0 == children[i].name
    decreases s, 0
  {
    JObject(seq(|children|, i requires 0 <= i < |children| =>
      assert children[i] in s.aggregations.list;
      (children[i].name, EncodeSub(children[i].body))))
  }

  /** `Serialize for Aggregation`: the one key is the name. */
  function Encode(a: Aggregation): (j: Json)
    ensures j.JObject? && |j.members| == 1 && j.members[0].0 == a.name
  {
    JObject([(a.name, EncodeSub(ToSub(a)))])
  }

  // ---------------------------------------------------------------------
  // Decoding.

  /** Every field of `SubAggregation` has a serde default. */
  const SubFields: seq<FieldSpec> := seq(|AllNames|, i requires 0 <= i < |AllNames| => (AllNames[i], true))

  function AsPayload(j: Json): (r: Result<Json>)
    ensures r == Ok(j)
  {
    Ok(j)
  }

  /** The payloads of a run of kinds, from the `n`-th on. */
  function ReadKinds(ms: Members, names: seq<string>, n: nat): (r: Result<seq<Option<Json>>>)
    requires n <= |names|
    ensures r.Ok? ==> |r.value| == |names| - n
    decreases |names| - n
  {
    if n == |names| then Ok([])
    else
      var k :- Optional(ms, names[n], AsPayload);
      var rest :- ReadKinds(ms, names, n + 1);
      Ok([k] + rest)
  }

  function DecodeSub(j: Json): Result<SubAggregation>
    decreases j, 2, 0
  {
    var ms :- Record(j, SubFields);
    var metrics :- ReadKinds(ms, MetricNames, 0);
    var filters :- Optional(ms, "filter", QueryDsl.DecodeCompound);
    var buckets :- ReadKinds(ms, BucketNames, 0);
    var metadata :- Optional(ms, "meta", AsObject);
    var aggregations :- ReadAggs(j, ms);
    Ok(SubAggregation(metrics, filters, buckets, metadata, aggregations))
  }

  /** `serde_sub_aggregations::deserialize`: `null` or absent gives `None`;
      otherwise an object read as a map from name to body. */
  function ReadAggs(j: Json, ms: Members): Result<Children>
    requires Record(j, SubFields) == Ok(ms)
    decreases j, 1, 0
  {
    var p :- Present(ms, "aggs");
    if p.None? then Ok(NoChildren)
    else if !p.value.JObject? then Err(InvalidType("a map"))
    else
      RecordInside(j, SubFields, "aggs", 0);
      var entries :- DecodeEntries(p.value, 0);
      Ok(Children(LastWins(entries, 0)))
  }

  /** Every entry of the map `v` from the `n`-th on, its body decoded. */
  function DecodeEntries(v: Json, n: nat): (r: Result<seq<Aggregation>>)
    requires v.JObject? && n <= |v.members|
    ensures r.Ok? ==> |r.value| == |v.members| - n
    decreases v, 0, |v.members| - n
  {
    if n == |v.members| then Ok([])
    else
      var body :- DecodeChild(v, n);
      var rest :- DecodeEntries(v, n + 1);
      Ok([FromSub(v.members[n].0, body)] + rest)
  }

  /** The body of the `n`-th entry of the map `v`. */
  function DecodeChild(v: Json, n: nat): Result<SubAggregation>
    requires v.JObject? && n < |v.members|
    decreases v, 0, 0
  {
    DecodeSub(v.members[n].1)
  }

  /** The `n`-th entry's name is not written again later: a map keeps it. */
  predicate KeptAt(entries: seq<Aggregation>, n: nat)
    requires n < |entries|
  {
    forall m :: n < m < |entries| ==> entries[m].name != entries[n].name
  }

  /** A map built from `entries[n..]` in order: of a name written twice
      only the last entry is kept. */
  function LastWins(entries: seq<Aggregation>, n: nat): (r: seq<Aggregation>)
    requires n <= |entries|
    ensures |r| <= |entries| - n
    decreases |entries| - n
  {
    if n == |entries| then []
    else if KeptAt(entries, n) then [entries[n]] + LastWins(entries, n + 1)
    else LastWins(entries, n + 1)
  }

  /** The `Aggregation` visitor: the first key is the name and its value the
      body.  serde_json refuses an object with entries left over. */
  function Decode(j: Json): (r: Result<Aggregation>)
    ensures r.Ok? ==> j.JObject? && |j.members| == 1 && r.value.name == j.members[0].0
    ensures j == JObject([]) ==> r == Err(MissingField("name"))
  {
    var (name, body) :- OneEntry(j, "name");
    var sub :- DecodeSub(body);
    Ok(FromSub(name, sub))
  }

  // ---------------------------------------------------------------------
  // Round trip.

  /** What the round trip needs: no payload is `null` (it would read back
      as absent), every filter is itself well formed, and no two children
      of one body share a name (a map keeps only one of them). */
  predicate WellFormedSub(s: SubAggregation)
    decreases s
  {
    (forall i :: 0 <= i < 12 ==> s.metrics[i] != Some(JNull))
    && (forall i :: 0 <= i < 12 ==> s.buckets[i] != Some(JNull))
    && (s.filters.Some? ==> QueryDsl.WellFormedCompound(s.filters.value))
    && (s.aggregations.Children? ==>
          DistinctNames(s.aggregations.list)
          && forall a | a in s.aggregations.list :: WellFormedSub(a.body))
  }

  predicate DistinctNames(children: seq<Aggregation>) {
    forall i, k :: 0 <= i < k < |children| ==> children[i].name != children[k].name
  }

  lemma AllNamesDistinct()
    ensures |AllNames| == 27
    ensures forall i, k :: 0 <= i < k < 27 ==> AllNames[i] != AllNames[k]
  {
    RunsDistinct();
    forall i, k | 0 <= i < k < 27 ensures AllNames[i] != AllNames[k] {
      NameAt(i);
      NameAt(k);
    }
  }

  /** Each run lists distinct names, and no name is in two runs. */
  lemma RunsDistinct()
    ensures forall i, k :: 0 <= i < k < 12 ==> MetricNames[i] != MetricNames[k]
    ensures forall i, k :: 0 <= i < k < 12 ==> BucketNames[i] != BucketNames[k]
    ensures forall i, k :: 0 <= i < 12 && 0 <= k < 12 ==> MetricNames[i] != BucketNames[k]
    ensures forall n :: n in ["filter", "meta", "aggs"] ==> n !in MetricNames && n !in BucketNames
  {
    MetricsDistinct();
    BucketsDistinct();
    RunsApart();
  }

  lemma MetricsDistinct()
    ensures forall i, k :: 0 <= i < k < 12 ==> MetricNames[i] != MetricNames[k]
  {
  }

  lemma BucketsDistinct()
    ensures forall i, k :: 0 <= i < k < 12 ==> BucketNames[i] != BucketNames[k]
  {
  }

  lemma RunsApart()
    ensures forall i, k :: 0 <= i < 12 && 0 <= k < 12 ==> MetricNames[i] != BucketNames[k]
    ensures forall n :: n in ["filter", "meta", "aggs"] ==> n !in MetricNames && n !in BucketNames
  {
  }

  /** Which run the `i`-th key of a body comes from. */
  lemma NameAt(i: nat)
    requires i < 27
    ensures |AllNames| == 27
    ensures i < 12 ==> AllNames[i] == MetricNames[i]
    ensures i == 12 ==> AllNames[i] == "filter"
    ensures 13 <= i < 25 ==> AllNames[i] == BucketNames[i - 13]
    ensures i == 25 ==> AllNames[i] == "meta"
    ensures i == 26 ==> AllNames[i] == "aggs"
  {
  }

  /** Where each field of a body sits among its slots. */
  lemma BodySlotsAt(s: SubAggregation)
    ensures |BodySlots(s)| == 27 && SlotKeys(BodySlots(s)) == AllNames
    ensures forall i :: 0 <= i < 12 ==> BodySlots(s)[i] == (MetricNames[i], s.metrics[i])
    ensures forall i :: 0 <= i < 12 ==> BodySlots(s)[13 + i] == (BucketNames[i], s.buckets[i])
    ensures BodySlots(s)[12].1 == (if s.filters.Some? then Some(QueryDsl.EncodeCompound(s.filters.value)) else None)
    ensures BodySlots(s)[25].1 == (if s.metadata.Some? then Some(JObject(s.metadata.value)) else None)
    ensures BodySlots(s)[26].1 == (if s.aggregations.Children? then Some(EncodeChildren(s, s.aggregations.list)) else None)
  {
    var a := KindSlots(MetricNames, s.metrics);
    var b := KindSlots(BucketNames, s.buckets);
    forall i | 0 <= i < 12 ensures BodySlots(s)[13 + i] == b[i] {
      assert BodySlots(s)[13 + i] == (a + [BodySlots(s)[12]] + b)[13 + i];
    }
  }

  /** Every key of an encoded body holds exactly its slot's value. */
  lemma BodyValues(s: SubAggregation)
    ensures forall i :: 0 <= i < 12 ==> ValuesAt(EncodeSub(s).members, MetricNames[i]) == SlotValues(s.metrics[i])
    ensures forall i :: 0 <= i < 12 ==> ValuesAt(EncodeSub(s).members, BucketNames[i]) == SlotValues(s.buckets[i])
    ensures ValuesAt(EncodeSub(s).members, "filter") == SlotValues(BodySlots(s)[12].1)
    ensures ValuesAt(EncodeSub(s).members, "meta") == SlotValues(BodySlots(s)[25].1)
    ensures ValuesAt(EncodeSub(s).members, "aggs") == SlotValues(BodySlots(s)[26].1)
  {
    var slots := BodySlots(s);
    BodySlotsAt(s);
    AllNamesDistinct();
    assert DistinctSlots(slots) by {
      forall i, k | 0 <= i < k < |slots| ensures slots[i].0 != slots[k].0 {
        assert slots[i].0 == AllNames[i] && slots[k].0 == AllNames[k];
      }
    }
    forall i | 0 <= i < 12 ensures ValuesAt(EncodeSub(s).members, MetricNames[i]) == SlotValues(s.metrics[i]) {
      EmitLookup(slots, i);
    }
    forall i | 0 <= i < 12 ensures ValuesAt(EncodeSub(s).members, BucketNames[i]) == SlotValues(s.buckets[i]) {
      EmitLookup(slots, 13 + i);
    }
    EmitLookup(slots, 12);
    EmitLookup(slots, 25);
    EmitLookup(slots, 26);
  }

  /** A run of payloads written without `null`s is read back as written. */
  lemma {:induction false} KindsReadBack(ms: Members, names: seq<string>, kinds: Payloads, n: nat)
    requires |names| == 12 && n <= 12
    requires forall i :: n <= i < 12 ==> ValuesAt(ms, names[i]) == SlotValues(kinds[i]) && kinds[i] != Some(JNull)
    ensures ReadKinds(ms, names, n) == Ok(kinds[n..])
    decreases 12 - n
  {
    if n < 12 {
      KindsReadBack(ms, names, kinds, n + 1);
      SuffixCons(kinds, n);
    }
  }

  /** The fields other than `aggs` of a well-formed body are read back. */
  lemma FlatRoundTrip(s: SubAggregation)
    requires WellFormedSub(s)
    ensures ReadKinds(EncodeSub(s).members, MetricNames, 0) == Ok(s.metrics)
    ensures ReadKinds(EncodeSub(s).members, BucketNames, 0) == Ok(s.buckets)
    ensures Optional(EncodeSub(s).members, "filter", QueryDsl.DecodeCompound) == Ok(s.filters)
    ensures Optional(EncodeSub(s).members, "meta", AsObject) == Ok(s.metadata)
    ensures ValuesAt(EncodeSub(s).members, "aggs") == SlotValues(BodySlots(s)[26].1)
  {
    FlatMetrics(s);
    FlatBuckets(s);
    FlatFilterMeta(s);
    BodyValues(s);
  }

  lemma FlatMetrics(s: SubAggregation)
    requires forall i :: 0 <= i < 12 ==> s.metrics[i] != Some(JNull)
    ensures ReadKinds(EncodeSub(s).members, MetricNames, 0) == Ok(s.metrics)
  {
    BodyValues(s);
    KindsReadBack(EncodeSub(s).members, MetricNames, s.metrics, 0);
  }

  lemma FlatBuckets(s: SubAggregation)
    requires forall i :: 0 <= i < 12 ==> s.buckets[i] != Some(JNull)
    ensures ReadKinds(EncodeSub(s).members, BucketNames, 0) == Ok(s.buckets)
  {
    BodyValues(s);
    KindsReadBack(EncodeSub(s).members, BucketNames, s.buckets, 0);
  }

  lemma FlatFilterMeta(s: SubAggregation)
    requires s.filters.Some? ==> QueryDsl.WellFormedCompound(s.filters.value)
    ensures Optional(EncodeSub(s).members, "filter", QueryDsl.DecodeCompound) == Ok(s.filters)
    ensures Optional(EncodeSub(s).members, "meta", AsObject) == Ok(s.metadata)
  {
    var ms := EncodeSub(s).members;
    BodyValues(s);
    BodySlotsAt(s);
    if s.filters.Some? {
      QueryDsl.CompoundRoundTrip(s.filters.value);
    }
    OptionalReadBack(ms, "filter", s.filters, QueryDsl.EncodeCompound, QueryDsl.DecodeCompound);
    OptionalReadBack(ms, "meta", s.metadata, m => JObject(m), AsObject);
  }

  /** A well-formed body is decoded back from its encoding. */
  lemma {:induction false} SubRoundTrip(s: SubAggregation)
    requires WellFormedSub(s)
    ensures DecodeSub(EncodeSub(s)) == Ok(s)
    decreases s, 2
  {
    var j := EncodeSub(s);
    FlatRoundTrip(s);
    AggsReadBack(s);
    DecodeSubOf(j, j.members, s.metrics, s.filters, s.buckets, s.metadata, Ok(s.aggregations));
  }

  /** The children of a well-formed body are read back from `aggs`. */
  lemma {:induction false} AggsReadBack(s: SubAggregation)
    requires WellFormedSub(s)
    ensures ReadAggs(EncodeSub(s), EncodeSub(s).members) == Ok(s.aggregations)
    decreases s, 1
  {
    BodyValues(s);
    BodySlotsAt(s);
    if s.aggregations.Children? {
      ChildrenRoundTrip(s, s.aggregations.list, 0);
      DistinctAllKept(s.aggregations.list, 0);
      assert s.aggregations.list[0..] == s.aggregations.list;
    }
  }

  /** The children of a well-formed body are decoded back, in order. */
  lemma {:induction false} ChildrenRoundTrip(s: SubAggregation, children: seq<Aggregation>, n: nat)
    requires s.aggregations == Children(children) && WellFormedSub(s) && n <= |children|
    ensures DecodeEntries(EncodeChildren(s, children), n) == Ok(children[n..])
    decreases s, 0, |children| - n
  {
    var v := EncodeChildren(s, children);
    if n < |children| {
      var c := children[n];
      assert v.members[n] == (c.name, EncodeSub(c.body));
      assert DecodeChild(v, n) == Ok(c.body) by {
        assert c in s.aggregations.list;
        SubRoundTrip(c.body);
      }
      assert DecodeEntries(v, n + 1) == Ok(children[n + 1..]) by {
        ChildrenRoundTrip(s, children, n + 1);
      }
      EntriesStep(v, n, c.body, children[n + 1..]);
      SuffixCons(children, n);
    } else {
      assert children[n..] == [];
    }
  }

  lemma EntriesStep(v: Json, n: nat, body: SubAggregation, rest: seq<Aggregation>)
    requires v.JObject? && n < |v.members|
    requires DecodeChild(v, n) == Ok(body) && DecodeEntries(v, n + 1) == Ok(rest)
    ensures DecodeEntries(v, n) == Ok([FromSub(v.members[n].0, body)] + rest)
  {
  }

  /** Entries with distinct names are all kept, in order. */
  lemma {:induction false} DistinctAllKept(entries: seq<Aggregation>, n: nat)
    requires DistinctNames(entries) && n <= |entries|
    ensures LastWins(entries, n) == entries[n..]
    decreases |entries| - n
  {
    if n < |entries| {
      DistinctAllKept(entries, n + 1);
      SuffixCons(entries, n);
    } else {
      assert entries[n..] == [];
    }
  }

  /** `Decode` inverts `Encode` on well-formed aggregations. */
  lemma RoundTrip(a: Aggregation)
    requires WellFormedSub(a.body)
    ensures Decode(Encode(a)) == Ok(a)
  {
    SubRoundTrip(a.body);
  }

  // ---------------------------------------------------------------------
  // Reading the children as a map.

  function NamesOf(children: seq<Aggregation>): set<string> {
    set a | a in children :: a.name
  }

  function KeysFrom(ms: Members, n: nat): set<string> {
    set m | n <= m < |ms| :: ms[m].0
  }

  /** The children kept from a map have distinct names, one per name
      among the entries. */
  lemma {:induction false} LastWinsIsAMap(entries: seq<Aggregation>, n: nat)
    requires n <= |entries|
    ensures DistinctNames(LastWins(entries, n))
    ensures NamesOf(LastWins(entries, n)) == NamesOf(entries[n..])
    ensures forall a | a in LastWins(entries, n) :: a in entries[n..]
    decreases |entries| - n
  {
    if n < |entries| {
      LastWinsIsAMap(entries, n + 1);
      var rest := LastWins(entries, n + 1);
      var k := entries[n].name;
      SuffixCons(entries, n);
      assert NamesOf(entries[n..]) == {k} + NamesOf(entries[n + 1..]);
      if KeptAt(entries, n) {
        KeptNameNotLater(entries, n);
        ConsDistinct(entries[n], rest);
      } else {
        var m :| n < m < |entries| && entries[m].name == entries[n].name;
        assert entries[m] in entries[n + 1..];
      }
    } else {
      assert entries[n..] == [];
    }
  }

  /** A kept entry's name is not among the names after it. */
  lemma KeptNameNotLater(entries: seq<Aggregation>, n: nat)
    requires n < |entries| && KeptAt(entries, n)
    ensures entries[n].name !in NamesOf(entries[n + 1..])
  {
    forall a | a in entries[n + 1..] ensures a.name != entries[n].name {
      var m :| n + 1 <= m < |entries| && entries[m] == a;
    }
  }

  /** An entry put before children with other names keeps the names
      distinct. */
  lemma ConsDistinct(x: Aggregation, rest: seq<Aggregation>)
    requires DistinctNames(rest) && x.name !in NamesOf(rest)
    ensures DistinctNames([x] + rest)
    ensures NamesOf([x] + rest) == {x.name} + NamesOf(rest)
  {
    var r := [x] + rest;
    forall i, l | 0 <= i < l < |r| ensures r[i].name != r[l].name {
      if i == 0 {
        assert r[l] in rest;
      } else {
        assert r[i] == rest[i - 1] && r[l] == rest[l - 1];
      }
    }
  }

  /** A map's entries are all decoded, even one that a later entry of the
      same name replaces: a body that fails to decode fails the map. */
  lemma EveryEntryDecoded(v: Json, n: nat, m: nat)
    requires v.JObject? && n <= m < |v.members|
    requires DecodeSub(v.members[m].1).Err?
    ensures DecodeEntries(v, n).Err?
  {
    EntryFails(v, m);
    FailurePropagates(v, n, m);
  }

  lemma EntryFails(v: Json, m: nat)
    requires v.JObject? && m < |v.members|
    requires DecodeSub(v.members[m].1).Err?
    ensures DecodeEntries(v, m).Err?
  {
  }

  lemma {:induction false} FailurePropagates(v: Json, n: nat, m: nat)
    requires v.JObject? && n <= m <= |v.members|
    requires DecodeEntries(v, m).Err?
    ensures DecodeEntries(v, n).Err?
    decreases m - n
  {
    if n < m {
      FailurePropagates(v, n + 1, m);
    }
  }

  /** Of two children written under one name, the later one is kept. */
  lemma LaterChildKept(name: string, s1: SubAggregation, s2: SubAggregation)
    ensures LastWins([Aggregation(name, s1), Aggregation(name, s2)], 0) == [Aggregation(name, s2)]
  {
    var e := [Aggregation(name, s1), Aggregation(name, s2)];
    assert e[1].name == e[0].name;
    assert KeptAt(e, 1);
  }

  /** The body with every field left at its default. */
  const EmptySub: SubAggregation := SubAggregation(NoPayloads, None, NoPayloads, None, NoChildren)

  const NoPayloads: Payloads := seq(12, i => None)

  /** How a body's decoding is put together from its fields. */
  lemma DecodeSubOf(j: Json, ms: Members, metrics: Payloads, filters: Option<QueryDsl.CompoundQuery>,
                    buckets: Payloads, metadata: Option<Members>, aggs: Result<Children>)
    requires Record(j, SubFields) == Ok(ms)
    requires ReadKinds(ms, MetricNames, 0) == Ok(metrics) && ReadKinds(ms, BucketNames, 0) == Ok(buckets)
    requires Optional(ms, "filter", QueryDsl.DecodeCompound) == Ok(filters)
    requires Optional(ms, "meta", AsObject) == Ok(metadata)
    requires ReadAggs(j, ms) == aggs
    ensures aggs.Ok? ==> DecodeSub(j) == Ok(SubAggregation(metrics, filters, buckets, metadata, aggs.value))
    ensures aggs.Err? ==> DecodeSub(j) == Err(aggs.error)
  {
  }

  lemma KindsAreNotAggs()
    ensures "aggs" !in MetricNames && "aggs" !in BucketNames
  {
  }

  /** No name but `aggs` is found among members that name only `aggs`. */
  lemma OnlyAggsFound(ms: Members, names: seq<string>)
    requires ms == [] || (|ms| == 1 && ms[0].0 == "aggs")
    requires "aggs" !in names
    ensures forall i :: 0 <= i < |names| ==> ValuesAt(ms, names[i]) == []
  {
    if ms != [] {
      forall i | 0 <= i < |names| ensures ValuesAt(ms, names[i]) == [] {
        ValuesAtCons(ms[0], [], names[i]);
        assert [ms[0]] + [] == ms;
      }
    }
  }

  /** A run of kinds none of which is present reads as no payloads. */
  lemma NothingRead(ms: Members, names: seq<string>)
    requires |names| == 12 && forall i :: 0 <= i < 12 ==> ValuesAt(ms, names[i]) == []
    ensures ReadKinds(ms, names, 0) == Ok(NoPayloads)
  {
    KindsReadBack(ms, names, NoPayloads, 0);
  }

  /** Members that name only `aggs` give the defaults for every other field. */
  lemma DefaultsBesideAggs(j: Json, ms: Members, aggs: Result<Children>)
    requires ms == [] || (|ms| == 1 && ms[0].0 == "aggs")
    requires Record(j, SubFields) == Ok(ms) && ReadAggs(j, ms) == aggs
    ensures aggs.Ok? ==> DecodeSub(j) == Ok(EmptySub.(aggregations := aggs.value))
    ensures aggs.Err? ==> DecodeSub(j) == Err(aggs.error)
  {
    KindsDefault(ms);
    FilterMetaDefault(ms);
    DecodeSubOf(j, ms, NoPayloads, None, NoPayloads, None, aggs);
  }

  lemma KindsDefault(ms: Members)
    requires ms == [] || (|ms| == 1 && ms[0].0 == "aggs")
    ensures ReadKinds(ms, MetricNames, 0) == Ok(NoPayloads) && ReadKinds(ms, BucketNames, 0) == Ok(NoPayloads)
  {
    KindsAreNotAggs();
    KindDefault(ms, MetricNames);
    KindDefault(ms, BucketNames);
  }

  lemma KindDefault(ms: Members, names: seq<string>)
    requires ms == [] || (|ms| == 1 && ms[0].0 == "aggs")
    requires |names| == 12 && "aggs" !in names
    ensures ReadKinds(ms, names, 0) == Ok(NoPayloads)
  {
    OnlyAggsFound(ms, names);
    NothingRead(ms, names);
  }

  lemma FilterMetaDefault(ms: Members)
    requires ms == [] || (|ms| == 1 && ms[0].0 == "aggs")
    ensures Optional(ms, "filter", QueryDsl.DecodeCompound) == Ok(None) && Optional(ms, "meta", AsObject) == Ok(None)
  {
    OnlyAggsFound(ms, ["filter", "meta"]);
    assert ValuesAt(ms, ["filter", "meta"][0]) == [] && ValuesAt(ms, ["filter", "meta"][1]) == [];
  }

  /** Every field has a default: `{}` reads as the empty body. */
  lemma EmptyObjectDefaults()
    ensures DecodeSub(JObject([])) == Ok(EmptySub)
  {
    DefaultsBesideAggs(JObject([]), [], Ok(NoChildren));
  }

  /** `"aggs": null` reads as no children. */
  lemma NullAggsDefaults()
    ensures DecodeSub(JObject([("aggs", JNull)])) == Ok(EmptySub)
  {
    var ms := [("aggs", JNull)];
    assert ValuesAt(ms, "aggs") == [JNull];
    DefaultsBesideAggs(JObject(ms), ms, Ok(NoChildren));
  }

  /** `aggs` holding anything but a map is refused. */
  lemma AggsMustBeAMap()
    ensures DecodeSub(JObject([("aggs", JArray([]))])) == Err(InvalidType("a map"))
  {
    var ms := [("aggs", JArray([]))];
    assert ValuesAt(ms, "aggs") == [JArray([])];
    DefaultsBesideAggs(JObject(ms), ms, Err(InvalidType("a map")));
  }
}
