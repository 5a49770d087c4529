/**
  The flattened aggregation response handed to callers: one computed result
  per aggregation, tagged with the aggregation's type read from the
  `type#name` keys Elasticsearch writes when asked for typed keys.
*/
module AggregationResponse {
  import opened JsonModel

  /** The type of an aggregation. */
  datatype Ty =
    // metric
    | Avg | WeightedAvg | Cardinality | Max | Min | MedianAbsoluteDeviation
    | Percentiles | PercentileRanks | Stats | ExtendedStats | Sum | ValueCount
    // bucket
    | Filter | Filters | Terms | SignificantTerms | Range | DateRange
    | DateHistogram | AutoDateHistogram | Nested | ReverseNested
    // pipeline
    | BucketScript | BucketSelector | BucketSort
    // any type the table does not list
    | Unknown

  /** One aggregation's values, flattened out of the response tree. */
  datatype ComputedResult = ComputedResult(
    parent: Option<string>,
    name: string,
    ty: Ty,
    fields: seq<string>,
    values: seq<Float>,
    metadata: Option<Members>)

  /** The decoded response: the list of computed results. */
  datatype Response = Response(aggregations: seq<ComputedResult>)

  function LowerChar(c: char): char {
    if 'A' <= c <= 'Z' then (c as int + 32) as char else c
  }

  /** Lower-casing of a tag (ASCII letters). */
  function Lower(s: string): (r: string)
    ensures |r| == |s|
    ensures forall i :: 0 <= i < |s| ==> r[i] == LowerChar(s[i])
  {
    seq(|s|, i requires 0 <= i < |s| => LowerChar(s[i]))
  }

  /** The tag Elasticsearch writes for each known type. */
  function WireTag(t: Ty): string
    requires t != Unknown
  {
    match t
    case Avg => "avg"
    case WeightedAvg => "weighted_avg"
    case Cardinality => "cardinality"
    case Max => "max"
    case Min => "min"
    case MedianAbsoluteDeviation => "median_absolute_deviation"
    case Percentiles => "percentiles"
    case PercentileRanks => "percentile_ranks"
    case Stats => "stats"
    case ExtendedStats => "extended_stats"
    case Sum => "sum"
    case ValueCount => "value_count"
    case Filter => "filter"
    case Filters => "filters"
    case Terms => "terms"
    case SignificantTerms => "sterms"
    case Range => "range"
    case DateRange => "date_range"
    case DateHistogram => "date_histogram"
    case AutoDateHistogram => "auto_date_histogram"
    case BucketScript => "bucket_script"
    case BucketSelector => "bucket_selector"
    case BucketSort => "bucket_sort"
    case Nested => "nested"
    case ReverseNested => "reverse_nested"
  }

  /** `Ty::from(&str)`: the type whose tag is the lower-cased input, and
      `Unknown` for any other string. */
  function TyFrom(tag: string): Ty {
    TyOfLower(Lower(tag))
  }

  /** The tag table, on an already lower-cased tag.  The tags are grouped
      by length, which decides the same string equalities as one flat
      match. */
  function TyOfLower(t: string): Ty {
    match |t|
    case 3 =>
      if t == "avg" then Avg
      else if t == "max" then Max
      else if t == "min" then Min
      else if t == "sum" then Sum
      else Unknown
    case 5 =>
      if t == "stats" then Stats
      else if t == "terms" then Terms
      else if t == "range" then Range
      else Unknown
    case 6 =>
      if t == "filter" then Filter
      else if t == "sterms" then SignificantTerms
      else if t == "nested" then Nested
      else Unknown
    case 7 =>
      if t == "filters" then Filters
      else Unknown
    case 10 =>
      if t == "date_range" then DateRange
      else Unknown
    case 11 =>
      if t == "cardinality" then Cardinality
      else if t == "percentiles" then Percentiles
      else if t == "value_count" then ValueCount
      else if t == "bucket_sort" then BucketSort
      else Unknown
    case 12 =>
      if t == "weighted_avg" then WeightedAvg
      else Unknown
    case 13 =>
      if t == "bucket_script" then BucketScript
      else Unknown
    case 14 =>
      if t == "extended_stats" then ExtendedStats
      else if t == "date_histogram" then DateHistogram
      else if t == "reverse_nested" then ReverseNested
      else Unknown
    case 15 =>
      if t == "bucket_selector" then BucketSelector
      else Unknown
    case 16 =>
      if t == "percentile_ranks" then PercentileRanks
      else Unknown
    case 19 =>
      if t == "auto_date_histogram" then AutoDateHistogram
      else Unknown
    case 25 =>
      if t == "median_absolute_deviation" then MedianAbsoluteDeviation
      else Unknown
    case _ => Unknown
  }

  lemma LowerOfLower(s: string)
    ensures Lower(Lower(s)) == Lower(s)
  {
  }

  predicate NoUpper(s: string) {
    forall i :: 0 <= i < |s| ==> !('A' <= s[i] <= 'Z')
  }

  lemma LowerFixed(s: string)
    requires NoUpper(s)
    ensures Lower(s) == s
  {
  }

  /** A known type is read back from its own tag. */
  lemma WireTagRoundTrip(t: Ty)
    requires t != Unknown
    ensures TyFrom(WireTag(t)) == t
  {
    TagLowerCase(t);
    TableRoundTrip(t);
  }

  predicate IsMetric(t: Ty) {
    t.Avg? || t.WeightedAvg? || t.Cardinality? || t.Max? || t.Min? || t.MedianAbsoluteDeviation? || t.Percentiles? || t.PercentileRanks? || t.Stats? || t.ExtendedStats? || t.Sum? || t.ValueCount?
  }

  predicate IsBucket(t: Ty) {
    t.Filter? || t.Filters? || t.Terms? || t.SignificantTerms? || t.Range? || t.DateRange? || t.DateHistogram? || t.AutoDateHistogram? || t.Nested? || t.ReverseNested?
  }

  /** Every tag is written in lower case, so lower-casing leaves it alone. */
  lemma TagLowerCase(t: Ty)
    requires t != Unknown
    ensures Lower(WireTag(t)) == WireTag(t)
  {
    if IsMetric(t) {
      MetricTagLowerCase(t);
    } else if IsBucket(t) {
      BucketTagLowerCase(t);
    } else {
      assert NoUpper(WireTag(t));
    }
    LowerFixed(WireTag(t));
  }

  lemma MetricTagLowerCase(t: Ty)
    requires IsMetric(t)
    ensures NoUpper(WireTag(t))
  {
    if t.Avg? || t.WeightedAvg? || t.Cardinality? || t.Max? || t.Min? || t.MedianAbsoluteDeviation? {
      EarlyMetricTagLowerCase(t);
    } else {
      LateMetricTagLowerCase(t);
    }
  }

  lemma EarlyMetricTagLowerCase(t: Ty)
    requires t.Avg? || t.WeightedAvg? || t.Cardinality? || t.Max? || t.Min? || t.MedianAbsoluteDeviation?
    ensures NoUpper(WireTag(t))
  {
  }

  lemma LateMetricTagLowerCase(t: Ty)
    requires t.Percentiles? || t.PercentileRanks? || t.Stats? || t.ExtendedStats? || t.Sum? || t.ValueCount?
    ensures NoUpper(WireTag(t))
  {
  }

  lemma BucketTagLowerCase(t: Ty)
    requires IsBucket(t)
    ensures NoUpper(WireTag(t))
  {
  }

  /** The table maps each tag to its own type. */
  lemma TableRoundTrip(t: Ty)
    requires t != Unknown
    ensures TyOfLower(WireTag(t)) == t
  {
    if IsMetric(t) {
      MetricTableRoundTrip(t);
    } else if IsBucket(t) {
      BucketTableRoundTrip(t);
    }
  }

  lemma MetricTableRoundTrip(t: Ty)
    requires IsMetric(t)
    ensures TyOfLower(WireTag(t)) == t
  {
  }

  lemma BucketTableRoundTrip(t: Ty)
    requires IsBucket(t)
    ensures TyOfLower(WireTag(t)) == t
  {
  }

  /** Every type the table yields is the one whose tag was matched. */
  lemma TyOfLowerTag(t: string)
    requires TyOfLower(t) != Unknown
    ensures WireTag(TyOfLower(t)) == t
  {
    match |t|
    case 3 =>
    case 5 =>
    case 6 =>
    case 7 =>
    case 10 =>
    case 11 =>
    case 12 =>
    case 13 =>
    case 14 =>
    case 15 =>
    case 16 =>
    case 19 =>
    case 25 =>
    case _ =>
  }

  /** A string names a known type exactly when its lower-cased form is that
      type's tag. */
  lemma TyFromIff(s: string, t: Ty)
    requires t != Unknown
    ensures TyFrom(s) == t <==> Lower(s) == WireTag(t)
  {
    if Lower(s) == WireTag(t) {
      WireTagRoundTrip(t);
      LowerFixed(WireTag(t));
    }
    if TyFrom(s) == t {
      TyOfLowerTag(Lower(s));
    }
  }

  /** Tags are matched without regard to case. */
  lemma CaseInsensitive(s: string, u: string)
    requires Lower(s) == Lower(u)
    ensures TyFrom(s) == TyFrom(u)
  {
  }

  /** Upper-case letters are folded before the table is consulted. */
  lemma UpperCaseTag()
    ensures TyFrom("VALUE_COUNT") == ValueCount
  {
    assert Lower("VALUE_COUNT") == "value_count";
  }

  /** `sterms` is the significant terms type; tags absent from the table,
      including ones the request side knows, fall back to `Unknown`. */
  lemma UnlistedTags()
    ensures TyFrom("sterms") == SignificantTerms
    ensures TyFrom("histogram") == Unknown
    ensures TyFrom("variable_width_histogram") == Unknown
    ensures TyFrom("significant_terms") == Unknown
  {
    STermsTag();
  }

  lemma STermsTag()
    ensures TyFrom("sterms") == SignificantTerms
  {
    LowerFixed("sterms");
  }
}
