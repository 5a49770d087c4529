/**
  The filter records a caller builds (`src/search/filter/mod.rs`,
  `src/search/filter/types/nested.rs`): they mirror the wire records of
  `FilterDsl`, are built with `From` constructors and `push`, and are
  converted to the wire records by `From` conversions.  The payload-carried
  leaf kinds convert to themselves.
*/
module FilterInputs {
  import opened JsonModel
  import FilterExists
  import FilterMatch
  import opened FilterDsl
  // ---------------------------------------------------------------------
  // The input records.

  datatype FilterInput = FilterInput(
    exists_: Option<FilterExists.ExistsFilterInput>,
    term: Option<Json>,
    terms: Option<Json>,
    range: Option<Json>,
    regexp: Option<Json>,
    match_: Option<FilterMatch.MatchFilterInput>,
    simpleQueryString: Option<Json>,
    queryString: Option<Json>,
    nested: Option<NestedFilterInput>,
    boolean: Option<BooleanFilterInput>)

  datatype BooleanFilterInput = BooleanFilterInput(
    must: seq<FilterInput>,
    filter: seq<FilterInput>,
    should: seq<FilterInput>,
    mustNot: seq<FilterInput>,
    minimumShouldMatch: Option<string>,
    boost: Option<Float>)

  datatype CompoundFilterInput = CompoundFilterInput(boolean: Option<BooleanFilterInput>)

  datatype NestedFilterInput = NestedFilterInput(path: string, query: CompoundFilterInput, ignoreUnmapped: bool)

  // ---------------------------------------------------------------------
  // Building inputs.

  const NoFilterInput: FilterInput := FilterInput(None, None, None, None, None, None, None, None, None, None)

  /** `Default for BooleanFilterInput`. */
  const EmptyBooleanInput: BooleanFilterInput := BooleanFilterInput([], [], [], [], None, None)

  /** `Default for CompoundFilterInput`. */
  const EmptyCompoundInput: CompoundFilterInput := CompoundFilterInput(None)

  function InputSlotCount(f: FilterInput): nat {
    (if f.exists_.Some? then 1 else 0) + (if f.term.Some? then 1 else 0)
    + (if f.terms.Some? then 1 else 0) + (if f.range.Some? then 1 else 0)
    + (if f.regexp.Some? then 1 else 0) + (if f.match_.Some? then 1 else 0)
    + (if f.simpleQueryString.Some? then 1 else 0) + (if f.queryString.Some? then 1 else 0)
    + (if f.nested.Some? then 1 else 0) + (if f.boolean.Some? then 1 else 0)
  }

  /** `From<ExistsFilterInput> for FilterInput`, and likewise for the eight
      other leaf kinds: the named slot holds the argument, no other is
      filled. */
  function FromExistsInput(e: FilterExists.ExistsFilterInput): (f: FilterInput)
    ensures f.exists_ == Some(e) && InputSlotCount(f) == 1
  {
    NoFilterInput.(exists_ := Some(e))
  }

  function FromTermInput(t: Json): (f: FilterInput)
    ensures f.term == Some(t) && InputSlotCount(f) == 1
  {
    NoFilterInput.(term := Some(t))
  }

  function FromTermsInput(t: Json): (f: FilterInput)
    ensures f.terms == Some(t) && InputSlotCount(f) == 1
  {
    NoFilterInput.(terms := Some(t))
  }

  function FromRangeInput(r: Json): (f: FilterInput)
    ensures f.range == Some(r) && InputSlotCount(f) == 1
  {
    NoFilterInput.(range := Some(r))
  }

  function FromRegexpInput(r: Json): (f: FilterInput)
    ensures f.regexp == Some(r) && InputSlotCount(f) == 1
  {
    NoFilterInput.(regexp := Some(r))
  }

  function FromMatchInput(m: FilterMatch.MatchFilterInput): (f: FilterInput)
    ensures f.match_ == Some(m) && InputSlotCount(f) == 1
  {
    NoFilterInput.(match_ := Some(m))
  }

  function FromSimpleQueryStringInput(s: Json): (f: FilterInput)
    ensures f.simpleQueryString == Some(s) && InputSlotCount(f) == 1
  {
    NoFilterInput.(simpleQueryString := Some(s))
  }

  function FromQueryStringInput(s: Json): (f: FilterInput)
    ensures f.queryString == Some(s) && InputSlotCount(f) == 1
  {
    NoFilterInput.(queryString := Some(s))
  }

  function FromNestedInput(n: NestedFilterInput): (f: FilterInput)
    ensures f.nested == Some(n) && InputSlotCount(f) == 1
  {
    NoFilterInput.(nested := Some(n))
  }

  /** `From<T: Into<FilterInput>> for BooleanFilterInput`: the filter alone
      in `filter`. */
  function BooleanInputFrom(f: FilterInput): (b: BooleanFilterInput)
    ensures b.filter == [f] && b.must == [] && b.should == [] && b.mustNot == []
    ensures b.minimumShouldMatch.None? && b.boost.None?
  {
    EmptyBooleanInput.(filter := [f])
  }

  /** `From<T: Into<BooleanFilterInput>> for CompoundFilterInput`. */
  function CompoundInputFrom(b: BooleanFilterInput): (c: CompoundFilterInput)
    ensures c.boolean == Some(b)
  {
    CompoundFilterInput(Some(b))
  }

  /** `From<Option<CompoundFilterInput>>`: `None` gives the default. */
  function CompoundInputFromOption(o: Option<CompoundFilterInput>): (c: CompoundFilterInput)
    ensures o.Some? ==> c == o.value
    ensures o.None? ==> c.boolean.None?
  {
    if o.Some? then o.value else EmptyCompoundInput
  }

  /** `NestedFilterInput::new`: unmapped paths are ignored. */
  function NewNestedInput(path: string, query: CompoundFilterInput): (n: NestedFilterInput)
    ensures n.path == path && n.query == query && n.ignoreUnmapped
  {
    NestedFilterInput(path, query, true)
  }

  /** `BooleanFilterInput::is_empty`: only the four clause lists count. */
  predicate IsEmptyBooleanInput(b: BooleanFilterInput) {
    b.must == [] && b.filter == [] && b.should == [] && b.mustNot == []
  }

  /** `CompoundFilterInput::is_empty`. */
  predicate IsEmptyInput(c: CompoundFilterInput) {
    c.boolean.None? || IsEmptyBooleanInput(c.boolean.value)
  }

  /** `BooleanFilterInput::push`: to the end of `filter`, nothing else
      changes. */
  function PushBooleanInput(b: BooleanFilterInput, f: FilterInput): (r: BooleanFilterInput)
    ensures r.filter == b.filter + [f]
    ensures r.must == b.must && r.should == b.should && r.mustNot == b.mustNot
    ensures r.minimumShouldMatch == b.minimumShouldMatch && r.boost == b.boost
  {
    b.(filter := b.filter + [f])
  }

  /** `CompoundFilterInput::push`: creates a boolean filter holding only
      this clause when there is none. */
  function PushInput(c: CompoundFilterInput, f: FilterInput): (r: CompoundFilterInput)
    ensures c.boolean.None? ==> r.boolean == Some(BooleanInputFrom(f))
    ensures c.boolean.Some? ==> r.boolean == Some(PushBooleanInput(c.boolean.value, f))
  {
    if c.boolean.Some? then CompoundFilterInput(Some(PushBooleanInput(c.boolean.value, f)))
    else CompoundFilterInput(Some(BooleanInputFrom(f)))
  }

  lemma PushNotEmpty(c: CompoundFilterInput, f: FilterInput)
    ensures !IsEmptyInput(PushInput(c, f))
    ensures var l := PushInput(c, f).boolean.value.filter; |l| > 0 && l[|l| - 1] == f
  {
  }

  /** The clauses pushed one after the other end up in `filter` in the
      order pushed, even when the first push created the boolean filter. */
  lemma PushTwice(c: CompoundFilterInput, f1: FilterInput, f2: FilterInput)
    ensures PushInput(PushInput(c, f1), f2).boolean.value.filter
      == (if c.boolean.Some? then c.boolean.value.filter else []) + [f1, f2]
  {
  }

  // ---------------------------------------------------------------------
  // Converting inputs.

  /** `From<FilterInput> for Filter`: slot by slot. */
  function ToFilter(f: FilterInput): (r: Filter)
    decreases f, 1
  {
    Filter(
      if f.exists_.Some? then Some(FilterExists.FromInput(f.exists_.value)) else None,
      f.term, f.terms, f.range, f.regexp,
      if f.match_.Some? then Some(FilterMatch.FromInput(f.match_.value)) else None,
      f.simpleQueryString, f.queryString,
      if f.nested.Some? then Some(ToNested(f.nested.value)) else None,
      if f.boolean.Some? then Some(ToBoolean(f.boolean.value)) else None)
  }

  function ToFilters(fs: seq<FilterInput>, ghost b: BooleanFilterInput): (r: seq<Filter>)
    requires fs == b.must || fs == b.filter || fs == b.should || fs == b.mustNot
    ensures |r| == |fs| && forall i :: 0 <= i < |fs| ==> r[i] == ToFilter(fs[i])
    decreases b, 0
  {
    seq(|fs|, i requires 0 <= i < |fs| => ToFilter(fs[i]))
  }

  /** `From<BooleanFilterInput> for BooleanFilter`: each clause list keeps
      its order and length. */
  function ToBoolean(b: BooleanFilterInput): (r: BooleanFilter)
    decreases b, 1
  {
    BooleanFilter(ToFilters(b.must, b), ToFilters(b.filter, b), ToFilters(b.should, b),
      ToFilters(b.mustNot, b), b.minimumShouldMatch, b.boost)
  }

  /** `From<T: Into<CompoundFilterInput>> for CompoundFilter`: the result
      always holds a boolean filter, the default one when the input has
      none. */
  function ToCompound(c: CompoundFilterInput): (r: CompoundFilter)
    ensures r.boolean.Some?
    ensures c.boolean.None? ==> r.boolean == Some(EmptyBoolean)
    decreases c, 2
  {
    CompoundFilter(Some(if c.boolean.Some? then ToBoolean(c.boolean.value) else EmptyBoolean))
  }

  /** `From<NestedFilterInput> for NestedFilter`. */
  function ToNested(n: NestedFilterInput): (r: NestedFilter)
    ensures r.path == n.path && r.ignoreUnmapped == n.ignoreUnmapped
    decreases n, 3
  {
    NestedFilter(n.path, ToCompound(n.query), n.ignoreUnmapped)
  }


  /** Converting keeps every slot that is filled and fills no other; in
      particular a filter built by one `From` constructor converts to a
      filter with that one slot. */
  lemma ConvertKeepsSlots(f: FilterInput)
    ensures SlotCount(ToFilter(f)) == InputSlotCount(f)
    ensures ToFilter(f).exists_.Some? <==> f.exists_.Some?
    ensures ToFilter(f).match_.Some? <==> f.match_.Some?
    ensures ToFilter(f).nested.Some? <==> f.nested.Some?
    ensures ToFilter(f).boolean.Some? <==> f.boolean.Some?
  {
  }

  /** `is_empty` is preserved by the conversion to a wire record, although
      the converted record always holds a boolean filter. */
  lemma ConvertKeepsEmptiness(c: CompoundFilterInput)
    ensures IsEmptyInput(c) <==> IsEmpty(ToCompound(c))
  {
    if c.boolean.Some? {
      var b := c.boolean.value;
      var r := ToBoolean(b);
      assert |r.must| == |b.must| && |r.filter| == |b.filter|;
      assert |r.should| == |b.should| && |r.mustNot| == |b.mustNot|;
    }
  }

  /** The empty input converts to an empty boolean filter, which is written
      as `{"bool": {}}` rather than left out. */
  lemma EmptyInputWritesBool()
    ensures EncodeCompound(ToCompound(EmptyCompoundInput)) == JObject([("bool", JObject([]))])
  {
    var s := BooleanSlots(EmptyBoolean);
    EmitCons(s[0], s[1..]);
    EmitCons(s[1], s[2..]);
    EmitCons(s[2], s[3..]);
    EmitCons(s[3], s[4..]);
    EmitCons(s[4], s[5..]);
    EmitCons(s[5], s[6..]);
  }

  /** Pushing and then converting is converting and then appending the
      converted clause to `filter`. */
  lemma PushThenConvert(c: CompoundFilterInput, f: FilterInput)
    ensures ToCompound(PushInput(c, f)).boolean.value.filter
      == ToCompound(c).boolean.value.filter + [ToFilter(f)]
  {
    if c.boolean.Some? {
      var b := c.boolean.value;
      var pushed := PushBooleanInput(b, f);
      assert ToCompound(PushInput(c, f)).boolean.value == ToBoolean(pushed);
      var before := ToFilters(b.filter, b);
      var after := ToFilters(pushed.filter, pushed);
      forall i | 0 <= i < |after|
        ensures after[i] == (before + [ToFilter(f)])[i]
      {
        if i < |before| {
          assert pushed.filter[i] == b.filter[i];
        }
      }
    } else {
      assert ToCompound(PushInput(c, f)).boolean.value == ToBoolean(BooleanInputFrom(f));
    }
  }

  /** A nested filter built by `NestedFilterInput::new` converts to one that
      ignores unmapped paths. */
  lemma NewNestedIgnoresUnmapped(path: string, query: CompoundFilterInput)
    ensures ToNested(NewNestedInput(path, query)) == NestedFilter(path, ToCompound(query), true)
  {
  }
}
