/**
  The raw aggregation response tree Elasticsearch returns
  (`ElasticAggregationResult`), its hand-written decoder, and the per-node
  readings the flattener relies on: the `type#name` key split, the leaf
  value and the `_skip` metadata flag.
*/
module AggregationResult {
  import opened JsonModel
  import opened AggregationResponse

  /** One node of the response tree. */
  datatype Node = Node(
    parentKey: Option<string>,
    key: Option<string>,
    docCount: Option<U64>,
    value: Option<Float>,
    buckets: seq<Node>,
    metadata: Option<Members>,
    aggregations: seq<(string, Node)>)

  const EmptyNode: Node := Node(None, None, None, None, [], None, [])

  function Names(es: seq<(string, Node)>): (ns: seq<string>)
    ensures |ns| == |es|
    ensures forall i :: 0 <= i < |es| ==> ns[i] == es[i].0
  {
    seq(|es|, i requires 0 <= i < |es| => es[i].0)
  }

  /** The names of a decoded `HashMap` are distinct. */
  predicate DistinctNames(es: seq<(string, Node)>) {
    forall i, j :: 0 <= i < j < |es| ==> es[i].0 != es[j].0
  }

  /** `HashMap::insert`: a name already present takes the new node in its
      place; a new name is added. */
  function Insert(es: seq<(string, Node)>, k: string, n: Node): (r: seq<(string, Node)>)
    ensures DistinctNames(es) ==> DistinctNames(r)
    ensures k in Names(r)
    ensures forall i :: 0 <= i < |r| && r[i].0 == k ==> r[i].1 == n
    ensures forall i :: 0 <= i < |es| && es[i].0 != k ==> es[i] in r
    ensures forall e :: e in r && e.0 != k ==> e in es
  {
    if k in Names(es) then
      ReplaceKeepsOthers(es, k, n);
      Replace(es, k, n)
    else
      var r := es + [(k, n)];
      assert r[|es|].0 == k;
      r
  }

  /** Every entry named `k` takes the node `n`; the others stay in place. */
  function Replace(es: seq<(string, Node)>, k: string, n: Node): (r: seq<(string, Node)>)
    ensures |r| == |es|
    ensures forall j :: 0 <= j < |es| ==> r[j] == if es[j].0 == k then (k, n) else es[j]
  {
    seq(|es|, j requires 0 <= j < |es| => if es[j].0 == k then (k, n) else es[j])
  }

  lemma ReplaceKeepsOthers(es: seq<(string, Node)>, k: string, n: Node)
    requires k in Names(es)
    ensures var r := Replace(es, k, n);
      (DistinctNames(es) ==> DistinctNames(r))
      && k in Names(r)
      && (forall e :: e in r && e.0 != k ==> e in es)
      && (forall i :: 0 <= i < |es| && es[i].0 != k ==> es[i] in r)
  {
    var r := Replace(es, k, n);
    var i :| 0 <= i < |es| && es[i].0 == k;
    assert Names(r)[i] == k;
    assert forall i :: 0 <= i < |es| && es[i].0 != k ==> es[i] == r[i];
    forall e | e in r && e.0 != k ensures e in es {
      var j :| 0 <= j < |r| && r[j] == e;
      assert es[j] == e;
    }
  }

  // ---------------------------------------------------------------------
  // `split_ty_and_name`

  /** The index of the first `c` in `s`. */
  function IndexOf(s: string, c: char): (i: nat)
    requires c in s
    ensures i < |s| && s[i] == c && c !in s[..i]
  {
    if s[0] == c then 0
    else
      assert c in s[1..] by {
        var k :| 0 <= k < |s| && s[k] == c;
        assert s[1..][k - 1] == c;
      }
      var i := IndexOf(s[1..], c);
      assert s[..i + 1] == [s[0]] + s[1..][..i];
      i + 1
  }

  /** `c` at `i` with none before it is the first `c`. */
  lemma {:induction false} IndexOfAt(s: string, c: char, i: nat)
    requires i < |s| && s[i] == c && c !in s[..i]
    ensures c in s && IndexOf(s, c) == i
    decreases i
  {
    if i > 0 {
      assert s[0] == s[..i][0];
      assert s[1..][i - 1] == c;
      assert s[1..][..i - 1] == s[..i][1..];
      IndexOfAt(s[1..], c, i - 1);
    }
  }

  /** `str::split('#')`: the pieces between the `#` characters. */
  function Split(s: string): (parts: seq<string>)
    ensures |parts| >= 1
    ensures forall i :: 0 <= i < |parts| ==> '#' !in parts[i]
    decreases |s|
  {
    if '#' !in s then [s]
    else
      var i := IndexOf(s, '#');
      [s[..i]] + Split(s[i + 1..])
  }

  /** `parts.join(sep)`. */
  function Join(parts: seq<string>, sep: string): string
    requires |parts| >= 1
    decreases |parts|
  {
    if |parts| == 1 then parts[0] else parts[0] + sep + Join(parts[1..], sep)
  }

  /** `s` with every `#` removed. */
  function StripHashes(s: string): (r: string)
    ensures '#' !in r
    decreases |s|
  {
    if s == [] then []
    else (if s[0] == '#' then [] else [s[0]]) + StripHashes(s[1..])
  }

  /** Splitting on `#` loses nothing: joining the pieces back gives the key. */
  lemma {:induction false} SplitJoin(s: string)
    ensures Join(Split(s), "#") == s
    decreases |s|
  {
    if '#' in s {
      var i := IndexOf(s, '#');
      var head, tail := s[..i], s[i + 1..];
      var parts := Split(s);
      assert parts == [head] + Split(tail);
      assert parts[0] == head && parts[1..] == Split(tail);
      calc {
        Join(parts, "#");
        head + "#" + Join(Split(tail), "#");
        { SplitJoin(tail); }
        head + "#" + tail;
        { assert s == head + "#" + tail; }
        s;
      }
    }
  }

  lemma {:induction false} StripAppend(a: string, b: string)
    ensures StripHashes(a + b) == StripHashes(a) + StripHashes(b)
    decreases |a|
  {
    if a != [] {
      assert (a + b)[0] == a[0];
      assert (a + b)[1..] == a[1..] + b;
      StripAppend(a[1..], b);
    } else {
      assert a + b == b;
    }
  }

  lemma StripFree(s: string)
    requires '#' !in s
    ensures StripHashes(s) == s
    decreases |s|
  {
  }

  /** Joining the pieces with "" drops exactly the `#` characters. */
  lemma {:induction false} ConcatSplit(s: string)
    ensures Join(Split(s), "") == StripHashes(s)
    decreases |s|
  {
    if '#' !in s {
      StripFree(s);
    } else {
      var i := IndexOf(s, '#');
      var head, tail := s[..i], s[i + 1..];
      var parts := Split(s);
      assert parts == [head] + Split(tail);
      assert parts[0] == head && parts[1..] == Split(tail);
      calc {
        Join(parts, "");
        head + "" + Join(Split(tail), "");
        { ConcatSplit(tail); }
        head + "" + StripHashes(tail);
        { assert head + "" == head; }
        head + StripHashes(tail);
        { StripAroundHash(head, tail); assert s == head + "#" + tail; }
        StripHashes(s);
      }
    }
  }

  lemma StripAroundHash(head: string, tail: string)
    requires '#' !in head
    ensures StripHashes(head + "#" + tail) == head + StripHashes(tail)
  {
    var rest := "#" + tail;
    assert rest[0] == '#' && rest[1..] == tail;
    assert StripHashes(rest) == StripHashes(tail);
    assert head + "#" + tail == head + rest;
    StripAppend(head, rest);
    StripFree(head);
  }

  /** Reads a `type#name` key: without `#` the type is unknown and the key is
      the name; otherwise the part before the first `#` is the type tag and
      the remaining parts, joined with "", are the name. */
  function SplitTyAndName(key: string): (Ty, string) {
    var parts := Split(key);
    if |parts| < 2 then (Unknown, parts[0])
    else (TyFrom(parts[0]), Join(parts[1..], ""))
  }

  lemma SplitWithoutHash(key: string)
    requires '#' !in key
    ensures SplitTyAndName(key) == (Unknown, key)
  {
  }

  lemma SplitWithHash(key: string)
    requires '#' in key
    ensures var i := IndexOf(key, '#');
      SplitTyAndName(key) == (TyFrom(key[..i]), StripHashes(key[i + 1..]))
  {
    var i := IndexOf(key, '#');
    var parts := Split(key);
    assert parts[1..] == Split(key[i + 1..]);
    ConcatSplit(key[i + 1..]);
  }

  /** `a#b#c` names the aggregation `bc`. */
  lemma SplitNestedHashes()
    ensures SplitTyAndName("a#b#c") == (TyFrom("a"), "bc")
  {
    var key := "a#b#c";
    assert key[1] == '#' && key[0] != '#';
    assert IndexOf(key, '#') == 1;
    SplitWithHash(key);
    assert key[..1] == "a";
    assert key[2..] == "b#c";
    assert StripHashes("b#c") == "bc" by {
      StripAroundHash("b", "c");
      StripFree("c");
    }
  }

  /** A typed key: the tag before `#` is read by `Ty::from`. */
  lemma SplitTypedKey()
    ensures SplitTyAndName("sterms#top") == (SignificantTerms, "top")
  {
    var key := "sterms#top";
    assert key[..6] == "sterms" && key[6] == '#';
    IndexOfAt(key, '#', 6);
    SplitWithHash(key);
    assert key[..6] == "sterms";
    assert key[7..] == "top";
    StripFree("top");
    STermsTag();
  }

  // ---------------------------------------------------------------------
  // `value_or_doc_count` and `should_skip`

  /** The value a node contributes: its `value`, else its `doc_count` when
      it has no buckets. */
  function ValueOrDocCount(n: Node): (r: Option<Float>)
    ensures r.Some? <==> n.value.Some? || (n.docCount.Some? && n.buckets == [])
    ensures n.value.Some? ==> r == n.value
    ensures n.value.None? && r.Some? ==> r.value == Number(n.docCount.value, 0)
  {
    if n.value.Some? then n.value
    else if n.buckets == [] && n.docCount.Some? then Some(Number(n.docCount.value, 0))
    else None
  }

  /** The `_skip` flag: set only by a metadata entry `_skip` holding the
      JSON boolean; any other value leaves it unset. */
  function ShouldSkip(n: Node): (skip: bool)
    ensures skip <==> n.metadata.Some? && Get(n.metadata.value, "_skip") == Some(JBool(true))
  {
    match n.metadata
    case None => false
    case Some(meta) =>
      match Get(meta, "_skip")
      case None => false
      case Some(s) => if s.JBool? then s.b else false
  }

  // ---------------------------------------------------------------------
  // The decoder.

  /** Keys the decoder reads into the node itself; any other key names a
      child aggregation. */
  predicate Reserved(k: string) {
    k == "key" || k == "key_as_string" || k == "value" || k == "buckets" || k == "doc_count"
    || k == "doc_count_error_upper_bound" || k == "sum_other_doc_count" || k == "interval"
    || k == "meta" || k == "metadata"
  }

  /** Every child aggregation takes the node's `key` as its `parent_key`. */
  function Stamp(n: Node): (r: Node)
    ensures r.aggregations == seq(|n.aggregations|, i requires 0 <= i < |n.aggregations| =>
      (n.aggregations[i].0, n.aggregations[i].1.(parentKey := n.key)))
    ensures r == n.(aggregations := r.aggregations)
  {
    n.(aggregations := seq(|n.aggregations|, i requires 0 <= i < |n.aggregations| =>
      (n.aggregations[i].0, n.aggregations[i].1.(parentKey := n.key))))
  }

  /** Decodes one node: an object whose entries are read in order. */
  function DecodeNode(j: Json): Result<Node>
    decreases j, 0
  {
    match j
    case JObject(ms) =>
      var n :- Visit(ms, EmptyNode);
      Ok(Stamp(n))
    case _ => Err(InvalidType("a map"))
  }

  /** The entries `ms` read, in order, into the partial node `acc`. */
  function Visit(ms: Members, acc: Node): Result<Node>
    decreases ms, 2
  {
    if ms == [] then Ok(acc)
    else
      assert ms[0].1 < ms[0];
      var acc' :- Entry(acc, ms[0].0, ms[0].1);
      Visit(ms[1..], acc')
  }

  /** Reads one entry `k: v` into the partial node `acc`. */
  function Entry(acc: Node, k: string, v: Json): Result<Node>
    decreases v, 1
  {
    if k == "key" then
      // any JSON is accepted here, but only a string becomes the key
      Ok(if v.JString? then acc.(key := Some(v.s)) else acc)
    else if k == "key_as_string" then
      var s :- AsString(v); Ok(acc.(key := Some(s)))
    else if k == "value" then
      var x :- AsFloat(v); Ok(acc.(value := Some(x)))
    else if k == "buckets" then
      if v.JArray? then
        var bs :- DecodeNodes(v.items); Ok(acc.(buckets := bs))
      else Err(InvalidType("a sequence"))
    else if k == "doc_count" then
      var c :- AsU64(v); Ok(acc.(docCount := Some(c)))
    else if k == "doc_count_error_upper_bound" || k == "sum_other_doc_count" || k == "interval" then
      Ok(acc)
    else if k == "meta" || k == "metadata" then
      var m :- AsObject(v); Ok(acc.(metadata := Some(m)))
    else
      match DecodeNode(v)
      case Ok(child) => Ok(acc.(aggregations := Insert(acc.aggregations, k, child)))
      case Err(_) => Ok(acc)  // an entry that is not a node is dropped
  }

  /** `Vec<ElasticAggregationResult>`: every element must decode. */
  function DecodeNodes(items: seq<Json>): (r: Result<seq<Node>>)
    ensures r.Ok? ==> |r.value| == |items|
    decreases items
  {
    if items == [] then Ok([])
    else
      var n :- DecodeNode(items[0]);
      var rest :- DecodeNodes(items[1..]);
      Ok([n] + rest)
  }

  /** The decoder as the visitor runs it: a loop over the entries that fills
      a mutable node, then the stamping of the children. */
  method ReadNode(j: Json) returns (r: Result<Node>)
    ensures r == DecodeNode(j)
    decreases j
  {
    if !j.JObject? {
      return Err(InvalidType("a map"));
    }
    var ms := j.members;
    var result := EmptyNode;
    var i := 0;
    while i < |ms|
      invariant 0 <= i <= |ms|
      invariant Visit(ms, EmptyNode) == Visit(ms[i..], result)
    {
      var k := ms[i].0;
      var v := ms[i].1;
      assert ms[i..][1..] == ms[i + 1..];
      assert v < j by {
        assert ms[i] in ms;
        assert v < ms[i];
      }
      var before := result;
      if k == "key" {
        if v.JString? {
          result := result.(key := Some(v.s));
        }
      } else if k == "key_as_string" {
        if !v.JString? {
          return Err(InvalidType("a string"));
        }
        result := result.(key := Some(v.s));
      } else if k == "value" {
        if !v.JNumber? {
          return Err(InvalidType("a number"));
        }
        result := result.(value := Some(v.n));
      } else if k == "buckets" {
        if !v.JArray? {
          return Err(InvalidType("a sequence"));
        }
        var bs := ReadNodes(v, j);
        if bs.Err? {
          return Err(bs.error);
        }
        result := result.(buckets := bs.value);
      } else if k == "doc_count" {
        var c := AsU64(v);
        if c.Err? {
          return Err(c.error);
        }
        result := result.(docCount := Some(c.value));
      } else if k == "doc_count_error_upper_bound" || k == "sum_other_doc_count" || k == "interval" {
        // the value is read and thrown away
      } else if k == "meta" || k == "metadata" {
        if !v.JObject? {
          return Err(InvalidType("a map"));
        }
        result := result.(metadata := Some(v.members));
      } else {
        var child := ReadNode(v);
        if child.Ok? {
          result := result.(aggregations := Insert(result.aggregations, k, child.value));
        }
      }
      assert Entry(before, k, v) == Ok(result);
      i := i + 1;
    }
    return Ok(Stamp(result));
  }

  /** Reads the elements of a `buckets` array, stopping at the first that
      does not decode. */
  method ReadNodes(v: Json, ghost parent: Json) returns (r: Result<seq<Node>>)
    requires v.JArray? && v < parent
    ensures r == DecodeNodes(v.items)
    decreases parent, 0
  {
    var items := v.items;
    var nodes: seq<Node> := [];
    var i := 0;
    assert items[0..] == items;
    assert forall rest: seq<Node> :: [] + rest == rest;
    while i < |items|
      invariant 0 <= i <= |items|
      invariant DecodeNodes(items) == Prepend(nodes, DecodeNodes(items[i..]))
    {
      assert items[i] < v by {
        assert items[i] in items;
      }
      assert items[i..][1..] == items[i + 1..];
      var n := ReadNode(items[i]);
      if n.Err? {
        return Err(n.error);
      }
      assert forall rest: seq<Node> :: nodes + ([n.value] + rest) == (nodes + [n.value]) + rest;
      nodes := nodes + [n.value];
      i := i + 1;
    }
    assert items[i..] == [];
    assert nodes + [] == nodes;
    return Ok(nodes);
  }

  function Prepend(nodes: seq<Node>, r: Result<seq<Node>>): Result<seq<Node>> {
    if r.Ok? then Ok(nodes + r.value) else r
  }

  // ---------------------------------------------------------------------
  // What the decoder promises.

  /** Reading one more entry continues from the node read so far. */
  lemma {:induction false} VisitAppend(ms: Members, k: string, v: Json, acc: Node)
    ensures Visit(ms + [(k, v)], acc) ==
      (match Visit(ms, acc) case Ok(a) => Entry(a, k, v) case Err(e) => Err(e))
    decreases |ms|
  {
    if ms == [] {
      assert [] + [(k, v)] == [(k, v)];
      assert [(k, v)][1..] == [];
    } else {
      assert (ms + [(k, v)])[0] == ms[0];
      assert (ms + [(k, v)])[1..] == ms[1..] + [(k, v)];
      var e := Entry(acc, ms[0].0, ms[0].1);
      if e.Ok? {
        VisitAppend(ms[1..], k, v, e.value);
      }
    }
  }

  /** Every child aggregation carries the key of the node it was read from. */
  lemma ChildrenStamped(j: Json)
    requires DecodeNode(j).Ok?
    ensures var n := DecodeNode(j).value;
      forall i :: 0 <= i < |n.aggregations| ==> n.aggregations[i].1.parentKey == n.key
  {
  }

  lemma {:induction false} VisitKeepsNamesDistinct(ms: Members, acc: Node)
    requires DistinctNames(acc.aggregations)
    requires Visit(ms, acc).Ok?
    ensures DistinctNames(Visit(ms, acc).value.aggregations)
    decreases |ms|
  {
    if ms != [] {
      var e := Entry(acc, ms[0].0, ms[0].1);
      VisitKeepsNamesDistinct(ms[1..], e.value);
    }
  }

  /** A decoded node names each child aggregation once. */
  lemma DecodedNamesDistinct(j: Json)
    requires DecodeNode(j).Ok?
    ensures DistinctNames(DecodeNode(j).value.aggregations)
  {
    VisitKeepsNamesDistinct(j.members, EmptyNode);
  }

  /** Only objects are nodes; the empty object is the empty node. */
  lemma NodeShape(j: Json)
    ensures !j.JObject? ==> DecodeNode(j).Err?
    ensures DecodeNode(JObject([])) == Ok(EmptyNode)
  {
  }

  /** An unreserved entry whose value is not a node is dropped without
      error, as when decoding an already parsed JSON value: the node reads
      as if the entry were absent. */
  lemma UndecodableEntryDropped(ms: Members, k: string, v: Json)
    requires !Reserved(k) && DecodeNode(v).Err?
    ensures DecodeNode(JObject(ms + [(k, v)])) == DecodeNode(JObject(ms))
  {
    VisitAppend(ms, k, v, EmptyNode);
  }

  /** An unreserved entry whose value is a node becomes a child aggregation
      under its key, stamped with the parent's key. */
  lemma DecodableEntryKept(ms: Members, k: string, v: Json)
    requires !Reserved(k) && DecodeNode(v).Ok?
    ensures DecodeNode(JObject(ms + [(k, v)])).Ok? <==> DecodeNode(JObject(ms)).Ok?
    ensures DecodeNode(JObject(ms + [(k, v)])).Ok? ==>
      var n := DecodeNode(JObject(ms + [(k, v)])).value;
      (k, DecodeNode(v).value.(parentKey := n.key)) in n.aggregations
  {
    var base := Visit(ms, EmptyNode);
    if base.Ok? {
      var child := DecodeNode(v).value;
      AppendedChild(ms, k, v);
      StampedChild(base.value.(aggregations := Insert(base.value.aggregations, k, child)), k, child);
    } else {
      VisitAppend(ms, k, v, EmptyNode);
    }
  }

  /** Appending such an entry to entries that decode inserts its node among
      the children. */
  lemma AppendedChild(ms: Members, k: string, v: Json)
    requires !Reserved(k) && DecodeNode(v).Ok? && Visit(ms, EmptyNode).Ok?
    ensures var base := Visit(ms, EmptyNode).value;
      DecodeNode(JObject(ms + [(k, v)])) ==
        Ok(Stamp(base.(aggregations := Insert(base.aggregations, k, DecodeNode(v).value))))
  {
    VisitAppend(ms, k, v, EmptyNode);
    EntryChild(Visit(ms, EmptyNode).value, k, v);
  }

  /** A child stored under `k` is found there after stamping, carrying the
      node's key as its parent key. */
  lemma StampedChild(a: Node, k: string, child: Node)
    requires k in Names(a.aggregations)
    requires forall i :: 0 <= i < |a.aggregations| && a.aggregations[i].0 == k ==> a.aggregations[i].1 == child
    ensures (k, child.(parentKey := a.key)) in Stamp(a).aggregations
  {
    var i :| 0 <= i < |a.aggregations| && Names(a.aggregations)[i] == k;
    assert Stamp(a).aggregations[i] == (k, child.(parentKey := a.key));
  }

  /** An entry under a key of no field of its own that decodes as a node is
      inserted among the children. */
  lemma EntryChild(acc: Node, k: string, v: Json)
    requires !Reserved(k) && DecodeNode(v).Ok?
    ensures Entry(acc, k, v) == Ok(acc.(aggregations := Insert(acc.aggregations, k, DecodeNode(v).value)))
  {
  }

  /** `key` takes only a string; any other value leaves the key as it was. */
  lemma KeyEntry(ms: Members, v: Json)
    requires DecodeNode(JObject(ms)).Ok?
    ensures DecodeNode(JObject(ms + [("key", v)])).Ok?
    ensures DecodeNode(JObject(ms + [("key", v)])).value.key ==
      if v.JString? then Some(v.s) else DecodeNode(JObject(ms)).value.key
  {
    VisitAppend(ms, "key", v, EmptyNode);
  }

  /** `key_as_string` must be a string, and it replaces any key read
      before it. */
  lemma KeyAsStringEntry(ms: Members, v: Json)
    requires DecodeNode(JObject(ms)).Ok?
    ensures DecodeNode(JObject(ms + [("key_as_string", v)])).Ok? <==> v.JString?
    ensures v.JString? ==> DecodeNode(JObject(ms + [("key_as_string", v)])).value.key == Some(v.s)
  {
    VisitAppend(ms, "key_as_string", v, EmptyNode);
  }

  /** The one field of `ElasticAggregationResponse`, with a serde default. */
  const ResponseFields: seq<FieldSpec> := [("aggregations", true)]

  /** The decoded `ElasticAggregationResponse`: the top-level aggregations,
      read from `aggregations` or its alias `aggs`, and empty when neither
      is present.  Like every derived record it is also read from the
      positional array form. */
  function DecodeAggregations(j: Json): (r: Result<seq<(string, Node)>>)
    ensures r.Ok? ==> DistinctNames(r.value)
  {
    var ms :- Record(j, ResponseFields);
    var vs := ValuesAt(ms, "aggregations") + ValuesAt(ms, "aggs");
    if |vs| == 0 then Ok([])
    else if |vs| > 1 then Err(DuplicateField("aggregations"))
    else if vs[0].JObject? then DecodeNamedNodes(vs[0].members, [])
    else Err(InvalidType("a map"))
  }

  /** `HashMap<String, ElasticAggregationResult>`: every value must decode. */
  function {:induction false} DecodeNamedNodes(ms: Members, acc: seq<(string, Node)>): (r: Result<seq<(string, Node)>>)
    requires DistinctNames(acc)
    ensures r.Ok? ==> DistinctNames(r.value)
    decreases |ms|
  {
    if ms == [] then Ok(acc)
    else
      var n :- DecodeNode(ms[0].1);
      DecodeNamedNodes(ms[1..], Insert(acc, ms[0].0, n))
  }

  /** A response without aggregations is not an error: it has none. */
  lemma NoAggregations(ms: Members)
    requires "aggregations" !in Keys(ms) && "aggs" !in Keys(ms)
    ensures DecodeAggregations(JObject(ms)) == Ok([])
  {
  }

  /** The positional form: `[]` has no aggregations, `[m]` the map `m`,
      and a longer array is refused. */
  lemma PositionalAggregations(ms: Members, extra: seq<Json>)
    ensures DecodeAggregations(JArray([])) == Ok([])
    ensures DecodeAggregations(JArray([JObject(ms)])) == DecodeNamedNodes(ms, [])
    ensures DecodeAggregations(JArray([JObject(ms)] + [JNull] + extra)).Err?
  {
    assert DecodeAggregations(JArray([])) == Ok([]) by {
      assert Record(JArray([]), ResponseFields) == Ok([]);
    }
    PositionalOne(ms);
    assert Record(JArray([JObject(ms)] + [JNull] + extra), ResponseFields).Err?;
  }

  lemma PositionalOne(ms: Members)
    ensures DecodeAggregations(JArray([JObject(ms)])) == DecodeNamedNodes(ms, [])
  {
    var one := [("aggregations", JObject(ms))];
    assert Positional([JObject(ms)], ResponseFields) == one by {
      assert Positional([JObject(ms)], ResponseFields)[0] == one[0];
    }
    assert ValuesAt(one, "aggregations") == [JObject(ms)];
    assert ValuesAt(one, "aggs") == [];
  }

  /** Both spellings at once name the same field twice. */
  lemma BothSpellings(a: Json, b: Json)
    ensures DecodeAggregations(JObject([("aggregations", a), ("aggs", b)])).Err?
  {
    assert ValuesAt([("aggregations", a), ("aggs", b)], "aggregations") == [a];
    assert ValuesAt([("aggregations", a), ("aggs", b)], "aggs") == [b];
  }
}
