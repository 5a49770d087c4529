/**
  `From<ElasticAggregationResponse> for Response`: the walk that turns the
  response tree into one computed result per `(parent, name)`.

  The walk pops work items off an explicit stack; `HashMap` iteration order
  decides in which order entries are met, so the model states what holds
  for every order: the results are the grouping of SOME ordering of the
  contributions a tree-recursive definition collects.
*/
module AggregationFlatten {
  import opened JsonModel
  import opened AggregationResponse
  import opened AggregationResult

  type Key = (Option<string>, string)

  /** What one leaf adds to the result under `(parent, name)`: one value,
      at most one field, and the type and metadata used if it is the first. */
  datatype Contribution = Contribution(
    parent: Option<string>,
    name: string,
    ty: Ty,
    metadata: Option<Members>,
    field: Option<string>,
    value: Float)

  function KeyOf(c: Contribution): Key {
    (c.parent, c.name)
  }

  /** The field a leaf records: its `parent_key`, else its `key`. */
  function FieldOf(n: Node): Option<string> {
    if n.parentKey.Some? then n.parentKey else n.key
  }

  /** `handle_leaf_agg`: a node with a value that is not skipped
      contributes it. */
  function LeafContributions(parent: Option<string>, ty: Ty, name: string, n: Node): seq<Contribution> {
    var v := ValueOrDocCount(n);
    if v.Some? && !ShouldSkip(n) then [Contribution(parent, name, ty, n.metadata, FieldOf(n), v.value)]
    else []
  }

  // ---------------------------------------------------------------------
  // The contributions of a tree, by structural recursion.

  /** The contributions of the aggregations `es` met with parent `parent`. */
  function FrameContributions(parent: Option<string>, es: seq<(string, Node)>): multiset<Contribution>
    decreases es
  {
    if es == [] then multiset{}
    else
      assert es[0].1 < es[0];
      EntryContributions(parent, es[0].0, es[0].1) + FrameContributions(parent, es[1..])
  }

  /** One aggregation `k: n`: the node itself as a leaf, its own
      aggregations with no parent, and its buckets. */
  function EntryContributions(parent: Option<string>, k: string, n: Node): multiset<Contribution>
    decreases n
  {
    var (ty, name) := SplitTyAndName(k);
    multiset(LeafContributions(parent, ty, name, n))
      + FrameContributions(None, n.aggregations)
      + BucketContributions(parent, ty, name, n.parentKey, n.buckets)
  }

  /** The buckets of aggregation `name`: a bucket without aggregations is a
      leaf of that aggregation; a bucket with aggregations has them walked
      with parent `pk`, the aggregation's own `parent_key`. */
  function BucketContributions(parent: Option<string>, ty: Ty, name: string, pk: Option<string>, bs: seq<Node>): multiset<Contribution>
    decreases bs
  {
    if bs == [] then multiset{}
    else
      (if bs[0].aggregations == [] then multiset(LeafContributions(parent, ty, name, bs[0]))
       else FrameContributions(pk, bs[0].aggregations))
      + BucketContributions(parent, ty, name, pk, bs[1..])
  }

  // ---------------------------------------------------------------------
  // Grouping contributions into results.

  /** Adds one contribution: the first under a key creates the result with
      its type and metadata; later ones only append. */
  function Add(m: map<Key, ComputedResult>, c: Contribution): map<Key, ComputedResult> {
    var r := if KeyOf(c) in m then m[KeyOf(c)] else ComputedResult(c.parent, c.name, c.ty, [], [], c.metadata);
    var field := if c.field.Some? then [c.field.value] else [];
    m[KeyOf(c) := r.(fields := r.fields + field, values := r.values + [c.value])]
  }

  /** The results of a sequence of contributions, added in order. */
  function Group(log: seq<Contribution>): map<Key, ComputedResult>
    decreases |log|
  {
    if log == [] then map[] else Add(Group(log[..|log| - 1]), log[|log| - 1])
  }

  /** The values contributed under key `k`, in order. */
  function ValuesFor(log: seq<Contribution>, k: Key): seq<Float>
    decreases |log|
  {
    if log == [] then []
    else ValuesFor(log[..|log| - 1], k) + (if KeyOf(log[|log| - 1]) == k then [log[|log| - 1].value] else [])
  }

  /** The fields contributed under key `k`, in order. */
  function FieldsFor(log: seq<Contribution>, k: Key): seq<string>
    decreases |log|
  {
    if log == [] then []
    else
      var c := log[|log| - 1];
      FieldsFor(log[..|log| - 1], k) + (if KeyOf(c) == k && c.field.Some? then [c.field.value] else [])
  }

  /** The first contribution under key `k`. */
  function FirstFor(log: seq<Contribution>, k: Key): (c: Contribution)
    requires exists i :: 0 <= i < |log| && KeyOf(log[i]) == k
    ensures c in log && KeyOf(c) == k
    decreases |log|
  {
    if KeyOf(log[0]) == k then log[0]
    else
      assert exists i :: 0 <= i < |log[1..]| && KeyOf(log[1..][i]) == k by {
        var i :| 0 <= i < |log| && KeyOf(log[i]) == k;
        assert log[1..][i - 1] == log[i];
      }
      FirstFor(log[1..], k)
  }

  // ---------------------------------------------------------------------
  // The walk.

  /** A work item: aggregations still to visit, with the parent they were
      met under. */
  datatype Pending = Pending(parent: Option<string>, aggs: seq<(string, Node)>)

  function PendingContributions(stack: seq<Pending>): multiset<Contribution>
    decreases |stack|
  {
    if stack == [] then multiset{}
    else
      var top := stack[|stack| - 1];
      PendingContributions(stack[..|stack| - 1]) + FrameContributions(top.parent, top.aggs)
  }

  ghost function SizeOfEntries(es: seq<(string, Node)>): nat
    decreases es
  {
    if es == [] then 0
    else
      assert es[0].1 < es[0];
      1 + SizeOfNode(es[0].1) + SizeOfEntries(es[1..])
  }

  ghost function SizeOfNode(n: Node): nat
    decreases n
  {
    SizeOfEntries(n.aggregations) + SizeOfNodes(n.buckets)
  }

  ghost function SizeOfNodes(bs: seq<Node>): nat
    decreases bs
  {
    if bs == [] then 0 else 1 + SizeOfNode(bs[0]) + SizeOfNodes(bs[1..])
  }

  /** Every work item counts one plus the size of what it still holds:
      each pushed item is a strict part of the one popped. */
  ghost function StackSize(stack: seq<Pending>): nat
    decreases |stack|
  {
    if stack == [] then 0
    else StackSize(stack[..|stack| - 1]) + 1 + SizeOfEntries(stack[|stack| - 1].aggs)
  }

  lemma PushPending(stack: seq<Pending>, p: Pending)
    ensures PendingContributions(stack + [p]) == PendingContributions(stack) + FrameContributions(p.parent, p.aggs)
    ensures StackSize(stack + [p]) == StackSize(stack) + 1 + SizeOfEntries(p.aggs)
  {
    assert (stack + [p])[..|stack|] == stack;
  }

  /** `handle_leaf_agg` on the results map: look up or create the entry for
      `(parent, name)`, then push the field and the value. */
  method HandleLeaf(results: map<Key, ComputedResult>, parent: Option<string>, ty: Ty, name: string, agg: Node)
    returns (results': map<Key, ComputedResult>)
    ensures var cs := LeafContributions(parent, ty, name, agg);
      results' == if cs == [] then results else Add(results, cs[0])
  {
    results' := results;
    var value := ValueOrDocCount(agg);
    if value.Some? && !ShouldSkip(agg) {
      var key := (parent, name);
      var result := if key in results then results[key] else ComputedResult(parent, name, ty, [], [], agg.metadata);
      var field := if agg.parentKey.Some? then agg.parentKey else agg.key;
      if field.Some? {
        result := result.(fields := result.fields + [field.value]);
      } else {
        assert result.fields + [] == result.fields;
      }
      result := result.(values := result.values + [value.value]);
      results' := results[key := result];
    }
  }

  /** Logging a leaf's contributions keeps the map equal to their grouping. */
  lemma LogLeaf(log: seq<Contribution>, leaf: seq<Contribution>)
    requires |leaf| <= 1
    ensures Group(log + leaf) == if leaf == [] then Group(log) else Add(Group(log), leaf[0])
    ensures multiset(log + leaf) == multiset(log) + multiset(leaf)
  {
    if leaf == [] {
      assert log + leaf == log;
    } else {
      assert (log + leaf)[..|log|] == log;
    }
  }

  /** The buckets of one aggregation: leaf buckets are added at once, the
      others have their aggregations pushed. */
  method WalkBuckets(results: map<Key, ComputedResult>, ghost log: seq<Contribution>, pending: seq<Pending>,
                     parent: Option<string>, ty: Ty, name: string, pk: Option<string>, bs: seq<Node>)
    returns (results': map<Key, ComputedResult>, ghost log': seq<Contribution>, pending': seq<Pending>)
    requires results == Group(log)
    ensures results' == Group(log')
    ensures multiset(log') + PendingContributions(pending')
      == multiset(log) + PendingContributions(pending) + BucketContributions(parent, ty, name, pk, bs)
    ensures StackSize(pending') <= StackSize(pending) + SizeOfNodes(bs)
  {
    results', log', pending' := results, log, pending;
    var b := 0;
    assert bs[b..] == bs;
    while b < |bs|
      invariant 0 <= b <= |bs|
      invariant results' == Group(log')
      invariant multiset(log') + PendingContributions(pending') + BucketContributions(parent, ty, name, pk, bs[b..])
        == multiset(log) + PendingContributions(pending) + BucketContributions(parent, ty, name, pk, bs)
      invariant StackSize(pending') + SizeOfNodes(bs[b..]) <= StackSize(pending) + SizeOfNodes(bs)
    {
      assert bs[b..][0] == bs[b] && bs[b..][1..] == bs[b + 1..];
      results', log', pending' := WalkBucket(results', log', pending', parent, ty, name, pk, bs[b]);
      b := b + 1;
    }
  }

  lemma BucketOne(parent: Option<string>, ty: Ty, name: string, pk: Option<string>, bucket: Node)
    ensures BucketContributions(parent, ty, name, pk, [bucket])
      == if bucket.aggregations == [] then multiset(LeafContributions(parent, ty, name, bucket))
         else FrameContributions(pk, bucket.aggregations)
    ensures SizeOfEntries(bucket.aggregations) <= SizeOfNode(bucket)
  {
    assert [bucket][1..] == [];
  }

  /** One bucket: a leaf if it has no aggregations, else its aggregations
      are pushed under `pk`. */
  method WalkBucket(results: map<Key, ComputedResult>, ghost log: seq<Contribution>, pending: seq<Pending>,
                    parent: Option<string>, ty: Ty, name: string, pk: Option<string>, bucket: Node)
    returns (results': map<Key, ComputedResult>, ghost log': seq<Contribution>, pending': seq<Pending>)
    requires results == Group(log)
    ensures results' == Group(log')
    ensures multiset(log') + PendingContributions(pending')
      == multiset(log) + PendingContributions(pending) + BucketContributions(parent, ty, name, pk, [bucket])
    ensures StackSize(pending') <= StackSize(pending) + 1 + SizeOfNode(bucket)
  {
    BucketOne(parent, ty, name, pk, bucket);
    if bucket.aggregations == [] {
      var leaf := LeafContributions(parent, ty, name, bucket);
      results' := HandleLeaf(results, parent, ty, name, bucket);
      LogLeaf(log, leaf);
      log', pending' := log + leaf, pending;
    } else {
      PushPending(pending, Pending(pk, bucket.aggregations));
      results', log', pending' := results, log, pending + [Pending(pk, bucket.aggregations)];
    }
  }

  /** One aggregation `k: agg`: `handle_leaf_agg` on it, its own
      aggregations pushed with no parent, then its buckets. */
  method WalkEntry(results: map<Key, ComputedResult>, ghost log: seq<Contribution>, pending: seq<Pending>,
                   parent: Option<string>, k: string, agg: Node)
    returns (results': map<Key, ComputedResult>, ghost log': seq<Contribution>, pending': seq<Pending>)
    requires results == Group(log)
    ensures results' == Group(log')
    ensures multiset(log') + PendingContributions(pending')
      == multiset(log) + PendingContributions(pending) + EntryContributions(parent, k, agg)
    ensures StackSize(pending') <= StackSize(pending) + 1 + SizeOfNode(agg)
  {
    var (ty, name) := SplitTyAndName(k);
    var leaf := LeafContributions(parent, ty, name, agg);
    results' := HandleLeaf(results, parent, ty, name, agg);
    LogLeaf(log, leaf);
    log' := log + leaf;
    PushPending(pending, Pending(None, agg.aggregations));
    pending' := pending + [Pending(None, agg.aggregations)];
    results', log', pending' := WalkBuckets(results', log', pending', parent, ty, name, agg.parentKey, agg.buckets);
  }

  /** The results map the walk builds, together with the order (`log`) in
      which it met the contributions. */
  method FlattenResults(aggs: seq<(string, Node)>) returns (results: map<Key, ComputedResult>, ghost log: seq<Contribution>)
    ensures multiset(log) == FrameContributions(None, aggs)
    ensures results == Group(log)
  {
    ghost var total := FrameContributions(None, aggs);
    results := map[];
    log := [];
    var pending := [Pending(None, aggs)];
    assert PendingContributions(pending) == total by {
      assert pending[..0] == [];
    }
    while pending != []
      invariant results == Group(log)
      invariant multiset(log) + PendingContributions(pending) == total
      decreases StackSize(pending)
    {
      var curr := pending[|pending| - 1];
      pending := pending[..|pending| - 1];
      results, log, pending := WalkFrame(results, log, pending, curr.parent, curr.aggs);
    }
  }

  /** One frame of the walk: every entry of `es`, under `parent`, in order. */
  method WalkFrame(results: map<Key, ComputedResult>, ghost log: seq<Contribution>, pending: seq<Pending>,
                   parent: Option<string>, es: seq<(string, Node)>)
    returns (results': map<Key, ComputedResult>, ghost log': seq<Contribution>, pending': seq<Pending>)
    requires results == Group(log)
    ensures results' == Group(log')
    ensures multiset(log') + PendingContributions(pending')
      == multiset(log) + PendingContributions(pending) + FrameContributions(parent, es)
    ensures StackSize(pending') <= StackSize(pending) + SizeOfEntries(es)
  {
    results', log', pending' := results, log, pending;
    var i := 0;
    assert es[i..] == es;
    while i < |es|
      invariant 0 <= i <= |es|
      invariant results' == Group(log')
      invariant multiset(log') + PendingContributions(pending') + FrameContributions(parent, es[i..])
        == multiset(log) + PendingContributions(pending) + FrameContributions(parent, es)
      invariant StackSize(pending') + SizeOfEntries(es[i..]) <= StackSize(pending) + SizeOfEntries(es)
    {
      assert es[i..][0] == es[i] && es[i..][1..] == es[i + 1..];
      results', log', pending' := WalkEntry(results', log', pending', parent, es[i].0, es[i].1);
      i := i + 1;
    }
    assert es[i..] == [];
  }

  /** The results in the map, each listed once. */
  predicate Lists(out: seq<ComputedResult>, m: map<Key, ComputedResult>) {
    && |out| == |m|
    && (forall i :: 0 <= i < |out| ==> (out[i].parent, out[i].name) in m && m[(out[i].parent, out[i].name)] == out[i])
    && (forall i, j :: 0 <= i < j < |out| ==> (out[i].parent, out[i].name) != (out[j].parent, out[j].name))
  }

  /** `Response::from`: the walk, then the map's results as a list in the
      map's (unspecified) order. */
  method ResponseFrom(aggs: seq<(string, Node)>) returns (r: Response, ghost log: seq<Contribution>)
    ensures multiset(log) == FrameContributions(None, aggs)
    ensures Lists(r.aggregations, Group(log))
  {
    var results;
    results, log := FlattenResults(aggs);
    GroupKeysConsistent(log);
    var out := ListResults(results);
    r := Response(out);
  }

  /** The values of a map keyed by each result's `(parent, name)`, each
      once, in the map's own order. */
  method ListResults(results: map<Key, ComputedResult>) returns (out: seq<ComputedResult>)
    requires forall k :: k in results ==> results[k].parent == k.0 && results[k].name == k.1
    ensures Lists(out, results)
  {
    out := [];
    var keys := results.Keys;
    while keys != {}
      invariant keys <= results.Keys
      invariant |out| + |keys| == |results|
      invariant forall i :: 0 <= i < |out| ==> (out[i].parent, out[i].name) in results.Keys - keys
      invariant forall i :: 0 <= i < |out| ==> results[(out[i].parent, out[i].name)] == out[i]
      invariant forall i, j :: 0 <= i < j < |out| ==> (out[i].parent, out[i].name) != (out[j].parent, out[j].name)
      decreases |keys|
    {
      var k :| k in keys;
      out := out + [results[k]];
      keys := keys - {k};
    }
  }

  // ---------------------------------------------------------------------
  // What the grouping guarantees, whatever the order of the log.

  /** Each result sits under its own `(parent, name)`. */
  lemma {:induction false} GroupKeysConsistent(log: seq<Contribution>)
    ensures forall k :: k in Group(log) ==> Group(log)[k].parent == k.0 && Group(log)[k].name == k.1
    decreases |log|
  {
    if log != [] {
      GroupKeysConsistent(log[..|log| - 1]);
    }
  }

  /** There is a result for a key exactly when some contribution has it. */
  lemma {:induction false} GroupKeys(log: seq<Contribution>, k: Key)
    ensures k in Group(log) <==> exists i :: 0 <= i < |log| && KeyOf(log[i]) == k
    decreases |log|
  {
    if log != [] {
      var init := log[..|log| - 1];
      GroupKeys(init, k);
      if exists i :: 0 <= i < |init| && KeyOf(init[i]) == k {
        var i :| 0 <= i < |init| && KeyOf(init[i]) == k;
        assert log[i] == init[i];
      }
      if exists i :: 0 <= i < |log| && KeyOf(log[i]) == k {
        var i :| 0 <= i < |log| && KeyOf(log[i]) == k;
        if i < |init| {
          assert init[i] == log[i];
        }
      }
    }
  }

  /** A result holds every value contributed under its key, in order, and
      the fields of those contributions that had one. */
  lemma {:induction false} GroupContents(log: seq<Contribution>, k: Key)
    requires k in Group(log)
    ensures Group(log)[k].values == ValuesFor(log, k)
    ensures Group(log)[k].fields == FieldsFor(log, k)
    decreases |log|
  {
    var init := log[..|log| - 1];
    var c := log[|log| - 1];
    if k in Group(init) {
      GroupContents(init, k);
    } else {
      GroupKeys(init, k);
      NothingFor(init, k);
    }
  }

  lemma {:induction false} NothingFor(log: seq<Contribution>, k: Key)
    requires forall i :: 0 <= i < |log| ==> KeyOf(log[i]) != k
    ensures ValuesFor(log, k) == [] && FieldsFor(log, k) == []
    decreases |log|
  {
    if log != [] {
      NothingFor(log[..|log| - 1], k);
    }
  }

  /** A result's type and metadata are those of the first contribution
      under its key. */
  lemma {:induction false} GroupFirst(log: seq<Contribution>, k: Key)
    requires k in Group(log)
    ensures exists i :: 0 <= i < |log| && KeyOf(log[i]) == k
    ensures Group(log)[k].ty == FirstFor(log, k).ty
    ensures Group(log)[k].metadata == FirstFor(log, k).metadata
    decreases |log|
  {
    GroupKeys(log, k);
    var init := log[..|log| - 1];
    if k in Group(init) {
      GroupFirst(init, k);
      FirstForPrefix(log, k);
    } else {
      GroupKeys(init, k);
      FirstForLast(log, k);
    }
  }

  lemma {:induction false} FirstForPrefix(log: seq<Contribution>, k: Key)
    requires exists i :: 0 <= i < |log| - 1 && KeyOf(log[i]) == k
    ensures exists i :: 0 <= i < |log| && KeyOf(log[i]) == k
    ensures FirstFor(log, k) == FirstFor(log[..|log| - 1], k)
    decreases |log|
  {
    var init := log[..|log| - 1];
    var i :| 0 <= i < |log| - 1 && KeyOf(log[i]) == k;
    assert init[i] == log[i];
    assert init[0] == log[0];
    if KeyOf(log[0]) != k {
      var tail := log[1..];
      assert tail[..|tail| - 1] == init[1..];
      assert tail[i - 1] == log[i];
      FirstForPrefix(tail, k);
      assert FirstFor(log, k) == FirstFor(tail, k);
      assert FirstFor(init, k) == FirstFor(init[1..], k);
    }
  }

  lemma {:induction false} FirstForLast(log: seq<Contribution>, k: Key)
    requires log != [] && KeyOf(log[|log| - 1]) == k
    requires forall i :: 0 <= i < |log| - 1 ==> KeyOf(log[i]) != k
    ensures FirstFor(log, k) == log[|log| - 1]
    decreases |log|
  {
    if |log| > 1 {
      assert forall i :: 0 <= i < |log[1..]| - 1 ==> log[1..][i] == log[i + 1];
      FirstForLast(log[1..], k);
    }
  }

  /** Every contribution adds exactly one value and at most one field, so no
      result has more fields than values. */
  lemma {:induction false} FieldsNeverOutnumberValues(log: seq<Contribution>)
    ensures forall k :: k in Group(log) ==> |Group(log)[k].fields| <= |Group(log)[k].values|
    decreases |log|
  {
    if log != [] {
      FieldsNeverOutnumberValues(log[..|log| - 1]);
    }
  }

  // ---------------------------------------------------------------------
  // What the walk visits.

  /** A skipped node adds nothing of its own, yet its aggregations and its
      buckets are walked as for any other node. */
  lemma SkippedNodeStillWalked(parent: Option<string>, k: string, n: Node)
    requires ShouldSkip(n)
    ensures var (ty, name) := SplitTyAndName(k);
      EntryContributions(parent, k, n)
        == FrameContributions(None, n.aggregations) + BucketContributions(parent, ty, name, n.parentKey, n.buckets)
  {
  }

  /** A node's own aggregations are walked again from the top, with no
      parent, whatever the node itself contributes. */
  lemma ChildrenWalkedWithoutParent(parent: Option<string>, k: string, n: Node)
    ensures FrameContributions(None, n.aggregations) <= EntryContributions(parent, k, n)
  {
  }
}
