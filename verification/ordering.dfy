/** The `order_index` bookkeeping shared by the Topic and Content stores:
    the next index for a new row, and the writes a reorder sends. */
module Ordering {
  import opened Wrappers

  /** `existing?.length > 0 ? (existing[0].order_index || 0) + 1 : 0`, where
      `lookup` is the data of the "highest `order_index` in this scope"
      query: `None` when it returned no data (its error is not inspected),
      otherwise the `order_index` of each returned row. */
  function NextIndex(lookup: Option<seq<Option<int>>>): (n: int)
    ensures lookup.None? || |lookup.value| == 0 ==> n == 0
    ensures lookup.Some? && |lookup.value| > 0 && lookup.value[0].Some? ==> n == lookup.value[0].value + 1
    ensures lookup.Some? && |lookup.value| > 0 && lookup.value[0].None? ==> n == 1
  {
    if lookup.Some? && |lookup.value| > 0 then
      lookup.value[0].GetOr(0) + 1
    else 0
  }

  /** The greatest entry of a non-empty list. */
  function Max(xs: seq<int>): (m: int)
    requires |xs| > 0
    ensures m in xs
    ensures forall k :: 0 <= k < |xs| ==> xs[k] <= m
  {
    if |xs| == 1 then xs[0]
    else
      var rest := Max(xs[1..]);
      assert forall k :: 1 <= k < |xs| ==> xs[k] == xs[1..][k - 1];
      if xs[0] >= rest then xs[0] else rest
  }

  /** What the server answers to `order('order_index', desc).limit(1)` over
      the scope's indices: no row for an empty scope, otherwise the row
      holding the greatest index. */
  function TopAnswer(indices: seq<int>): Option<seq<Option<int>>> {
    if |indices| == 0 then Some([]) else Some([Some(Max(indices))])
  }

  /** Answered by the server, the next index is 0 for an empty scope and
      otherwise the greatest existing index plus one, so it is larger than
      every index already in the scope. */
  lemma NextIndexFresh(indices: seq<int>)
    ensures |indices| == 0 ==> NextIndex(TopAnswer(indices)) == 0
    ensures |indices| > 0 ==> NextIndex(TopAnswer(indices)) == Max(indices) + 1
    ensures forall k :: 0 <= k < |indices| ==> indices[k] < NextIndex(TopAnswer(indices))
  {
  }

  /** The indices of a scope are exactly 0 .. n-1. */
  predicate Contiguous(indices: seq<int>) {
    (forall k :: 0 <= k < |indices| ==> 0 <= indices[k] < |indices|) &&
    (forall j :: 0 <= j < |indices| ==> j in indices)
  }

  /** Creating in a scope whose indices are 0 .. n-1 uses index n, so the
      scope stays contiguous from 0. */
  lemma CreateKeepsContiguous(indices: seq<int>)
    requires Contiguous(indices)
    ensures NextIndex(TopAnswer(indices)) == |indices|
    ensures Contiguous(indices + [NextIndex(TopAnswer(indices))])
  {
    if |indices| > 0 {
      var m := Max(indices);
      var k :| 0 <= k < |indices| && indices[k] == m;
      assert m < |indices|;
      assert |indices| - 1 in indices;
      var j :| 0 <= j < |indices| && indices[j] == |indices| - 1;
      assert m >= |indices| - 1;
    }
    var next := NextIndex(TopAnswer(indices));
    var grown := indices + [next];
    forall j | 0 <= j < |grown|
      ensures j in grown
    {
      if j < |indices| {
        assert j in indices;
        var k :| 0 <= k < |indices| && indices[k] == j;
        assert grown[k] == j;
      } else {
        assert grown[|indices|] == j;
      }
    }
  }

  /** One `update({ order_index })` a reorder sends. */
  datatype Write = Write(id: string, orderIndex: int)

  /** `items.map((item, index) => ({ id: item.id, order_index: index }))`. */
  function Writes(ids: seq<string>): (w: seq<Write>)
    ensures |w| == |ids|
    ensures forall i :: 0 <= i < |ids| ==> w[i].id == ids[i] && w[i].orderIndex == i
  {
    seq(|ids|, i requires 0 <= i < |ids| => Write(ids[i], i))
  }

  /** The indices a reorder writes are 0 .. n-1, in the order passed. */
  lemma WritesAreContiguous(ids: seq<string>)
    ensures Contiguous(seq(|ids|, i requires 0 <= i < |ids| => Writes(ids)[i].orderIndex))
  {
    var w := Writes(ids);
    var idx := seq(|ids|, i requires 0 <= i < |ids| => w[i].orderIndex);
    forall j | 0 <= j < |idx|
      ensures j in idx
    {
      assert idx[j] == j;
    }
  }
}
