/** The first two steps of `on_initialize`: the agenda of the current block
    becomes a list of `(index, task)` pairs without tombstones, which is then
    stably sorted by priority. */
module Queueing {
  import opened Types

  /** A live task taken from the agenda, with its original position. */
  datatype Queued = Queued(index: nat, task: Scheduled)

  ghost predicate IndicesIncreasing(q: seq<Queued>) {
    forall k, m :: 0 <= k < m < |q| ==> q[k].index < q[m].index
  }

  /** `enumerate().filter_map(..)`: the live entries of `slot` with their
      indices, in index order; tombstones are dropped. */
  function Queue(slot: seq<Option<Scheduled>>): (q: seq<Queued>)
    ensures forall k :: 0 <= k < |q| ==> q[k].index < |slot| && slot[q[k].index] == Some(q[k].task)
    ensures forall i :: 0 <= i < |slot| && slot[i].Some? ==> Queued(i, slot[i].value) in q
    ensures IndicesIncreasing(q)
  {
    if slot == [] then []
    else
      var last := |slot| - 1;
      var front := Queue(slot[..last]);
      assert forall i :: 0 <= i < last ==> slot[..last][i] == slot[i];
      if slot[last].Some? then front + [Queued(last, slot[last].value)] else front
  }

  /** `a` is processed before `b`: lower priority value first, and on equal
      priority the one that came first in the agenda. */
  ghost predicate Before(a: Queued, b: Queued) {
    a.task.priority < b.task.priority ||
    (a.task.priority == b.task.priority && a.index < b.index)
  }

  ghost predicate InOrder(q: seq<Queued>) {
    forall k, m :: 0 <= k < m < |q| ==> Before(q[k], q[m])
  }

  /** Stable insertion: `x` goes after every element of priority `<=` its own. */
  function Insert(s: seq<Queued>, x: Queued): (r: seq<Queued>)
    requires InOrder(s)
    requires forall k :: 0 <= k < |s| ==> s[k].index < x.index
    ensures multiset(r) == multiset(s) + multiset{x}
    ensures InOrder(r)
  {
    if s == [] then [x]
    else if x.task.priority < s[0].task.priority then
      assert forall k :: 0 <= k < |s| ==> Before(x, s[k]) by {
        forall k | 0 < k < |s| ensures Before(x, s[k]) {
          assert Before(s[0], s[k]);
        }
      }
      InOrderCons(x, s);
      [x] + s
    else
      var rest := Insert(s[1..], x);
      assert s == [s[0]] + s[1..];
      PermutationStaysAfter(s[0], s[1..], x, rest);
      InOrderCons(s[0], rest);
      [s[0]] + rest
  }

  lemma InOrderCons(h: Queued, t: seq<Queued>)
    requires InOrder(t)
    requires forall k :: 0 <= k < |t| ==> Before(h, t[k])
    ensures InOrder([h] + t)
  {
    var r := [h] + t;
    forall k, m | 0 <= k < m < |r| ensures Before(r[k], r[m]) {
      assert r[m] == t[m - 1];
      if k > 0 {
        assert r[k] == t[k - 1];
      }
    }
  }

  /** If `h` comes before every element of `tail` and before `x`, it comes
      before every element of any permutation of `tail` plus `x`. */
  lemma PermutationStaysAfter(h: Queued, tail: seq<Queued>, x: Queued, r: seq<Queued>)
    requires multiset(r) == multiset(tail) + multiset{x}
    requires forall k :: 0 <= k < |tail| ==> Before(h, tail[k])
    requires Before(h, x)
    ensures forall k :: 0 <= k < |r| ==> Before(h, r[k])
  {
    forall k | 0 <= k < |r| ensures Before(h, r[k]) {
      assert r[k] in multiset(r);
      if r[k] != x {
        assert r[k] in multiset(tail);
        var j :| 0 <= j < |tail| && tail[j] == r[k];
      }
    }
  }

  /** `sort_by_key(|(_, s)| s.priority)`, a stable sort: the result is a
      permutation of the queue, ordered by priority and, on ties, by the
      original agenda index. */
  function SortByPriority(q: seq<Queued>): (r: seq<Queued>)
    requires IndicesIncreasing(q)
    ensures multiset(r) == multiset(q) && |r| == |q|
    ensures InOrder(r)
  {
    if q == [] then []
    else
      var last := |q| - 1;
      var prefix := q[..last];
      assert IndicesIncreasing(prefix);
      var front := SortByPriority(prefix);
      PermutationKeepsBound(prefix, front, q[last].index);
      assert q == prefix + [q[last]];
      assert multiset(q) == multiset(prefix) + multiset{q[last]};
      Insert(front, q[last])
  }

  /** Every index of a permutation of `p` lies below `bound` when every index of `p` does. */
  lemma PermutationKeepsBound(p: seq<Queued>, r: seq<Queued>, bound: nat)
    requires multiset(r) == multiset(p)
    requires forall k :: 0 <= k < |p| ==> p[k].index < bound
    ensures forall k :: 0 <= k < |r| ==> r[k].index < bound
  {
    forall k | 0 <= k < |r| ensures r[k].index < bound {
      assert r[k] in multiset(p);
      var j :| 0 <= j < |p| && p[j] == r[k];
    }
  }

  /** Sorting keeps exactly the queued tasks. */
  lemma SortedHasSameElements(q: seq<Queued>, x: Queued)
    requires IndicesIncreasing(q)
    ensures x in SortByPriority(q) <==> x in q
  {
    var r := SortByPriority(q);
    assert x in r <==> x in multiset(r);
    assert x in q <==> x in multiset(q);
  }

  /** The processing order is non-decreasing in priority. */
  lemma SortedByPriority(q: seq<Queued>, k: nat, m: nat)
    requires IndicesIncreasing(q)
    requires k < m < |q|
    ensures SortByPriority(q)[k].task.priority <= SortByPriority(q)[m].task.priority
    ensures SortByPriority(q)[k].task.priority == SortByPriority(q)[m].task.priority ==>
      SortByPriority(q)[k].index < SortByPriority(q)[m].index
  {
    assert Before(SortByPriority(q)[k], SortByPriority(q)[m]);
  }
}
