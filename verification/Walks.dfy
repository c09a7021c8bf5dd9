/** Walks in a finite directed graph given by its set of edges, and the reachability they define. */
module Walks {

  /** p is a nonempty sequence of nodes, each joined to the next by an edge. */
  ghost predicate Walk<T>(edges: set<(T, T)>, p: seq<T>) {
    && 0 < |p|
    && forall i :: 0 <= i < |p| - 1 ==> (p[i], p[i + 1]) in edges
  }

  ghost predicate WalkBetween<T>(edges: set<(T, T)>, p: seq<T>, a: T, b: T) {
    Walk(edges, p) && p[0] == a && p[|p| - 1] == b
  }

  ghost predicate Linked<T(!new)>(edges: set<(T, T)>, a: T, b: T) {
    exists p :: WalkBetween(edges, p, a, b)
  }

  ghost predicate Symmetric<T(!new)>(edges: set<(T, T)>) {
    forall a, b :: (a, b) in edges ==> (b, a) in edges
  }

  /** No edge leaves s. */
  ghost predicate Closed<T(!new)>(edges: set<(T, T)>, s: set<T>) {
    forall a, b :: (a, b) in edges && a in s ==> b in s
  }

  lemma LinkedRefl<T(!new)>(edges: set<(T, T)>, a: T)
    ensures Linked(edges, a, a)
  {
    assert WalkBetween(edges, [a], a, a);
  }

  lemma LinkedEdge<T(!new)>(edges: set<(T, T)>, a: T, b: T)
    requires (a, b) in edges
    ensures Linked(edges, a, b)
  {
    assert WalkBetween(edges, [a, b], a, b);
  }

  lemma LinkedTrans<T(!new)>(edges: set<(T, T)>, a: T, b: T, c: T)
    requires Linked(edges, a, b) && Linked(edges, b, c)
    ensures Linked(edges, a, c)
  {
    var p :| WalkBetween(edges, p, a, b);
    var q :| WalkBetween(edges, q, b, c);
    assert WalkBetween(edges, p + q[1..], a, c) by {
      var r := p + q[1..];
      forall i | 0 <= i < |r| - 1
        ensures (r[i], r[i + 1]) in edges
      {
        if i < |p| - 1 {
          assert r[i] == p[i] && r[i + 1] == p[i + 1];
        } else {
          var j := i - (|p| - 1);
          assert r[i] == q[j] && r[i + 1] == q[j + 1];
        }
      }
    }
  }

  lemma LinkedSym<T(!new)>(edges: set<(T, T)>, a: T, b: T)
    requires Symmetric(edges) && Linked(edges, a, b)
    ensures Linked(edges, b, a)
  {
    var p :| WalkBetween(edges, p, a, b);
    var r := seq(|p|, i requires 0 <= i < |p| => p[|p| - 1 - i]);
    forall i | 0 <= i < |r| - 1
      ensures (r[i], r[i + 1]) in edges
    {
      var j := |p| - 2 - i;
      assert r[i] == p[j + 1] && r[i + 1] == p[j];
    }
    assert WalkBetween(edges, r, b, a);
  }

  lemma LinkedMono<T(!new)>(small: set<(T, T)>, large: set<(T, T)>, a: T, b: T)
    requires small <= large && Linked(small, a, b)
    ensures Linked(large, a, b)
  {
    var p :| WalkBetween(small, p, a, b);
    assert WalkBetween(large, p, a, b);
  }

  /** A walk that starts in a closed set stays in it. */
  lemma {:induction false} WalkStaysIn<T(!new)>(edges: set<(T, T)>, s: set<T>, p: seq<T>)
    requires Closed(edges, s) && Walk(edges, p) && p[0] in s
    ensures forall i :: 0 <= i < |p| ==> p[i] in s
  {
    for k := 1 to |p|
      invariant forall i :: 0 <= i < k ==> p[i] in s
    {
      assert (p[k - 1], p[k - 1 + 1]) in edges;
    }
  }

  lemma LinkedStaysIn<T(!new)>(edges: set<(T, T)>, s: set<T>, a: T, b: T)
    requires Closed(edges, s) && a in s && Linked(edges, a, b)
    ensures b in s
  {
    var p :| WalkBetween(edges, p, a, b);
    WalkStaysIn(edges, s, p);
  }
}
