/**
 Circular lists by splicing.

 A node carries `prev` and `next` pointers and lies on a ring.  The single
 primitive, `Splice`, swaps the `next` pointers of two nodes; every list
 operation is built from it.  Facts about pointers are proved on snapshots of
 the heap (`Links`), so that they hold for any set of well-formed rings.
 */
module Rings {
  import opened Sequences

  class Node {
    var prev: Node
    var next: Node
    const key: int

    // A fresh node is a singleton ring.
    constructor (key: int)
      ensures prev == this && next == this && this.key == key
    {
      this.key := key;
      prev := this;
      next := this;
    }
  }

  // The pointers of a set of nodes, as a value.
  datatype Links = Links(next: map<Node, Node>, prev: map<Node, Node>)

  ghost function Snapshot(heap: set<Node>): Links
    reads heap
  {
    Links(map n | n in heap :: n.next, map n | n in heap :: n.prev)
  }

  // p->next->prev == p->prev->next == p, and neither pointer leaves the set.
  ghost predicate Linked(h: Links, n: Node)
    requires h.next.Keys == h.prev.Keys && n in h.next
  {
    && h.next[n] in h.next && h.prev[h.next[n]] == n
    && h.prev[n] in h.next && h.next[h.prev[n]] == n
  }

  ghost predicate WellFormed(h: Links)
  {
    h.next.Keys == h.prev.Keys && forall n {:trigger Linked(h, n)} :: n in h.next ==> Linked(h, n)
  }

  function Succ(i: nat, n: nat): nat
    requires i < n
  {
    if i + 1 == n then 0 else i + 1
  }

  // The i-th node's successor is the next one, cyclically.
  ghost predicate Hop(h: Links, r: seq<Node>, i: nat)
    requires i < |r|
  {
    r[i] in h.next && h.next[r[i]] == r[Succ(i, |r|)]
  }

  // The ring [r0, r1, ...].
  ghost predicate Ring(h: Links, r: seq<Node>)
  {
    |r| > 0 && Distinct(r) && forall i :: 0 <= i < |r| ==> Hop(h, r, i)
  }

  // rlnode_swap, on two slots of a table of pointers.
  function Swap<K, V>(m: map<K, V>, i: K, j: K): map<K, V>
    requires i in m && j in m
  {
    m[i := m[j]][j := m[i]]
  }

  lemma SwapTwice<K, V>(m: map<K, V>, i: K, j: K)
    requires i in m && j in m
    ensures Swap(Swap(m, i, j), i, j) == m
    ensures Swap(m, j, i) == Swap(m, i, j)
  {
    var m' := Swap(m, i, j);
    assert m'.Keys == m.Keys;
    assert forall k :: k in m ==> Swap(m', i, j)[k] == m[k];
  }

  // What rl_splice does to the pointers.
  function Spliced(h: Links, a: Node, b: Node): Links
    requires WellFormed(h) && a in h.next && b in h.next
  {
    assert Linked(h, a) && Linked(h, b);
    Links(Swap(h.next, a, b), Swap(h.prev, h.next[a], h.next[b]))
  }

  // --------------------------------------------------------------------
  // Laws of splice on an arbitrary heap of rings
  // --------------------------------------------------------------------

  lemma SpliceKeepsWellFormed(h: Links, a: Node, b: Node)
    requires WellFormed(h) && a in h.next && b in h.next
    ensures WellFormed(Spliced(h, a, b))
    ensures Spliced(h, a, b).next.Keys == h.next.Keys
  {
    var h' := Spliced(h, a, b);
    assert Linked(h, a) && Linked(h, b);
    forall n | n in h'.next
      ensures Linked(h', n)
    {
      assert Linked(h, n);
    }
  }

  lemma SpliceIsItsOwnInverse(h: Links, a: Node, b: Node)
    requires WellFormed(h) && a in h.next && b in h.next
    ensures WellFormed(Spliced(h, a, b))
    ensures Spliced(Spliced(h, a, b), a, b) == h
  {
    SpliceKeepsWellFormed(h, a, b);
    SwapTwice(h.next, a, b);
    SwapTwice(h.prev, h.next[a], h.next[b]);
    SwapTwice(Swap(h.prev, h.next[a], h.next[b]), h.next[a], h.next[b]);
  }

  // A ring may be written down starting from any of its nodes.
  lemma RingRotates(h: Links, r: seq<Node>, k: nat)
    requires Ring(h, r) && k <= |r|
    ensures Ring(h, r[k..] + r[..k])
  {
    var q := r[k..] + r[..k];
    forall i | 0 <= i < |q|
      ensures Hop(h, q, i)
    {
      assert Hop(h, r, if i + k < |r| then i + k else i + k - |r|);
    }
  }

  // [a, x...] [b, y...]  ==>  [a, y..., b, x...]
  lemma SpliceJoins(h: Links, a: Node, x: seq<Node>, b: Node, y: seq<Node>)
    requires WellFormed(h) && Ring(h, [a] + x) && Ring(h, [b] + y)
    requires forall n :: n in [a] + x ==> n !in [b] + y
    ensures a in h.next && b in h.next
    ensures Ring(Spliced(h, a, b), [a] + y + [b] + x)
  {
    var r1, r2 := [a] + x, [b] + y;
    assert Hop(h, r1, 0) && Hop(h, r2, 0);
    var h' := Spliced(h, a, b);
    var q := [a] + y + [b] + x;
    forall i | 0 <= i < |q|
      ensures Hop(h', q, i)
    {
      if 0 < i <= |y| {
        assert Hop(h, r2, i) && r2[i] != r2[0] && r2[i] in r2 && r1[0] in r1;
      } else if i > |y| + 1 {
        var j := i - |y| - 1;
        assert Hop(h, r1, j) && r1[j] != r1[0] && r1[j] in r1 && r2[0] in r2;
      }
    }
    assert r1[0] in r1 && r2[0] in r2;
    assert multiset(q) == multiset(r1) + multiset(r2);
    JoinDistinct(a, x, b, y);
  }

  lemma JoinDistinct<T>(a: T, x: seq<T>, b: T, y: seq<T>)
    requires Distinct([a] + x) && Distinct([b] + y)
    requires forall n :: n in [a] + x ==> n !in [b] + y
    ensures Distinct([a] + y + [b] + x)
  {
    var r1, r2, q := [a] + x, [b] + y, [a] + y + [b] + x;
    forall i, j | 0 <= i < j < |q|
      ensures q[i] != q[j]
    {
      var i' := if i == 0 then 0 else if i <= |y| then i else if i == |y| + 1 then 0 else i - |y| - 1;
      var j' := if j <= |y| then j else if j == |y| + 1 then 0 else j - |y| - 1;
      assert q[i] == if i == 0 || i > |y| + 1 then r1[i'] else r2[i'];
      assert q[j] == if j > |y| + 1 then r1[j'] else r2[j'];
      assert r1[if i' < |r1| then i' else 0] in r1 && r1[if j' < |r1| then j' else 0] in r1;
    }
  }

  // [a, x..., b, y...]  ==>  [a, y...] [b, x...]
  lemma SpliceSplits(h: Links, a: Node, x: seq<Node>, b: Node, y: seq<Node>)
    requires WellFormed(h) && Ring(h, [a] + x + [b] + y)
    ensures a in h.next && b in h.next
    ensures Ring(Spliced(h, a, b), [a] + y)
    ensures Ring(Spliced(h, a, b), [b] + x)
  {
    var r := [a] + x + [b] + y;
    assert Hop(h, r, 0) && Hop(h, r, |x| + 1);
    var h' := Spliced(h, a, b);
    var r1, r2 := [a] + y, [b] + x;
    forall i | 0 <= i < |r1|
      ensures Hop(h', r1, i)
    {
      if i > 0 {
        assert Hop(h, r, i + |x| + 1) && r[i + |x| + 1] != r[0] && r[i + |x| + 1] != r[|x| + 1];
      }
    }
    forall i | 0 <= i < |r2|
      ensures Hop(h', r2, i)
    {
      if i > 0 {
        assert Hop(h, r, i) && r[i] != r[0] && r[i] != r[|x| + 1];
      }
    }
    SplitDistinct(a, x, b, y);
  }

  lemma SplitDistinct<T>(a: T, x: seq<T>, b: T, y: seq<T>)
    requires Distinct([a] + x + [b] + y)
    ensures Distinct([a] + y) && Distinct([b] + x)
  {
    var r, r1, r2 := [a] + x + [b] + y, [a] + y, [b] + x;
    forall i, j | 0 <= i < j < |r1|
      ensures r1[i] != r1[j]
    {
      assert r1[i] == r[if i == 0 then 0 else i + |x| + 1] && r1[j] == r[j + |x| + 1];
    }
    forall i, j | 0 <= i < j < |r2|
      ensures r2[i] != r2[j]
    {
      assert r2[i] == r[if i == 0 then |x| + 1 else i] && r2[j] == r[j];
    }
  }

  // A ring that holds neither node is not touched.
  lemma SpliceFrames(h: Links, a: Node, b: Node, r: seq<Node>)
    requires WellFormed(h) && a in h.next && b in h.next && Ring(h, r)
    requires a !in r && b !in r
    ensures Ring(Spliced(h, a, b), r)
    ensures forall n :: n in r ==> n in h.prev && Spliced(h, a, b).prev[n] == h.prev[n]
  {
    var h' := Spliced(h, a, b);
    forall i | 0 <= i < |r|
      ensures Hop(h', r, i)
      ensures r[i] in h.prev && h'.prev[r[i]] == h.prev[r[i]]
    {
      assert Hop(h, r, i) && Linked(h, a) && Linked(h, b) && Linked(h, r[i]);
      RingPred(h, r, i);
    }
  }

  // The predecessor of a ring's node is on the ring.
  lemma RingPred(h: Links, r: seq<Node>, i: nat)
    requires WellFormed(h) && Ring(h, r) && i < |r|
    ensures r[i] in h.prev && h.prev[r[i]] == r[if i == 0 then |r| - 1 else i - 1]
  {
    var p := if i == 0 then |r| - 1 else i - 1;
    assert Hop(h, r, p) && Linked(h, r[p]);
  }

  // A walk along `next` that has not come back yet.
  ghost predicate Path(h: Links, r: seq<Node>)
  {
    && |r| > 0 && Distinct(r) && r[|r| - 1] in h.next
    && forall i :: 0 <= i < |r| - 1 ==> Hop(h, r, i)
  }

  lemma PathExtends(h: Links, r: seq<Node>)
    requires WellFormed(h) && Path(h, r) && h.next[r[|r| - 1]] != r[0]
    ensures Path(h, r + [h.next[r[|r| - 1]]])
  {
    var m := h.next[r[|r| - 1]];
    forall j | 0 <= j < |r|
      ensures r[j] != m
    {
      if j > 0 { assert Hop(h, r, j - 1) && Linked(h, r[j - 1]) && Linked(h, r[|r| - 1]); }
    }
    var r' := r + [m];
    assert Linked(h, r[|r| - 1]);
    forall i | 0 <= i < |r'| - 1
      ensures Hop(h, r', i)
    {
      if i < |r| - 1 { assert Hop(h, r, i); }
    }
  }

  lemma PathCloses(h: Links, r: seq<Node>)
    requires Path(h, r) && h.next[r[|r| - 1]] == r[0]
    ensures Ring(h, r)
  {
    assert Hop(h, r, |r| - 1);
  }

  // In a well-formed heap every node lies on a ring, so the join and split
  // laws between them cover every possible splice.
  lemma EveryNodeIsOnARing(h: Links, n: Node) returns (r: seq<Node>)
    requires WellFormed(h) && n in h.next
    ensures Ring(h, r) && r[0] == n
  {
    r := PathToRing(h, [n]);
  }

  lemma PathToRing(h: Links, p: seq<Node>) returns (r: seq<Node>)
    requires WellFormed(h) && Path(h, p)
    ensures Ring(h, r) && r[0] == p[0]
    decreases |h.next.Keys| - |p|
  {
    var m := h.next[p[|p| - 1]];
    if m == p[0] {
      PathCloses(h, p);
      r := p;
    } else {
      PathExtends(h, p);
      PathIsBounded(h, p + [m]);
      r := PathToRing(h, p + [m]);
    }
  }

  lemma PathIsBounded(h: Links, r: seq<Node>)
    requires Path(h, r)
    ensures |r| <= |h.next.Keys|
  {
    forall i | 0 <= i < |r|
      ensures r[i] in h.next.Keys
    {
      if i < |r| - 1 { assert Hop(h, r, i); }
    }
    DistinctIsBounded(r, h.next.Keys);
  }

  lemma {:induction false} DistinctIsBounded<T>(s: seq<T>, all: set<T>)
    requires Distinct(s) && forall i {:trigger s[i]} :: 0 <= i < |s| ==> s[i] in all
    ensures |s| <= |all|
    decreases |s|
  {
    if |s| > 0 {
      var last := s[|s| - 1];
      assert last in all;
      DistinctIsBounded(s[..|s| - 1], all - {last});
    }
  }

  // Two nodes are on one ring or on two: splice splits the one or joins the two.
  lemma SpliceSplitsOrJoins(h: Links, a: Node, b: Node) returns (x: seq<Node>, y: seq<Node>, same: bool)
    requires WellFormed(h) && a in h.next && b in h.next && a != b
    ensures same ==> Ring(h, [a] + x + [b] + y)
                     && Ring(Spliced(h, a, b), [a] + y) && Ring(Spliced(h, a, b), [b] + x)
    ensures !same ==> Ring(h, [a] + x) && Ring(h, [b] + y)
                      && Ring(Spliced(h, a, b), [a] + y + [b] + x)
  {
    var r := EveryNodeIsOnARing(h, a);
    same := b in r;
    if same {
      var k :| 0 <= k < |r| && r[k] == b;
      x, y := r[1..k], r[k + 1..];
      assert r == [a] + x + [b] + y;
      SpliceSplits(h, a, x, b, y);
    } else {
      var q := EveryNodeIsOnARing(h, b);
      x, y := r[1..], q[1..];
      assert r == [a] + x && q == [b] + y;
      forall n | n in r
        ensures n !in q
      {
        if n in q { RingsMeetOnlyIfEqual(h, q, r, n); }
      }
      SpliceJoins(h, a, x, b, y);
    }
  }

  // Two rings that share a node have the same nodes.
  lemma RingsMeetOnlyIfEqual(h: Links, r: seq<Node>, q: seq<Node>, n: Node)
    requires WellFormed(h) && Ring(h, r) && Ring(h, q) && n in r && n in q
    ensures forall m :: m in r ==> m in q
  {
    var k :| 0 <= k < |r| && r[k] == n;
    RingRotates(h, r, k);
    var r' := r[k..] + r[..k];
    var i := 0;
    while i + 1 < |r'|
      invariant 0 <= i < |r'|
      invariant forall j :: 0 <= j <= i ==> r'[j] in q
    {
      var l :| 0 <= l < |q| && q[l] == r'[i];
      assert Hop(h, q, l) && Hop(h, r', i);
      i := i + 1;
    }
    forall m | m in r
      ensures m in q
    {
      assert m in r';
    }
  }
}
