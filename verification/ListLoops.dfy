/**
 The list operations that walk a ring: length, equality, search, reversal and
 selection.
 */
module ListLoops {
  import opened Sequences
  import opened Rings
  import opened Lists

  // The i-th element of a list, and the sentinel after the last one.
  ghost function At(l: Node, s: seq<Node>, i: nat): Node
    requires i <= |s|
  {
    if i < |s| then s[i] else l
  }

  lemma Step(h: Links, l: Node, s: seq<Node>, i: nat)
    requires WellFormed(h) && List(h, l, s) && i < |s|
    ensures s[i] != l && s[i] in h.next && h.next[s[i]] == At(l, s, i + 1)
  {
    var r := [l] + s;
    assert Hop(h, r, i + 1) && r[0] != r[i + 1];
  }

  lemma First(h: Links, l: Node, s: seq<Node>)
    requires WellFormed(h) && List(h, l, s)
    ensures l in h.next && h.next[l] == At(l, s, 0)
  {
    LastIsPrev(h, l, s);
  }

  function Keys(s: seq<Node>): seq<int>
  {
    seq(|s|, i requires 0 <= i < |s| => s[i].key)
  }

  // rlist_len
  method Len(l: Node, ghost heap: set<Node>, ghost s: seq<Node>) returns (count: nat)
    requires l in heap && WellFormed(Snapshot(heap)) && List(Snapshot(heap), l, s)
    ensures count == |s|
  {
    ghost var h := Snapshot(heap);
    First(h, l, s);
    count := 0;
    var p := l.next;
    while p != l
      invariant count <= |s| && p == At(l, s, count)
      decreases |s| - count
    {
      Step(h, l, s, count);
      p := p.next;
      count := count + 1;
    }
    if count < |s| { Step(h, l, s, count); }
  }

  // rlist_find: the first node with the key, else `fail`.
  method Find(l: Node, key: int, fail: Node?, ghost heap: set<Node>, ghost s: seq<Node>) returns (r: Node?)
    requires l in heap && WellFormed(Snapshot(heap)) && List(Snapshot(heap), l, s)
    ensures key in Keys(s) ==> exists k: nat :: FirstAt(s, key, k) && r == s[k]
    ensures key !in Keys(s) ==> r == fail
  {
    ghost var h := Snapshot(heap);
    First(h, l, s);
    var p := l.next;
    ghost var k := 0;
    while p != l
      invariant k <= |s| && p == At(l, s, k)
      invariant key !in Keys(s)[..k]
      decreases |s| - k
    {
      Step(h, l, s, k);
      if p.key == key {
        assert Keys(s)[k] == key && FirstAt(s, key, k);
        return p;
      }
      p := p.next;
      k := k + 1;
    }
    if k < |s| { Step(h, l, s, k); }
    assert Keys(s)[..k] == Keys(s);
    return fail;
  }

  ghost predicate FirstAt(s: seq<Node>, key: int, k: nat)
  {
    k < |s| && s[k].key == key && key !in Keys(s)[..k]
  }

  // rlist_equal: the two lists hold the same keys in the same order.
  method Equal(l1: Node, l2: Node, ghost heap: set<Node>, ghost s1: seq<Node>, ghost s2: seq<Node>) returns (r: bool)
    requires l1 in heap && l2 in heap && WellFormed(Snapshot(heap))
    requires List(Snapshot(heap), l1, s1) && List(Snapshot(heap), l2, s2)
    ensures r <==> Keys(s1) == Keys(s2)
  {
    ghost var h := Snapshot(heap);
    First(h, l1, s1);
    First(h, l2, s2);
    var i1, i2 := l1.next, l2.next;
    ghost var k := 0;
    while i1 != l1
      invariant k <= |s1| && k <= |s2| && i1 == At(l1, s1, k) && i2 == At(l2, s2, k)
      invariant Keys(s1)[..k] == Keys(s2)[..k]
      decreases |s1| - k
    {
      Step(h, l1, s1, k);
      if k < |s2| { Step(h, l2, s2, k); }
      if i2 == l2 {
        return false;
      }
      if i1.key != i2.key {
        assert Keys(s1)[k] != Keys(s2)[k];
        return false;
      }
      i1 := i1.next;
      i2 := i2.next;
      k := k + 1;
    }
    if k < |s1| { Step(h, l1, s1, k); }
    if k < |s2| { Step(h, l2, s2, k); }
    assert Keys(s1)[..k] == Keys(s1);
    return i2 == l2;
  }

  // --------------------------------------------------------------------
  // Reversal
  // --------------------------------------------------------------------

  // The pointers with prev and next exchanged at some nodes.
  ghost function Flipped(h: Links, at: set<Node>): Links
    requires h.next.Keys == h.prev.Keys
  {
    Links(map n | n in h.next :: if n in at then h.prev[n] else h.next[n],
          map n | n in h.next :: if n in at then h.next[n] else h.prev[n])
  }

  lemma FlippedRing(h: Links, l: Node, s: seq<Node>)
    requires WellFormed(h) && List(h, l, s)
    ensures WellFormed(Flipped(h, Nodes([l] + s)))
    ensures List(Flipped(h, Nodes([l] + s)), l, Reverse(s))
    ensures SameOutside(h, Flipped(h, Nodes([l] + s)), Nodes([l] + s))
  {
    FlippedWellFormed(h, [l] + s);
    FlippedHops(h, l, s);
    var r, q := [l] + s, [l] + Reverse(s);
    forall i, j | 0 <= i < j < |q|
      ensures q[i] != q[j]
    {
      assert q[i] == r[if i == 0 then 0 else |r| - i] && q[j] == r[|r| - j];
    }
  }

  lemma FlippedWellFormed(h: Links, r: seq<Node>)
    requires WellFormed(h) && Ring(h, r)
    ensures WellFormed(Flipped(h, Nodes(r)))
  {
    var h' := Flipped(h, Nodes(r));
    forall n | n in h'.next
      ensures Linked(h', n)
    {
      NeighboursTogether(h, r, n);
    }
  }

  lemma FlippedHops(h: Links, l: Node, s: seq<Node>)
    requires WellFormed(h) && List(h, l, s)
    ensures forall i :: 0 <= i < 1 + |s| ==> Hop(Flipped(h, Nodes([l] + s)), [l] + Reverse(s), i)
  {
    var r, q := [l] + s, [l] + Reverse(s);
    forall i | 0 <= i < |q|
      ensures Hop(Flipped(h, Nodes(r)), q, i)
    {
      var i' := if i == 0 then 0 else |r| - i;
      assert q[i] == r[i'] && r[i'] in Nodes(r) && Hop(h, r, i');
      RingPred(h, r, i');
    }
  }

  // A node and its neighbours are on a ring together, or off it together.
  lemma NeighboursTogether(h: Links, r: seq<Node>, n: Node)
    requires WellFormed(h) && Ring(h, r) && n in h.next
    ensures Linked(h, n) && (n in r <==> h.next[n] in r) && (n in r <==> h.prev[n] in r)
  {
    assert Linked(h, n);
    if n in r { NextOnRing(h, r, n); }
    if h.next[n] in r { NextOnRing(h, r, h.next[n]); }
    if h.prev[n] in r { NextOnRing(h, r, h.prev[n]); }
  }

  lemma FlipOne(h: Links, done: set<Node>, p: Node)
    requires h.next.Keys == h.prev.Keys && p in h.next && p !in done
    ensures Flipped(h, done).next[p := h.prev[p]] == Flipped(h, done + {p}).next
    ensures Flipped(h, done).prev[p := h.next[p]] == Flipped(h, done + {p}).prev
  {
  }

  // The body of the loop of rlist_reverse.
  method FlipNode(p: Node, ghost heap: set<Node>, ghost h: Links, ghost done: set<Node>)
    requires p in heap && p !in done && h.next.Keys == heap && h.prev.Keys == heap
    requires Snapshot(heap) == Flipped(h, done)
    modifies heap
    ensures Snapshot(heap) == Flipped(h, done + {p})
    ensures p.next == h.prev[p]
  {
    ghost var h0 := Snapshot(heap);
    assert h0.next[p] == h.next[p] && h0.prev[p] == h.prev[p];
    FlipOne(h, done, p);
    p.prev, p.next := p.next, p.prev;
    assert Snapshot(heap).next == h0.next[p := h0.prev[p]];
    assert Snapshot(heap).prev == h0.prev[p := h0.next[p]];
  }

  // What rlist_reverse has done when it comes to r[k]: it walks backwards.
  ghost function Walked(r: seq<Node>, k: nat): set<Node>
    requires k < |r|
  {
    {r[0]} + Nodes(r[k + 1..])
  }

  lemma WalkStep(h: Links, r: seq<Node>, k: nat)
    requires WellFormed(h) && Ring(h, r) && k < |r|
    ensures r[k] in h.prev && h.prev[r[k]] == r[if k == 0 then |r| - 1 else k - 1]
    ensures k > 0 ==> r[k] !in Walked(r, k) && Walked(r, k) + {r[k]} == Walked(r, k - 1)
    ensures Walked(r, |r| - 1) == {r[0]}
  {
    RingPred(h, r, k);
    if k > 0 {
      assert r[k..] == [r[k]] + r[k + 1..];
    }
  }

  lemma WalkEnds(h: Links, r: seq<Node>, k: nat)
    requires Ring(h, r) && k < |r| && r[k] == r[0]
    ensures Walked(r, k) == Nodes(r)
  {
    assert r == [r[0]] + r[1..];
  }

  // The walk has come to p == r[k].
  ghost predicate Walking(now: Links, h: Links, r: seq<Node>, k: nat, p: Node)
  {
    && WellFormed(h) && Ring(h, r) && k < |r| && p == r[k]
    && now == Flipped(h, Walked(r, k))
  }

  // The first turn, at the node the ring is reversed from.
  method FlipFirst(l: Node, ghost heap: set<Node>, ghost r: seq<Node>) returns (q: Node)
    requires WellFormed(Snapshot(heap)) && Ring(Snapshot(heap), r) && l in heap && l == r[0]
    modifies heap
    ensures Walking(Snapshot(heap), old(Snapshot(heap)), r, |r| - 1, q) && q in heap
  {
    ghost var h := Snapshot(heap);
    WalkStep(h, r, 0);
    assert Hop(h, r, |r| - 1);
    assert h == Flipped(h, {});
    FlipNode(l, heap, h, {});
    assert {} + {l} == {l};
    return l.next;
  }

  // One more turn: flip r[k] and go to r[k - 1].
  method FlipAt(p: Node, ghost heap: set<Node>, ghost h: Links, ghost r: seq<Node>, ghost k: nat)
    returns (q: Node)
    requires Walking(Snapshot(heap), h, r, k, p) && p != r[0] && p in heap
    modifies heap
    ensures k > 0 && Walking(Snapshot(heap), h, r, k - 1, q) && q in heap
  {
    WalkStep(h, r, k);
    assert Hop(h, r, k - 1);
    assert h.next.Keys == Snapshot(heap).next.Keys;
    FlipNode(p, heap, h, Walked(r, k));
    return p.next;
  }

  // rlist_reverse
  method ReverseList(l: Node, ghost heap: set<Node>, ghost s: seq<Node>)
    requires l in heap && WellFormed(Snapshot(heap)) && List(Snapshot(heap), l, s)
    modifies heap
    ensures WellFormed(Snapshot(heap)) && List(Snapshot(heap), l, Reverse(s))
    ensures SameOutside(old(Snapshot(heap)), Snapshot(heap), Nodes([l] + s))
  {
    ghost var h, r := Snapshot(heap), [l] + s;
    ghost var k: nat := |s|;
    var p := FlipFirst(l, heap, r);
    while p != l
      invariant Walking(Snapshot(heap), h, r, k, p) && p in heap
      decreases k
    {
      p := FlipAt(p, heap, h, r, k);
      k := k - 1;
    }
    WalkEnds(h, r, k);
    FlippedRing(h, l, s);
  }

  // --------------------------------------------------------------------
  // Selection
  // --------------------------------------------------------------------

  // The elements that satisfy a predicate, in order.
  function Filter<T>(s: seq<T>, pred: T -> bool): seq<T>
  {
    if s == [] then [] else Filter(s[..|s| - 1], pred) + (if pred(s[|s| - 1]) then [s[|s| - 1]] else [])
  }

  lemma FilterMore<T>(s: seq<T>, k: nat, pred: T -> bool)
    requires k < |s|
    ensures Filter(s[..k + 1], pred) == Filter(s[..k], pred) + (if pred(s[k]) then [s[k]] else [])
  {
    assert s[..k + 1][..k] == s[..k];
  }

  lemma {:induction false} FilterKeeps<T>(s: seq<T>, pred: T -> bool)
    ensures forall x :: x in Filter(s, pred) ==> x in s
  {
    if s != [] { FilterKeeps(s[..|s| - 1], pred); }
  }

  // Where rlist_select stands after looking at k nodes of s.
  ghost predicate Selecting(h: Links, src: Node, dest: Node, s: seq<Node>, d: seq<Node>, pred: Node -> bool, k: nat)
    requires k <= |s|
  {
    var kept, picked := Filter(s[..k], n => !pred(n)), Filter(s[..k], pred);
    && WellFormed(h)
    && List(h, src, kept + s[k..])
    && List(h, dest, d + picked)
    && Disjoint([src] + (kept + s[k..]), [dest] + (d + picked))
  }

  // A node that is not selected stays where it is.
  lemma SelectSkips(h: Links, src: Node, dest: Node, s: seq<Node>, d: seq<Node>, pred: Node -> bool, k: nat)
    requires k < |s| && Selecting(h, src, dest, s, d, pred, k) && !pred(s[k])
    ensures Selecting(h, src, dest, s, d, pred, k + 1)
  {
    FilterMore(s, k, pred);
    FilterMore(s, k, n => !pred(n));
    assert Filter(s[..k], n => !pred(n)) + s[k..] == Filter(s[..k + 1], n => !pred(n)) + s[k + 1..];
    assert Filter(s[..k], pred) == Filter(s[..k + 1], pred);
  }

  // Where the walk is: after the nodes that were kept.
  lemma Cursor(h: Links, src: Node, kept: seq<Node>, rest: seq<Node>)
    requires WellFormed(h) && List(h, src, kept + rest)
    ensures var i := if kept == [] then src else kept[|kept| - 1];
            i in h.next && h.next[i] == At(src, rest, 0) && h.next[i] in h.next && (rest != [] ==> rest[0] != src)
  {
    if kept == [] {
      First(h, src, kept + rest);
    } else {
      Step(h, src, kept + rest, |kept| - 1);
    }
    assert Linked(h, if kept == [] then src else kept[|kept| - 1]);
    if rest != [] {
      Step(h, src, kept + rest, |kept|);
    }
  }

  // A selected node moves from the one list to the end of the other.
  method MoveNode(n: Node, dest: Node, ghost heap: set<Node>, ghost src: Node,
                  ghost kept: seq<Node>, ghost rest: seq<Node>, ghost d: seq<Node>)
    requires n in heap && dest in heap && WellFormed(Snapshot(heap))
    requires List(Snapshot(heap), src, kept + [n] + rest) && List(Snapshot(heap), dest, d)
    requires Disjoint([src] + (kept + [n] + rest), [dest] + d)
    modifies heap
    ensures WellFormed(Snapshot(heap))
    ensures List(Snapshot(heap), src, kept + rest) && List(Snapshot(heap), dest, d + [n])
    ensures Disjoint([src] + (kept + rest), [dest] + (d + [n]))
    ensures SameOutside(old(Snapshot(heap)), Snapshot(heap), Nodes([src] + (kept + [n] + rest) + [dest] + d))
  {
    ghost var all := kept + [n] + rest;
    ghost var h := Snapshot(heap);
    assert Without(all, |kept|) == kept + rest;
    MovedIsApart(src, kept, n, rest, [dest] + d);
    var p := RemoveNode(n, heap, src, all, |kept|);
    OtherRingsStay(h, Snapshot(heap), Nodes([src] + all), [dest] + d);
    ghost var h1 := Snapshot(heap);
    assert [dest] + d + [n] == [dest] + (d + [n]);
    assert [n] + [] == [n] && d + [] + [n] == d + [n];
    PushBackNode(dest, p, heap, d, []);
    OtherRingsStay(h1, Snapshot(heap), Nodes([dest] + d + [n] + []), [src] + (kept + rest));
  }

  // What a list keeps, without n, is apart from n and from the other list.
  lemma MovedIsApart(src: Node, kept: seq<Node>, n: Node, rest: seq<Node>, y: seq<Node>)
    requires Distinct([src] + (kept + [n] + rest)) && Disjoint([src] + (kept + [n] + rest), y)
    ensures n !in [src] + (kept + rest) && n !in y
    ensures Disjoint([src] + (kept + rest), y) && Disjoint([src] + (kept + rest), y + [n])
  {
    var r := [src] + (kept + [n] + rest);
    OnceOnly(r, |kept| + 1);
    assert r[|kept| + 1] == n && r[..|kept| + 1] == [src] + kept && r[|kept| + 2..] == rest;
    assert n in r && forall m :: m in kept + rest ==> m in r;
    DisjointGrows([src] + (kept + rest), y, n);
  }

  lemma DisjointGrows(x: seq<Node>, y: seq<Node>, n: Node)
    requires Disjoint(x, y) && n !in x
    ensures Disjoint(x, y + [n])
  {
  }

  lemma OnceOnly<T>(s: seq<T>, i: nat)
    requires Distinct(s) && i < |s|
    ensures s[i] !in s[..i] && s[i] !in s[i + 1..]
  {
  }

  // The nodes of both lists after k steps were in one of them before.
  lemma SelectedNodes(src: Node, dest: Node, s: seq<Node>, d: seq<Node>, pred: Node -> bool, k: nat)
    requires k < |s|
    ensures var kept := Filter(s[..k], n => !pred(n));
            Nodes([src] + (kept + [s[k]] + s[k + 1..]) + [dest] + (d + Filter(s[..k], pred)))
            <= Nodes([src] + s + [dest] + d)
  {
    FilterKeeps(s[..k], n => !pred(n));
    FilterKeeps(s[..k], pred);
  }

  // A selected node moves.
  method SelectMoves(n: Node, dest: Node, ghost heap: set<Node>, ghost src: Node, ghost s: seq<Node>,
                     ghost d: seq<Node>, ghost pred: Node -> bool, ghost k: nat)
    requires dest in heap && k < |s| && n == s[k] && n in heap && pred(n)
    requires Selecting(Snapshot(heap), src, dest, s, d, pred, k)
    modifies heap
    ensures Selecting(Snapshot(heap), src, dest, s, d, pred, k + 1)
    ensures SameOutside(old(Snapshot(heap)), Snapshot(heap), Nodes([src] + s + [dest] + d))
  {
    SelectedNodes(src, dest, s, d, pred, k);
    ghost var kept := Filter(s[..k], n => !pred(n));
    FilterMore(s, k, pred);
    FilterMore(s, k, n => !pred(n));
    assert kept + s[k..] == kept + [n] + s[k + 1..];
    MoveNode(n, dest, heap, src, kept, s[k + 1..], d + Filter(s[..k], pred));
    assert d + Filter(s[..k], pred) + [n] == d + Filter(s[..k + 1], pred);
    assert kept == Filter(s[..k + 1], n => !pred(n));
  }

  // One turn of the loop: the node after i is looked at, which is s[k].
  method SelectTurn(i: Node, dest: Node, pred: Node -> bool, ghost heap: set<Node>, ghost src: Node,
                    ghost s: seq<Node>, ghost d: seq<Node>, ghost k: nat, ghost kept: seq<Node>)
    returns (j: Node)
    requires dest in heap && k < |s| && i.next == s[k] && i in heap && i.next in heap
    requires Selecting(Snapshot(heap), src, dest, s, d, pred, k) && kept == Filter(s[..k], n => !pred(n))
    requires i == if kept == [] then src else kept[|kept| - 1]
    modifies heap
    ensures Selecting(Snapshot(heap), src, dest, s, d, pred, k + 1) && j in heap
    ensures SameOutside(old(Snapshot(heap)), Snapshot(heap), Nodes([src] + s + [dest] + d))
    ensures var kept' := Filter(s[..k + 1], n => !pred(n)); j == if kept' == [] then src else kept'[|kept'| - 1]
  {
    FilterMore(s, k, n => !pred(n));
    j := i;
    if pred(i.next) {
      SelectMoves(i.next, dest, heap, src, s, d, pred, k);
    } else {
      SelectSkips(Snapshot(heap), src, dest, s, d, pred, k);
      j := i.next;
    }
  }

  // rlist_select: a stable partition.
  method Select(src: Node, dest: Node, pred: Node -> bool,
                ghost heap: set<Node>, ghost s: seq<Node>, ghost d: seq<Node>)
    requires src in heap && dest in heap && WellFormed(Snapshot(heap))
    requires List(Snapshot(heap), src, s) && List(Snapshot(heap), dest, d) && Disjoint([src] + s, [dest] + d)
    modifies heap
    ensures WellFormed(Snapshot(heap))
    ensures List(Snapshot(heap), src, Filter(s, n => !pred(n)))
    ensures List(Snapshot(heap), dest, d + Filter(s, pred))
    ensures SameOutside(old(Snapshot(heap)), Snapshot(heap), Nodes([src] + s + [dest] + d))
  {
    ghost var h, touched := Snapshot(heap), Nodes([src] + s + [dest] + d);
    var i := src;
    ghost var k := 0;
    ghost var kept: seq<Node> := [];
    assert [] + s[0..] == s && d + [] == d;
    while i.next != src
      invariant 0 <= k <= |s| && Selecting(Snapshot(heap), src, dest, s, d, pred, k)
      invariant SameOutside(h, Snapshot(heap), touched)
      invariant kept == Filter(s[..k], n => !pred(n))
      invariant i == (if kept == [] then src else kept[|kept| - 1]) && i in heap
      decreases |s| - k
    {
      Cursor(Snapshot(heap), src, kept, s[k..]);
      ghost var h1 := Snapshot(heap);
      i := SelectTurn(i, dest, pred, heap, src, s, d, k, kept);
      SameOutsideTwice(h, h1, Snapshot(heap), touched, touched);
      kept := Filter(s[..k + 1], n => !pred(n));
      k := k + 1;
    }
    Cursor(Snapshot(heap), src, kept, s[k..]);
    assert s[..k] == s && kept + s[k..] == kept;
  }
}
