/**
 Resource lists: a sentinel node L on the ring [L, s0, s1, ...] stands for the
 list s.  Each operation is one or two splices; the lemmas say which sequence
 operation that is, and the methods run it on the heap.
 */
module Lists {
  import opened Sequences
  import opened Rings

  ghost predicate List(h: Links, l: Node, s: seq<Node>)
  {
    Ring(h, [l] + s)
  }

  ghost predicate Disjoint(x: seq<Node>, y: seq<Node>)
  {
    forall n :: n in x ==> n !in y
  }

  // The pointers of every node outside `touched` are the same.
  ghost predicate SameOutside(h: Links, h': Links, touched: set<Node>)
  {
    && h'.next.Keys == h.next.Keys && h'.prev.Keys == h.prev.Keys
    && (forall n :: n in h.next && n !in touched ==> h'.next[n] == h.next[n])
    && (forall n :: n in h.prev && n !in touched ==> h'.prev[n] == h.prev[n])
  }

  ghost function Nodes(s: seq<Node>): set<Node>
  {
    set n | n in s
  }

  lemma OtherRingsStay(h: Links, h': Links, touched: set<Node>, r: seq<Node>)
    requires SameOutside(h, h', touched) && Ring(h, r) && Nodes(r) !! touched
    ensures Ring(h', r)
  {
    forall i | 0 <= i < |r|
      ensures Hop(h', r, i)
    {
      assert Hop(h, r, i) && r[i] in Nodes(r);
    }
  }

  // Two steps that stay within the same nodes do so together.
  lemma SameOutsideTwice(h: Links, h1: Links, h2: Links, touched: set<Node>, again: set<Node>)
    requires SameOutside(h, h1, touched) && SameOutside(h1, h2, again) && again <= touched
    ensures SameOutside(h, h2, touched)
  {
  }

  // Splicing two nodes moves pointers of their rings only.
  lemma SpliceStaysOnItsRings(h: Links, a: Node, b: Node, touched: set<Node>)
    requires WellFormed(h) && a in h.next && b in h.next
    requires {a, b, h.next[a], h.next[b]} <= touched
    ensures SameOutside(h, Spliced(h, a, b), touched)
  {
    assert Linked(h, a) && Linked(h, b);
  }

  lemma NextOnRing(h: Links, r: seq<Node>, n: Node)
    requires WellFormed(h) && Ring(h, r) && n in r
    ensures n in h.next && h.next[n] in r
    ensures n in h.prev && h.prev[n] in r
  {
    var i :| 0 <= i < |r| && r[i] == n;
    assert Hop(h, r, i);
    RingPred(h, r, i);
  }

  lemma LastIsPrev(h: Links, l: Node, s: seq<Node>)
    requires WellFormed(h) && List(h, l, s)
    ensures l in h.prev && h.prev[l] == (if s == [] then l else s[|s| - 1])
    ensures l in h.next && h.next[l] == (if s == [] then l else s[0])
  {
    var r := [l] + s;
    assert Hop(h, r, 0);
    RingPred(h, r, 0);
  }

  // push_front: [L, s...] [n, t...]  ==>  [L, t..., n, s...]
  lemma PushFront(h: Links, l: Node, s: seq<Node>, n: Node, t: seq<Node>)
    requires WellFormed(h) && List(h, l, s) && Ring(h, [n] + t) && Disjoint([l] + s, [n] + t)
    ensures l in h.next && n in h.next
    ensures WellFormed(Spliced(h, l, n)) && List(Spliced(h, l, n), l, t + [n] + s)
    ensures SameOutside(h, Spliced(h, l, n), Nodes([l] + s + [n] + t))
  {
    SpliceJoins(h, l, s, n, t);
    SpliceKeepsWellFormed(h, l, n);
    assert [l] + t + [n] + s == [l] + (t + [n] + s);
    TouchTwoRings(h, [l] + s, [n] + t, l, n);
    assert [l] + s + ([n] + t) == [l] + s + [n] + t;
  }

  lemma TouchTwoRings(h: Links, r: seq<Node>, q: seq<Node>, a: Node, b: Node)
    requires WellFormed(h) && Ring(h, r) && Ring(h, q) && a in r + q && b in r + q
    ensures a in h.next && b in h.next
    ensures SameOutside(h, Spliced(h, a, b), Nodes(r + q))
  {
    if a in r { NextOnRing(h, r, a); } else { NextOnRing(h, q, a); }
    if b in r { NextOnRing(h, r, b); } else { NextOnRing(h, q, b); }
    SpliceStaysOnItsRings(h, a, b, Nodes(r + q));
  }

  // push_back: [L, s...] [n, t...]  ==>  [L, s..., t..., n]
  lemma PushBack(h: Links, l: Node, s: seq<Node>, n: Node, t: seq<Node>)
    requires WellFormed(h) && List(h, l, s) && Ring(h, [n] + t) && Disjoint([l] + s, [n] + t)
    ensures l in h.prev && h.prev[l] in h.next && n in h.next
    ensures WellFormed(Spliced(h, h.prev[l], n)) && List(Spliced(h, h.prev[l], n), l, s + t + [n])
    ensures SameOutside(h, Spliced(h, h.prev[l], n), Nodes([l] + s + [n] + t))
  {
    LastIsPrev(h, l, s);
    var p := h.prev[l];
    TouchTwoRings(h, [l] + s, [n] + t, p, n);
    assert [l] + s + ([n] + t) == [l] + s + [n] + t;
    SpliceKeepsWellFormed(h, p, n);
    if s == [] {
      SpliceJoins(h, l, [], n, t);
      assert [l] + t + [n] + [] == [l] + (s + t + [n]);
    } else {
      PushBackRing(h, l, s, n, t);
    }
  }

  lemma PushBackRing(h: Links, l: Node, s: seq<Node>, n: Node, t: seq<Node>)
    requires WellFormed(h) && List(h, l, s) && Ring(h, [n] + t) && Disjoint([l] + s, [n] + t)
    requires s != []
    ensures s[|s| - 1] in h.next && n in h.next
    ensures List(Spliced(h, s[|s| - 1], n), l, s + t + [n])
  {
    var r, p := [l] + s, s[|s| - 1];
    RingRotates(h, r, |s|);
    assert r[|s|..] + r[..|s|] == [p] + r[..|s|];
    SpliceJoins(h, p, r[..|s|], n, t);
    var q := [p] + t + [n] + r[..|s|];
    RingRotates(Spliced(h, p, n), q, |t| + 2);
    assert q[|t| + 2..] + q[..|t| + 2] == [l] + (s + t + [n]);
  }

  // A node alone on its ring: removing it changes nothing.
  lemma RemoveAlone(h: Links, a: Node)
    requires WellFormed(h) && Ring(h, [a])
    ensures a in h.prev && h.prev[a] == a && a in h.next && Spliced(h, a, a) == h
  {
    assert [a] + [] == [a];
    LastIsPrev(h, a, []);
  }

  lemma RemoveFromMany(h: Links, a: Node, x: seq<Node>, p: Node)
    requires WellFormed(h) && Ring(h, [a] + x + [p])
    ensures a in h.next && p in h.next
    ensures Ring(Spliced(h, a, p), [a]) && Ring(Spliced(h, a, p), x + [p])
  {
    assert [a] + x + [p] == [a] + x + [p] + [];
    SpliceSplits(h, a, x, p, []);
    assert [a] + [] == [a];
    var q := [p] + x;
    RingRotates(Spliced(h, a, p), q, 1);
    assert q[1..] + q[..1] == x + [p];
  }

  // remove: [a, x...]  ==>  [a] [x...]
  lemma Remove(h: Links, a: Node, x: seq<Node>)
    requires WellFormed(h) && Ring(h, [a] + x)
    ensures a in h.next && h.prev[a] in h.next
    ensures WellFormed(Spliced(h, a, h.prev[a])) && Ring(Spliced(h, a, h.prev[a]), [a])
    ensures x != [] ==> Ring(Spliced(h, a, h.prev[a]), x)
    ensures SameOutside(h, Spliced(h, a, h.prev[a]), Nodes([a] + x))
  {
    RemoveKeepsOthers(h, a, x);
    RemoveSplits(h, a, x);
  }

  lemma RemoveSplits(h: Links, a: Node, x: seq<Node>)
    requires WellFormed(h) && Ring(h, [a] + x)
    ensures a in h.prev && a in h.next && h.prev[a] in h.next
    ensures Ring(Spliced(h, a, h.prev[a]), [a]) && (x != [] ==> Ring(Spliced(h, a, h.prev[a]), x))
  {
    if x == [] {
      assert [a] + x == [a];
      RemoveAlone(h, a);
    } else {
      var x', p := x[..|x| - 1], x[|x| - 1];
      LastIsPrev(h, a, x);
      assert [a] + x == [a] + x' + [p] && x == x' + [p];
      RemoveFromMany(h, a, x', p);
    }
  }

  lemma RemoveKeepsOthers(h: Links, a: Node, x: seq<Node>)
    requires WellFormed(h) && Ring(h, [a] + x)
    ensures a in h.next && h.prev[a] in h.next && WellFormed(Spliced(h, a, h.prev[a]))
    ensures SameOutside(h, Spliced(h, a, h.prev[a]), Nodes([a] + x))
  {
    NextOnRing(h, [a] + x, a);
    var p := h.prev[a];
    NextOnRing(h, [a] + x, p);
    SpliceStaysOnItsRings(h, a, p, Nodes([a] + x));
    SpliceKeepsWellFormed(h, a, p);
  }

  function Without<T>(s: seq<T>, i: nat): seq<T>
    requires i < |s|
  {
    s[..i] + s[i + 1..]
  }

  // remove, on a list: one element goes, and becomes a singleton.
  lemma RemoveAt(h: Links, l: Node, s: seq<Node>, i: nat)
    requires WellFormed(h) && List(h, l, s) && i < |s|
    ensures s[i] in h.next && h.prev[s[i]] in h.next
    ensures WellFormed(Spliced(h, s[i], h.prev[s[i]])) && Ring(Spliced(h, s[i], h.prev[s[i]]), [s[i]])
    ensures List(Spliced(h, s[i], h.prev[s[i]]), l, Without(s, i))
    ensures SameOutside(h, Spliced(h, s[i], h.prev[s[i]]), Nodes([l] + s))
  {
    var x := s[i + 1..] + [l] + s[..i];
    RingAfter(h, l, s, i);
    Remove(h, s[i], x);
    RingWithout(Spliced(h, s[i], h.prev[s[i]]), l, s, i);
    SameNodes(l, s, i);
  }

  // The ring of a list, from its i-th node on; and without that node.
  lemma RingAfter(h: Links, l: Node, s: seq<Node>, i: nat)
    requires List(h, l, s) && i < |s|
    ensures Ring(h, [s[i]] + (s[i + 1..] + [l] + s[..i]))
  {
    var r := [l] + s;
    RingRotates(h, r, i + 1);
    assert r[i + 1..] + r[..i + 1] == [s[i]] + (s[i + 1..] + [l] + s[..i]);
  }

  lemma RingWithout(h: Links, l: Node, s: seq<Node>, i: nat)
    requires i < |s| && Ring(h, s[i + 1..] + [l] + s[..i])
    ensures List(h, l, Without(s, i))
  {
    var x, k := s[i + 1..] + [l] + s[..i], |s| - i - 1;
    RingRotates(h, x, k);
    assert x[k..] + x[..k] == [l] + Without(s, i);
  }

  lemma SameNodes(l: Node, s: seq<Node>, i: nat)
    requires i < |s|
    ensures Nodes([s[i]] + (s[i + 1..] + [l] + s[..i])) == Nodes([l] + s)
  {
    assert s == s[..i] + [s[i]] + s[i + 1..];
  }

  // pop_front: the head leaves and becomes a singleton; an empty list stays.
  lemma PopFront(h: Links, l: Node, s: seq<Node>)
    requires WellFormed(h) && List(h, l, s)
    ensures l in h.next && h.next[l] in h.next && WellFormed(Spliced(h, l, h.next[l]))
    ensures s == [] ==> h.next[l] == l && Spliced(h, l, l) == h
    ensures s != [] ==> h.next[l] == s[0]
                        && List(Spliced(h, l, s[0]), l, s[1..]) && Ring(Spliced(h, l, s[0]), [s[0]])
    ensures SameOutside(h, Spliced(h, l, h.next[l]), Nodes([l] + s))
  {
    LastIsPrev(h, l, s);
    NextOnRing(h, [l] + s, l);
    NextOnRing(h, [l] + s, h.next[l]);
    SpliceStaysOnItsRings(h, l, h.next[l], Nodes([l] + s));
    SpliceKeepsWellFormed(h, l, h.next[l]);
    if s != [] {
      assert [l] + s == [l] + [] + [s[0]] + s[1..];
      SpliceSplits(h, l, [], s[0], s[1..]);
      assert [s[0]] + [] == [s[0]];
    }
  }

  // What pop_back really does to a non-empty list: the sentinel leaves.
  lemma PopBack(h: Links, l: Node, s: seq<Node>)
    requires WellFormed(h) && List(h, l, s) && s != []
    ensures l in h.prev && h.prev[l] == s[|s| - 1] && l in h.next && h.prev[l] in h.next
    ensures WellFormed(Spliced(h, l, h.prev[l]))
    ensures List(Spliced(h, l, h.prev[l]), l, [])
    ensures Ring(Spliced(h, l, h.prev[l]), s)
    ensures SameOutside(h, Spliced(h, l, h.prev[l]), Nodes([l] + s))
  {
    Remove(h, l, s);
    LastIsPrev(h, l, s);
    assert [l] + [] == [l];
  }

  // pop_back is documented to take the tail and leave the rest of the list:
  // it does so if and only if the list has exactly one element.
  lemma PopBackTakesOnlyTheTailIff(h: Links, l: Node, s: seq<Node>)
    requires WellFormed(h) && List(h, l, s) && s != []
    ensures l in h.prev && h.prev[l] in h.next && l in h.next
    ensures (List(Spliced(h, l, h.prev[l]), l, s[..|s| - 1]) && Ring(Spliced(h, l, h.prev[l]), [h.prev[l]]))
            <==> |s| == 1
  {
    PopBack(h, l, s);
    var h' := Spliced(h, l, h.prev[l]);
    if |s| == 1 {
      assert s == [s[0]] && s[..0] == [];
    } else {
      var last := s[|s| - 1];
      assert Hop(h', s, |s| - 1) && h'.next[last] == s[0];
      assert s[0] != last && !Hop(h', [last], 0);
    }
  }

  // append: [D, d...] [S, s...]  ==>  [D, d..., s...] [S]
  lemma Append(h: Links, dest: Node, d: seq<Node>, src: Node, s: seq<Node>)
    requires WellFormed(h) && List(h, dest, d) && List(h, src, s) && Disjoint([dest] + d, [src] + s)
    ensures dest in h.prev && h.prev[dest] in h.next && src in h.next
    ensures var h1 := Spliced(h, h.prev[dest], src);
            src in h1.next && src in h1.prev && h1.prev[src] in h1.next && WellFormed(h1)
            && var h2 := Spliced(h1, src, h1.prev[src]);
            && WellFormed(h2) && List(h2, dest, d + s) && List(h2, src, [])
            && SameOutside(h, h2, Nodes([dest] + d + [src] + s))
  {
    PushBack(h, dest, d, src, s);
    var h1 := Spliced(h, h.prev[dest], src);
    var all := d + s + [src];
    RemoveAt(h1, dest, all, |d| + |s|);
    assert Without(all, |d| + |s|) == d + s;
    assert [src] + [] == [src];
    forall n
      ensures n in Nodes([dest] + all) ==> n in Nodes([dest] + d + [src] + s)
    {
    }
  }

  // prepend: [D, d...] [S, s...]  ==>  [D, s..., d...] [S]
  lemma Prepend(h: Links, dest: Node, d: seq<Node>, src: Node, s: seq<Node>)
    requires WellFormed(h) && List(h, dest, d) && List(h, src, s) && Disjoint([dest] + d, [src] + s)
    ensures dest in h.next && src in h.next
    ensures var h1 := Spliced(h, dest, src);
            src in h1.next && src in h1.prev && h1.prev[src] in h1.next && WellFormed(h1)
            && var h2 := Spliced(h1, src, h1.prev[src]);
            && WellFormed(h2) && List(h2, dest, s + d) && List(h2, src, [])
            && SameOutside(h, h2, Nodes([dest] + d + [src] + s))
  {
    PushFront(h, dest, d, src, s);
    var h1 := Spliced(h, dest, src);
    var all := s + [src] + d;
    RemoveAt(h1, dest, all, |s|);
    assert Without(all, |s|) == s + d;
    assert [src] + [] == [src];
    forall n
      ensures n in Nodes([dest] + all) ==> n in Nodes([dest] + d + [src] + s)
    {
    }
  }

  // --------------------------------------------------------------------
  // The operations on the heap
  // --------------------------------------------------------------------

  // rlnode_swap, on two prev slots
  method SwapPrev(p: Node, q: Node, ghost heap: set<Node>)
    requires p in heap && q in heap
    modifies heap
    ensures Snapshot(heap) == old(Snapshot(heap)).(prev := Swap(old(Snapshot(heap)).prev, p, q))
  {
    ghost var h := Snapshot(heap);
    var temp := p.prev;
    p.prev := q.prev;
    ghost var h1 := Snapshot(heap);
    assert h1.prev == h.prev[p := h.prev[q]];
    assert h1.next == h.next;
    q.prev := temp;
    assert Snapshot(heap).prev == h1.prev[q := h.prev[p]];
    assert Snapshot(heap).next == h.next;
  }

  // rlnode_swap, on two next slots
  method SwapNext(p: Node, q: Node, ghost heap: set<Node>)
    requires p in heap && q in heap
    modifies heap
    ensures Snapshot(heap) == old(Snapshot(heap)).(next := Swap(old(Snapshot(heap)).next, p, q))
  {
    ghost var h := Snapshot(heap);
    var temp := p.next;
    p.next := q.next;
    ghost var h1 := Snapshot(heap);
    assert h1.next == h.next[p := h.next[q]];
    assert h1.prev == h.prev;
    q.next := temp;
    assert Snapshot(heap).next == h1.next[q := h.next[p]];
    assert Snapshot(heap).prev == h.prev;
  }

  // rl_splice
  method Splice(a: Node, b: Node, ghost heap: set<Node>) returns (r: Node)
    requires a in heap && b in heap && WellFormed(Snapshot(heap))
    modifies heap
    ensures r == b && WellFormed(Snapshot(heap))
    ensures Snapshot(heap) == Spliced(old(Snapshot(heap)), a, b)
  {
    ghost var h := Snapshot(heap);
    assert Linked(h, a) && Linked(h, b);
    SpliceKeepsWellFormed(h, a, b);
    SwapPrev(a.next, b.next, heap);
    assert a.next == Snapshot(heap).next[a] && b.next == Snapshot(heap).next[b];
    SwapNext(a, b, heap);
    return b;
  }

  method IsEmpty(l: Node, ghost heap: set<Node>, ghost s: seq<Node>) returns (b: bool)
    requires l in heap && WellFormed(Snapshot(heap)) && List(Snapshot(heap), l, s)
    ensures b <==> s == []
  {
    LastIsPrev(Snapshot(heap), l, s);
    assert s != [] ==> ([l] + s)[0] != ([l] + s)[1];
    return l == l.next;
  }

  method PushFrontNode(l: Node, n: Node, ghost heap: set<Node>, ghost s: seq<Node>, ghost t: seq<Node>)
    requires l in heap && n in heap && WellFormed(Snapshot(heap))
    requires List(Snapshot(heap), l, s) && Ring(Snapshot(heap), [n] + t) && Disjoint([l] + s, [n] + t)
    modifies heap
    ensures WellFormed(Snapshot(heap)) && List(Snapshot(heap), l, t + [n] + s)
    ensures SameOutside(old(Snapshot(heap)), Snapshot(heap), Nodes([l] + s + [n] + t))
  {
    PushFront(Snapshot(heap), l, s, n, t);
    var _ := Splice(l, n, heap);
  }

  method PushBackNode(l: Node, n: Node, ghost heap: set<Node>, ghost s: seq<Node>, ghost t: seq<Node>)
    requires l in heap && n in heap && WellFormed(Snapshot(heap))
    requires List(Snapshot(heap), l, s) && Ring(Snapshot(heap), [n] + t) && Disjoint([l] + s, [n] + t)
    modifies heap
    ensures WellFormed(Snapshot(heap)) && List(Snapshot(heap), l, s + t + [n])
    ensures SameOutside(old(Snapshot(heap)), Snapshot(heap), Nodes([l] + s + [n] + t))
  {
    PushBack(Snapshot(heap), l, s, n, t);
    var _ := Splice(l.prev, n, heap);
  }

  method RemoveNode(n: Node, ghost heap: set<Node>, ghost l: Node, ghost s: seq<Node>, ghost i: nat) returns (r: Node)
    requires n in heap && WellFormed(Snapshot(heap))
    requires List(Snapshot(heap), l, s) && i < |s| && s[i] == n
    modifies heap
    ensures r == n && WellFormed(Snapshot(heap))
    ensures List(Snapshot(heap), l, Without(s, i)) && Ring(Snapshot(heap), [n])
    ensures SameOutside(old(Snapshot(heap)), Snapshot(heap), Nodes([l] + s))
  {
    RemoveAt(Snapshot(heap), l, s, i);
    var _ := Splice(n, n.prev, heap);
    return n;
  }

  method PopFrontNode(l: Node, ghost heap: set<Node>, ghost s: seq<Node>) returns (r: Node)
    requires l in heap && WellFormed(Snapshot(heap)) && List(Snapshot(heap), l, s)
    modifies heap
    ensures WellFormed(Snapshot(heap))
    ensures s == [] ==> r == l && Snapshot(heap) == old(Snapshot(heap))
    ensures s != [] ==> r == s[0] && List(Snapshot(heap), l, s[1..]) && Ring(Snapshot(heap), [r])
    ensures SameOutside(old(Snapshot(heap)), Snapshot(heap), Nodes([l] + s))
  {
    PopFront(Snapshot(heap), l, s);
    r := Splice(l, l.next, heap);
  }

  // As written: on two or more nodes it hands the whole rest of the ring to
  // the node it returns and leaves the list empty.
  method PopBackNode(l: Node, ghost heap: set<Node>, ghost s: seq<Node>) returns (r: Node)
    requires l in heap && WellFormed(Snapshot(heap)) && List(Snapshot(heap), l, s)
    modifies heap
    ensures WellFormed(Snapshot(heap)) && List(Snapshot(heap), l, [])
    ensures s == [] ==> r == l
    ensures s != [] ==> r == s[|s| - 1] && Ring(Snapshot(heap), s)
    ensures SameOutside(old(Snapshot(heap)), Snapshot(heap), Nodes([l] + s))
  {
    ghost var h := Snapshot(heap);
    LastIsPrev(h, l, s);
    if s == [] {
      PopFront(h, l, s);
    } else {
      PopBack(h, l, s);
    }
    r := Splice(l, l.prev, heap);
  }

  method AppendList(dest: Node, src: Node, ghost heap: set<Node>, ghost d: seq<Node>, ghost s: seq<Node>)
    requires dest in heap && src in heap && WellFormed(Snapshot(heap))
    requires List(Snapshot(heap), dest, d) && List(Snapshot(heap), src, s) && Disjoint([dest] + d, [src] + s)
    modifies heap
    ensures WellFormed(Snapshot(heap)) && List(Snapshot(heap), dest, d + s) && List(Snapshot(heap), src, [])
    ensures SameOutside(old(Snapshot(heap)), Snapshot(heap), Nodes([dest] + d + [src] + s))
  {
    Append(Snapshot(heap), dest, d, src, s);
    var _ := Splice(dest.prev, src, heap);
    var _ := Splice(src, src.prev, heap);
  }

  method PrependList(dest: Node, src: Node, ghost heap: set<Node>, ghost d: seq<Node>, ghost s: seq<Node>)
    requires dest in heap && src in heap && WellFormed(Snapshot(heap))
    requires List(Snapshot(heap), dest, d) && List(Snapshot(heap), src, s) && Disjoint([dest] + d, [src] + s)
    modifies heap
    ensures WellFormed(Snapshot(heap)) && List(Snapshot(heap), dest, s + d) && List(Snapshot(heap), src, [])
    ensures SameOutside(old(Snapshot(heap)), Snapshot(heap), Nodes([dest] + d + [src] + s))
  {
    Prepend(Snapshot(heap), dest, d, src, s);
    var _ := Splice(dest, src, heap);
    var _ := Splice(src, src.prev, heap);
  }
}
