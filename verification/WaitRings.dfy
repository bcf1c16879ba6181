/**
 The ring of waiters of a condition variable.  It has no sentinel: waitset
 points to its first waiter, or is null.
 */
module WaitRings {
  import opened Sequences
  import opened Rings
  import opened Lists

  type Tid = nat

  // A __cv_waiter record, on the stack of its thread.
  class Waiter {
    const node: Node
    const thread: Tid
    var signalled: bool
    var removed: bool

    constructor (node: Node, thread: Tid)
      ensures this.node == node && this.thread == thread && !signalled && !removed
    {
      this.node := node;
      this.thread := thread;
      signalled := false;
      removed := false;
    }
  }

  // The threads the scheduler has STOPPED, as wakeup sees them.
  class Sleepers {
    var stopped: set<Tid>

    method Wakeup(t: Tid) returns (ret: bool)
      modifies this
      ensures ret <==> t in old(stopped)
      ensures stopped == old(stopped) - {t}
    {
      ret := t in stopped;
      stopped := stopped - {t};
    }
  }

  ghost function NodesOf(q: seq<Waiter>): seq<Node>
  {
    seq(|q|, i requires 0 <= i < |q| => q[i].node)
  }

  ghost function ThreadsOf(q: seq<Waiter>): seq<Tid>
  {
    seq(|q|, i requires 0 <= i < |q| => q[i].thread)
  }

  // --- the ring, on a snapshot of the pointers

  ghost predicate RingFrom(h: Links, q: seq<Node>)
  {
    q == [] || Ring(h, q)
  }

  lemma PushLast(h: Links, q: seq<Node>, n: Node)
    requires WellFormed(h) && Ring(h, q) && Ring(h, [n]) && n !in q
    ensures q[0] in h.prev && h.prev[q[0]] in h.next && n in h.next
    ensures WellFormed(Spliced(h, h.prev[q[0]], n)) && Ring(Spliced(h, h.prev[q[0]], n), q + [n])
    ensures SameOutside(h, Spliced(h, h.prev[q[0]], n), Nodes(q + [n]))
  {
    var s := q[1..];
    assert q == [q[0]] + s && [n] + [] == [n];
    PushBack(h, q[0], s, n, []);
    assert [q[0]] + (s + [] + [n]) == q + [n] == [q[0]] + s + [n] + [];
  }

  lemma RemoveOne(h: Links, q: seq<Node>, i: nat)
    requires WellFormed(h) && Ring(h, q) && i < |q|
    ensures q[i] in h.next && h.prev[q[i]] in h.next
    ensures var h' := Spliced(h, q[i], h.prev[q[i]]);
            && WellFormed(h') && Ring(h', [q[i]]) && RingFrom(h', Without(q, i))
            && SameOutside(h, h', Nodes(q))
  {
    RingRotates(h, q, i);
    var x := q[i + 1..] + q[..i];
    assert q[i..] + q[..i] == [q[i]] + x;
    Lists.Remove(h, q[i], x);
    assert Nodes([q[i]] + x) <= Nodes(q);
    if x != [] {
      var h', k := Spliced(h, q[i], h.prev[q[i]]), |q| - i - 1;
      RingRotates(h', x, k);
      assert x[k..] + x[..k] == Without(q, i);
    }
  }

  // The nodes of the waiters of q.
  ghost function RingNodes(q: seq<Waiter>): set<Node>
  {
    Nodes(NodesOf(q))
  }

  lemma SuffixNodes(q: seq<Waiter>, n: nat)
    requires n <= |q|
    ensures RingNodes(q[n..]) <= RingNodes(q)
  {
    assert NodesOf(q[n..]) == NodesOf(q)[n..];
  }

  class CondVar {
    var waitset: Waiter?
    var obj: map<Node, Waiter>     // the obj pointers of the nodes
    ghost var ring: seq<Waiter>

    // The node's obj pointer leads back to its record.
    ghost predicate Recorded(w: Waiter, heap: set<Node>)
      reads this`obj
    {
      w.node in heap && w.node in obj && obj[w.node] == w
    }

    ghost predicate Valid(heap: set<Node>)
      reads this, heap
    {
      && WellFormed(Snapshot(heap))
      && (waitset == if ring == [] then null else ring[0])
      && (forall w {:trigger Recorded(w, heap)} :: w in ring ==> Recorded(w, heap))
      && RingFrom(Snapshot(heap), NodesOf(ring))
    }

    constructor ()
      ensures ring == [] && waitset == null
    {
      waitset := null;
      obj := map[];
      ring := [];
    }

    // The waiter after w, which is first in the ring.
    method Following(w: Waiter, ghost heap: set<Node>) returns (nextw: Waiter?)
      requires Valid(heap) && ring != [] && ring[0] == w
      ensures nextw == if |ring| == 1 then null else ring[1]
    {
      ghost var h, q := Snapshot(heap), NodesOf(ring);
      assert Hop(h, q, 0) && q[0] == w.node && w in ring;
      assert ring[Succ(0, |ring|)] in ring && Recorded(ring[Succ(0, |ring|)], heap);
      var v := obj[w.node.next];
      return if v == w then null else v;
    }

    // rlnode_init: the obj pointer of a new record's node
    method SetObj(w: Waiter, ghost heap: set<Node>)
      requires Valid(heap) && w.node in heap && w.node !in NodesOf(ring)
      modifies this`obj
      ensures Valid(heap) && Recorded(w, heap)
    {
      ghost var q, r := NodesOf(ring), ring;
      forall v | v in r
        ensures Recorded(v, heap) && v.node != w.node
      {
        var i :| 0 <= i < |r| && r[i] == v;
        assert Recorded(v, heap) && q[i] in q;
      }
      obj := obj[w.node := w];
    }

    // The first part of cv_wait: the record goes to the back of the ring.
    method Push(w: Waiter, ghost heap: set<Node>)
      requires Valid(heap) && w.node in heap && Ring(Snapshot(heap), [w.node])
      requires w.node !in NodesOf(ring)
      modifies this, heap
      ensures Valid(heap) && ring == old(ring) + [w]
      ensures SameOutside(old(Snapshot(heap)), Snapshot(heap), RingNodes(ring))
    {
      ghost var q := NodesOf(ring);
      SetObj(w, heap);
      LinkWaiter(w, heap);
      AddLast(w, heap, q);
    }

    ghost method AddLast(w: Waiter, heap: set<Node>, q: seq<Node>)
      requires WellFormed(Snapshot(heap)) && NodesOf(ring) == q && Ring(Snapshot(heap), q + [w.node])
      requires waitset == (if ring == [] then w else ring[0]) && Recorded(w, heap)
      requires forall v :: v in ring ==> Recorded(v, heap)
      modifies this`ring
      ensures Valid(heap) && ring == old(ring) + [w] && RingNodes(ring) == Nodes(q + [w.node])
    {
      ring := ring + [w];
      assert NodesOf(ring) == q + [w.node];
    }

    method LinkWaiter(w: Waiter, ghost heap: set<Node>)
      requires Valid(heap) && w.node in heap && Ring(Snapshot(heap), [w.node])
      requires w.node !in NodesOf(ring)
      modifies this`waitset, heap
      ensures WellFormed(Snapshot(heap)) && Ring(Snapshot(heap), NodesOf(ring) + [w.node])
      ensures waitset == if ring == [] then w else ring[0]
      ensures SameOutside(old(Snapshot(heap)), Snapshot(heap), Nodes(NodesOf(ring) + [w.node]))
    {
      if waitset != null {
        assert ring[0] in ring && Recorded(ring[0], heap);
        LinkLast(waitset.node, w.node, heap, NodesOf(ring));
      } else {
        waitset := w;
        assert NodesOf(ring) + [w.node] == [w.node];
      }
    }

    // remove_from_ring
    method RemoveFromRing(w: Waiter, ghost i: nat, ghost heap: set<Node>)
      requires Valid(heap) && i < |ring| && ring[i] == w
      modifies this, heap
      ensures Valid(heap) && ring == Without(old(ring), i) && Ring(Snapshot(heap), [w.node])
      ensures obj == old(obj) && SameOutside(old(Snapshot(heap)), Snapshot(heap), old(RingNodes(ring)))
    {
      ghost var q := NodesOf(ring);
      if waitset == w {
        assert q[0] == q[i];
        waitset := Following(w, heap);
      }
      assert q[i] == w.node && w in ring && Recorded(w, heap);
      Unlink(w.node, heap, q, i);
      ring := Without(ring, i);
      assert NodesOf(ring) == Without(q, i);
    }

    // The end of cv_wait, with the ring locked again: a waiter that is still
    // in the ring takes itself out.
    method Tidy(w: Waiter, ghost i: nat, ghost heap: set<Node>) returns (ret: bool)
      requires Valid(heap) && (!w.removed ==> i < |ring| && ring[i] == w)
      modifies this, heap
      ensures Valid(heap) && ret == w.signalled
      ensures ring == if w.removed then old(ring) else Without(old(ring), i)
      ensures SameOutside(old(Snapshot(heap)), Snapshot(heap), old(RingNodes(ring)))
    {
      if !w.removed {
        RemoveFromRing(w, i, heap);
      }
      return w.signalled;
    }

    // One turn of cv_signal's loop: the first waiter leaves the ring, marked.
    method DropFirst(ghost heap: set<Node>) returns (w: Waiter)
      requires Valid(heap) && ring != []
      modifies this, heap, ring[0]
      ensures Valid(heap) && w == old(ring)[0] && ring == old(ring)[1..]
      ensures w.removed && w.signalled == old(ring[0].signalled)
      ensures SameOutside(old(Snapshot(heap)), Snapshot(heap), old(RingNodes(ring)))
    {
      w := waitset;
      RemoveFromRing(w, 0, heap);
      w.removed := true;
    }

    // wakeup, and the mark that it succeeded
    method WakeWaiter(w: Waiter, sl: Sleepers, ghost heap: set<Node>) returns (woken: bool)
      requires Valid(heap)
      modifies w, sl
      ensures Valid(heap) && woken == (w.thread in old(sl.stopped)) && sl.stopped == old(sl.stopped) - {w.thread}
      ensures Flags(w, woken || old(w.signalled), old(w.removed)) && Snapshot(heap) == old(Snapshot(heap))
    {
      ghost var h := Snapshot(heap);
      woken := sl.Wakeup(w.thread);
      if woken {
        w.signalled := true;
      }
      assert Snapshot(heap) == h;
    }

    // cv_signal: the first waiter that is still STOPPED is woken and signalled;
    // those before it are dropped unsignalled.
    method CvSignal(sl: Sleepers, ghost heap: set<Node>)
      requires Valid(heap)
      modifies this, heap, ring, sl
      ensures Valid(heap)
      ensures var r, k := old(ring), FirstStopped(old(ThreadsOf(ring)), old(sl.stopped));
              && ring == r[if k < |r| then k + 1 else k..]
              && sl.stopped == (if k < |r| then old(sl.stopped) - {r[k].thread} else old(sl.stopped))
              && (forall i :: 0 <= i < |r| ==> Flags(r[i], i == k || old(r[i].signalled), i <= k || old(r[i].removed)))
      ensures SameOutside(old(Snapshot(heap)), Snapshot(heap), old(RingNodes(ring)))
    {
      ghost var r, k := ring, FirstStopped(ThreadsOf(ring), sl.stopped);
      ghost var n := 0;
      DistinctWaiters(heap);
      FirstStoppedIs(ThreadsOf(r), sl.stopped);
      while waitset != null
        invariant 0 <= n <= k && Valid(heap) && ring == r[n..] && sl.stopped == old(sl.stopped)
        invariant forall i :: 0 <= i < |r| ==> Flags(r[i], old(r[i].signalled), i < n || old(r[i].removed))
        invariant SameOutside(old(Snapshot(heap)), Snapshot(heap), RingNodes(r))
        decreases |r| - n
      {
        SuffixNodes(r, n);
        var w := DropFirst(heap);
        assert w == r[n] && w.thread == ThreadsOf(r)[n];
        var woken := WakeWaiter(w, sl, heap);
        assert woken <==> n == k;
        if woken {
          return;
        }
        n := n + 1;
      }
    }

    // Cond_Signal
    method Signal(sl: Sleepers, ghost heap: set<Node>)
      requires Valid(heap)
      modifies this, heap, ring, sl
      ensures Valid(heap)
      ensures var r, k := old(ring), FirstStopped(old(ThreadsOf(ring)), old(sl.stopped));
              && ring == r[if k < |r| then k + 1 else k..]
              && sl.stopped == (if k < |r| then old(sl.stopped) - {r[k].thread} else old(sl.stopped))
              && (forall i :: 0 <= i < |r| ==> Flags(r[i], i == k || old(r[i].signalled), i <= k || old(r[i].removed)))
      ensures SameOutside(old(Snapshot(heap)), Snapshot(heap), old(RingNodes(ring)))
    {
      CvSignal(sl, heap);
    }

    // Those of r from the n-th up to the m-th have left the ring, and of them
    // the sleeping ones are signalled.
    twostate predicate Dropped(r: seq<Waiter>, n: nat, m: nat, stopped: set<Tid>)
      reads r
    {
      forall i :: 0 <= i < |r| ==>
        Flags(r[i], old(r[i].signalled) || (n <= i < m && r[i].thread in stopped), old(r[i].removed) || n <= i < m)
    }

    // One turn of Cond_Broadcast's loop, when n waiters of r have left.
    method BroadcastTurn(sl: Sleepers, ghost heap: set<Node>, ghost r: seq<Waiter>, ghost n: nat,
                         ghost stopped: set<Tid>)
      returns (ghost m: nat)
      requires Valid(heap) && Distinct(ThreadsOf(r)) && n < |r| && ring == r[n..]
      requires sl.stopped == stopped - Elems(ThreadsOf(r)[..n])
      modifies this, heap, r, sl
      ensures n < m <= |r| && Valid(heap) && ring == r[m..]
      ensures sl.stopped == stopped - Elems(ThreadsOf(r)[..m])
      ensures Dropped(r, n, m, stopped) && SameOutside(old(Snapshot(heap)), Snapshot(heap), RingNodes(r))
    {
      ghost var q := ThreadsOf(r);
      ghost var k := FirstStopped(ThreadsOf(ring), sl.stopped);
      assert ThreadsOf(ring) == q[n..];
      BroadcastStep(q, n, stopped, sl.stopped);
      m := if n + k < |r| then n + k + 1 else n + k;
      ghost var rest := ring;
      SuffixNodes(r, n);
      CvSignal(sl, heap);
      forall i | 0 <= i < |r|
        ensures Flags(r[i], old(r[i].signalled) || (n <= i < m && r[i].thread in stopped),
                      old(r[i].removed) || n <= i < m)
      {
        assert q[i] == r[i].thread;
        if n <= i {
          assert r[i] == rest[i - n];
        } else {
          assert forall j :: 0 <= j < |rest| ==> rest[j] == r[n + j] && q[i] != q[n + j];
          assert r[i] !in rest && r[i].signalled == old(r[i].signalled);
        }
      }
      assert ring == r[m..];
    }

    // Cond_Broadcast: the ring is emptied, and everybody who was STOPPED is
    // signalled.
    method Broadcast(sl: Sleepers, ghost heap: set<Node>)
      requires Valid(heap) && Distinct(ThreadsOf(ring))
      modifies this, heap, ring, sl
      ensures Valid(heap) && ring == []
      ensures sl.stopped == old(sl.stopped) - Elems(old(ThreadsOf(ring)))
      ensures forall w :: w in old(ring) ==> Flags(w, old(w.signalled) || w.thread in old(sl.stopped), true)
      ensures SameOutside(old(Snapshot(heap)), Snapshot(heap), old(RingNodes(ring)))
    {
      ghost var r, stopped := ring, sl.stopped;
      ghost var n := 0;
      assert Elems(ThreadsOf(r)[..0]) == {};
      while waitset != null
        invariant n <= |r| && Valid(heap) && ring == r[n..]
        invariant sl.stopped == stopped - Elems(ThreadsOf(r)[..n])
        invariant Dropped(r, 0, n, stopped) && SameOutside(old(Snapshot(heap)), Snapshot(heap), RingNodes(r))
        decreases |r| - n
      {
        n := BroadcastTurn(sl, heap, r, n, stopped);
      }
      assert ThreadsOf(r)[..n] == ThreadsOf(r);
    }

    // The waiters of a ring are different records.
    lemma DistinctWaiters(heap: set<Node>)
      requires Valid(heap)
      ensures Distinct(ring)
    {
      var q := NodesOf(ring);
      forall i, j | 0 <= i < j < |ring|
        ensures ring[i] != ring[j]
      {
        assert q[i] != q[j];
      }
    }
  }

  ghost predicate Flags(w: Waiter, signalled: bool, removed: bool)
    reads w
  {
    w.signalled == signalled && w.removed == removed
  }

  // The first of q that is still asleep; |q| if there is none.
  function FirstStopped(q: seq<Tid>, stopped: set<Tid>): (k: nat)
    ensures k <= |q|
  {
    if q == [] || q[0] in stopped then 0 else 1 + FirstStopped(q[1..], stopped)
  }

  lemma {:induction false} FirstStoppedIs(q: seq<Tid>, stopped: set<Tid>)
    ensures var k := FirstStopped(q, stopped);
            && (forall i :: 0 <= i < k ==> q[i] !in stopped)
            && (k < |q| ==> q[k] in stopped)
  {
    if q != [] && q[0] !in stopped { FirstStoppedIs(q[1..], stopped); }
  }

  ghost function Elems(q: seq<Tid>): set<Tid> { set t | t in q }

  // One signal of a broadcast, on the threads of the ring.
  lemma BroadcastStep(q: seq<Tid>, n: nat, stopped: set<Tid>, now: set<Tid>)
    requires n <= |q| && Distinct(q) && now == stopped - Elems(q[..n])
    ensures var k := FirstStopped(q[n..], now);
            && (forall i :: n <= i < n + k ==> q[i] !in stopped)
            && (n + k < |q| ==> q[n + k] in stopped && now - {q[n + k]} == stopped - Elems(q[..n + k + 1]))
            && (n + k == |q| ==> now == stopped - Elems(q[..n + k]))
  {
    var k := FirstStopped(q[n..], now);
    FirstStoppedIs(q[n..], now);
    forall i | n <= i < n + k
      ensures q[i] !in stopped
    {
      assert q[i] == q[n..][i - n] && q[i] !in q[..n];
    }
    if n + k < |q| {
      assert q[..n + k + 1] == q[..n] + q[n..n + k] + [q[n + k]];
      assert q[n + k] == q[n..][k];
    } else {
      assert q[..n + k] == q[..n] + q[n..n + k];
    }
  }

  // rlist_push_back, on a ring without a sentinel
  method LinkLast(first: Node, n: Node, ghost heap: set<Node>, ghost q: seq<Node>)
    requires first in heap && n in heap && WellFormed(Snapshot(heap))
    requires Ring(Snapshot(heap), q) && q[0] == first && Ring(Snapshot(heap), [n]) && n !in q
    modifies heap
    ensures WellFormed(Snapshot(heap)) && Ring(Snapshot(heap), q + [n])
    ensures SameOutside(old(Snapshot(heap)), Snapshot(heap), Nodes(q + [n]))
  {
    PushLast(Snapshot(heap), q, n);
    var _ := Splice(first.prev, n, heap);
  }

  // rlist_remove, on a ring without a sentinel
  method Unlink(n: Node, ghost heap: set<Node>, ghost q: seq<Node>, ghost i: nat)
    requires n in heap && WellFormed(Snapshot(heap))
    requires Ring(Snapshot(heap), q) && i < |q| && q[i] == n
    modifies heap
    ensures WellFormed(Snapshot(heap)) && Ring(Snapshot(heap), [n]) && RingFrom(Snapshot(heap), Without(q, i))
    ensures SameOutside(old(Snapshot(heap)), Snapshot(heap), Nodes(q))
  {
    RemoveOne(Snapshot(heap), q, i);
    var _ := Splice(n, n.prev, heap);
  }
}
