// What the calls on streams mean, whatever state they find.
module StreamCalls {
  import opened Sequences
  import opened StreamModel
  import opened StreamRuns

  predicate SlotsFrom(r: Ref, p: Pid, fd: nat)
  {
    r.Slot? && r.p == p && fd <= r.fd < MAX_FILEID
  }

  // FCB_reserve succeeds just when there are enough NULL slots and enough free
  // FCBs, and then the lowest NULL slots name the first free FCBs.
  lemma ReserveSucceedsIff(s: State, p: Pid, num: nat)
    requires Inv(s)
    ensures var s', fids := Next(s, Reserve(p, num)), FreeFids(s.refs, p, 0);
            && (CanReserve(s, p, num) ==> Took(s, s', p, fids[..num]))
            && (!CanReserve(s, p, num) ==> s'.refs == s.refs && s'.closed == s.closed)
            && (num > 0 ==> (CanReserve(s, p, num) <==> s'.refs != s.refs))
  {
    if CanReserve(s, p, num) {
      FreeFidsAre(s, p, 0);
      TakeAllKeeps(s, p, FreeFids(s.refs, p, 0)[..num]);
    }
  }

  // A failed FCB_reserve leaves every file table, every count of an FCB in use,
  // and the set of free FCBs as they were.
  lemma FailedReserveUndoesItself(s: State, p: Pid, num: nat)
    requires Inv(s) && !CanReserve(s, p, num)
    ensures var s' := DoReserve(s, p, num);
            && s'.refs == s.refs && multiset(s'.free) == multiset(s.free)
            && (forall f :: 0 <= f < MAX_FILES && f !in s.free ==> s'.refcount[f] == s.refcount[f])
            && s'.reserved == s.reserved && s'.closed == s.closed
  {
    ReverseKeepsAll(s.free);
  }

  // The documentation promises that a failed FCB_reserve leaves the state as it
  // was.  For the order of the free list that holds if and only if the fids ran
  // out, which is found out first, or no more than one FCB was left.
  lemma FailedReserveKeepsOrderIff(s: State, p: Pid, num: nat)
    requires Inv(s) && !CanReserve(s, p, num)
    ensures DoReserve(s, p, num).free == s.free <==> |FreeFids(s.refs, p, 0)| < num || |s.free| <= 1
  {
    ReverseIsSameIff(s.free);
  }

  // For the whole state: moreover the FCBs left must have no stale count, which
  // FCB_unreserve leaves behind and acquire_FCB clears.
  lemma FailedReserveKeepsStateIff(s: State, p: Pid, num: nat)
    requires Inv(s) && !CanReserve(s, p, num)
    ensures var s' := DoReserve(s, p, num);
            && (s' == s <==>
                  |FreeFids(s.refs, p, 0)| < num || (|s.free| <= 1 && forall f :: f in s.free ==> s.refcount[f] == 0))
            && (|FreeFids(s.refs, p, 0)| >= num ==> forall f :: f in s.free ==> s'.refcount[f] == 0)
  {
    FailedReserveKeepsOrderIff(s, p, num);
    var s' := DoReserve(s, p, num);
    if |FreeFids(s.refs, p, 0)| >= num && forall f :: f in s.free ==> s.refcount[f] == 0 {
      assert s'.refcount == s.refcount;
    }
  }

  // The kernel reserves one FCB or two at a time; then the free list never
  // changes by a failure.
  lemma FailedPairKeepsOrder(s: State, p: Pid, num: nat)
    requires Inv(s) && !CanReserve(s, p, num) && num <= 2
    ensures DoReserve(s, p, num).free == s.free
  {
    FailedReserveKeepsOrderIff(s, p, num);
  }

  lemma {:induction false} EmptyTableHasAllFids(s: State, p: Pid, fd: nat)
    requires NoSlots(s, p) && fd <= MAX_FILEID
    ensures |FreeFids(s.refs, p, fd)| == MAX_FILEID - fd
    decreases MAX_FILEID - fd
  {
    if fd < MAX_FILEID { EmptyTableHasAllFids(s, p, fd + 1); }
  }

  // A process with an empty table takes num FCBs off the free list, and the
  // other empty tables stay empty.
  lemma EmptyTableReserves(s: State, p: Pid, num: nat)
    requires Inv(s) && NoSlots(s, p) && num <= MAX_FILEID && num <= |s.free|
    ensures var s' := DoReserve(s, p, num);
            && s'.free == s.free[num..]
            && forall q :: q != p && NoSlots(s, q) ==> NoSlots(s', q)
  {
    EmptyTableHasAllFids(s, p, 0);
    ReserveSucceedsIff(s, p, num);
  }

  // A run in which processes 0 to k - 1 reserve all their fids.
  lemma {:induction false} FillTables(k: nat) returns (states: seq<State>, actions: seq<Action>)
    requires k * MAX_FILEID <= MAX_FILES
    ensures Run(states, actions) && |actions| == k
    ensures |states[k].free| == MAX_FILES - k * MAX_FILEID
    ensures forall q :: q >= k ==> NoSlots(states[k], q)
  {
    if k == 0 {
      var zeros: seq<nat> := seq(MAX_FILES, _ => 0);
      states := [State(seq(MAX_FILES, _ => 0), seq(MAX_FILES, f => f), map[], zeros, zeros, zeros)];
      actions := [];
    } else {
      states, actions := FillTables(k - 1);
      states, actions := OneMore(states, actions, Reserve(k - 1, MAX_FILEID));
      EmptyTableReserves(states[k - 1], k - 1, MAX_FILEID);
    }
  }

  lemma OneMore(states: seq<State>, actions: seq<Action>, a: Action)
    returns (states': seq<State>, actions': seq<Action>)
    requires Run(states, actions) && a.Reserve?
    ensures Inv(states[|actions|]) && actions' == actions + [a]
    ensures states' == states + [Next(states[|actions|], a)] && Run(states', actions')
  {
    RunsKeepInv(states, actions, |actions|);
    states', actions' := states + [Next(states[|actions|], a)], actions + [a];
    forall i | 0 <= i < |actions'|
      ensures Steps(states'[i], actions'[i], states'[i + 1])
    {
      if i < |actions| {
        assert Steps(states[i], actions[i], states[i + 1]);
      }
    }
  }

  // The order does change in a reachable state: 4095 processes have reserved 16
  // FCBs each and one has reserved 14, so that two are left; a request of a
  // further process for three fails, and the two have changed places.
  lemma FailedReserveCanReorder() returns (states: seq<State>, actions: seq<Action>)
    ensures Run(states, actions) && |actions| == 4096
    ensures var s := states[4096];
            && Shape(s) && |s.free| == 2 && !CanReserve(s, 4096, 3)
            && DoReserve(s, 4096, 3).free == [s.free[1], s.free[0]] != s.free
  {
    states, actions := FillTables(4095);
    var s := states[4095];
    states, actions := OneMore(states, actions, Reserve(4095, 14));
    EmptyTableReserves(s, 4095, 14);
    RunsKeepInv(states, actions, 4096);
    assert NoSlots(s, 4096);
    ThirdIsMissing(states[4096], 4096);
  }

  // Two FCBs left, and a request for three.
  lemma ThirdIsMissing(s: State, p: Pid)
    requires Inv(s) && NoSlots(s, p) && |s.free| == 2
    ensures !CanReserve(s, p, 3) && DoReserve(s, p, 3).free == [s.free[1], s.free[0]] != s.free
  {
    EmptyTableHasAllFids(s, p, 0);
    FailedReserveKeepsOrderIff(s, p, 3);
    assert Reverse(s.free) == [s.free[1], s.free[0]];
  }

  lemma GiveBackUndoesTake(s: State, r: Ref)
    requires Shape(s) && s.free != [] && r !in s.refs
    ensures var s', f := GiveBack(TakeFree(s, r), r), s.free[0];
            && s'.refs == s.refs && s'.free == s.free[1..] + [f] && s'.closed == s.closed
            && f in s.free && s'.refcount == s.refcount[f := 1]
  {
    assert s.free[0] in s.free;
    assert TakeFree(s, r).refs - {r} == s.refs;
  }

  lemma FirstFidIsNull(s: State, p: Pid)
    requires CanReserve(s, p, 1)
    ensures Slot(p, FreeFids(s.refs, p, 0)[0]) !in s.refs
  {
    FreeFidsAre(s, p, 0);
  }

  lemma UndoOpen(s: State, p: Pid)
    requires Shape(s) && CanReserve(s, p, 1)
    ensures var s', f := DoOpenFails(s, p), s.free[0];
            && s'.refs == s.refs && s'.free == s.free[1..] + [f] && s'.closed == s.closed
            && f in s.free && s'.refcount == s.refcount[f := 1]
  {
    FirstFidIsNull(s, p);
    GiveBackUndoesTake(s, Slot(p, FreeFids(s.refs, p, 0)[0]));
  }

  // A device that does not open leaves every name and every use as it was; the
  // FCB tried goes from the front of the free list to the back.
  lemma UnreserveUndoesReserve(s: State, p: Pid)
    requires Inv(s)
    ensures var s' := Next(s, OpenFails(p));
            && s'.refs == s.refs && s'.closed == s.closed
            && s'.free == (if CanReserve(s, p, 1) then s.free[1..] + [s.free[0]] else s.free)
            && multiset(s'.free) == multiset(s.free)
            && (forall f :: 0 <= f < MAX_FILES && f !in s.free ==> s'.refcount[f] == s.refcount[f])
  {
    if CanReserve(s, p, 1) {
      UndoOpen(s, p);
      assert s.free == [s.free[0]] + s.free[1..];
    } else {
      FailedReserveUndoesItself(s, p, 1);
      FailedPairKeepsOrder(s, p, 1);
    }
  }

  // A stream is closed by the call that takes its last name, and by no other.
  lemma LastNameCloses(s: State, r: Ref)
    requires Inv(s) && r in s.refs
    ensures var s', f := DropRef(s, r), s.refs[r];
            && s'.refs == s.refs - {r}
            && (s'.closed[f] == s.closed[f] + 1 <==> Holders(s, f) == {r})
            && s'.free == (if Holders(s, f) == {r} then s.free + [f] else s.free)
            && (forall g :: 0 <= g < MAX_FILES && g != f ==>
                  s'.closed[g] == s.closed[g] && (g in s'.free <==> g in s.free))
  {
    var f := s.refs[r];
    assert FcbOk(s, f) && r in Holders(s, f);
    assert Holders(s, f) == (Holders(s, f) - {r}) + {r};
    assert |Holders(s, f) - {r}| == |Holders(s, f)| - 1;
  }

  // Close empties the slot it is called for and no other; the stream is closed
  // just when that was its last name.  An illegal fid changes nothing.
  lemma CloseEmptiesTheSlot(s: State, p: Pid, fd: Fid, r: Ref)
    requires Inv(s)
    ensures var s' := Next(s, Close(p, fd));
            && (r in s'.refs <==> r in s.refs && !(LegalFd(fd) && r == Slot(p, fd)))
            && (r in s'.refs ==> s'.refs[r] == s.refs[r])
            && (LegalFd(fd) && Slot(p, fd) in s.refs ==>
                  var f := s.refs[Slot(p, fd)];
                  && s'.closed[f] == s.closed[f] + (if Holders(s, f) == {Slot(p, fd)} then 1 else 0)
                  && forall g :: 0 <= g < MAX_FILES && g != f ==> s'.closed[g] == s.closed[g])
            && (!LegalFd(fd) || Slot(p, fd) !in s.refs ==> s' == s)
  {
    if LegalFd(fd) && Slot(p, fd) in s.refs {
      LastNameCloses(s, Slot(p, fd));
      var f := s.refs[Slot(p, fd)];
      assert FcbOk(s, f) && Slot(p, fd) in Holders(s, f);
    }
  }

  // A read or write holds on to the FCB that its fid names when it begins, if the
  // fid is legal and open; when it ends that is the one name that goes.
  lemma UseHoldsTheStream(s: State, t: Tid, p: Pid, fd: Fid, r: Ref)
    requires Shape(s)
    ensures Using(t) !in s.refs ==>
              Enabled(s, BeginUse(t, p, fd)) &&
              var s' := Next(s, BeginUse(t, p, fd));
              && (Using(t) in s'.refs <==> LegalFd(fd) && Slot(p, fd) in s.refs)
              && (Using(t) in s'.refs ==> s'.refs[Using(t)] == s.refs[Slot(p, fd)])
              && (r != Using(t) ==> (r in s'.refs <==> r in s.refs) && (r in s.refs ==> s'.refs[r] == s.refs[r]))
              && s'.closed == s.closed && s'.free == s.free
    ensures Using(t) in s.refs ==>
              Enabled(s, EndUse(t)) &&
              var s' := Next(s, EndUse(t));
              && (r in s'.refs <==> r in s.refs && r != Using(t)) && (r in s'.refs ==> s'.refs[r] == s.refs[r])
  {
  }

  // After a successful Dup2 both fids name the stream of oldfd; every other slot
  // and every use is as before; what newfd named is closed if that was its last
  // name.
  lemma Dup2Shares(s: State, p: Pid, oldfd: Fid, newfd: Fid)
    requires Inv(s)
    ensures var s', o, n := Next(s, Dup2(p, oldfd, newfd)), Slot(p, oldfd), Slot(p, newfd);
            if LegalFd(oldfd) && LegalFd(newfd) && o in s.refs then
              && o in s'.refs && n in s'.refs && s'.refs[n] == s'.refs[o] == s.refs[o]
              && (forall r :: r != n ==> (r in s'.refs <==> r in s.refs) && (r in s.refs ==> s'.refs[r] == s.refs[r]))
              && (forall g :: 0 <= g < MAX_FILES ==>
                    s'.closed[g] == s.closed[g] +
                      if n in s.refs && g == s.refs[n] != s.refs[o] && Holders(s, g) == {n} then 1 else 0)
            else
              s' == s
  {
    if Slot(p, newfd) in s.refs {
      LastNameCloses(s, Slot(p, newfd));
    }
  }

  // A new process has its parent's streams, and nobody else's table changes.
  lemma {:induction false} InheritCopies(s: State, p: Pid, child: Pid, fd: nat)
    requires Shape(s) && p != child && fd <= MAX_FILEID
    requires forall e :: fd <= e < MAX_FILEID ==> Slot(child, e) !in s.refs
    ensures var s' := Inherit(s, p, child, fd);
            && (forall r :: !SlotsFrom(r, child, fd) ==>
                  (r in s'.refs <==> r in s.refs) && (r in s.refs ==> s'.refs[r] == s.refs[r]))
            && (forall e :: fd <= e < MAX_FILEID ==>
                  (Slot(child, e) in s'.refs <==> Slot(p, e) in s.refs)
                  && (Slot(p, e) in s.refs ==> s'.refs[Slot(child, e)] == s.refs[Slot(p, e)]))
            && s'.closed == s.closed && s'.free == s.free
    decreases MAX_FILEID - fd
  {
    if fd < MAX_FILEID {
      if Slot(p, fd) in s.refs {
        InheritCopies(AddRef(s, Slot(child, fd), s.refs[Slot(p, fd)]), p, child, fd + 1);
      } else {
        InheritCopies(s, p, child, fd + 1);
      }
    }
  }

  lemma ExecInherits(s: State, p: Pid, child: Pid)
    requires Inv(s) && Enabled(s, Exec(p, child))
    ensures var s' := Next(s, Exec(p, child));
            forall e :: 0 <= e < MAX_FILEID ==>
              (Slot(child, e) in s'.refs <==> Slot(p, e) in s'.refs)
              && (Slot(p, e) in s'.refs ==> s'.refs[Slot(child, e)] == s'.refs[Slot(p, e)])
    ensures var s' := Next(s, Exec(p, child));
            forall r :: !SlotsFrom(r, child, 0) ==>
              (r in s'.refs <==> r in s.refs) && (r in s.refs ==> s'.refs[r] == s.refs[r])
  {
    InheritCopies(s, p, child, 0);
  }

  // --- exit

  // f is in use, and only slots of p from fd up name it.
  predicate OnlyNamedFrom(s: State, f: Fcb, p: Pid, fd: nat)
    requires Shape(s)
  {
    Holders(s, f) != {} && forall r :: r in Holders(s, f) ==> SlotsFrom(r, p, fd)
  }

  // One slot of p goes: either its stream is closed, or it is left to the others.
  lemma SlotGoes(s: State, p: Pid, fd: nat, f: Fcb)
    requires Inv(s) && fd < MAX_FILEID && f < MAX_FILES
    ensures var s1 := DropRef(s, Slot(p, fd));
            s1.closed[f] + (if OnlyNamedFrom(s1, f, p, fd + 1) then 1 else 0)
            == s.closed[f] + (if OnlyNamedFrom(s, f, p, fd) then 1 else 0)
  {
    var r0 := Slot(p, fd);
    assert forall r :: SlotsFrom(r, p, fd) <==> r == r0 || SlotsFrom(r, p, fd + 1);
    if r0 in s.refs {
      LastNameCloses(s, r0);
      assert Holders(DropRef(s, r0), f) == Holders(s, f) - {r0};
    }
  }

  // A process that exits loses all its slots and nothing else; the streams that
  // it alone named are closed, once each, and no others.
  lemma {:induction false} ExitCloses(s: State, p: Pid, fd: nat, f: Fcb)
    requires Inv(s) && fd <= MAX_FILEID && f < MAX_FILES
    ensures var s' := CloseAll(s, p, fd);
            && (forall r :: r in s'.refs <==> r in s.refs && !SlotsFrom(r, p, fd))
            && (forall r :: r in s'.refs ==> s'.refs[r] == s.refs[r])
            && s'.closed[f] == s.closed[f] + (if OnlyNamedFrom(s, f, p, fd) then 1 else 0)
    decreases MAX_FILEID - fd
  {
    if fd < MAX_FILEID {
      var r0 := Slot(p, fd);
      DropRefKeeps(s, r0);
      SlotGoes(s, p, fd, f);
      ExitCloses(DropRef(s, r0), p, fd + 1, f);
      assert forall r :: SlotsFrom(r, p, fd) <==> r == r0 || SlotsFrom(r, p, fd + 1);
    }
  }

  lemma ExitClosesAll(s: State, p: Pid, f: Fcb)
    requires Inv(s) && f < MAX_FILES
    ensures var s' := Next(s, Exit(p));
            && (forall r :: r in s'.refs <==> r in s.refs && !SlotsFrom(r, p, 0))
            && (forall r :: r in s'.refs ==> s'.refs[r] == s.refs[r])
            && s'.closed[f] == s.closed[f] + (if OnlyNamedFrom(s, f, p, 0) then 1 else 0)
  {
    ExitCloses(s, p, 0, f);
  }

  // --- which fids can be open

  ghost predicate SlotsLegal(s: State)
  {
    forall p, fd :: Slot(p, fd) in s.refs ==> 0 <= fd < MAX_FILEID && LegalFd(fd)
  }

  lemma CallsKeepSlotsLegal(s: State, a: Action)
    requires Inv(s) && Enabled(s, a) && SlotsLegal(s)
    ensures SlotsLegal(Next(s, a))
  {
    match a
    case Reserve(p, num) => ReservedFidsAreLegal(s, p, num);
    case OpenFails(p) => UnreserveUndoesReserve(s, p);
    case Exec(p, child) => InheritCopies(s, p, child, 0);
    case Exit(p) => ExitClosesAll(s, p, 0);
    case _ =>
  }

  lemma ReservedFidsAreLegal(s: State, p: Pid, num: nat)
    requires Inv(s) && SlotsLegal(s)
    ensures SlotsLegal(Next(s, Reserve(p, num)))
  {
    ReserveSucceedsIff(s, p, num);
    FreeFidsAre(s, p, 0);
  }

  // Every fid that is open is one that the calls accept: what is opened can be
  // read, written, duplicated and closed.
  lemma {:induction false} OpenFidsAreLegal(states: seq<State>, actions: seq<Action>, i: nat)
    requires Run(states, actions) && i < |states|
    ensures SlotsLegal(states[i])
  {
    if i > 0 {
      OpenFidsAreLegal(states, actions, i - 1);
      RunsKeepInv(states, actions, i - 1);
      assert Steps(states[i - 1], actions[i - 1], states[i]);
      CallsKeepSlotsLegal(states[i - 1], actions[i - 1]);
    }
  }

  // --- whose table a call changes

  // The process whose file table an action may fill.
  function Filled(a: Action): Option<Pid>
  {
    match a
    case Reserve(p, _) => Some(p)
    case OpenFails(p) => Some(p)
    case Dup2(p, _, _) => Some(p)
    case Exec(_, child) => Some(child)
    case _ => None
  }

  // After the last ThreadExit of p its file table is empty, and it stays so
  // whatever others do; so Exec finds the table of a free PCB empty.
  lemma FreeTableStaysEmpty(s: State, a: Action, p: Pid)
    requires Inv(s) && Enabled(s, a)
    ensures a == Exit(p) ==> NoSlots(Next(s, a), p)
    ensures NoSlots(s, p) && Filled(a) != Some(p) ==> NoSlots(Next(s, a), p)
  {
    match a
    case Exit(q) => ExitCloses(s, q, 0, 0);
    case Exec(q, child) => InheritCopies(s, q, child, 0);
    case Reserve(q, num) => ReserveSucceedsIff(s, q, num);
    case OpenFails(q) => UnreserveUndoesReserve(s, q);
    case _ =>
  }

  lemma {:induction false} FreedTableIsFoundEmpty(states: seq<State>, actions: seq<Action>, i: nat, j: nat, p: Pid)
    requires Run(states, actions) && i < j < |states| && actions[i] == Exit(p)
    requires forall k :: i < k < j ==> Filled(actions[k]) != Some(p)
    ensures NoSlots(states[j], p)
  {
    var k := j - 1;
    RunsKeepInv(states, actions, k);
    assert Steps(states[k], actions[k], states[k + 1]);
    if i < k {
      FreedTableIsFoundEmpty(states, actions, i, k, p);
    }
    FreeTableStaysEmpty(states[k], actions[k], p);
  }
}
