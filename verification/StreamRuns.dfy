// What every run of the streams keeps.
module StreamRuns {
  import opened Sequences
  import opened StreamModel

  lemma AddRefKeeps(s: State, r: Ref, f: Fcb)
    requires Inv(s) && f < MAX_FILES && f !in s.free && r !in s.refs
    ensures Inv(AddRef(s, r, f))
  {
    var s' := AddRef(s, r, f);
    forall g | 0 <= g < MAX_FILES
      ensures FcbOk(s', g)
    {
      assert FcbOk(s, g);
      assert Holders(s', g) == if g == f then Holders(s, g) + {r} else Holders(s, g);
    }
  }

  lemma DropRefKeeps(s: State, r: Ref)
    requires Inv(s)
    ensures Inv(DropRef(s, r))
  {
    if r in s.refs {
      var s', f := DropRef(s, r), s.refs[r];
      assert FcbOk(s, f) && r in Holders(s, f);
      assert |Holders(s, f) - {r}| == |Holders(s, f)| - 1;
      forall g | 0 <= g < MAX_FILES
        ensures FcbOk(s', g)
      {
        assert FcbOk(s, g);
        assert Holders(s', g) == if g == f then Holders(s, g) - {r} else Holders(s, g);
      }
    }
  }

  lemma TakeFreeKeeps(s: State, r: Ref)
    requires Inv(s) && s.free != [] && r !in s.refs
    ensures Inv(TakeFree(s, r))
  {
    var s', f := TakeFree(s, r), s.free[0];
    assert s.free == [f] + s.free[1..];
    forall g | 0 <= g < MAX_FILES
      ensures FcbOk(s', g)
    {
      assert FcbOk(s, g);
      assert Holders(s', g) == if g == f then Holders(s, g) + {r} else Holders(s, g);
    }
  }

  lemma GiveBackKeeps(s: State, r: Ref, f: Fcb)
    requires Inv(s) && f < MAX_FILES && f !in s.free && Holders(s, f) == {r}
    ensures Inv(GiveBack(s, r))
  {
    assert r in Holders(s, f);
    var s' := GiveBack(s, r);
    forall g | 0 <= g < MAX_FILES
      ensures FcbOk(s', g)
    {
      assert FcbOk(s, g);
      assert Holders(s', g) == if g == f then {} else Holders(s, g);
    }
  }

  // --- FCB_reserve

  // The fids found are NULL slots, in increasing order, and every NULL slot from
  // fd up is among them.
  lemma {:induction false} FreeFidsAre(s: State, p: Pid, fd: nat)
    requires fd <= MAX_FILEID
    ensures var fids := FreeFids(s.refs, p, fd);
            && (forall i :: 0 <= i < |fids| ==> fd <= fids[i] < MAX_FILEID && Slot(p, fids[i]) !in s.refs)
            && (forall i, j :: 0 <= i < j < |fids| ==> fids[i] < fids[j])
            && (forall e :: fd <= e < MAX_FILEID && Slot(p, e) !in s.refs ==> e in fids)
    decreases MAX_FILEID - fd
  {
    if fd < MAX_FILEID { FreeFidsAre(s, p, fd + 1); }
  }

  // Each fid gets the next FCB of the free list, with one reference; no other
  // name changes.
  ghost predicate Took(s: State, s': State, p: Pid, fids: seq<nat>)
    requires Shape(s) && Shape(s')
  {
    && |fids| <= |s.free| && s'.free == s.free[|fids|..]
    && (forall i :: 0 <= i < |fids| ==> Slot(p, fids[i]) in s'.refs && s'.refs[Slot(p, fids[i])] == s.free[i])
    && (forall r :: (forall i :: 0 <= i < |fids| ==> r != Slot(p, fids[i])) ==>
          (r in s'.refs <==> r in s.refs) && (r in s.refs ==> s'.refs[r] == s.refs[r]))
    && s'.closed == s.closed
  }

  predicate NullSlots(s: State, p: Pid, fids: seq<nat>)
  {
    && (forall i :: 0 <= i < |fids| ==> Slot(p, fids[i]) !in s.refs)
    && (forall i, j :: 0 <= i < j < |fids| ==> fids[i] != fids[j])
  }

  lemma {:induction false} TakeAllKeeps(s: State, p: Pid, fids: seq<nat>)
    requires Inv(s) && |fids| <= |s.free| && NullSlots(s, p, fids)
    ensures Inv(TakeAll(s, p, fids)) && Took(s, TakeAll(s, p, fids), p, fids)
    decreases |fids|
  {
    if fids != [] {
      var s1 := TakeFree(s, Slot(p, fids[0]));
      TakeFreeKeeps(s, Slot(p, fids[0]));
      assert NullSlots(s1, p, fids[1..]);
      TakeAllKeeps(s1, p, fids[1..]);
      TookOneMore(s, s1, TakeAll(s, p, fids), p, fids);
    }
  }

  lemma TookOneMore(s: State, s1: State, s': State, p: Pid, fids: seq<nat>)
    requires Shape(s) && Shape(s1) && Shape(s')
    requires fids != [] && s.free != [] && NullSlots(s, p, fids)
    requires s1 == TakeFree(s, Slot(p, fids[0])) && Took(s1, s', p, fids[1..])
    ensures Took(s, s', p, fids)
  {
    var r0, rest := Slot(p, fids[0]), fids[1..];
    assert forall i :: 0 <= i < |rest| ==> r0 != Slot(p, rest[i]);
    forall i | 0 <= i < |fids|
      ensures Slot(p, fids[i]) in s'.refs && s'.refs[Slot(p, fids[i])] == s.free[i]
    {
      if i > 0 {
        assert fids[i] == rest[i - 1] && s.free[i] == s1.free[i - 1];
      }
    }
    forall r | forall i :: 0 <= i < |fids| ==> r != Slot(p, fids[i])
      ensures (r in s'.refs <==> r in s.refs) && (r in s.refs ==> s'.refs[r] == s.refs[r])
    {
      assert r != Slot(p, fids[0]);
      assert forall i :: 0 <= i < |rest| ==> r != Slot(p, rest[i]) by {
        assert forall i :: 0 <= i < |rest| ==> rest[i] == fids[i + 1];
      }
    }
  }

  lemma FailedReserveKeeps(s: State, p: Pid, num: nat)
    requires Inv(s) && !CanReserve(s, p, num)
    ensures Inv(DoReserve(s, p, num))
  {
    var s' := DoReserve(s, p, num);
    if s' != s {
      ReverseFacts(s.free);
      forall g | 0 <= g < MAX_FILES
        ensures FcbOk(s', g)
      {
        assert FcbOk(s, g) && Holders(s', g) == Holders(s, g);
      }
    }
  }

  lemma ReserveKeeps(s: State, p: Pid, num: nat)
    requires Inv(s)
    ensures Inv(DoReserve(s, p, num))
  {
    if CanReserve(s, p, num) {
      FreeFidsAre(s, p, 0);
      TakeAllKeeps(s, p, FreeFids(s.refs, p, 0)[..num]);
    } else {
      FailedReserveKeeps(s, p, num);
    }
  }

  lemma TakenIsNew(s: State, r: Ref)
    requires Inv(s) && s.free != [] && r !in s.refs
    ensures var s', f := TakeFree(s, r), s.free[0]; f < MAX_FILES && f !in s'.free && Holders(s', f) == {r}
  {
    assert s.free == [s.free[0]] + s.free[1..];
    assert s.free[0] in s.free && FcbOk(s, s.free[0]);
  }

  lemma OpenFailsKeeps(s: State, p: Pid)
    requires Inv(s)
    ensures Inv(DoOpenFails(s, p))
  {
    if CanReserve(s, p, 1) {
      FreeFidsAre(s, p, 0);
      var r, f := Slot(p, FreeFids(s.refs, p, 0)[0]), s.free[0];
      TakeFreeKeeps(s, r);
      TakenIsNew(s, r);
      GiveBackKeeps(TakeFree(s, r), r, f);
    } else {
      FailedReserveKeeps(s, p, 1);
    }
  }

  lemma NamedIsNotFree(s: State, r: Ref)
    requires Inv(s) && r in s.refs
    ensures s.refs[r] !in s.free
  {
    assert FcbOk(s, s.refs[r]) && r in Holders(s, s.refs[r]);
  }

  lemma {:induction false} InheritKeeps(s: State, p: Pid, child: Pid, fd: nat)
    requires Inv(s) && p != child && fd <= MAX_FILEID
    requires forall e :: fd <= e < MAX_FILEID ==> Slot(child, e) !in s.refs
    ensures Inv(Inherit(s, p, child, fd))
    decreases MAX_FILEID - fd
  {
    if fd < MAX_FILEID {
      if Slot(p, fd) in s.refs {
        NamedIsNotFree(s, Slot(p, fd));
        AddRefKeeps(s, Slot(child, fd), s.refs[Slot(p, fd)]);
        InheritKeeps(AddRef(s, Slot(child, fd), s.refs[Slot(p, fd)]), p, child, fd + 1);
      } else {
        InheritKeeps(s, p, child, fd + 1);
      }
    }
  }

  lemma {:induction false} CloseAllKeeps(s: State, p: Pid, fd: nat)
    requires Inv(s) && fd <= MAX_FILEID
    ensures Inv(CloseAll(s, p, fd))
    decreases MAX_FILEID - fd
  {
    if fd < MAX_FILEID {
      DropRefKeeps(s, Slot(p, fd));
      CloseAllKeeps(DropRef(s, Slot(p, fd)), p, fd + 1);
    }
  }

  lemma Dup2Keeps(s: State, p: Pid, oldfd: Fid, newfd: Fid)
    requires Inv(s)
    ensures Inv(DoDup2(s, p, oldfd, newfd))
  {
    var o, n := Slot(p, oldfd), Slot(p, newfd);
    if LegalFd(oldfd) && LegalFd(newfd) && o in s.refs && !(n in s.refs && s.refs[n] == s.refs[o]) {
      DropRefKeeps(s, n);
      NamedIsNotFree(DropRef(s, n), o);
      AddRefKeeps(DropRef(s, n), n, s.refs[o]);
    }
  }

  lemma NextKeepsInv(s: State, a: Action)
    requires Inv(s) && Enabled(s, a)
    ensures Inv(Next(s, a))
  {
    match a
    case Reserve(p, num) => ReserveKeeps(s, p, num);
    case OpenFails(p) => OpenFailsKeeps(s, p);
    case BeginUse(t, p, fd) =>
      if LegalFd(fd) && Slot(p, fd) in s.refs {
        NamedIsNotFree(s, Slot(p, fd));
        AddRefKeeps(s, Using(t), s.refs[Slot(p, fd)]);
      }
    case EndUse(t) => DropRefKeeps(s, Using(t));
    case Close(p, fd) => DropRefKeeps(s, Slot(p, fd));
    case Dup2(p, oldfd, newfd) => Dup2Keeps(s, p, oldfd, newfd);
    case Exec(p, child) => InheritKeeps(s, p, child, 0);
    case Exit(p) => CloseAllKeeps(s, p, 0);
  }

  lemma {:induction false} RunsKeepInv(states: seq<State>, actions: seq<Action>, i: nat)
    requires Run(states, actions) && i < |states|
    ensures Inv(states[i])
  {
    if i == 0 {
      var s := states[0];
      forall f | 0 <= f < MAX_FILES
        ensures FcbOk(s, f)
      {
        assert s.free[f] == f;
      }
    } else {
      RunsKeepInv(states, actions, i - 1);
      assert Steps(states[i - 1], actions[i - 1], states[i - 1 + 1]);
      NextKeepsInv(states[i - 1], actions[i - 1]);
    }
  }

  // --- the references

  // For an FCB that is not free, refcount is the number of FIDT slots of all
  // processes that name it plus the reads and writes inside it; a free one is
  // named by nothing.
  lemma RefcountsAreExact(states: seq<State>, actions: seq<Action>, i: nat, f: Fcb)
    requires Run(states, actions) && i < |states| && f < MAX_FILES
    ensures Shape(states[i])
    ensures f !in states[i].free ==> states[i].refcount[f] == |Holders(states[i], f)| > 0
    ensures f in states[i].free ==> Holders(states[i], f) == {}
  {
    RunsKeepInv(states, actions, i);
    assert FcbOk(states[i], f);
  }

  // Every acquired FCB is either still in use, or has been closed, or given
  // back, exactly once; so Close runs at most once per reservation.
  lemma ClosedOncePerReservation(states: seq<State>, actions: seq<Action>, i: nat, f: Fcb)
    requires Run(states, actions) && i < |states| && f < MAX_FILES
    ensures Shape(states[i])
    ensures states[i].reserved[f] ==
              states[i].closed[f] + states[i].unreserved[f] + (if f in states[i].free then 0 else 1)
  {
    RunsKeepInv(states, actions, i);
    assert FcbOk(states[i], f);
  }

  // --- Close and the operations in flight

  // The counters of f stand still while something names it throughout.
  ghost predicate Stays(s: State, s': State, f: Fcb)
    requires Shape(s) && Shape(s') && f < MAX_FILES
  {
    s'.closed[f] == s.closed[f] && s'.reserved[f] == s.reserved[f] && s'.unreserved[f] == s.unreserved[f]
  }

  lemma {:induction false} InheritStays(s: State, p: Pid, child: Pid, fd: nat, f: Fcb)
    requires Shape(s) && fd <= MAX_FILEID && f < MAX_FILES
    ensures Stays(s, Inherit(s, p, child, fd), f)
    decreases MAX_FILEID - fd
  {
    if fd < MAX_FILEID {
      if Slot(p, fd) in s.refs {
        InheritStays(AddRef(s, Slot(child, fd), s.refs[Slot(p, fd)]), p, child, fd + 1, f);
      } else {
        InheritStays(s, p, child, fd + 1, f);
      }
    }
  }

  lemma DropStays(s: State, r: Ref, keep: Ref)
    requires Inv(s) && keep in s.refs && r != keep
    ensures keep in DropRef(s, r).refs && DropRef(s, r).refs[keep] == s.refs[keep]
    ensures Stays(s, DropRef(s, r), s.refs[keep])
  {
    var f := s.refs[keep];
    if r in s.refs && s.refs[r] == f {
      assert FcbOk(s, f) && {r, keep} <= Holders(s, f);
      assert |Holders(s, f) - {r}| == |Holders(s, f)| - 1 && keep in Holders(s, f) - {r};
    }
  }

  lemma {:induction false} CloseAllStays(s: State, p: Pid, fd: nat, keep: Ref)
    requires Inv(s) && fd <= MAX_FILEID && keep in s.refs && keep.Using?
    ensures keep in CloseAll(s, p, fd).refs && CloseAll(s, p, fd).refs[keep] == s.refs[keep]
    ensures Stays(s, CloseAll(s, p, fd), s.refs[keep])
    decreases MAX_FILEID - fd
  {
    if fd < MAX_FILEID {
      DropStays(s, Slot(p, fd), keep);
      DropRefKeeps(s, Slot(p, fd));
      CloseAllStays(DropRef(s, Slot(p, fd)), p, fd + 1, keep);
    }
  }

  lemma {:induction false} TakeAllStays(s: State, p: Pid, fids: seq<nat>, keep: Ref)
    requires Inv(s) && |fids| <= |s.free| && NullSlots(s, p, fids) && keep in s.refs
    ensures keep in TakeAll(s, p, fids).refs && TakeAll(s, p, fids).refs[keep] == s.refs[keep]
    ensures Stays(s, TakeAll(s, p, fids), s.refs[keep])
    decreases |fids|
  {
    if fids != [] {
      NamedIsNotFree(s, keep);
      TakeFreeKeeps(s, Slot(p, fids[0]));
      var s1 := TakeFree(s, Slot(p, fids[0]));
      assert NullSlots(s1, p, fids[1..]);
      TakeAllStays(s1, p, fids[1..], keep);
    }
  }

  lemma {:induction false} InheritKeepsNames(s: State, p: Pid, child: Pid, fd: nat, keep: Ref)
    requires Shape(s) && fd <= MAX_FILEID && keep in s.refs
    requires forall e :: fd <= e < MAX_FILEID ==> keep != Slot(child, e)
    ensures keep in Inherit(s, p, child, fd).refs && Inherit(s, p, child, fd).refs[keep] == s.refs[keep]
    decreases MAX_FILEID - fd
  {
    if fd < MAX_FILEID {
      if Slot(p, fd) in s.refs {
        InheritKeepsNames(AddRef(s, Slot(child, fd), s.refs[Slot(p, fd)]), p, child, fd + 1, keep);
      } else {
        InheritKeepsNames(s, p, child, fd + 1, keep);
      }
    }
  }

  // No step of anybody closes, gives back or hands out again the FCB that a read
  // or write is using: its Close never runs beside them.
  lemma CloseFindsNoOperation(s: State, a: Action, t: Tid)
    requires Inv(s) && Enabled(s, a) && Using(t) in s.refs && a != EndUse(t)
    ensures var s', f := Next(s, a), s.refs[Using(t)];
            Using(t) in s'.refs && s'.refs[Using(t)] == f && Stays(s, s', f)
  {
    var keep := Using(t);
    var f := s.refs[keep];
    NamedIsNotFree(s, keep);
    match a
    case Reserve(p, num) =>
      if CanReserve(s, p, num) {
        FreeFidsAre(s, p, 0);
        TakeAllStays(s, p, FreeFids(s.refs, p, 0)[..num], keep);
      }
    case OpenFails(p) =>
      if CanReserve(s, p, 1) {
        assert s.free[0] in s.free;
      }
    case BeginUse(u, p, fd) =>
    case EndUse(u) => DropStays(s, Using(u), keep);
    case Close(p, fd) => DropStays(s, Slot(p, fd), keep);
    case Dup2(p, oldfd, newfd) => DropStays(s, Slot(p, newfd), keep);
    case Exec(p, child) =>
      InheritStays(s, p, child, 0, f);
      InheritKeepsNames(s, p, child, 0, keep);
    case Exit(p) => CloseAllStays(s, p, 0, keep);
  }

  // t is using f, whose counters are those of s0.
  ghost predicate StillUses(s0: State, s: State, t: Tid, f: Fcb)
  {
    Shape(s0) && Shape(s) && f < MAX_FILES && Using(t) in s.refs && s.refs[Using(t)] == f && Stays(s0, s, f)
  }

  lemma UseStep(s0: State, s: State, a: Action, t: Tid, f: Fcb)
    requires Inv(s) && Enabled(s, a) && a != EndUse(t) && StillUses(s0, s, t, f)
    ensures StillUses(s0, Next(s, a), t, f)
  {
    CloseFindsNoOperation(s, a, t);
  }

  // A stream stays open, and the same stream, while a read or write uses it.
  lemma {:induction false} UsedStreamStaysOpen(states: seq<State>, actions: seq<Action>, i: nat, j: nat, t: Tid)
    requires Run(states, actions) && i <= j < |states| && Using(t) in states[i].refs
    requires forall k :: i <= k < j ==> actions[k] != EndUse(t)
    ensures StillUses(states[i], states[j], t, states[i].refs[Using(t)])
  {
    RunsKeepInv(states, actions, i);
    if i < j {
      var k := j - 1;
      UsedStreamStaysOpen(states, actions, i, k, t);
      RunsKeepInv(states, actions, k);
      assert Steps(states[k], actions[k], states[k + 1]);
      UseStep(states[i], states[k], actions[k], t, states[i].refs[Using(t)]);
    }
  }
}
