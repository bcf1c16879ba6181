// Every step keeps the process forest.
module ProcInvariant {
  import opened Sequences
  import opened ProcModel

  lemma SomeIn(q: seq<Pid>)
    ensures q != [] ==> exists c: Pid :: c in q
  {
    if q != [] {
      assert q[0] in q;
    }
  }

  lemma LinksSame(s: State, s': State)
    requires Inv(s) && s'.free == s.free && forall p: Pid :: s.pstate[p] == Free ==> s'.parent[p] == s.parent[p]
    ensures forall i: nat :: LinkOk(s', i)
  {
    forall i: nat
      ensures LinkOk(s', i)
    {
      assert LinkOk(s, i);
      if i < |s.free| {
        assert s.free[i] in s.free;
      }
    }
  }

  // --- the root

  // Whoever is in use has the initial process alive above it.
  lemma {:induction false} RootIsAlive(s: State, c: Pid)
    requires Inv(s) && c >= 2 && s.pstate[c] != Free
    ensures s.pstate[1] == Alive && s.children[1] != []
    decreases s.rank[c]
  {
    assert ParentOk(s, c);
    var p := s.parent[c].value;
    if p == 1 {
      assert ListsOk(s, 1) && IsChild(s, c, 1);
    } else {
      RootIsAlive(s, p);
    }
  }

  // Before the first process is started there is none.
  lemma NothingBeforeFirst(s: State, p: Pid)
    requires Inv(s)
    ensures s.pstate[0] == Free ==> s.pstate[p] == Free
  {
    if s.pstate[0] == Free {
      assert s.free[p] == p;
    }
  }

  // --- Exec

  lemma NewPid(s: State)
    requires Inv(s) && s.free != []
    ensures var q := s.free[0];
            && s.pstate[q] == Free && s.children[q] == [] && s.exited[q] == []
            && (forall p: Pid :: q !in s.children[p] && q !in s.exited[p])
            && s.free == [q] + s.free[1..] && q !in s.free[1..]
  {
    var q := s.free[0];
    assert q in s.free && s.free == [q] + s.free[1..];
    assert ListsOk(s, q);
    forall c: Pid
      ensures !IsChild(s, c, q)
    {
      assert ParentOk(s, c);
    }
    SomeIn(s.children[q]);
    SomeIn(s.exited[q]);
    forall p: Pid
      ensures q !in s.children[p] && q !in s.exited[p]
    {
      assert ListsOk(s, p) && (q in s.children[p] <==> IsChild(s, q, p)) && (q in s.exited[p] ==> IsChild(s, q, p));
    }
  }

  lemma ExecFree(s: State, p: Pid)
    requires Inv(s) && s.free != []
    ensures FreeOk(DoExec(s, p)) && InUseOk(DoExec(s, p))
  {
    var s', q := DoExec(s, p), s.free[0];
    NewPid(s);
    ExecCount(s, p);
    if s'.pstate[1] == Free {
      assert Untouched(s.free, 0);
      assert Untouched(s.free[1..], 1);
    }
  }

  lemma ExecCount(s: State, p: Pid)
    requires Inv(s) && s.free != []
    ensures InUseOk(DoExec(s, p))
  {
    NewPid(s);
    assert InUse(DoExec(s, p)) == InUse(s) + {s.free[0]} && s.free[0] !in InUse(s);
  }

  lemma ExecLists(s: State, p: Pid, d: Pid)
    requires Inv(s) && s.free != [] && (s.pstate[1] == Free || s.pstate[p] == Alive)
    ensures ListsOk(DoExec(s, p), d)
  {
    var s', q := DoExec(s, p), s.free[0];
    NewPid(s);
    assert ListsOk(s, d);
    forall c: Pid
      ensures IsChild(s', c, d) <==> IsChild(s, c, d) || (q > 1 && c == q && d == p)
    {
    }
  }

  lemma ExecRest(s: State, p: Pid, d: Pid)
    requires Inv(s) && s.free != [] && (s.pstate[1] == Free || (s.pstate[p] == Alive && p != 0))
    ensures ParentOk(DoExec(s, p), d) && CountOk(DoExec(s, p), d)
  {
    NewPid(s);
    assert ParentOk(s, d) && CountOk(s, d);
    if s.pstate[1] == Free {
      assert s.free[0] <= 1 && s.rank[1] == 0;
    }
  }

  lemma ExecWait(s: State, p: Pid, t: Tid)
    requires Inv(s) && s.free != [] && (s.pstate[1] == Free || s.pstate[p] == Alive)
    ensures WaitOk(DoExec(s, p), t)
  {
    NewPid(s);
    assert WaitOk(s, t);
  }

  lemma ExecLinks(s: State, p: Pid, i: nat)
    requires Inv(s) && s.free != []
    ensures LinkOk(DoExec(s, p), i)
  {
    NewPid(s);
    assert LinkOk(s, i + 1);
    if i + 1 < |s.free| {
      assert s.free[1..][i] == s.free[i + 1] && s.free[1..][i] in s.free[1..];
      assert s.free[1..][i + 1..] == s.free[i + 2..];
    }
  }

  // A new process is its parent's first child, and nothing else changes.
  lemma ExecKeeps(s: State, p: Pid)
    requires Inv(s) && s.free != [] && (s.pstate[1] == Free || (s.pstate[p] == Alive && p != 0))
    ensures Inv(DoExec(s, p))
  {
    ExecFree(s, p);
    forall i: nat
      ensures LinkOk(DoExec(s, p), i)
    {
      ExecLinks(s, p, i);
    }
    forall d: Pid
      ensures ListsOk(DoExec(s, p), d) && ParentOk(DoExec(s, p), d) && CountOk(DoExec(s, p), d)
    {
      ExecLists(s, p, d);
      ExecRest(s, p, d);
    }
    forall t: Tid
      ensures WaitOk(DoExec(s, p), t)
    {
      ExecWait(s, p, t);
    }
  }

  // --- WaitChild

  lemma ReapFree(s: State, c: Pid)
    requires Inv(s) && s.pstate[c] == Zombie && c >= 2
    ensures FreeOk(Reap(s, c)) && InUseOk(Reap(s, c))
  {
    var s' := Reap(s, c);
    assert InUse(s') == InUse(s) - {c} && c in InUse(s);
    RootIsAlive(s, c);
    NothingBeforeFirst(s, c);
  }

  lemma ReapLists(s: State, c: Pid, d: Pid)
    requires Inv(s) && s.pstate[c] == Zombie && c >= 2
    ensures ListsOk(Reap(s, c), d)
  {
    var s' := Reap(s, c);
    assert ListsOk(s, d);
    RemoveKeeps(s.children[d], c);
    RemoveKeeps(s.exited[d], c);
    forall e: Pid
      ensures IsChild(s', e, d) <==> IsChild(s, e, d) && e != c
    {
    }
  }

  lemma ReapLinks(s: State, c: Pid, i: nat)
    requires Inv(s) && s.pstate[c] == Zombie
    ensures LinkOk(Reap(s, c), i)
  {
    var free' := [c] + s.free;
    if 0 < i < |free'| {
      assert LinkOk(s, i - 1);
      assert free'[i] == s.free[i - 1] && s.free[i - 1] in s.free && free'[i + 1..] == s.free[i..];
    } else {
      assert free'[1..] == s.free;
    }
  }

  // Nobody sleeps for a child of a process that has a zombie to collect, nor for
  // the zombie.
  lemma ReapWait(s: State, c: Pid, t: Tid)
    requires Inv(s) && s.pstate[c] == Zombie && c >= 2
    ensures WaitOk(Reap(s, c), t)
  {
    assert WaitOk(s, t);
    if t in s.waits {
      var p := s.waits[t].pid;
      assert ListsOk(s, p) && ParentOk(s, c);
      assert c in s.exited[p] <==> IsChild(s, c, p);
      assert c in s.children[p] <==> IsChild(s, c, p);
      if !IsChild(s, c, p) {
        RemoveAbsent(s.children[p], c);
        RemoveAbsent(s.exited[p], c);
      }
    }
  }

  // Any zombie can be reaped, by whomsoever.
  lemma ReapKeeps(s: State, c: Pid)
    requires Inv(s) && s.pstate[c] == Zombie && c >= 2
    ensures Inv(Reap(s, c))
  {
    var s' := Reap(s, c);
    ReapFree(s, c);
    forall i: nat
      ensures LinkOk(s', i)
    {
      ReapLinks(s, c, i);
    }
    forall d: Pid
      ensures ListsOk(s', d) && ParentOk(s', d) && CountOk(s', d)
    {
      assert ParentOk(s, d) && CountOk(s, d);
      ReapLists(s, c, d);
    }
    forall t: Tid
      ensures WaitOk(s', t)
    {
      ReapWait(s, c, t);
    }
  }

  // A step that writes `waits` only.
  lemma WaitsChange(s: State, s': State, t: Tid)
    requires Inv(s) && s' == s.(waits := s'.waits) && WaitOk(s', t)
    requires forall u :: u != t ==> (u in s'.waits <==> u in s.waits)
    requires forall u :: u != t && u in s.waits ==> s'.waits[u] == s.waits[u]
    ensures Inv(s')
  {
    LinksSame(s, s');
    forall d: Pid
      ensures ListsOk(s', d) && ParentOk(s', d) && CountOk(s', d)
    {
      assert ListsOk(s, d) && ParentOk(s, d) && CountOk(s, d);
    }
    forall u: Tid
      ensures WaitOk(s', u)
    {
      assert WaitOk(s, u);
    }
  }

  lemma DoneKeeps(s: State, t: Tid)
    requires Inv(s)
    ensures Inv(Done(s, t))
  {
    WaitsChange(s, Done(s, t), t);
  }

  lemma TwiceFree(s: State, c: Pid)
    requires Inv(s) && s.pstate[c] == Free
    ensures !Distinct(Reap(s, c).free)
  {
    var i :| 0 <= i < |s.free| && s.free[i] == c;
    assert Reap(s, c).free[0] == Reap(s, c).free[i + 1];
  }

  // A wait for c can go on if and only if c is a zombie, or the caller's child:
  // a free PCB would be freed again, and on another's living child it would
  // sleep for ever.
  lemma WaitForKeepsIff(s: State, t: Tid, p: Pid, c: Pid)
    requires Inv(s) && s.pstate[p] == Alive && p != 0 && c >= 2
    ensures Inv(WaitFor(s, t, p, c).0) <==> s.pstate[c] == Zombie || IsChild(s, c, p)
  {
    if s.pstate[c] == Alive {
      var s' := Asleep(s, t, p, Some(c));
      if IsChild(s, c, p) {
        WaitsChange(s, s', t);
      } else {
        assert !WaitOk(s', t);
      }
    } else {
      DoneKeeps(s, t);
      if s.pstate[c] == Zombie {
        ReapKeeps(Done(s, t), c);
      } else {
        TwiceFree(Done(s, t), c);
      }
    }
  }

  // A wait for any child can always go on.
  lemma WaitAnyKeeps(s: State, t: Tid, p: Pid)
    requires Inv(s) && s.pstate[p] == Alive && p != 0
    ensures Inv(WaitAny(s, t, p).0)
  {
    assert ListsOk(s, p);
    if s.children[p] == [] {
      DoneKeeps(s, t);
    } else if s.exited[p] == [] {
      WaitsChange(s, Asleep(s, t, p, None), t);
    } else {
      var c := s.exited[p][0];
      assert c in s.exited[p] && IsChild(s, c, p);
      DoneKeeps(s, t);
      ReapKeeps(Done(s, t), c);
    }
  }

  // The legality checks let a process's children through, and nobody else.
  lemma LegalIsChild(s: State, p: Pid, cpid: int)
    requires Inv(s)
    ensures LegalChild(s, p, cpid) <==> 0 <= cpid < MAX_PROC && IsChild(s, cpid, p)
  {
    if 0 <= cpid < MAX_PROC { assert ParentOk(s, cpid); }
  }

  // --- the end of a process

  // The forest after the orphans of p are adopted, with p still alive.
  function Orphaned(s: State, p: Pid): State
  {
    GiveExited(Reparent(s, p), p)
  }

  lemma OrphanedLists(s: State, p: Pid, d: Pid)
    requires Inv(s) && p >= 2 && s.pstate[p] == Alive && d != 1
    ensures ListsOk(Orphaned(s, p), d)
  {
    var s' := Orphaned(s, p);
    assert ListsOk(s, p) && ListsOk(s, d);
    forall c: Pid
      ensures IsChild(s', c, d) <==> d != p && IsChild(s, c, d)
    {
      assert c in s.children[p] <==> IsChild(s, c, p);
    }
    SomeIn(s.exited[p]);
  }

  lemma RootLists(s: State, p: Pid)
    requires Inv(s) && p >= 2 && s.pstate[p] == Alive
    ensures ListsOk(Orphaned(s, p), 1)
  {
    var s' := Orphaned(s, p);
    assert ListsOk(s, p) && ListsOk(s, 1);
    ReverseFacts(s.children[p]);
    forall c: Pid
      ensures IsChild(s', c, 1) <==> IsChild(s, c, p) || IsChild(s, c, 1)
    {
      assert c in s.children[p] <==> IsChild(s, c, p);
    }
    assert forall c: Pid :: IsChild(s, c, p) ==> !IsChild(s, c, 1);
    assert s'.exited[1] == s.exited[1] + s.exited[p];
    assert forall c: Pid :: c in s.exited[p] ==> IsChild(s, c, p);
    assert forall c: Pid :: c in s.exited[1] ==> IsChild(s, c, 1);
    DistinctConcat(Reverse(s.children[p]), s.children[1]);
    DistinctConcat(s.exited[1], s.exited[p]);
  }

  lemma OrphanedRest(s: State, p: Pid, d: Pid)
    requires Inv(s) && p >= 2 && s.pstate[p] == Alive
    ensures ParentOk(Orphaned(s, p), d) && CountOk(Orphaned(s, p), d)
  {
    assert ParentOk(s, d) && CountOk(s, d) && ListsOk(s, p);
    assert d in s.children[p] <==> IsChild(s, d, p);
    RootIsAlive(s, p);
  }

  lemma OrphanedWait(s: State, p: Pid, t: Tid)
    requires Inv(s) && p >= 2 && s.pstate[p] == Alive && NoWaiter(s, p)
    ensures WaitOk(Orphaned(s, p), t)
  {
    assert WaitOk(s, t) && ListsOk(s, p);
    if t in s.waits && s.waits[t].child.Some? {
      var c := s.waits[t].child.value;
      assert c in s.children[p] <==> IsChild(s, c, p);
    }
  }

  lemma OrphanedKeeps(s: State, p: Pid)
    requires Inv(s) && p >= 2 && s.pstate[p] == Alive && NoWaiter(s, p)
    ensures Inv(Orphaned(s, p)) && Orphaned(s, p).children[p] == [] && Orphaned(s, p).exited[p] == []
    ensures NoWaiter(Orphaned(s, p), p)
  {
    var s' := Orphaned(s, p);
    assert InUse(s') == InUse(s);
    assert ListsOk(s, p);
    LinksSame(s, s');
    forall d: Pid
      ensures ListsOk(s', d) && ParentOk(s', d) && CountOk(s', d)
    {
      if d == 1 {
        RootLists(s, p);
      } else {
        OrphanedLists(s, p, d);
      }
      OrphanedRest(s, p, d);
    }
    forall t: Tid
      ensures WaitOk(s', t)
    {
      OrphanedWait(s, p, t);
    }
  }

  // A childless process becomes its parent's zombie.
  function Died(s: State, p: Pid, up: Pid): State
  {
    Broadcast(s.(exited := s.exited[up := [p] + s.exited[up]]), up).(pstate := s.pstate[p := Zombie])
  }

  lemma DiedLists(s: State, p: Pid, d: Pid)
    requires Inv(s) && p >= 2 && s.pstate[p] == Alive && s.parent[p].Some?
    ensures ListsOk(Died(s, p, s.parent[p].value), d)
  {
    var s' := Died(s, p, s.parent[p].value);
    assert ListsOk(s, d);
    assert p in s.exited[d] <==> IsChild(s, p, d) && s.pstate[p] == Zombie;
    forall c: Pid
      ensures IsChild(s', c, d) <==> IsChild(s, c, d)
    {
    }
  }

  lemma DiedWait(s: State, p: Pid, t: Tid)
    requires Inv(s) && p >= 2 && s.pstate[p] == Alive && NoWaiter(s, p) && s.parent[p].Some?
    ensures WaitOk(Died(s, p, s.parent[p].value), t)
  {
    assert WaitOk(s, t);
  }

  lemma DiedKeeps(s: State, p: Pid)
    requires Inv(s) && p >= 2 && s.pstate[p] == Alive && NoWaiter(s, p) && s.children[p] == [] && s.parent[p].Some?
    ensures Inv(Died(s, p, s.parent[p].value))
  {
    var s' := Died(s, p, s.parent[p].value);
    assert InUse(s') == InUse(s);
    LinksSame(s, s');
    assert ListsOk(s, p);
    forall d: Pid
      ensures ListsOk(s', d) && ParentOk(s', d) && CountOk(s', d)
    {
      assert ParentOk(s, d) && CountOk(s, d);
      DiedLists(s, p, d);
      assert d in s.children[p] <==> IsChild(s, d, p);
    }
    forall t: Tid
      ensures WaitOk(s', t)
    {
      DiedWait(s, p, t);
    }
  }

  // The initial process can end if and only if it has no children left.
  lemma RootDiesIff(s: State)
    requires Inv(s) && s.pstate[1] == Alive && NoWaiter(s, 1)
    ensures Inv(s.(pstate := s.pstate[1 := Zombie])) <==> s.children[1] == []
  {
    var s' := s.(pstate := s.pstate[1 := Zombie]);
    assert ListsOk(s, 1);
    if s.children[1] == [] {
      RootDies(s);
    } else {
      var c := s.children[1][0];
      assert IsChild(s, c, 1) && ParentOk(s, c) && !ParentOk(s', c);
    }
  }

  lemma RootDies(s: State)
    requires Inv(s) && s.pstate[1] == Alive && NoWaiter(s, 1) && s.children[1] == []
    ensures Inv(s.(pstate := s.pstate[1 := Zombie]))
  {
    var s' := s.(pstate := s.pstate[1 := Zombie]);
    assert InUse(s') == InUse(s);
    LinksSame(s, s');
    forall d: Pid
      ensures ListsOk(s', d) && ParentOk(s', d) && CountOk(s', d)
    {
      assert ListsOk(s, d) && ParentOk(s, d) && CountOk(s, d) && ListsOk(s, 1);
      assert d in s.children[1] <==> IsChild(s, d, 1);
      assert forall c: Pid :: IsChild(s', c, d) <==> IsChild(s, c, d);
    }
    forall t: Tid
      ensures WaitOk(s', t)
    {
      assert WaitOk(s, t);
    }
  }

  lemma ExitKeepsIff(s: State, p: Pid)
    requires Inv(s) && Enabled(s, ExitLast(p))
    ensures Inv(DoExit(s, p)) <==> (p == 1 ==> s.children[1] == [])
  {
    if p == 1 {
      RootDiesIff(s);
    } else {
      OrphanedKeeps(s, p);
      assert ListsOk(s, p) && ParentOk(s, p);
      assert p !in s.children[p];
      DiedKeeps(Orphaned(s, p), p);
    }
  }

  // Every step keeps the invariant, but for the end of the initial process with
  // children left, and for a wait resumed for a pid that is free by now or has
  // become another's living child.
  lemma NextKeepsInvIff(s: State, a: Action)
    requires Inv(s) && Enabled(s, a)
    ensures Inv(Next(s, a)) <==> Harmless(s, a)
  {
    match a
    case Boot => ExecKeeps(s, 0);
    case Exec(p) => if s.free != [] { ExecKeeps(s, p); }
    case StoreExit(p, val) => StoreKeeps(s, p, val);
    case ExitLast(p) => ExitKeepsIff(s, p);
    case BeginWait(t, p, cpid) => StartWaitKeeps(s, t, p, cpid);
    case Resume(t) => GoOnKeepsIff(s, t);
  }

  lemma StartWaitKeeps(s: State, t: Tid, p: Pid, cpid: int)
    requires Inv(s) && s.pstate[p] == Alive && p != 0
    ensures Inv(StartWait(s, t, p, cpid).0)
  {
    if cpid == NOPROC {
      WaitAnyKeeps(s, t, p);
    } else if LegalChild(s, p, cpid) {
      LegalIsChild(s, p, cpid);
      WaitForKeepsIff(s, t, p, cpid);
    }
  }

  lemma GoOnKeepsIff(s: State, t: Tid)
    requires Inv(s) && t in s.waits
    ensures Inv(GoOn(s, t).0) <==> Harmless(s, Resume(t))
  {
    assert WaitOk(s, t);
    match s.waits[t].child
    case Some(c) => WaitForKeepsIff(s, t, s.waits[t].pid, c);
    case None => WaitAnyKeeps(s, t, s.waits[t].pid);
  }

  lemma StoreKeeps(s: State, p: Pid, val: int)
    requires Inv(s)
    ensures Inv(s.(exitval := s.exitval[p := val]))
  {
    var s' := s.(exitval := s.exitval[p := val]);
    assert InUse(s') == InUse(s);
    LinksSame(s, s');
    forall d: Pid
      ensures ListsOk(s', d) && ParentOk(s', d) && CountOk(s', d)
    {
      assert ListsOk(s, d) && ParentOk(s, d) && CountOk(s, d);
    }
    forall t: Tid
      ensures WaitOk(s', t)
    {
      assert WaitOk(s, t);
    }
  }
}
