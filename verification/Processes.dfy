// The process table, and the calls of kernel_proc.c and kernel_threads.c that
// change it.
module Processes {
  import opened Sequences
  import opened ProcModel
  import opened ProcInvariant

  class ProcessTable {
    const pstate: array<PidState>            // PT[p].pstate, and so on
    const parent: array<Option<Pid>>
    const children: array<seq<Pid>>
    const exited: array<seq<Pid>>
    const exitval: array<int>
    var pcbFreelist: Option<Pid>
    var processCount: int
    ghost var free: seq<Pid>                 // what the free list runs through
    ghost var waits: map<Tid, Wait>
    ghost var rank: Counts
    ghost var born: Counts
    ghost var reaped: Counts

    ghost predicate Arrays()
      reads this
    {
      && pstate.Length == MAX_PROC && parent.Length == MAX_PROC && children.Length == MAX_PROC
      && exited.Length == MAX_PROC && exitval.Length == MAX_PROC && children != exited
    }

    ghost function Now(): State
      requires Arrays()
      reads this, pstate, parent, children, exited, exitval
    {
      State(pstate[..], parent[..], children[..], exited[..], exitval[..], free, processCount, waits,
            rank, born, reaped)
    }

    // The free list is found from its head by parent pointers alone.
    ghost predicate Valid()
      reads this, pstate, parent, children, exited, exitval
    {
      Arrays() && Inv(Now()) && pcbFreelist == First(free)
    }

    // acquire_PCB
    method Acquire() returns (pcb: Option<Pid>)
      requires Arrays() && pcbFreelist == First(free) && LinkOk(Now(), 0)
      modifies this, pstate
      ensures pcb == First(old(free)) && pcbFreelist == First(free)
      ensures Now() == if old(free) == [] then old(Now()) else ProcModel.Acquire(old(Now()))
    {
      pcb := pcbFreelist;
      if pcb.Some? {
        var q := pcb.value;
        assert q == free[0];
        pstate[q] := Alive;
        pcbFreelist := parent[q];
        processCount := processCount + 1;
        free := free[1..];
        born := born[q := born[q] + 1];
      }
    }

    // release_PCB
    method Release(c: Pid)
      requires Arrays() && pcbFreelist == First(free)
      modifies this, pstate, parent
      ensures pcbFreelist == First(free)
      ensures Now() == var s := old(Now());
                       s.(pstate := s.pstate[c := Free], parent := s.parent[c := First(s.free)], free := [c] + s.free,
                          count := s.count - 1, reaped := s.reaped[c := s.reaped[c] + 1])
    {
      pstate[c] := Free;
      parent[c] := pcbFreelist;
      pcbFreelist := Some(c);
      processCount := processCount - 1;
      free := [c] + free;
      reaped := reaped[c := reaped[c] + 1];
    }

    // sys_Exec, as far as the forest goes; p is the caller.
    method Exec(p: Pid) returns (cpid: int)
      requires Valid() && (pstate[1] == Free || (pstate[p] == Alive && p != 0))
      modifies this, pstate, parent, children
      ensures Valid() && Now() == DoExec(old(Now()), p)
      ensures cpid == if old(free) == [] then NOPROC else old(free)[0]
    {
      ghost var s := Now();
      assert LinkOk(s, 0);
      if free != [] {
        ExecKeeps(s, p);
      }
      var newproc := Acquire();
      if newproc == None {
        return NOPROC;
      }
      var q := newproc.value;
      if q <= 1 {
        parent[q] := None;
        rank := rank[q := 0];
      } else {
        parent[q] := Some(p);
        children[p] := [q] + children[p];
        rank := rank[q := rank[p] + 1];
      }
      cpid := q;
    }

    // rlist_remove of the two nodes of c, wherever they are
    method Unlink(c: Pid)
      requires Arrays()
      modifies children, exited
      ensures Now() == old(Now()).(children := Unlinked(old(children[..]), c), exited := Unlinked(old(exited[..]), c))
    {
      forall q | 0 <= q < children.Length {
        children[q] := Remove(children[q], c);
      }
      forall q | 0 <= q < exited.Length {
        exited[q] := Remove(exited[q], c);
      }
    }

    // cleanup_zombie
    method CleanupZombie(c: Pid) returns (status: int)
      requires Arrays() && pcbFreelist == First(free)
      modifies this, pstate, parent, children, exited
      ensures pcbFreelist == First(free) && status == exitval[c]
      ensures Now() == Reap(old(Now()), c)
    {
      status := exitval[c];
      Unlink(c);
      Release(c);
    }

    // One turn of wait_for_specific_child's loop.  It keeps the table valid if
    // and only if c is a zombie, or a child of p.
    method WaitSpecific(t: Tid, p: Pid, c: Pid) returns (answer: Answer)
      requires Valid() && pstate[p] == Alive && p != 0 && c >= 2
      modifies this, pstate, parent, children, exited
      ensures Arrays() && (Now(), answer) == WaitFor(old(Now()), t, p, c)
      ensures Valid() <==> old(pstate[c]) == Zombie || IsChild(old(Now()), c, p)
    {
      WaitForKeepsIff(Now(), t, p, c);
      if pstate[c] == Alive {
        waits := waits[t := Wait(p, Some(c), true)];
        return Sleeps;
      }
      waits := waits - {t};
      var status := CleanupZombie(c);
      answer := Returns(c, Some(status));
    }

    // One turn of wait_for_any_child's loop.
    method WaitForAny(t: Tid, p: Pid) returns (answer: Answer)
      requires Valid() && pstate[p] == Alive && p != 0
      modifies this, pstate, parent, children, exited
      ensures Valid() && (Now(), answer) == WaitAny(old(Now()), t, p)
    {
      WaitAnyKeeps(Now(), t, p);
      if children[p] == [] {
        waits := waits - {t};
        return Returns(NOPROC, None);
      }
      if exited[p] == [] {
        waits := waits[t := Wait(p, None, true)];
        return Sleeps;
      }
      waits := waits - {t};
      var c := exited[p][0];
      var status := CleanupZombie(c);
      answer := Returns(c, Some(status));
    }

    // sys_WaitChild, up to its first wait
    method WaitChild(t: Tid, p: Pid, cpid: int) returns (answer: Answer)
      requires Valid() && Enabled(Now(), BeginWait(t, p, cpid))
      modifies this, pstate, parent, children, exited
      ensures Valid() && (Now(), answer) == StartWait(old(Now()), t, p, cpid)
    {
      if cpid == NOPROC {
        answer := WaitForAny(t, p);
      } else if cpid < 0 || cpid >= MAX_PROC {
        answer := Returns(NOPROC, None);
      } else if pstate[cpid] == Free || parent[cpid] != Some(p) {
        answer := Returns(NOPROC, None);
      } else {
        LegalIsChild(Now(), p, cpid);
        answer := WaitSpecific(t, p, cpid);
      }
    }

    // sys_WaitChild, after a wait by thread t of p, who asked for `child`
    method ResumeWait(t: Tid, p: Pid, child: Option<Pid>) returns (answer: Answer)
      requires Valid() && Enabled(Now(), Resume(t)) && waits[t].pid == p && waits[t].child == child
      modifies this, pstate, parent, children, exited
      ensures Arrays() && (Now(), answer) == GoOn(old(Now()), t)
      ensures Valid() <==> Harmless(old(Now()), Resume(t))
    {
      assert WaitOk(Now(), t);
      match child
      case Some(c) => answer := WaitSpecific(t, p, c);
      case None => answer := WaitForAny(t, p);
    }

    // The reparenting loop of the last ThreadExit of p.
    method ReparentChildren(p: Pid)
      requires Arrays() && p != 1
      modifies parent, children
      ensures Now() == Reparent(old(Now()), p)
    {
      ghost var s, all := Now(), children[p];
      ghost var n := 0;
      assert all[..0] == [] && Reverse(all[..0]) == [];
      assert parent[..] == Adopted(s.parent, []);
      while children[p] != []
        invariant 0 <= n <= |all| && children[p] == all[n..]
        invariant parent[..] == Adopted(s.parent, all[..n])
        invariant children[1] == Reverse(all[..n]) + s.children[1]
        invariant forall q :: 0 <= q < MAX_PROC && q != p && q != 1 ==> children[q] == s.children[q]
        decreases |all| - n
      {
        ReversedSnoc(all, n);
        var child := children[p][0];
        children[p] := children[p][1..];
        parent[child] := Some(1);
        children[1] := [child] + children[1];
        AdoptedSnoc(s.parent, all, n);
        n := n + 1;
      }
      assert all[..n] == all;
    }

    // kernel_broadcast(& PT[p].child_exit)
    method WakeParent(p: Pid)
      requires Arrays()
      modifies `waits
      ensures Now() == Broadcast(old(Now()), p)
    {
      waits := Broadcast(Now(), p).waits;
    }

    // The exited children of p go to the initial process.
    method HandOverExited(p: Pid)
      requires Arrays() && p != 1
      modifies `waits, exited
      ensures Now() == GiveExited(old(Now()), p)
    {
      if exited[p] != [] {
        exited[1], exited[p] := exited[1] + exited[p], [];
        WakeParent(1);
      }
    }

    // p itself goes to its parent.
    method HandOver(p: Pid, up: Pid)
      requires Arrays()
      modifies `waits, exited
      ensures Now() == var s := old(Now()); Broadcast(s.(exited := s.exited[up := [p] + s.exited[up]]), up)
    {
      exited[up] := [p] + exited[up];
      WakeParent(up);
    }

    // All that p does for its family when it ends.
    method LeaveFamily(p: Pid)
      requires Valid() && Enabled(Now(), ExitLast(p)) && p != 1
      modifies `waits, parent, children, exited
      ensures Arrays() && Now().(pstate := Now().pstate[p := Zombie]) == DoExit(old(Now()), p)
    {
      ghost var s := Now();
      assert ListsOk(s, p) && ParentOk(s, p) && p !in s.children[p];
      ReparentChildren(p);
      assert parent[p] == Now().parent[p] == s.parent[p];
      HandOverExited(p);
      HandOver(p, parent[p].value);
    }

    // The last ThreadExit of p, as far as the forest goes.
    method Exit(p: Pid)
      requires Valid() && Enabled(Now(), ExitLast(p))
      modifies this, pstate, parent, children, exited
      ensures Arrays() && Now() == DoExit(old(Now()), p)
      ensures Valid() <==> EndsAlone(old(Now()), ExitLast(p))
    {
      ExitKeepsIff(Now(), p);
      if p != 1 {
        LeaveFamily(p);
      }
      pstate[p] := Zombie;
    }
  }

  lemma {:induction false} ReversedSnoc(q: seq<Pid>, n: nat)
    requires n < |q|
    ensures Reverse(q[..n + 1]) == [q[n]] + Reverse(q[..n])
  {
    if n == 0 {
      assert q[..1] == [q[0]] && q[..0] == [] && [q[0]][1..] == [];
    } else {
      ReversedSnoc(q[1..], n - 1);
      assert q[..n + 1][1..] == q[1..][..n] && q[..n][1..] == q[1..][..n - 1];
    }
  }

  lemma AdoptedSnoc(parent: Parents, q: seq<Pid>, n: nat)
    requires n < |q|
    ensures Adopted(parent, q[..n + 1]) == Adopted(parent, q[..n])[q[n] := Some(1)]
  {
    assert q[..n + 1] == q[..n] + [q[n]];
  }
}
