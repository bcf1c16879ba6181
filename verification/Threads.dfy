// The calls of kernel_threads.c on the PTCBs.
module Threads {
  import opened Sequences
  import opened ThreadModel
  import opened ThreadRuns

  class PTCB {
    const owner: Pid
    var exited: bool
    var detached: bool
    var exitval: int
    var refcount: int
    ghost var frees: nat

    constructor (owner: Pid)
      ensures Value() == Ptcb(owner, false, false, 0, 0, 0)
    {
      this.owner := owner;
      exited, detached, exitval, refcount, frees := false, false, 0, 0, 0;
    }

    ghost function Value(): Ptcb
      reads this
    {
      Ptcb(owner, exited, detached, exitval, refcount, frees)
    }
  }

  class Kernel {
    var table: map<Id, PTCB>             // the PTCBs, by their Tid_t
    var lists: map<Pid, seq<Id>>         // PTCB_List
    var counters: map<Pid, int>          // threadCounter
    var joins: map<Id, Joiner>           // the threads in ThreadJoin, asleep on exit_cv or not

    ghost predicate OneEach()
      reads this`table
    {
      forall x, y :: x in table && y in table && x != y ==> table[x] != table[y]
    }

    ghost function Ptcbs(): map<Id, Ptcb>
      reads this`table, table.Values
    {
      map x | x in table :: table[x].Value()
    }

    ghost function Now(): State
      reads this, table.Values
    {
      State(Ptcbs(), lists, counters, joins)
    }

    ghost predicate Valid()
      reads this, table.Values
    {
      OneEach() && Inv(Now())
    }

    constructor ()
      ensures Valid() && Init(Now())
    {
      table, lists, counters, joins := map[], map[], map[], map[];
      new;
      RunsKeepInv([Now()], [], 0);
    }

    // --- one PTCB

    method AddPtcb(p: Pid, x: Id)
      requires OneEach() && x !in table
      modifies `table
      ensures OneEach() && Now() == SetPtcb(old(Now()), x, Ptcb(p, false, false, 0, 0, 0))
      ensures table.Keys == old(table).Keys + {x} && fresh(table.Values - old(table).Values)
    {
      ghost var s := Now();
      var ptcb := new PTCB(p);
      table := table[x := ptcb];
      assert Ptcbs() == s.ptcbs[x := Ptcb(p, false, false, 0, 0, 0)];
    }

    method SetRefcount(x: Id, n: int)
      requires OneEach() && x in table
      modifies table[x]
      ensures Ptcbs() == old(Ptcbs())[x := old(table[x].Value()).(refcount := n)]
      ensures table[x].Value() == old(table[x].Value()).(refcount := n)
    {
      table[x].refcount := n;
      assert Ptcbs() == old(Ptcbs())[x := old(table[x].Value()).(refcount := n)];
    }

    method SetDetached(x: Id)
      requires OneEach() && x in table
      modifies table[x]
      ensures Ptcbs() == old(Ptcbs())[x := old(table[x].Value()).(detached := true)]
    {
      table[x].detached := true;
      assert Ptcbs() == old(Ptcbs())[x := old(table[x].Value()).(detached := true)];
    }

    method SetExited(x: Id, val: int)
      requires OneEach() && x in table
      modifies table[x]
      ensures Ptcbs() == old(Ptcbs())[x := old(table[x].Value()).(exited := true, exitval := val)]
      ensures table[x].Value() == old(table[x].Value()).(exited := true, exitval := val)
    {
      table[x].exitval := val;
      table[x].exited := true;
      assert Ptcbs() == old(Ptcbs())[x := old(table[x].Value()).(exited := true, exitval := val)];
    }

    // rlist_remove and free
    method FreePtcb(x: Id)
      requires OneEach() && x in table
      modifies `lists, table[x]
      ensures Now() == Freed(old(Now()), x)
    {
      var p := table[x].owner;
      lists := lists[p := Remove(List(p), x)];
      table[x].frees := table[x].frees + 1;
      assert Ptcbs() == old(Ptcbs())[x := old(table[x].Value()).(frees := old(table[x].frees) + 1)];
    }

    function List(p: Pid): seq<Id>
      reads this`lists
    {
      if p in lists then lists[p] else []
    }

    function Counter(p: Pid): int
      reads this`counters
    {
      if p in counters then counters[p] else 0
    }

    // --- the calls

    // sys_CreateThread, and Exec's creation of the main thread
    method CreateThread(p: Pid, x: Id)
      requires Valid() && x !in table
      modifies this
      ensures Valid() && Now() == DoSpawn(old(Now()), p, x)
    {
      SpawnKeeps(Now(), p, x);
      Enlist(p, x);
    }

    method Enlist(p: Pid, x: Id)
      requires OneEach() && x !in table
      modifies this
      ensures OneEach() && Now() == DoSpawn(old(Now()), p, x)
    {
      AddPtcb(p, x);
      lists := lists[p := List(p) + [x]];
      counters := counters[p := Counter(p) + 1];
    }

    // ThreadJoin, after its loop
    method LeaveJoin(j: Id, x: Id) returns (answer: Answer)
      requires OneEach() && x in table && (table[x].detached || table[x].exited)
      modifies this, table[x]
      ensures OneEach() && Now() == JoinOn(old(Now()), j, x) && answer == Verdict(old(table[x].Value()))
    {
      Uncount(j, x);
      var ptcb := table[x];
      assert Ptcbs()[x] == ptcb.Value();
      if ptcb.detached {
        return Returns(-1, 0);
      }
      answer := Returns(0, ptcb.exitval);
      if ptcb.refcount == 0 {
        FreePtcb(x);
      }
    }

    method Uncount(j: Id, x: Id)
      requires OneEach() && x in table
      modifies `joins, table[x]
      ensures OneEach() && Now() == Uncounted(old(Now()), j, x)
    {
      assert Ptcbs()[x] == table[x].Value();
      SetRefcount(x, table[x].refcount - 1);
      joins := joins - {j};
    }

    // The loop of ThreadJoin, up to its next wait, and what follows the loop.
    method JoinLoop(j: Id, x: Id) returns (answer: Answer)
      requires OneEach() && x in table
      modifies this, table[x]
      ensures OneEach() && Now() == JoinOn(old(Now()), j, x) && answer == Verdict(old(table[x].Value()))
    {
      if !table[x].detached && !table[x].exited {
        assert Ptcbs()[x] == table[x].Value();
        joins := joins[j := Joiner(x, true)];
        return Sleeps;
      }
      answer := LeaveJoin(j, x);
    }

    // sys_ThreadJoin, up to its first wait
    method ThreadJoin(j: Id, x: Id) returns (answer: Answer)
      requires Valid() && Running(Now(), j)
      modifies this, table.Values
      ensures Valid() && Now() == Next(old(Now()), Join(j, x)) && answer == AnswerOf(old(Now()), Join(j, x))
    {
      NextKeepsInv(Now(), Join(j, x));
      if x !in List(table[j].owner) || x !in table || table[x].detached || j == x {
        return Returns(-1, 0);
      }
      answer := CountAndJoin(j, x);
    }

    method CountAndJoin(j: Id, x: Id) returns (answer: Answer)
      requires OneEach() && x in table
      modifies this, table[x]
      ensures OneEach() && Now() == JoinOn(Counted(old(Now()), x), j, x) && answer == Verdict(old(table[x].Value()))
    {
      ghost var s := Now();
      assert s.ptcbs[x] == table[x].Value();
      SetRefcount(x, table[x].refcount + 1);
      assert Now() == Counted(s, x);
      answer := JoinLoop(j, x);
    }

    // ThreadJoin, after a wait
    method ResumeJoin(j: Id) returns (answer: Answer)
      requires Valid() && Enabled(Now(), Resume(j))
      modifies this, table.Values
      ensures Valid() && Now() == Next(old(Now()), Resume(j)) && answer == AnswerOf(old(Now()), Resume(j))
    {
      NextKeepsInv(Now(), Resume(j));
      answer := JoinLoop(j, joins[j].target);
    }

    // sys_ThreadDetach
    method ThreadDetach(j: Id, x: Id) returns (ok: bool)
      requires Valid() && Running(Now(), j)
      modifies this, table.Values
      ensures Valid() && Now() == Next(old(Now()), Detach(j, x)) && ok == CanDetach(old(Now()), j, x)
    {
      NextKeepsInv(Now(), Detach(j, x));
      ok := x in List(table[j].owner) && x in table && !table[x].exited;
      if ok {
        MarkDetached(x);
      }
    }

    method MarkDetached(x: Id)
      requires OneEach() && x in table
      modifies `joins, table[x]
      ensures OneEach() && table == old(table)
      ensures Now() == var s := old(Now());
                       SetPtcb(s, x, s.ptcbs[x].(detached := true)).(joins := WakeJoiners(s.joins, x))
    {
      assert Ptcbs()[x] == table[x].Value();
      SetDetached(x);
      WakeAllJoiners(x);
    }

    // sys_ThreadExit, of a thread of p; `last` says that the process ends.
    method ThreadExit(j: Id, p: Pid, val: int) returns (last: bool)
      requires Valid() && Running(Now(), j) && table[j].owner == p
      modifies this, table.Values
      ensures Valid() && Now() == DoExit(old(Now()), j, val)
      ensures last <==> LiveThreads(Now(), p) == {}
    {
      ExitKeeps(Now(), j, val);
      MarkExited(j, p, val);
      last := counters[p] == 0;
      assert ProcOk(Now(), p);
    }

    method MarkExited(j: Id, p: Pid, val: int)
      requires OneEach() && j in table && table[j].owner == p
      modifies this, table[j]
      ensures OneEach() && Now() == DoExit(old(Now()), j, val) && p in counters && table == old(table)
    {
      EndThread(j, p, val);
      assert Ptcbs()[j] == table[j].Value();
      if table[j].refcount != 0 {
        WakeAllJoiners(j);
      }
    }

    method EndThread(j: Id, p: Pid, val: int)
      requires OneEach() && j in table && table[j].owner == p
      modifies `counters, table[j]
      ensures OneEach() && p in counters && Now() == Exited(old(Now()), j, val)
    {
      assert Ptcbs()[j] == table[j].Value();
      SetExited(j, val);
      counters := counters[p := Counter(p) - 1];
    }

    // kernel_broadcast(&ptcb->exit_cv)
    method WakeAllJoiners(x: Id)
      requires OneEach()
      modifies `joins
      ensures OneEach() && Now() == old(Now()).(joins := WakeJoiners(old(joins), x))
    {
      joins := WakeJoiners(joins, x);
    }
  }
}
