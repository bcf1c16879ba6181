/**
 The process forest and the threads of its processes, together.

 ProcModel takes it that only a thread of a living process makes a call, and that
 a process ends with nobody inside its WaitChild.  Here threadCounter decides when
 a process ends, as it does in sys_ThreadExit, and both become theorems.
 */
module ProcThreads {
  import opened Sequences
  import P = ProcModel
  import T = ThreadModel
  import PI = ProcInvariant
  import PR = ProcRuns
  import TR = ThreadRuns

  type Id = T.Id
  type Pid = P.Pid

  // `taskless` is history: the processes started with a NULL task, which have no
  // thread.
  datatype System = System(procs: P.State, threads: T.State, taskless: set<Pid>)

  // Calls by thread j, and the returns of its waits.  `main` is the PTCB of the
  // new process's main thread.
  datatype Call =
    | Boot(main: Option<Id>)             // Exec, when there is no initial process yet
    | Exec(j: Id, main: Option<Id>)
    | StoreExit(j: Id, val: int)
    | WaitChild(j: Id, cpid: int)
    | ResumeWait(j: Id)
    | CreateThread(j: Id, x: Id)
    | ThreadJoin(j: Id, x: Id)
    | ResumeJoin(j: Id)
    | ThreadDetach(j: Id, x: Id)
    | ThreadExit(j: Id, val: int)

  // j has not exited and is inside no wait.
  predicate Active(c: System, j: Id)
  {
    T.Running(c.threads, j) && j !in c.procs.waits
  }

  // --- the invariant

  // A thread that has not exited belongs to a living process.
  predicate ThreadOk(c: System, j: Id)
  {
    j in c.threads.ptcbs && !c.threads.ptcbs[j].exited ==>
      var p := c.threads.ptcbs[j].owner;
      0 < p < P.MAX_PROC && c.procs.pstate[p] == P.Alive && p !in c.taskless
  }

  // A thread inside WaitChild is one of the waiting process, and in no other wait.
  predicate WaiterOk(c: System, t: Id)
  {
    t in c.procs.waits ==>
      T.Running(c.threads, t) && c.threads.ptcbs[t].owner == c.procs.waits[t].pid
  }

  // A living process has a thread, unless it was started without.
  predicate ProcessOk(c: System, p: Pid)
  {
    && (c.procs.pstate[p] == P.Alive && p !in c.taskless ==> T.LiveThreads(c.threads, p) != {})
    && (p in c.taskless ==> c.procs.pstate[p] == P.Alive)
  }

  ghost predicate Coupled(c: System)
  {
    && P.Inv(c.procs) && T.Inv(c.threads)
    && (forall j: Id {:trigger ThreadOk(c, j)} :: ThreadOk(c, j))
    && (forall t: Id {:trigger WaiterOk(c, t)} :: WaiterOk(c, t))
    && (forall p: Pid {:trigger ProcessOk(c, p)} :: ProcessOk(c, p))
  }

  // --- the steps

  predicate Unused(s: T.State, main: Option<Id>)
  {
    main.Some? ==> main.value !in s.ptcbs
  }

  // The first process, the scheduler's, is started without a task.
  predicate Enabled(c: System, call: Call)
  {
    match call
    case Boot(main) =>
      && P.Enabled(c.procs, P.Boot) && Unused(c.threads, main)
      && (c.procs.free[0] == 0 ==> main == None)
    case Exec(j, main) => Active(c, j) && Unused(c.threads, main)
    case ResumeWait(j) => P.Enabled(c.procs, P.Resume(j))
    case CreateThread(j, x) => Active(c, j) && x !in c.threads.ptcbs
    case ResumeJoin(j) => T.Enabled(c.threads, T.Resume(j))
    case _ => Active(c, call.j)
  }

  // CURPROC of an active thread.
  function Curproc(c: System, j: Id): Pid
    requires Coupled(c) && Active(c, j)
  {
    assert ThreadOk(c, j);
    c.threads.ptcbs[j].owner
  }

  // j is the last thread of its process.
  predicate IsLast(c: System, j: Id)
    requires j in c.threads.ptcbs
  {
    T.LiveThreads(c.threads, c.threads.ptcbs[j].owner) == {j}
  }

  // What a call does to the process table, if anything.
  ghost function ForestAction(c: System, call: Call): Option<P.Action>
    requires Coupled(c) && Enabled(c, call)
  {
    match call
    case Boot(_) => Some(P.Boot)
    case Exec(j, _) => Some(P.Exec(Curproc(c, j)))
    case StoreExit(j, val) => Some(P.StoreExit(Curproc(c, j), val))
    case WaitChild(j, cpid) => Some(P.BeginWait(j, Curproc(c, j), cpid))
    case ResumeWait(j) => Some(P.Resume(j))
    case ThreadExit(j, val) =>
      if T.CounterOf(T.DoExit(c.threads, j, val), Curproc(c, j)) == 0 then Some(P.ExitLast(Curproc(c, j))) else None
    case _ => None
  }

  lemma ActiveIsAlive(c: System, j: Id)
    requires Coupled(c) && Active(c, j)
    ensures c.procs.pstate[Curproc(c, j)] == P.Alive && Curproc(c, j) != 0
  {
    assert ThreadOk(c, j);
  }

  // The counter comes down to 0 just at the last thread's exit.
  lemma CounterTellsLast(c: System, j: Id, val: int)
    requires Coupled(c) && Active(c, j)
    ensures T.CounterOf(T.DoExit(c.threads, j, val), Curproc(c, j)) == 0 <==> IsLast(c, j)
  {
    var p := Curproc(c, j);
    var s' := T.DoExit(c.threads, j, val);
    TR.ExitKeeps(c.threads, j, val);
    assert T.ProcOk(s', p);
    assert T.LiveThreads(s', p) == T.LiveThreads(c.threads, p) - {j};
    assert j in T.LiveThreads(c.threads, p);
  }

  // Then nobody is inside the WaitChild of its process, nor in a ThreadJoin.
  lemma NobodyElseIsInside(c: System, j: Id)
    requires Coupled(c) && Active(c, j) && IsLast(c, j)
    ensures P.NoWaiter(c.procs, Curproc(c, j))
    ensures forall k :: k in c.threads.joins ==> k in c.threads.ptcbs && c.threads.ptcbs[k].owner != Curproc(c, j)
  {
    var p := Curproc(c, j);
    forall t | t in c.procs.waits
      ensures c.procs.waits[t].pid != p
    {
      assert WaiterOk(c, t);
      assert c.procs.waits[t].pid == p ==> t in T.LiveThreads(c.threads, p);
    }
    forall k | k in c.threads.joins
      ensures k in c.threads.ptcbs && c.threads.ptcbs[k].owner != p
    {
      assert T.JoinerOk(c.threads, k);
      assert c.threads.ptcbs[k].owner == p ==> k in T.LiveThreads(c.threads, p);
    }
  }

  // So the last thread can end its process: what ProcModel takes for granted.
  lemma LastThreadCanEnd(c: System, j: Id)
    requires Coupled(c) && Active(c, j) && IsLast(c, j)
    ensures P.Enabled(c.procs, P.ExitLast(Curproc(c, j)))
  {
    ActiveIsAlive(c, j);
    NobodyElseIsInside(c, j);
    assert P.ParentOk(c.procs, Curproc(c, j));
  }

  lemma ForestActionEnabled(c: System, call: Call)
    requires Coupled(c) && Enabled(c, call) && ForestAction(c, call).Some?
    ensures P.Enabled(c.procs, ForestAction(c, call).value)
  {
    if call.ThreadExit? {
      CounterTellsLast(c, call.j, call.val);
      LastThreadCanEnd(c, call.j);
    } else if !call.Boot? && !call.ResumeWait? {
      ActiveIsAlive(c, call.j);
    }
  }

  ghost function NextProcs(c: System, call: Call): P.State
    requires Coupled(c) && Enabled(c, call)
  {
    match ForestAction(c, call)
    case Some(a) => ForestActionEnabled(c, call); P.Next(c.procs, a)
    case None => c.procs
  }

  // The main thread of a new process, if one was made and has a task.
  function Started(c: System, main: Option<Id>): T.State
  {
    if c.procs.free != [] && main.Some? then T.DoSpawn(c.threads, c.procs.free[0], main.value) else c.threads
  }

  ghost function NextThreads(c: System, call: Call): T.State
    requires Coupled(c) && Enabled(c, call)
  {
    match call
    case Boot(main) => Started(c, main)
    case Exec(_, main) => Started(c, main)
    case CreateThread(j, x) => T.Next(c.threads, T.Spawn(Curproc(c, j), x))
    case ThreadJoin(j, x) => T.Next(c.threads, T.Join(j, x))
    case ResumeJoin(j) => T.Next(c.threads, T.Resume(j))
    case ThreadDetach(j, x) => T.Next(c.threads, T.Detach(j, x))
    case ThreadExit(j, val) => T.Next(c.threads, T.Exit(j, val))
    case _ => c.threads
  }

  function NextTaskless(c: System, call: Call): set<Pid>
  {
    if (call.Boot? || call.Exec?) && call.main == None && c.procs.free != [] then c.taskless + {c.procs.free[0]}
    else c.taskless
  }

  ghost function Next(c: System, call: Call): System
    requires Coupled(c) && Enabled(c, call)
  {
    System(NextProcs(c, call), NextThreads(c, call), NextTaskless(c, call))
  }

  // What ProcModel.Harmless says of the call.
  ghost predicate Harmless(c: System, call: Call)
    requires Coupled(c) && Enabled(c, call)
  {
    ForestAction(c, call).Some? ==> P.Harmless(c.procs, ForestAction(c, call).value)
  }

  // --- a step keeps the two together

  lemma ThreadsKept(c: System, call: Call)
    requires Coupled(c) && Enabled(c, call)
    ensures T.Inv(NextThreads(c, call))
  {
    match call
    case Boot(main) => StartedKept(c, main);
    case Exec(_, main) => StartedKept(c, main);
    case CreateThread(j, x) => TR.NextKeepsInv(c.threads, T.Spawn(Curproc(c, j), x));
    case ThreadJoin(j, x) => TR.NextKeepsInv(c.threads, T.Join(j, x));
    case ResumeJoin(j) => TR.NextKeepsInv(c.threads, T.Resume(j));
    case ThreadDetach(j, x) => TR.NextKeepsInv(c.threads, T.Detach(j, x));
    case ThreadExit(j, val) => TR.NextKeepsInv(c.threads, T.Exit(j, val));
    case _ =>
  }

  lemma StartedKept(c: System, main: Option<Id>)
    requires Coupled(c) && Unused(c.threads, main)
    ensures T.Inv(Started(c, main))
  {
    if c.procs.free != [] && main.Some? { TR.SpawnKeeps(c.threads, c.procs.free[0], main.value); }
  }

  // Somebody lives, so the first process has been started.
  lemma NewPidIsNotFirst(c: System, call: Call)
    requires Coupled(c) && Enabled(c, call) && (call.Boot? || call.Exec?) && c.procs.free != [] && call.main.Some?
    ensures c.procs.free[0] != 0
  {
    assert c.procs.free[0] in c.procs.free;
    if call.Exec? {
      ActiveIsAlive(c, call.j);
      PI.NothingBeforeFirst(c.procs, Curproc(c, call.j));
    }
  }

  // What a new process is: one FREE before, that had no thread.
  lemma NewProcessIs(c: System, call: Call)
    requires Coupled(c) && Enabled(c, call) && (call.Boot? || call.Exec?)
    ensures var s, s' := c.procs, NextProcs(c, call);
            && s'.waits == s.waits
            && (if s.free == [] then s' == s
                else s.pstate[s.free[0]] == P.Free && s'.pstate == s.pstate[s.free[0] := P.Alive])
  {
    ForestActionEnabled(c, call);
    if c.procs.free != [] { PI.NewPid(c.procs); }
  }

  lemma NewProcessThread(c: System, call: Call, j: Id)
    requires Coupled(c) && Enabled(c, call) && (call.Boot? || call.Exec?)
    ensures ThreadOk(Next(c, call), j) && WaiterOk(Next(c, call), j)
  {
    NewProcessIs(c, call);
    assert ThreadOk(c, j) && WaiterOk(c, j);
    if c.procs.free != [] {
      assert ProcessOk(c, c.procs.free[0]);
      if call.main.Some? { NewPidIsNotFirst(c, call); }
    }
  }

  // A new process, with its main thread or without a task.
  lemma NewProcessCoupled(c: System, call: Call)
    requires Coupled(c) && Enabled(c, call) && (call.Boot? || call.Exec?) && P.Inv(NextProcs(c, call))
    ensures Coupled(Next(c, call))
  {
    var c' := Next(c, call);
    ThreadsKept(c, call);
    forall j: Id
      ensures ThreadOk(c', j) && WaiterOk(c', j)
    {
      NewProcessThread(c, call, j);
    }
    forall p: Pid
      ensures ProcessOk(c', p)
    {
      NewProcessOk(c, call, p);
    }
  }

  lemma NewProcessOk(c: System, call: Call, p: Pid)
    requires Coupled(c) && Enabled(c, call) && (call.Boot? || call.Exec?)
    ensures ProcessOk(Next(c, call), p)
  {
    NewProcessIs(c, call);
    assert ProcessOk(c, p);
    var s, s' := c.threads, NextThreads(c, call);
    if c.procs.free != [] && call.main.Some? {
      assert call.main.value in T.LiveThreads(s', c.procs.free[0]);
    }
    assert T.LiveThreads(s, p) <= T.LiveThreads(s', p);
  }

  // What a step inside WaitChild leaves alone.
  lemma WaitFrame(s: P.State, a: P.Action, t: Id, p: Pid)
    requires P.Inv(s) && P.Enabled(s, a) && PR.InWait(a)
    ensures P.Next(s, a).pstate[p] == P.Alive <==> s.pstate[p] == P.Alive
    ensures t in P.Next(s, a).waits ==>
              && (t == a.t || t in s.waits)
              && P.Next(s, a).waits[t].pid == if t == a.t then PR.Caller(s, a) else s.waits[t].pid
  {
    var q := PR.Caller(s, a);
    assert P.ListsOk(s, q);
    if s.exited[q] != [] {
      assert s.exited[q][0] in s.exited[q];
    }
  }

  lemma WaitCoupled(c: System, call: Call)
    requires Coupled(c) && Enabled(c, call) && (call.WaitChild? || call.ResumeWait?) && P.Inv(NextProcs(c, call))
    ensures Coupled(Next(c, call))
  {
    var c', a := Next(c, call), ForestAction(c, call).value;
    ForestActionEnabled(c, call);
    forall j: Id
      ensures ThreadOk(c', j) && WaiterOk(c', j)
    {
      assert ThreadOk(c, j) && WaiterOk(c, j) && WaiterOk(c, call.j);
      WaitFrame(c.procs, a, j, OwnerOf(c, j));
    }
    forall p: Pid
      ensures ProcessOk(c', p)
    {
      assert ProcessOk(c, p);
      WaitFrame(c.procs, a, 0, p);
    }
  }

  function OwnerOf(c: System, j: Id): Pid
  {
    if j in c.threads.ptcbs && c.threads.ptcbs[j].owner < P.MAX_PROC then c.threads.ptcbs[j].owner else 0
  }

  // What a step of the threads other than an exit leaves alone.
  lemma ThreadFrame(s: T.State, a: T.Action, j: Id)
    requires T.Enabled(s, a) && !a.Exit?
    ensures var s' := T.Next(s, a);
            && (j in s.ptcbs ==> j in s'.ptcbs && s'.ptcbs[j].owner == s.ptcbs[j].owner
                                 && s'.ptcbs[j].exited == s.ptcbs[j].exited)
            && (j in s'.ptcbs && j !in s.ptcbs ==> a.Spawn? && s'.ptcbs[j].owner == a.p && !s'.ptcbs[j].exited)
            && (j in s'.joins ==> j in s.joins || (a.Join? && j == a.j))
  {
  }

  predicate OfThreads(call: Call)
  {
    call.CreateThread? || call.ThreadJoin? || call.ResumeJoin? || call.ThreadDetach?
  }

  ghost function ThreadAction(c: System, call: Call): (a: T.Action)
    requires Coupled(c) && Enabled(c, call) && OfThreads(call)
    ensures T.Enabled(c.threads, a) && !a.Exit? && NextThreads(c, call) == T.Next(c.threads, a)
    ensures a.Spawn? ==> call.CreateThread? && a.p == Curproc(c, call.j)
    ensures a.Join? ==> call.ThreadJoin? && a.j == call.j
  {
    match call
    case CreateThread(j, x) => T.Spawn(Curproc(c, j), x)
    case ThreadJoin(j, x) => T.Join(j, x)
    case ResumeJoin(j) => T.Resume(j)
    case ThreadDetach(j, x) => T.Detach(j, x)
  }

  lemma ThreadCallThread(c: System, call: Call, j: Id)
    requires Coupled(c) && Enabled(c, call) && OfThreads(call)
    ensures ThreadOk(Next(c, call), j) && WaiterOk(Next(c, call), j)
  {
    ThreadFrame(c.threads, ThreadAction(c, call), j);
    assert ThreadOk(c, j) && WaiterOk(c, j) && ThreadOk(c, call.j);
  }

  lemma ThreadCallProcess(c: System, call: Call, p: Pid)
    requires Coupled(c) && Enabled(c, call) && OfThreads(call)
    ensures ProcessOk(Next(c, call), p)
  {
    assert ProcessOk(c, p);
    if j :| j in T.LiveThreads(c.threads, p) {
      ThreadFrame(c.threads, ThreadAction(c, call), j);
      assert j in T.LiveThreads(NextThreads(c, call), p);
    }
  }

  // The other thread calls change nobody's process, and end nobody.
  lemma ThreadCallCoupled(c: System, call: Call)
    requires Coupled(c) && Enabled(c, call) && OfThreads(call)
    ensures Coupled(Next(c, call))
  {
    ThreadsKept(c, call);
    forall j: Id
      ensures ThreadOk(Next(c, call), j) && WaiterOk(Next(c, call), j)
    {
      ThreadCallThread(c, call, j);
    }
    forall p: Pid
      ensures ProcessOk(Next(c, call), p)
    {
      ThreadCallProcess(c, call, p);
    }
  }

  lemma StoreExitCoupled(c: System, call: Call)
    requires Coupled(c) && Enabled(c, call) && call.StoreExit? && P.Inv(NextProcs(c, call))
    ensures Coupled(Next(c, call))
  {
    var c' := Next(c, call);
    forall j: Id
      ensures ThreadOk(c', j) && WaiterOk(c', j)
    {
      assert ThreadOk(c, j) && WaiterOk(c, j);
    }
    forall p: Pid
      ensures ProcessOk(c', p)
    {
      assert ProcessOk(c, p);
    }
  }

  // One thread less; or none, and the process ends.
  lemma ThreadExitCoupled(c: System, call: Call)
    requires Coupled(c) && Enabled(c, call) && call.ThreadExit? && P.Inv(NextProcs(c, call))
    ensures Coupled(Next(c, call))
  {
    var c' := Next(c, call);
    ThreadsKept(c, call);
    ForestActionAtExit(c, call);
    forall j: Id
      ensures ThreadOk(c', j) && WaiterOk(c', j)
    {
      ThreadExitAside(c, call, j);
    }
    forall p: Pid
      ensures ProcessOk(c', p)
    {
      ThreadExitProcess(c, call, p);
    }
  }

  // What the exit of a thread does to the process table.
  lemma ForestActionAtExit(c: System, call: Call)
    requires Coupled(c) && Enabled(c, call) && call.ThreadExit?
    ensures var s, s', p := c.procs, NextProcs(c, call), Curproc(c, call.j);
            && s'.pstate == (if IsLast(c, call.j) then s.pstate[p := P.Zombie] else s.pstate)
            && s'.waits.Keys == s.waits.Keys
            && forall t :: t in s.waits ==> s'.waits[t].pid == s.waits[t].pid
  {
    CounterTellsLast(c, call.j, call.val);
    ForestActionEnabledIfAny(c, call);
  }

  lemma ForestActionEnabledIfAny(c: System, call: Call)
    requires Coupled(c) && Enabled(c, call)
    ensures ForestAction(c, call).Some? ==> P.Enabled(c.procs, ForestAction(c, call).value)
  {
    if ForestAction(c, call).Some? { ForestActionEnabled(c, call); }
  }

  lemma ThreadExitAside(c: System, call: Call, j: Id)
    requires Coupled(c) && Enabled(c, call) && call.ThreadExit?
    ensures ThreadOk(Next(c, call), j) && WaiterOk(Next(c, call), j)
  {
    ForestActionAtExit(c, call);
    assert ThreadOk(c, j) && WaiterOk(c, j) && ThreadOk(c, call.j);
    var p := Curproc(c, call.j);
    assert j in c.threads.ptcbs && !c.threads.ptcbs[j].exited && c.threads.ptcbs[j].owner == p ==>
        j in T.LiveThreads(c.threads, p);
  }

  lemma ThreadExitProcess(c: System, call: Call, p: Pid)
    requires Coupled(c) && Enabled(c, call) && call.ThreadExit?
    ensures ProcessOk(Next(c, call), p)
  {
    var s' := NextThreads(c, call);
    ForestActionAtExit(c, call);
    assert ProcessOk(c, p) && ThreadOk(c, call.j);
    assert T.LiveThreads(s', p) == T.LiveThreads(c.threads, p) - {call.j};
    assert call.j in T.LiveThreads(c.threads, Curproc(c, call.j));
    assert p != Curproc(c, call.j) ==> call.j !in T.LiveThreads(c.threads, p);
  }

  // Forest and threads stay right, and in step, if and only if the call is
  // harmless to the forest.
  lemma NextKeepsCoupledIff(c: System, call: Call)
    requires Coupled(c) && Enabled(c, call)
    ensures Coupled(Next(c, call)) <==> Harmless(c, call)
  {
    ForestActionEnabledIfAny(c, call);
    if ForestAction(c, call).Some? { PI.NextKeepsInvIff(c.procs, ForestAction(c, call).value); }
    if Harmless(c, call) {
      match call
      case Boot(_) => NewProcessCoupled(c, call);
      case Exec(_, _) => NewProcessCoupled(c, call);
      case StoreExit(_, _) => StoreExitCoupled(c, call);
      case WaitChild(_, _) => WaitCoupled(c, call);
      case ResumeWait(_) => WaitCoupled(c, call);
      case ThreadExit(_, _) => ThreadExitCoupled(c, call);
      case _ => ThreadCallCoupled(c, call);
    }
  }

  // --- the runs

  ghost predicate StepAt(states: seq<System>, calls: seq<Call>, i: nat)
    requires i < |calls| && |states| == |calls| + 1
  {
    Coupled(states[i]) ==> Enabled(states[i], calls[i]) && states[i + 1] == Next(states[i], calls[i])
  }

  ghost predicate Run(states: seq<System>, calls: seq<Call>)
  {
    && |states| == |calls| + 1
    && P.Init(states[0].procs) && T.Init(states[0].threads) && states[0].taskless == {}
    && forall i :: 0 <= i < |calls| ==> StepAt(states, calls, i)
  }

  ghost predicate HarmlessAt(states: seq<System>, calls: seq<Call>, i: nat)
    requires i < |calls| && |states| == |calls| + 1
  {
    Coupled(states[i]) && Enabled(states[i], calls[i]) ==> Harmless(states[i], calls[i])
  }

  lemma StepStaysCoupledIff(states: seq<System>, calls: seq<Call>, i: nat)
    requires Run(states, calls) && i < |calls| && Coupled(states[i])
    ensures Coupled(states[i + 1]) <==> HarmlessAt(states, calls, i)
  {
    assert StepAt(states, calls, i);
    NextKeepsCoupledIff(states[i], calls[i]);
  }

  // Along a run forest and threads stay right, and in step, if and only if every
  // call is harmless to the forest.
  lemma {:induction false} RunsStayCoupledIff(states: seq<System>, calls: seq<Call>, n: nat)
    requires Run(states, calls) && n < |states|
    ensures (forall m :: 0 <= m <= n ==> Coupled(states[m])) <==>
            (forall i :: 0 <= i < n ==> HarmlessAt(states, calls, i))
  {
    if n == 0 {
      PR.InitInv(states[0].procs);
      TR.RunsKeepInv([states[0].threads], [], 0);
    } else {
      RunsStayCoupledIff(states, calls, n - 1);
      if Coupled(states[n - 1]) { StepStaysCoupledIff(states, calls, n - 1); }
    }
  }

  ghost predicate Reached(states: seq<System>, calls: seq<Call>, n: nat)
  {
    Run(states, calls) && n < |states| && forall i :: 0 <= i < n ==> HarmlessAt(states, calls, i)
  }

  // A process is alive just as long as one of its threads has not exited, unless
  // it has none; threadCounter says how many; and those inside its WaitChild are
  // among them.
  lemma AliveWhileItHasThreads(states: seq<System>, calls: seq<Call>, n: nat, p: Pid, t: Id)
    requires Reached(states, calls, n)
    ensures var c := states[n];
            && (c.procs.pstate[p] == P.Alive <==> T.LiveThreads(c.threads, p) != {} || p in c.taskless)
            && T.CounterOf(c.threads, p) == |T.LiveThreads(c.threads, p)|
            && (t in c.procs.waits && c.procs.waits[t].pid == p ==> t in T.LiveThreads(c.threads, p))
  {
    RunsStayCoupledIff(states, calls, n);
    var c := states[n];
    assert Coupled(c) && ProcessOk(c, p) && T.ProcOk(c.threads, p) && WaiterOk(c, t);
    if j :| j in T.LiveThreads(c.threads, p) {
      assert ThreadOk(c, j);
    }
  }

  // A process becomes a zombie in exactly the step in which its last thread
  // exits; then nobody is inside its WaitChild, or joins a thread of it.
  lemma EndsWithItsLastThread(c: System, call: Call, p: Pid)
    requires Coupled(c) && Enabled(c, call)
    ensures c.procs.pstate[p] != P.Zombie && Next(c, call).procs.pstate[p] == P.Zombie <==>
            call.ThreadExit? && T.LiveThreads(c.threads, p) == {call.j}
    ensures call.ThreadExit? && T.LiveThreads(c.threads, p) == {call.j} ==>
              && P.NoWaiter(c.procs, p)
              && forall k :: k in c.threads.joins ==> k in c.threads.ptcbs && c.threads.ptcbs[k].owner != p
  {
    ForestActionEnabledIfAny(c, call);
    if call.ThreadExit? {
      ForestActionAtExit(c, call);
      ActiveIsAlive(c, call.j);
      assert call.j in T.LiveThreads(c.threads, Curproc(c, call.j));
      assert call.j in T.LiveThreads(c.threads, p) ==> p == Curproc(c, call.j);
      if IsLast(c, call.j) { NobodyElseIsInside(c, call.j); }
    } else if ForestAction(c, call).Some? && c.procs.pstate[p] != P.Zombie {
      NoZombieIsMade(c.procs, ForestAction(c, call).value, p);
    }
  }

  lemma NoZombieIsMade(s: P.State, a: P.Action, p: Pid)
    requires P.Enabled(s, a) && !a.ExitLast? && s.pstate[p] != P.Zombie
    ensures P.Next(s, a).pstate[p] != P.Zombie
  {
  }

  // --- who can act

  // A thread that has not exited is inside a wait, or can make any call; and those
  // inside a wait go on as soon as they are awake.
  lemma ThreadsCanAct(c: System, j: Id, x: Id, cpid: int, val: int, main: Option<Id>)
    requires Coupled(c)
    ensures j in c.threads.ptcbs && !c.threads.ptcbs[j].exited ==>
              Active(c, j) || j in c.threads.joins || j in c.procs.waits
    ensures Active(c, j) ==>
              && (Unused(c.threads, main) ==> Enabled(c, Exec(j, main)))
              && (x !in c.threads.ptcbs ==> Enabled(c, CreateThread(j, x)))
              && Enabled(c, StoreExit(j, val)) && Enabled(c, WaitChild(j, cpid)) && Enabled(c, ThreadJoin(j, x))
              && Enabled(c, ThreadDetach(j, x)) && Enabled(c, ThreadExit(j, val))
    ensures j in c.procs.waits && !c.procs.waits[j].asleep ==> Enabled(c, ResumeWait(j))
    ensures j in c.threads.joins && !c.threads.joins[j].asleep ==> Enabled(c, ResumeJoin(j))
  {
    assert T.JoinerOk(c.threads, j);
  }

  // --- exit values

  // The value of p's PCB changes only by an Exit of a thread of p.
  lemma ExitValueStep(c: System, call: Call, p: Pid)
    requires Coupled(c) && Enabled(c, call)
    ensures Next(c, call).procs.exitval[p] ==
            if call.StoreExit? && Curproc(c, call.j) == p then call.val else c.procs.exitval[p]
  {
    ForestActionEnabledIfAny(c, call);
  }

  ghost predicate StoresExit(c: System, call: Call, p: Pid)
  {
    call.StoreExit? && Coupled(c) && Active(c, call.j) && Curproc(c, call.j) == p
  }

  lemma {:induction false} ExitValueStays(states: seq<System>, calls: seq<Call>, i: nat, k: nat, p: Pid)
    requires Reached(states, calls, k) && i <= k
    requires forall m :: i <= m < k ==> !StoresExit(states[m], calls[m], p)
    ensures states[k].procs.exitval[p] == states[i].procs.exitval[p]
  {
    if i < k {
      assert Reached(states, calls, k - 1);
      ExitValueStays(states, calls, i, k - 1, p);
      RunsStayCoupledIff(states, calls, k - 1);
      assert Coupled(states[k - 1]) && StepAt(states, calls, k - 1);
      ExitValueStep(states[k - 1], calls[k - 1], p);
    }
  }

  // A WaitChild that answers p answers p's value.
  lemma WaitAnswersTheValue(c: System, call: Call, p: Pid)
    requires Coupled(c) && Enabled(c, call) && (call.WaitChild? || call.ResumeWait?)
    ensures P.Enabled(c.procs, ForestAction(c, call).value) && PR.InWait(ForestAction(c, call).value)
    ensures var answer := PR.AnswerOf(c.procs, ForestAction(c, call).value);
            answer.Returns? && answer.cpid == p ==> answer == P.Returns(p, Some(c.procs.exitval[p]))
  {
    ForestActionEnabled(c, call);
  }

  // What a thread of p passed to the last Exit is what WaitChild answers for p, to
  // a thread of its parent, in the end.
  lemma ExitValueReachesTheParent(states: seq<System>, calls: seq<Call>, i: nat, k: nat, p: Pid)
    requires Reached(states, calls, k) && i < k < |calls| && StoresExit(states[i], calls[i], p)
    requires forall m :: i < m < k ==> !StoresExit(states[m], calls[m], p)
    requires calls[k].WaitChild? || calls[k].ResumeWait?
    ensures Coupled(states[k]) && Enabled(states[k], calls[k])
    ensures var a := ForestAction(states[k], calls[k]).value;
            && P.Enabled(states[k].procs, a) && PR.InWait(a)
            && (PR.AnswerOf(states[k].procs, a).Returns? && PR.AnswerOf(states[k].procs, a).cpid == p ==>
                  PR.AnswerOf(states[k].procs, a) == P.Returns(p, Some(calls[i].val)))
  {
    RunsStayCoupledIff(states, calls, k);
    assert Coupled(states[i]) && StepAt(states, calls, i);
    assert Coupled(states[k]) && StepAt(states, calls, k);
    ExitValueStep(states[i], calls[i], p);
    ExitValueStays(states, calls, i + 1, k, p);
    WaitAnswersTheValue(states[k], calls[k], p);
  }
}
