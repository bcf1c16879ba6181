/**
 The process forest: process creation, reparenting, zombies and WaitChild, as a
 state machine whose steps are what one thread does with the kernel lock held.
 Any number of threads of a process can be inside WaitChild.
 */
module ProcModel {
  import opened Sequences

  const MAX_PROC: nat := 65536

  type Pid = p: nat | p < MAX_PROC witness 0

  type Tid = nat

  datatype PidState = Free | Alive | Zombie

  type PidLists = q: seq<seq<Pid>> | |q| == MAX_PROC witness seq(MAX_PROC, _ => [])
  type PidStates = q: seq<PidState> | |q| == MAX_PROC witness seq(MAX_PROC, _ => Free)
  type Parents = q: seq<Option<Pid>> | |q| == MAX_PROC witness seq(MAX_PROC, _ => None)
  type Counts = q: seq<nat> | |q| == MAX_PROC witness seq(MAX_PROC, _ => 0)
  type Values = q: seq<int> | |q| == MAX_PROC witness seq(MAX_PROC, _ => 0)

  // A WaitChild in progress, of a thread of pid: for one child, or for any.
  datatype Wait = Wait(pid: Pid, child: Option<Pid>, asleep: bool)

  // `rank`, `born` and `reaped` are history: the depth at which a process was
  // created, and how often each PCB was acquired and released.
  datatype State = State(
    pstate: PidStates,
    parent: Parents,            // of a free PCB: the next on pcb_freelist
    children: PidLists,
    exited: PidLists,
    exitval: Values,
    free: seq<Pid>,             // pcb_freelist
    count: int,                 // process_count
    waits: map<Tid, Wait>,
    rank: Counts,
    born: Counts,
    reaped: Counts)

  datatype Action =
    | Boot                                  // Exec, when there is no process yet
    | Exec(p: Pid)
    | StoreExit(p: Pid, val: int)           // sys_Exit's first step
    | ExitLast(p: Pid)                      // ThreadExit by the last thread of p
    | BeginWait(t: Tid, p: Pid, cpid: int)  // WaitChild by a thread of p; NOPROC asks for any child
    | Resume(t: Tid)                        // back from kernel_wait

  const NOPROC: int := -1

  // What a WaitChild answers, or that it sleeps.
  datatype Answer = Sleeps | Returns(cpid: int, status: Option<int>)

  function First(q: seq<Pid>): Option<Pid>
  {
    if q == [] then None else Some(q[0])
  }

  // --- process creation

  // acquire_PCB
  function Acquire(s: State): State
    requires s.free != []
  {
    var q := s.free[0];
    s.(pstate := s.pstate[q := Alive], free := s.free[1..], count := s.count + 1, born := s.born[q := s.born[q] + 1])
  }

  // Processes with pid <= 1 are parentless.
  function DoExec(s: State, p: Pid): State
  {
    if s.free == [] then
      s
    else
      var q, s1 := s.free[0], Acquire(s);
      if q <= 1 then
        s1.(parent := s.parent[q := None], rank := s.rank[q := 0])
      else
        s1.(parent := s.parent[q := Some(p)], children := s.children[p := [q] + s.children[p]],
            rank := s.rank[q := s.rank[p] + 1])
  }

  // --- the end of a process

  // kernel_broadcast(& PT[p].child_exit)
  function Broadcast(s: State, p: Pid): State
  {
    s.(waits := map t | t in s.waits :: if s.waits[t].pid == p then s.waits[t].(asleep := false) else s.waits[t])
  }

  function Adopted(parent: Parents, q: seq<Pid>): Parents
  {
    seq(MAX_PROC, c requires 0 <= c < MAX_PROC => if c in q then Some(1) else parent[c])
  }

  // The children of p become those of the initial process.
  function Reparent(s: State, p: Pid): State
  {
    s.(parent := Adopted(s.parent, s.children[p]),
       children := s.children[1 := Reverse(s.children[p]) + s.children[1]][p := []])
  }

  // So do those of them that have exited.
  function GiveExited(s: State, p: Pid): State
  {
    if s.exited[p] == [] then s
    else Broadcast(s.(exited := s.exited[1 := s.exited[1] + s.exited[p]][p := []]), 1)
  }

  function DoExit(s: State, p: Pid): State
    requires p != 1 ==> s.parent[p].Some?
  {
    if p == 1 then
      s.(pstate := s.pstate[p := Zombie])
    else
      var s1 := GiveExited(Reparent(s, p), p);
      var up := s.parent[p].value;
      Broadcast(s1.(exited := s1.exited[up := [p] + s1.exited[up]]), up).(pstate := s.pstate[p := Zombie])
  }

  // --- WaitChild

  // rlist_remove takes the node of c out of whatever list it is on.
  function Unlinked(lists: PidLists, c: Pid): PidLists
  {
    seq(MAX_PROC, p requires 0 <= p < MAX_PROC => Remove(lists[p], c))
  }

  // cleanup_zombie
  function Reap(s: State, c: Pid): State
  {
    s.(children := Unlinked(s.children, c), exited := Unlinked(s.exited, c),
       pstate := s.pstate[c := Free], parent := s.parent[c := First(s.free)],
       free := [c] + s.free, count := s.count - 1, reaped := s.reaped[c := s.reaped[c] + 1])
  }

  function Done(s: State, t: Tid): State
  {
    s.(waits := s.waits - {t})
  }

  function Asleep(s: State, t: Tid, p: Pid, child: Option<Pid>): State
  {
    s.(waits := s.waits[t := Wait(p, child, true)])
  }

  // The loop of wait_for_specific_child, up to its next wait, and what follows
  // the loop, for thread t of p.
  function WaitFor(s: State, t: Tid, p: Pid, c: Pid): (r: (State, Answer))
  {
    if s.pstate[c] == Alive then
      (Asleep(s, t, p, Some(c)), Sleeps)
    else
      (Reap(Done(s, t), c), Returns(c, Some(s.exitval[c])))
  }

  // The same for wait_for_any_child.
  function WaitAny(s: State, t: Tid, p: Pid): (r: (State, Answer))
  {
    if s.children[p] == [] then
      (Done(s, t), Returns(NOPROC, None))
    else if s.exited[p] == [] then
      (Asleep(s, t, p, None), Sleeps)
    else
      var c := s.exited[p][0];
      (Reap(Done(s, t), c), Returns(c, Some(s.exitval[c])))
  }

  // wait_for_specific_child's legality checks
  predicate LegalChild(s: State, p: Pid, cpid: int)
  {
    0 <= cpid < MAX_PROC && s.pstate[cpid] != Free && s.parent[cpid] == Some(p)
  }

  function StartWait(s: State, t: Tid, p: Pid, cpid: int): (r: (State, Answer))
  {
    if cpid == NOPROC then WaitAny(s, t, p)
    else if !LegalChild(s, p, cpid) then (s, Returns(NOPROC, None))
    else WaitFor(s, t, p, cpid)
  }

  function GoOn(s: State, t: Tid): (r: (State, Answer))
    requires t in s.waits
  {
    match s.waits[t].child
    case Some(c) => WaitFor(s, t, s.waits[t].pid, c)
    case None => WaitAny(s, t, s.waits[t].pid)
  }

  // --- the steps

  predicate NoWaiter(s: State, p: Pid)
  {
    forall t :: t in s.waits ==> s.waits[t].pid != p
  }

  // The last thread of a process is not inside WaitChild when it ends:
  // ProcThreads.LastThreadCanEnd.
  predicate Enabled(s: State, a: Action)
  {
    match a
    case Boot => s.pstate[1] == Free && s.free != []
    case Exec(p) => s.pstate[p] == Alive && p != 0
    case StoreExit(p, _) => s.pstate[p] == Alive && p != 0
    case ExitLast(p) => s.pstate[p] == Alive && p != 0 && NoWaiter(s, p) && (p != 1 ==> s.parent[p].Some?)
    case BeginWait(t, p, _) => s.pstate[p] == Alive && p != 0 && t !in s.waits
    case Resume(t) => t in s.waits && !s.waits[t].asleep
  }

  function Next(s: State, a: Action): State
    requires Enabled(s, a)
  {
    match a
    case Boot => DoExec(s, 0)
    case Exec(p) => DoExec(s, p)
    case StoreExit(p, val) => s.(exitval := s.exitval[p := val])
    case ExitLast(p) => DoExit(s, p)
    case BeginWait(t, p, cpid) => StartWait(s, t, p, cpid).0
    case Resume(t) => GoOn(s, t).0
  }

  // --- what the code takes for granted

  // The code asserts that a process that ends has no children left.  All but the
  // initial process have given theirs away.
  predicate EndsAlone(s: State, a: Action)
  {
    a == ExitLast(1) ==> s.children[1] == []
  }

  // The thread resumes a wait for a pid that would not pass the legality checks
  // again.
  predicate Stale(s: State, a: Action)
  {
    a.Resume? && a.t in s.waits && s.waits[a.t].child.Some?
    && !LegalChild(s, s.waits[a.t].pid, s.waits[a.t].child.value)
  }

  // A zombie that is not the caller's child is reaped all the same, and leaves
  // its true parent's lists.
  predicate Harmless(s: State, a: Action)
  {
    EndsAlone(s, a) && (Stale(s, a) ==> s.pstate[s.waits[a.t].child.value] == Zombie)
  }

  predicate Rightful(s: State, a: Action)
  {
    EndsAlone(s, a) && !Stale(s, a)
  }

  predicate Init(s: State)
  {
    && s.pstate == seq(MAX_PROC, _ => Free) && Untouched(s.free, 0)
    && s.parent == seq(MAX_PROC, i requires 0 <= i < MAX_PROC => if i < MAX_PROC - 1 then Some(i + 1) else None)
    && s.children == seq(MAX_PROC, _ => []) && s.exited == seq(MAX_PROC, _ => [])
    && s.count == 0 && s.waits == map[] && s.rank == seq(MAX_PROC, _ => 0)
    && s.born == seq(MAX_PROC, _ => 0) && s.reaped == seq(MAX_PROC, _ => 0)
  }

  ghost predicate Run(states: seq<State>, actions: seq<Action>)
  {
    && |states| == |actions| + 1 && Init(states[0])
    && forall i :: 0 <= i < |actions| ==> Enabled(states[i], actions[i]) && states[i + 1] == Next(states[i], actions[i])
  }

  // --- the invariant

  predicate IsChild(s: State, c: Pid, p: Pid)
  {
    c >= 2 && s.pstate[c] != Free && s.parent[c] == Some(p)
  }

  // The lists of p are its children, and those of them that have exited.
  ghost predicate ListsOk(s: State, p: Pid)
  {
    && Distinct(s.children[p]) && Distinct(s.exited[p])
    && forall c: Pid :: (c in s.children[p] <==> IsChild(s, c, p))
                        && (c in s.exited[p] <==> IsChild(s, c, p) && s.pstate[c] == Zombie)
  }

  predicate ParentOk(s: State, c: Pid)
  {
    if c < 2 then s.pstate[c] != Free ==> s.parent[c] == None
    else s.pstate[c] != Free ==>
      && s.parent[c].Some? && s.parent[c].value != 0
      && s.pstate[s.parent[c].value] == Alive
      && s.rank[s.parent[c].value] < s.rank[c]
  }

  function InUse(s: State): set<Pid>
  {
    set p: Pid | p < MAX_PROC && s.pstate[p] != Free
  }

  ghost predicate FreeOk(s: State)
  {
    && Distinct(s.free) && (forall p: Pid :: p in s.free <==> s.pstate[p] == Free)
    && (s.pstate[1] == Free ==> Untouched(s.free, 0) || Untouched(s.free, 1))
    && (s.pstate[0] == Free ==> Untouched(s.free, 0))
    && s.pstate[0] != Zombie && s.rank[1] == 0
  }

  // The free list runs through the parent pointers.
  predicate LinkOk(s: State, i: nat)
  {
    i < |s.free| ==> s.parent[s.free[i]] == First(s.free[i + 1..])
  }

  predicate InUseOk(s: State)
  {
    s.count == |InUse(s)|
  }

  // The free list as initialize_processes made it, from pid k on.
  predicate Untouched(q: seq<Pid>, k: nat)
  {
    |q| == MAX_PROC - k && forall i :: 0 <= i < |q| ==> q[i] == i + k
  }

  predicate CountOk(s: State, p: Pid)
  {
    && s.born[p] == s.reaped[p] + (if s.pstate[p] == Free then 0 else 1)
    && (p <= 1 ==> s.reaped[p] == 0)
  }

  // The process of a thread inside WaitChild is alive; asleep, the thread has
  // what it waits for to wait for.
  predicate WaitOk(s: State, t: Tid)
  {
    t in s.waits ==>
      var w := s.waits[t];
      && s.pstate[w.pid] == Alive && w.pid != 0
      && (match w.child
          case Some(c) => c >= 2 && (w.asleep ==> IsChild(s, c, w.pid) && s.pstate[c] == Alive)
          case None => w.asleep ==> s.children[w.pid] != [] && s.exited[w.pid] == [])
  }

  ghost predicate Inv(s: State)
  {
    && FreeOk(s) && InUseOk(s)
    && (forall i: nat {:trigger LinkOk(s, i)} :: LinkOk(s, i))
    && (forall p: Pid {:trigger ListsOk(s, p)} :: ListsOk(s, p))
    && (forall p: Pid {:trigger ParentOk(s, p)} :: ParentOk(s, p))
    && (forall p: Pid {:trigger CountOk(s, p)} :: CountOk(s, p))
    && (forall t: Tid {:trigger WaitOk(s, t)} :: WaitOk(s, t))
  }
}
