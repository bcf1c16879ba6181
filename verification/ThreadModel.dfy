/**
 Threads of a process: creation, join, detach and exit, as a state machine whose
 steps are what one thread does with the kernel lock held.

 A thread is known by its PTCB; the PTCB of a new thread is one never used
 before.  The list and the counter of a PCB outlive its process, as in the code.
 */
module ThreadModel {
  import opened Sequences

  type Id = nat
  type Pid = nat

  // `frees` is history: how often the PTCB was freed.
  datatype Ptcb = Ptcb(owner: Pid, exited: bool, detached: bool, exitval: int, refcount: int, frees: nat)

  // A thread inside ThreadJoin.
  datatype Joiner = Joiner(target: Id, asleep: bool)

  datatype State = State(
    ptcbs: map<Id, Ptcb>,
    lists: map<Pid, seq<Id>>,        // PTCB_List
    counters: map<Pid, int>,         // threadCounter
    joins: map<Id, Joiner>)

  datatype Action =
    | Spawn(p: Pid, x: Id)           // CreateThread, and the main thread of Exec
    | Join(j: Id, x: Id)
    | Resume(j: Id)                  // back from kernel_wait
    | Detach(j: Id, x: Id)
    | Exit(j: Id, val: int)

  datatype Answer = Sleeps | Returns(ret: int, exitval: int)

  function ListOf(s: State, p: Pid): seq<Id>
  {
    if p in s.lists then s.lists[p] else []
  }

  function CounterOf(s: State, p: Pid): int
  {
    if p in s.counters then s.counters[p] else 0
  }

  function SetPtcb(s: State, x: Id, t: Ptcb): State
  {
    s.(ptcbs := s.ptcbs[x := t])
  }

  // kernel_broadcast(&ptcb->exit_cv)
  function WakeJoiners(joins: map<Id, Joiner>, x: Id): map<Id, Joiner>
  {
    map j | j in joins :: if joins[j].target == x then joins[j].(asleep := false) else joins[j]
  }

  // A running thread.
  predicate Running(s: State, j: Id)
  {
    j in s.ptcbs && !s.ptcbs[j].exited && j !in s.joins
  }

  predicate CanJoin(s: State, j: Id, x: Id)
    requires j in s.ptcbs
  {
    x in ListOf(s, s.ptcbs[j].owner) && x in s.ptcbs && !s.ptcbs[x].detached && j != x
  }

  predicate CanDetach(s: State, j: Id, x: Id)
    requires j in s.ptcbs
  {
    x in ListOf(s, s.ptcbs[j].owner) && x in s.ptcbs && !s.ptcbs[x].exited
  }

  // What a join of x answers once x has exited or been detached.
  function Verdict(t: Ptcb): Answer
  {
    if t.detached then Returns(-1, 0) else if t.exited then Returns(0, t.exitval) else Sleeps
  }

  function DoSpawn(s: State, p: Pid, x: Id): State
  {
    s.(ptcbs := s.ptcbs[x := Ptcb(p, false, false, 0, 0, 0)],
       lists := s.lists[p := ListOf(s, p) + [x]], counters := s.counters[p := CounterOf(s, p) + 1])
  }

  // rlist_remove and free
  function Freed(s: State, x: Id): State
    requires x in s.ptcbs
  {
    var t := s.ptcbs[x];
    SetPtcb(s, x, t.(frees := t.frees + 1)).(lists := s.lists[t.owner := Remove(ListOf(s, t.owner), x)])
  }

  // j is out of the join of x, and not counted any more.
  function Uncounted(s: State, j: Id, x: Id): State
    requires x in s.ptcbs
  {
    SetPtcb(s, x, s.ptcbs[x].(refcount := s.ptcbs[x].refcount - 1)).(joins := s.joins - {j})
  }

  // ThreadJoin's loop, and what follows it, for a joiner that is counted.
  function JoinOn(s: State, j: Id, x: Id): State
    requires x in s.ptcbs
  {
    var t, s1 := s.ptcbs[x], Uncounted(s, j, x);
    if !t.detached && !t.exited then s.(joins := s.joins[j := Joiner(x, true)])
    else if !t.detached && s1.ptcbs[x].refcount == 0 then Freed(s1, x)
    else s1
  }

  function Counted(s: State, x: Id): State
    requires x in s.ptcbs
  {
    SetPtcb(s, x, s.ptcbs[x].(refcount := s.ptcbs[x].refcount + 1))
  }

  function Exited(s: State, j: Id, val: int): State
    requires j in s.ptcbs
  {
    var t := s.ptcbs[j];
    SetPtcb(s, j, t.(exited := true, exitval := val)).(counters := s.counters[t.owner := CounterOf(s, t.owner) - 1])
  }

  function DoExit(s: State, j: Id, val: int): State
    requires j in s.ptcbs
  {
    var s1 := Exited(s, j, val);
    if s.ptcbs[j].refcount != 0 then s1.(joins := WakeJoiners(s1.joins, j)) else s1
  }

  predicate Enabled(s: State, a: Action)
  {
    match a
    case Spawn(_, x) => x !in s.ptcbs
    case Join(j, _) => Running(s, j)
    case Resume(j) => j in s.joins && !s.joins[j].asleep && s.joins[j].target in s.ptcbs
    case Detach(j, _) => Running(s, j)
    case Exit(j, _) => Running(s, j)
  }

  function Next(s: State, a: Action): State
    requires Enabled(s, a)
  {
    match a
    case Spawn(p, x) => DoSpawn(s, p, x)
    case Join(j, x) => if CanJoin(s, j, x) then JoinOn(Counted(s, x), j, x) else s
    case Resume(j) => JoinOn(s, j, s.joins[j].target)
    case Detach(j, x) =>
      if CanDetach(s, j, x) then
        SetPtcb(s, x, s.ptcbs[x].(detached := true)).(joins := WakeJoiners(s.joins, x))
      else s
    case Exit(j, val) => DoExit(s, j, val)
  }

  // What a join answers.
  function AnswerOf(s: State, a: Action): Answer
    requires Enabled(s, a) && (a.Join? || a.Resume?)
  {
    match a
    case Join(j, x) => if CanJoin(s, j, x) then Verdict(s.ptcbs[x]) else Returns(-1, 0)
    case Resume(j) => Verdict(s.ptcbs[s.joins[j].target])
  }

  predicate Init(s: State)
  {
    s == State(map[], map[], map[], map[])
  }

  ghost predicate Run(states: seq<State>, actions: seq<Action>)
  {
    && |states| == |actions| + 1 && Init(states[0])
    && forall i :: 0 <= i < |actions| ==> Enabled(states[i], actions[i]) && states[i + 1] == Next(states[i], actions[i])
  }

  // --- the invariant

  function JoinersOf(s: State, x: Id): set<Id>
  {
    set j | j in s.joins && s.joins[j].target == x
  }

  // The threads of p that have not exited.
  function LiveThreads(s: State, p: Pid): set<Id>
  {
    set x | x in s.ptcbs && s.ptcbs[x].owner == p && !s.ptcbs[x].exited
  }

  predicate PtcbOk(s: State, x: Id)
  {
    x in s.ptcbs ==>
      var t := s.ptcbs[x];
      && t.refcount == |JoinersOf(s, x)|
      && t.frees <= 1
      && (t.frees == 1 ==> t.exited && !t.detached && JoinersOf(s, x) == {})
  }

  predicate JoinerOk(s: State, j: Id)
  {
    j in s.joins ==>
      var x := s.joins[j].target;
      && j in s.ptcbs && !s.ptcbs[j].exited && x in s.ptcbs && x != j
      && s.ptcbs[x].owner == s.ptcbs[j].owner
      && (s.joins[j].asleep ==> !s.ptcbs[x].exited && !s.ptcbs[x].detached)
  }

  ghost predicate ListOk(s: State, p: Pid)
  {
    && Distinct(ListOf(s, p))
    && forall x :: x in ListOf(s, p) <==> x in s.ptcbs && s.ptcbs[x].owner == p && s.ptcbs[x].frees == 0
  }

  predicate CounterOk(s: State, p: Pid)
  {
    CounterOf(s, p) == |LiveThreads(s, p)|
  }

  ghost predicate ProcOk(s: State, p: Pid)
  {
    ListOk(s, p) && CounterOk(s, p)
  }

  ghost predicate Inv(s: State)
  {
    && (forall x {:trigger PtcbOk(s, x)} :: PtcbOk(s, x))
    && (forall j {:trigger JoinerOk(s, j)} :: JoinerOk(s, j))
    && (forall p {:trigger ProcOk(s, p)} :: ProcOk(s, p))
  }
}
