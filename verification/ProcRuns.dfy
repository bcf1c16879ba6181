// What every run of the process forest keeps.
module ProcRuns {
  import opened Sequences
  import opened ProcModel
  import opened ProcInvariant

  lemma InitInv(s: State)
    requires Init(s)
    ensures Inv(s)
  {
    assert InUse(s) == {};
    forall p: Pid
      ensures p in s.free
    {
      assert s.free[p] == p;
    }
  }

  // The invariant holds all along a run if and only if the initial process never
  // ends with children left, and no thread resumes a wait for a pid that is free
  // by now or has become another's living child.
  lemma {:induction false} RunsKeepInvIff(states: seq<State>, actions: seq<Action>, n: nat)
    requires Run(states, actions) && n < |states|
    ensures (forall m :: 0 <= m <= n ==> Inv(states[m])) <==>
            (forall i :: 0 <= i < n ==> Harmless(states[i], actions[i]))
  {
    if n == 0 {
      InitInv(states[0]);
    } else {
      RunsKeepInvIff(states, actions, n - 1);
      var s, a := states[n - 1], actions[n - 1];
      if Inv(s) { NextKeepsInvIff(s, a); }
      assert states[n] == Next(s, a);
    }
  }

  ghost predicate Reached(states: seq<State>, actions: seq<Action>, n: nat)
  {
    Run(states, actions) && n < |states| && forall i :: 0 <= i < n ==> Harmless(states[i], actions[i])
  }

  lemma RunsKeepInv(states: seq<State>, actions: seq<Action>, n: nat)
    requires Reached(states, actions, n)
    ensures Inv(states[n])
  {
    RunsKeepInvIff(states, actions, n);
  }

  // --- the forest

  // The n-th ancestor of c.
  function Up(s: State, c: Pid, n: nat): Pid
    decreases n
  {
    if n == 0 then c else if s.parent[c].Some? then Up(s, s.parent[c].value, n - 1) else c
  }

  lemma {:induction false} ReachesInit(s: State, c: Pid)
    requires Inv(s) && c >= 2 && s.pstate[c] != Free
    ensures exists n :: 0 < n <= s.rank[c] && Up(s, c, n) == 1
    decreases s.rank[c]
  {
    assert ParentOk(s, c);
    var p := s.parent[c].value;
    if p == 1 {
      assert Up(s, c, 1) == Up(s, p, 0) == 1;
    } else {
      ReachesInit(s, p);
      var n :| 0 < n <= s.rank[p] && Up(s, p, n) == 1;
      assert Up(s, c, n + 1) == 1;
    }
  }

  // A process with pid >= 2 has a living parent, is in that parent's children
  // list once and in no other, is in its exited list just when it is a zombie,
  // and descends from the initial process, which is alive.
  lemma ProcessesFormATree(states: seq<State>, actions: seq<Action>, i: nat, c: Pid)
    requires Reached(states, actions, i) && c >= 2 && states[i].pstate[c] != Free
    ensures var s := states[i];
            && s.parent[c].Some? && s.pstate[s.parent[c].value] == Alive
            && (forall p: Pid :: multiset(s.children[p])[c] == if s.parent[c] == Some(p) then 1 else 0)
            && (forall p: Pid ::
                  multiset(s.exited[p])[c] == if s.parent[c] == Some(p) && s.pstate[c] == Zombie then 1 else 0)
            && (exists n :: Up(s, c, n) == 1) && s.pstate[1] == Alive
  {
    RunsKeepInv(states, actions, i);
    var s := states[i];
    ReachesInit(s, c);
    RootIsAlive(s, c);
    assert ParentOk(s, c);
    forall p: Pid
      ensures multiset(s.children[p])[c] == if s.parent[c] == Some(p) then 1 else 0
      ensures multiset(s.exited[p])[c] == if s.parent[c] == Some(p) && s.pstate[c] == Zombie then 1 else 0
    {
      assert ListsOk(s, p);
      assert c in s.children[p] <==> IsChild(s, c, p);
      OnceIn(s.children[p], c);
      OnceIn(s.exited[p], c);
    }
  }

  lemma {:induction false} OnceIn(q: seq<Pid>, c: Pid)
    requires Distinct(q)
    ensures multiset(q)[c] == if c in q then 1 else 0
  {
    if q != [] {
      assert q == [q[0]] + q[1..] && q[0] !in q[1..];
      OnceIn(q[1..], c);
    }
  }

  // The free list holds the FREE PCBs, each once, and process_count the others.
  lemma FreeListIsTheRest(states: seq<State>, actions: seq<Action>, i: nat)
    requires Reached(states, actions, i)
    ensures var s := states[i];
            && (forall p: Pid :: multiset(s.free)[p] == if s.pstate[p] == Free then 1 else 0)
            && s.count == |InUse(s)|
  {
    RunsKeepInv(states, actions, i);
    forall p: Pid
      ensures multiset(states[i].free)[p] == if states[i].pstate[p] == Free then 1 else 0
    {
      OnceIn(states[i].free, p);
    }
  }

  // A PCB is released once for each time it was acquired: a zombie is reaped at
  // most once.
  lemma ZombiesAreReapedOnce(states: seq<State>, actions: seq<Action>, i: nat, p: Pid)
    requires Reached(states, actions, i)
    ensures states[i].born[p] == states[i].reaped[p] + if states[i].pstate[p] == Free then 0 else 1
    ensures p <= 1 ==> states[i].reaped[p] == 0
  {
    RunsKeepInv(states, actions, i);
    assert CountOk(states[i], p);
  }

  // --- who can act

  // A thread of a living process can make any call; one inside WaitChild goes on
  // as soon as it is awake; and a process can end when nobody is inside.
  lemma CallersCanAct(s: State, t: Tid, p: Pid, cpid: int, val: int)
    requires Inv(s)
    ensures s.pstate[p] == Alive && p != 0 ==> Enabled(s, Exec(p)) && Enabled(s, StoreExit(p, val))
    ensures s.pstate[p] == Alive && p != 0 && t !in s.waits ==> Enabled(s, BeginWait(t, p, cpid))
    ensures s.pstate[p] == Alive && p != 0 && NoWaiter(s, p) ==> Enabled(s, ExitLast(p))
    ensures t in s.waits && !s.waits[t].asleep ==> Enabled(s, Resume(t))
  {
    assert ParentOk(s, p);
  }

  // --- WaitChild

  predicate InWait(a: Action)
  {
    a.BeginWait? || a.Resume?
  }

  // The process of the thread that waits.
  function Caller(s: State, a: Action): Pid
    requires Enabled(s, a) && InWait(a)
  {
    if a.Resume? then s.waits[a.t].pid else a.p
  }

  // The pid asked for, if one was.
  function Target(s: State, a: Action): Option<Pid>
    requires Enabled(s, a) && InWait(a)
  {
    if a.Resume? then s.waits[a.t].child
    else if 0 <= a.cpid < MAX_PROC then Some(a.cpid) else None
  }

  function AnswerOf(s: State, a: Action): Answer
    requires Enabled(s, a) && InWait(a)
  {
    if a.Resume? then GoOn(s, a.t).1 else StartWait(s, a.t, a.p, a.cpid).1
  }

  // A step of WaitChild as it is documented.  It sleeps when the process has
  // children it waits for and none of them has exited.  It answers with a zombie
  // child of the process, the one asked for if one was, and its exit value, and
  // frees it.  It answers NOPROC just when a pid was asked for that is no child,
  // or any child was and there is none.
  predicate AnswersRight(s: State, a: Action)
    requires Enabled(s, a) && InWait(a)
  {
    var s', p := Next(s, a), Caller(s, a);
    match AnswerOf(s, a)
    case Sleeps =>
      && a.t in s'.waits && s'.waits[a.t] == Wait(p, s'.waits[a.t].child, true) && s'.exited == s.exited
      && (match s'.waits[a.t].child
          case Some(c) => IsChild(s, c, p) && s.pstate[c] == Alive
          case None => s.exited[p] == [] && s.children[p] != [])
    case Returns(cpid, status) =>
      && a.t !in s'.waits
      && (if cpid == NOPROC then
            && s'.pstate == s.pstate && status == None
            && (if a.BeginWait? && a.cpid != NOPROC then !LegalChild(s, p, a.cpid) else s.children[p] == [])
          else
            && 0 <= cpid < MAX_PROC && IsChild(s, cpid, p) && s.pstate[cpid] == Zombie
            && (Target(s, a).Some? ==> cpid == Target(s, a).value)
            && status == Some(s.exitval[cpid])
            && s'.pstate == s.pstate[cpid := Free] && s'.free == [cpid] + s.free)
  }

  // A step of WaitChild is right if and only if it does not resume a wait for a
  // pid that would not pass the legality checks again.
  lemma WaitAnswersIff(s: State, a: Action)
    requires Inv(s) && Enabled(s, a) && InWait(a)
    ensures AnswersRight(s, a) <==> !Stale(s, a)
  {
    var p := Caller(s, a);
    assert ListsOk(s, p);
    if a.Resume? {
      assert WaitOk(s, a.t);
    } else if LegalChild(s, p, a.cpid) {
      LegalIsChild(s, p, a.cpid);
    }
    if s.exited[p] != [] {
      assert s.exited[p][0] in s.exited[p];
    }
  }

  // So along a run the invariant holds and every WaitChild answers right if and
  // only if the initial process never ends with children left and no thread
  // resumes a wait for a pid that is no longer its process's child.
  lemma {:induction false} RunsAnswerRightIff(states: seq<State>, actions: seq<Action>, n: nat)
    requires Run(states, actions) && n < |states|
    ensures (forall m :: 0 <= m <= n ==> Inv(states[m])) && AllRight(states, actions, n)
            <==> forall i :: 0 <= i < n ==> Rightful(states[i], actions[i])
  {
    RunsKeepInvIff(states, actions, n);
    if forall m :: 0 <= m <= n ==> Inv(states[m]) {
      forall i | 0 <= i < n && InWait(actions[i])
        ensures AnswersRight(states[i], actions[i]) <==> !Stale(states[i], actions[i])
      {
        WaitAnswersIff(states[i], actions[i]);
      }
      forall i | 0 <= i < n && AllRight(states, actions, n)
        ensures Rightful(states[i], actions[i])
      {
        assert Harmless(states[i], actions[i]);
      }
    } else {
      var i :| 0 <= i < n && !Harmless(states[i], actions[i]);
      assert !Rightful(states[i], actions[i]);
    }
  }

  predicate AllRight(states: seq<State>, actions: seq<Action>, n: nat)
    requires |states| == |actions| + 1 && n < |states|
    requires forall i :: 0 <= i < n ==> Enabled(states[i], actions[i])
  {
    forall i :: 0 <= i < n && InWait(actions[i]) ==> AnswersRight(states[i], actions[i])
  }

  // The only PCBs that a step releases are zombie children of the process inside
  // WaitChild, unless a stale wait releases what is not alive.
  lemma ReapsAChildIff(s: State, a: Action)
    requires Inv(s) && Enabled(s, a)
    ensures ReapsOnlyOwn(s, a) <==> (Stale(s, a) ==> s.pstate[s.waits[a.t].child.value] == Alive)
  {
    if Stale(s, a) {
      StaleReaps(s, a);
    } else if InWait(a) {
      RightReaps(s, a);
    }
  }

  ghost predicate ReapsOnlyOwn(s: State, a: Action)
    requires Enabled(s, a)
  {
    var s' := Next(s, a);
    s'.reaped == s.reaped ||
    (InWait(a) && exists c: Pid ::
       IsChild(s, c, Caller(s, a)) && s.pstate[c] == Zombie && s'.reaped == s.reaped[c := s.reaped[c] + 1])
  }

  lemma RightReaps(s: State, a: Action)
    requires Inv(s) && Enabled(s, a) && InWait(a) && !Stale(s, a)
    ensures ReapsOnlyOwn(s, a)
  {
    WaitAnswersIff(s, a);
    match AnswerOf(s, a)
    case Sleeps => assert Next(s, a).reaped == s.reaped;
    case Returns(c, _) =>
      if c != NOPROC {
        assert Next(s, a).reaped == s.reaped[c := s.reaped[c] + 1];
      }
  }

  lemma StaleReaps(s: State, a: Action)
    requires Inv(s) && Enabled(s, a) && Stale(s, a)
    ensures ReapsOnlyOwn(s, a) <==> s.pstate[s.waits[a.t].child.value] == Alive
  {
    var d := s.waits[a.t].child.value;
    assert WaitOk(s, a.t) && !IsChild(s, d, Caller(s, a));
    if s.pstate[d] != Alive {
      assert Next(s, a).reaped[d] == s.reaped[d] + 1;
    }
  }

  // A parent asleep in WaitChild has nothing to collect: no exit is missed.
  lemma SleepingParentsHaveNothingToCollect(states: seq<State>, actions: seq<Action>, i: nat, t: Tid)
    requires Reached(states, actions, i) && t in states[i].waits && states[i].waits[t].asleep
    ensures var s, p := states[i], states[i].waits[t].pid;
            match s.waits[t].child
            case Some(c) => IsChild(s, c, p) && s.pstate[c] == Alive
            case None => s.children[p] != [] && forall c: Pid :: IsChild(s, c, p) ==> s.pstate[c] == Alive
  {
    RunsKeepInv(states, actions, i);
    var s, p := states[i], states[i].waits[t].pid;
    assert WaitOk(s, t) && ListsOk(s, p);
    forall c: Pid | IsChild(s, c, p)
      ensures s.waits[t].child == None ==> s.pstate[c] == Alive
    {
      assert c in s.exited[p] <==> IsChild(s, c, p) && s.pstate[c] == Zombie;
    }
  }

  // Another thread's wait stays what it is, and is woken just by the end of a child
  // of its process, or by zombies that its process, the initial one, adopts.
  lemma WaitersStandBy(s: State, a: Action, t: Tid)
    requires Inv(s) && Enabled(s, a) && !(InWait(a) && a.t == t)
    ensures t in Next(s, a).waits <==> t in s.waits
    ensures t in s.waits ==>
              var w, w' := s.waits[t], Next(s, a).waits[t];
              && w'.pid == w.pid && w'.child == w.child
              && (w'.asleep <==> w.asleep && !Wakes(s, a, w.pid))
  {
    if a.ExitLast? {
      EndWakes(s, a.p, t);
    }
  }

  lemma EndWakes(s: State, p: Pid, t: Tid)
    requires Enabled(s, ExitLast(p))
    ensures t in Next(s, ExitLast(p)).waits <==> t in s.waits
    ensures t in s.waits ==>
              var w := s.waits[t];
              Next(s, ExitLast(p)).waits[t] == Wait(w.pid, w.child, w.asleep && !Wakes(s, ExitLast(p), w.pid))
  {
  }

  // The step broadcasts on child_exit of p.
  predicate Wakes(s: State, a: Action, p: Pid)
  {
    a.ExitLast? && a.p != 1 && (s.parent[a.p] == Some(p) || (p == 1 && s.exited[a.p] != []))
  }

  // --- who can wait beside whom

  // A thread of p that asks for cpid (or any) beside one that waits for what w says.
  predicate Apart(w: Wait, p: Pid, cpid: int)
  {
    w.pid == p ==> if w.child == None then cpid == NOPROC else cpid != NOPROC && cpid != w.child.value
  }

  // Those of a process that wait together ask for different children, or all
  // for any.
  predicate JoinsApart(s: State, a: Action)
  {
    a.BeginWait? ==> forall u :: u in s.waits ==> Apart(s.waits[u], a.p, a.cpid)
  }

  predicate Careful(s: State, a: Action)
  {
    JoinsApart(s, a) && EndsAlone(s, a)
  }

  function Asked(w: Wait): int
  {
    if w.child == None then NOPROC else w.child.value
  }

  predicate WaiterApart(s: State, t: Tid)
    requires t in s.waits
  {
    var w := s.waits[t];
    && (w.child.Some? ==> IsChild(s, w.child.value, w.pid))
    && forall u :: u in s.waits && u != t ==> Apart(s.waits[u], w.pid, Asked(w))
  }

  predicate WaitersApart(s: State)
  {
    forall t {:trigger WaiterApart(s, t)} :: t in s.waits ==> WaiterApart(s, t)
  }

  // Then what each of them asks for stays the process's child until it is done.
  lemma ApartStep(s: State, a: Action)
    requires Inv(s) && Enabled(s, a) && WaitersApart(s) && Careful(s, a)
    ensures Rightful(s, a) && WaitersApart(Next(s, a))
  {
    assert a.Resume? ==> WaiterApart(s, a.t);
    forall t | t in Next(s, a).waits
      ensures WaiterApart(Next(s, a), t)
    {
      assert t in s.waits ==> WaiterApart(s, t);
      match a
      case BeginWait(_, p, cpid) => StartApart(s, a.t, p, cpid, t);
      case Resume(_) => GoOnApart(s, a.t, t);
      case _ => ApartElsewhere(s, a, t);
    }
  }

  // The others inside WaitChild, seen by thread t of p that asks for cpid.
  predicate OthersApart(s: State, t: Tid, p: Pid, cpid: int)
  {
    forall u :: u in s.waits && u != t ==> Apart(s.waits[u], p, cpid)
  }

  lemma WaitForApart(s: State, t: Tid, p: Pid, c: Pid, u: Tid)
    requires Inv(s) && IsChild(s, c, p) && OthersApart(s, t, p, c)
    requires u in WaitFor(s, t, p, c).0.waits && (u != t ==> WaiterApart(s, u))
    ensures WaiterApart(WaitFor(s, t, p, c).0, u)
  {
  }

  lemma WaitAnyApart(s: State, t: Tid, p: Pid, u: Tid)
    requires Inv(s) && OthersApart(s, t, p, NOPROC)
    requires u in WaitAny(s, t, p).0.waits && (u != t ==> WaiterApart(s, u))
    ensures WaiterApart(WaitAny(s, t, p).0, u)
  {
    assert ListsOk(s, p);
    if s.exited[p] != [] {
      assert s.exited[p][0] in s.exited[p];
    }
  }

  lemma StartApart(s: State, t: Tid, p: Pid, cpid: int, u: Tid)
    requires Inv(s) && t !in s.waits && OthersApart(s, t, p, cpid)
    requires u in StartWait(s, t, p, cpid).0.waits && (u != t ==> WaiterApart(s, u))
    ensures WaiterApart(StartWait(s, t, p, cpid).0, u)
  {
    if cpid == NOPROC {
      WaitAnyApart(s, t, p, u);
    } else if LegalChild(s, p, cpid) {
      LegalIsChild(s, p, cpid);
      WaitForApart(s, t, p, cpid, u);
    }
  }

  lemma GoOnApart(s: State, t: Tid, u: Tid)
    requires Inv(s) && t in s.waits && WaitersApart(s) && u in GoOn(s, t).0.waits
    ensures WaiterApart(GoOn(s, t).0, u)
  {
    assert WaiterApart(s, t) && WaiterApart(s, u);
    match s.waits[t].child
    case Some(c) => WaitForApart(s, t, s.waits[t].pid, c, u);
    case None => WaitAnyApart(s, t, s.waits[t].pid, u);
  }

  // A child is its parent's until somebody reaps it or the parent ends.
  lemma ChildStays(s: State, a: Action, c: Pid, p: Pid)
    requires Inv(s) && Enabled(s, a) && !InWait(a) && IsChild(s, c, p) && a != ExitLast(p)
    ensures IsChild(Next(s, a), c, p)
  {
    if (a.Exec? || a.Boot?) && s.free != [] {
      NewPid(s);
    }
    if a.ExitLast? {
      assert ListsOk(s, a.p);
      assert c in s.children[a.p] <==> IsChild(s, c, a.p);
    }
  }

  // Outside WaitChild nothing happens to a wait but that it is woken.
  lemma WaitStays(s: State, a: Action, t: Tid)
    requires Enabled(s, a) && !InWait(a)
    ensures t in Next(s, a).waits <==> t in s.waits
    ensures t in s.waits ==>
              Next(s, a).waits[t].pid == s.waits[t].pid && Next(s, a).waits[t].child == s.waits[t].child
  {
  }

  lemma ApartElsewhere(s: State, a: Action, t: Tid)
    requires Inv(s) && Enabled(s, a) && !InWait(a) && t in Next(s, a).waits && (t in s.waits ==> WaiterApart(s, t))
    ensures WaiterApart(Next(s, a), t)
  {
    var s' := Next(s, a);
    WaitStays(s, a, t);
    forall u | u in s'.waits && u != t
      ensures Apart(s'.waits[u], s'.waits[t].pid, Asked(s'.waits[t]))
    {
      WaitStays(s, a, u);
    }
    if s.waits[t].child.Some? {
      ChildStays(s, a, s.waits[t].child.value, s.waits[t].pid);
    }
  }

  lemma {:induction false} WaitersStayApart(states: seq<State>, actions: seq<Action>, n: nat)
    requires Run(states, actions) && n < |states|
    requires forall i :: 0 <= i < n ==> Careful(states[i], actions[i])
    ensures Inv(states[n]) && WaitersApart(states[n])
    ensures forall i :: 0 <= i < n ==> Rightful(states[i], actions[i])
  {
    if n == 0 {
      InitInv(states[0]);
    } else {
      WaitersStayApart(states, actions, n - 1);
      var s, a := states[n - 1], actions[n - 1];
      ApartStep(s, a);
      NextKeepsInvIff(s, a);
    }
  }

  // As long as they do, every WaitChild answers right; so it is when no process
  // has two threads inside WaitChild.
  lemma WaitersApartAreRight(states: seq<State>, actions: seq<Action>, n: nat)
    requires Run(states, actions) && n < |states|
    requires forall i :: 0 <= i < n ==> Careful(states[i], actions[i])
    ensures forall i :: 0 <= i < n ==> Rightful(states[i], actions[i])
    ensures Inv(states[n]) && WaitersApart(states[n]) && AllRight(states, actions, n)
  {
    WaitersStayApart(states, actions, n);
    RunsAnswerRightIff(states, actions, n);
  }

  predicate AllAskForAny(s: State)
  {
    forall t :: t in s.waits ==> s.waits[t].child == None
  }

  lemma AnyStep(s: State, a: Action)
    requires Enabled(s, a) && AllAskForAny(s) && (a.BeginWait? ==> a.cpid == NOPROC)
    ensures !Stale(s, a) && AllAskForAny(Next(s, a))
  {
    if InWait(a) {
      assert Next(s, a) == WaitAny(s, a.t, Caller(s, a)).0;
    }
  }

  lemma {:induction false} AskersForAny(states: seq<State>, actions: seq<Action>, n: nat)
    requires Run(states, actions) && n < |states|
    requires forall i :: 0 <= i < n ==> actions[i].BeginWait? ==> actions[i].cpid == NOPROC
    ensures AllAskForAny(states[n]) && forall i :: 0 <= i < n ==> !Stale(states[i], actions[i])
  {
    if n > 0 {
      AskersForAny(states, actions, n - 1);
      AnyStep(states[n - 1], actions[n - 1]);
    }
  }

  // Threads that ask for any child need no care at all.
  lemma AnyWaitersAreRight(states: seq<State>, actions: seq<Action>, n: nat)
    requires Run(states, actions) && n < |states|
    requires forall i :: 0 <= i < n ==>
               EndsAlone(states[i], actions[i]) && (actions[i].BeginWait? ==> actions[i].cpid == NOPROC)
    ensures forall i :: 0 <= i < n ==> Rightful(states[i], actions[i])
    ensures Inv(states[n]) && AllAskForAny(states[n]) && AllRight(states, actions, n)
  {
    AskersForAny(states, actions, n);
    RunsAnswerRightIff(states, actions, n);
  }

  // --- Exec

  // Exec makes one process, a living child of the caller with no children of its
  // own, and moves nobody else in the forest; only with no PCB left it changes
  // nothing.
  lemma ExecMakesAChild(s: State, p: Pid, c: Pid, q: Pid)
    requires Inv(s) && s.pstate[p] == Alive && p != 0
    ensures Enabled(s, Exec(p))
    ensures var s' := Next(s, Exec(p));
            && (s.free == [] ==> s' == s)
            && (s.free != [] ==>
                  var made := s.free[0];
                  && s.pstate[made] == Free && s'.pstate == s.pstate[made := Alive]
                  && (IsChild(s', c, q) <==> IsChild(s, c, q) || (c == made && q == p))
                  && s'.children == s.children[p := [made] + s.children[p]]
                  && s'.exited == s.exited && s'.exitval == s.exitval && s'.waits == s.waits)
  {
    if s.free != [] {
      NewPid(s);
      NothingBeforeFirst(s, p);
      RootComesSecond(s, p);
    }
  }

  // While somebody other than the first process lives, so does the initial one.
  lemma RootComesSecond(s: State, p: Pid)
    requires Inv(s) && s.pstate[p] != Free && p != 0
    ensures s.pstate[0] != Free && s.pstate[1] != Free
  {
    NothingBeforeFirst(s, p);
    if p >= 2 { RootIsAlive(s, p); }
  }

  // A PCB that was just released is the next to be used.
  lemma LastReleasedIsNextUsed(s: State, c: Pid, p: Pid)
    requires Inv(s) && s.pstate[c] == Zombie && c >= 2
    ensures Reap(s, c).free == [c] + s.free && Reap(s, c).pstate[c] == Free
    ensures DoExec(Reap(s, c), p).pstate == s.pstate[c := Alive]
  {
  }

  // --- exit

  // The value of a process is that of the last Exit of it before it ended: it is
  // what the WaitChild that collects it answers.
  lemma {:induction false} ExitValueStays(states: seq<State>, actions: seq<Action>, i: nat, k: nat, c: Pid)
    requires Run(states, actions) && i <= k < |states|
    requires forall m :: i <= m < k ==> !(actions[m].StoreExit? && actions[m].p == c)
    ensures states[k].exitval[c] == states[i].exitval[c]
  {
    if i < k {
      ExitValueStays(states, actions, i, k - 1, c);
    }
  }

  lemma WaitAnswersTheExitValue(states: seq<State>, actions: seq<Action>, i: nat, k: nat, c: Pid, val: int)
    requires Run(states, actions) && i < k < |actions| && actions[i] == StoreExit(c, val)
    requires forall m :: i < m < k ==> !(actions[m].StoreExit? && actions[m].p == c)
    requires InWait(actions[k])
    requires AnswerOf(states[k], actions[k]).Returns? && AnswerOf(states[k], actions[k]).cpid == c
    ensures AnswerOf(states[k], actions[k]) == Returns(c, Some(val))
  {
    ExitValueStays(states, actions, i + 1, k, c);
  }

  // The lists of those who outlive p.  p comes first among the exited of its
  // parent, and the zombies it leaves come last among the initial process's; its
  // children come first among the initial process's, the last one foremost.
  lemma ListsAfterExit(s: State, p: Pid, q: Pid)
    requires Inv(s) && Enabled(s, ExitLast(p)) && p != 1 && q != p
    ensures var s', n := Next(s, ExitLast(p)), |s.children[p]|;
            && s'.exited[q] ==
                 (if q == s.parent[p].value then [p] else []) + s.exited[q] + (if q == 1 then s.exited[p] else [])
            && (q != 1 ==> s'.children[q] == s.children[q])
            && (q == 1 ==> |s'.children[1]| == n + |s.children[1]| && s'.children[1][n..] == s.children[1])
            && (q == 1 ==> forall k :: 0 <= k < n ==> s'.children[1][k] == s.children[p][n - 1 - k])
  {
    assert ParentOk(s, p);
  }

  // A process that waits for any child collects the one that exited last, but
  // for those it has adopted, and leaves the others as they were.
  lemma AnyChildIsTheFirst(s: State, t: Tid, p: Pid, q: Pid)
    requires Inv(s) && s.exited[p] != []
    ensures var r := WaitAny(s, t, p);
            && r.1 == Returns(s.exited[p][0], Some(s.exitval[s.exited[p][0]]))
            && r.0.exited[q] == if q == p then s.exited[p][1..] else s.exited[q]
  {
    var c := s.exited[p][0];
    assert ListsOk(s, p) && ListsOk(s, q) && c in s.exited[p];
    assert s.exited[p] == [c] + s.exited[p][1..];
    if q != p {
      assert c in s.exited[q] ==> IsChild(s, c, q);
      RemoveAbsent(s.exited[q], c);
    } else {
      assert Remove(s.exited[p], c) == s.exited[p][1..];
    }
  }

  // The children of a process that exits become the initial process's, those
  // that had exited on its exited list; the process itself is its parent's
  // zombie, and an awaiting parent wakes.
  lemma OrphansAreAdopted(s: State, p: Pid)
    requires Inv(s) && Enabled(s, ExitLast(p)) && p != 1
    ensures var s', up := Next(s, ExitLast(p)), s.parent[p].value;
            && (forall c: Pid :: IsChild(s, c, p) ==> IsChild(s', c, 1) && s'.pstate[c] == s.pstate[c])
            && (forall c: Pid :: IsChild(s, c, p) && s.pstate[c] == Zombie ==> c in s'.exited[1])
            && s'.children[p] == [] && s'.exited[p] == []
            && IsChild(s', p, up) && s'.pstate[p] == Zombie && p in s'.exited[up]
            && (forall t :: t in s'.waits && s'.waits[t].pid == up ==> !s'.waits[t].asleep)
            && s'.pstate[1] == Alive
  {
    var s' := Next(s, ExitLast(p));
    ExitKeepsIff(s, p);
    RootIsAlive(s, p);
    OrphanedKeeps(s, p);
    assert ListsOk(s, p) && ParentOk(s, p) && ListsOk(s', s.parent[p].value);
    forall c: Pid | IsChild(s, c, p)
      ensures IsChild(s', c, 1) && s'.pstate[c] == s.pstate[c]
      ensures s.pstate[c] == Zombie ==> c in s'.exited[1]
    {
      OrphanIsAdopted(s, p, c);
    }
    assert IsChild(s', p, s.parent[p].value);
  }

  lemma OrphanIsAdopted(s: State, p: Pid, c: Pid)
    requires Inv(s) && Enabled(s, ExitLast(p)) && p != 1 && IsChild(s, c, p)
    ensures var s' := Next(s, ExitLast(p));
            IsChild(s', c, 1) && s'.pstate[c] == s.pstate[c] && (s.pstate[c] == Zombie ==> c in s'.exited[1])
  {
    ExitKeepsIff(s, p);
    assert ListsOk(s, p) && ParentOk(s, p) && c in s.children[p] && c != p;
    assert ListsOk(Next(s, ExitLast(p)), 1);
  }

  // When the initial process has exited, no other is left but the idle one.
  lemma InitExitsLast(states: seq<State>, actions: seq<Action>, i: nat, c: Pid)
    requires Reached(states, actions, i) && states[i].pstate[1] == Zombie && c >= 2
    ensures states[i].pstate[c] == Free
  {
    RunsKeepInv(states, actions, i);
    if states[i].pstate[c] != Free {
      RootIsAlive(states[i], c);
    }
  }

  ghost predicate StaysOrIsReaped(s: State, s': State, c: Pid)
  {
    (s'.pstate[c] == Zombie && s'.exitval[c] == s.exitval[c] && s'.reaped[c] == s.reaped[c])
    || (s'.pstate[c] == Free && s'.reaped[c] == s.reaped[c] + 1)
  }

  lemma ZombieInWait(s: State, a: Action, c: Pid)
    requires Inv(s) && Enabled(s, a) && s.pstate[c] == Zombie && InWait(a)
    ensures StaysOrIsReaped(s, Next(s, a), c)
  {
    var p := Caller(s, a);
    assert ListsOk(s, p);
    if s.exited[p] != [] {
      assert s.exited[p][0] in s.exited[p];
    }
  }

  // A zombie keeps its exit value and its place until it is reaped.
  lemma ZombieStays(s: State, a: Action, c: Pid)
    requires Inv(s) && Enabled(s, a) && s.pstate[c] == Zombie
    ensures StaysOrIsReaped(s, Next(s, a), c)
  {
    if InWait(a) {
      ZombieInWait(s, a, c);
    } else if (a.Exec? || a.Boot?) && s.free != [] {
      NewPid(s);
    }
  }

  lemma {:induction false} ZombieWaitsToBeReaped(states: seq<State>, actions: seq<Action>, i: nat, j: nat, c: Pid)
    requires Reached(states, actions, j) && i <= j && states[i].pstate[c] == Zombie
    requires states[j].reaped[c] == states[i].reaped[c]
    ensures states[j].pstate[c] == Zombie && states[j].exitval[c] == states[i].exitval[c]
    decreases j - i
  {
    if i < j {
      RunsKeepInv(states, actions, i);
      ZombieStays(states[i], actions[i], c);
      ReapedGrows(states, actions, i + 1, j, c);
      ZombieWaitsToBeReaped(states, actions, i + 1, j, c);
    }
  }

  lemma {:induction false} ReapedGrows(states: seq<State>, actions: seq<Action>, i: nat, j: nat, c: Pid)
    requires Run(states, actions) && i <= j < |states|
    ensures states[i].reaped[c] <= states[j].reaped[c]
  {
    if i < j {
      ReapedGrows(states, actions, i, j - 1, c);
    }
  }
}
