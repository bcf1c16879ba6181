// What every run of joins, detaches and exits keeps.
module ThreadRuns {
  import opened Sequences
  import opened ThreadModel

  lemma SpawnThreads(s: State, p: Pid, x: Id, y: Id)
    requires Inv(s) && x !in s.ptcbs
    ensures PtcbOk(DoSpawn(s, p, x), y) && JoinerOk(DoSpawn(s, p, x), y)
  {
    assert PtcbOk(s, y) && JoinerOk(s, y);
    assert JoinersOf(DoSpawn(s, p, x), y) == JoinersOf(s, y);
    NobodyJoins(s, x);
  }

  lemma SpawnList(s: State, p: Pid, x: Id, q: Pid)
    requires Inv(s) && x !in s.ptcbs
    ensures ListOk(DoSpawn(s, p, x), q)
  {
    assert ProcOk(s, q) && x !in ListOf(s, q);
    AppendKeeps(ListOf(s, q), x);
  }

  lemma SpawnCounter(s: State, p: Pid, x: Id, q: Pid)
    requires Inv(s) && x !in s.ptcbs
    ensures CounterOk(DoSpawn(s, p, x), q)
  {
    assert ProcOk(s, q);
    assert LiveThreads(DoSpawn(s, p, x), q) == if q == p then LiveThreads(s, q) + {x} else LiveThreads(s, q);
  }

  lemma AppendKeeps(q: seq<Id>, x: Id)
    requires Distinct(q) && x !in q
    ensures Distinct(q + [x]) && forall y :: y in q + [x] <==> y in q || y == x
  {
  }

  lemma SpawnKeeps(s: State, p: Pid, x: Id)
    requires Inv(s) && x !in s.ptcbs
    ensures Inv(DoSpawn(s, p, x))
  {
    forall y
      ensures PtcbOk(DoSpawn(s, p, x), y) && JoinerOk(DoSpawn(s, p, x), y)
    {
      SpawnThreads(s, p, x, y);
    }
    forall q
      ensures ProcOk(DoSpawn(s, p, x), q)
    {
      SpawnList(s, p, x, q);
      SpawnCounter(s, p, x, q);
    }
  }

  // Nobody is inside a join of a thread that does not exist.
  lemma NobodyJoins(s: State, x: Id)
    requires Inv(s) && x !in s.ptcbs
    ensures JoinersOf(s, x) == {} && x !in s.joins
  {
    assert JoinerOk(s, x);
    forall j | j in s.joins
      ensures s.joins[j].target != x
    {
      assert JoinerOk(s, j);
    }
  }

  // --- join

  // A joiner that is counted but has not gone to sleep yet.
  ghost predicate Joining(s: State, j: Id, x: Id)
  {
    && x in s.ptcbs && j in s.ptcbs && j != x && !s.ptcbs[j].exited && s.ptcbs[x].owner == s.ptcbs[j].owner
    && s.ptcbs[x].frees == 0
    && Inv(s.(joins := s.joins[j := Joiner(x, false)]))
  }

  lemma SleepKeeps(s: State, j: Id, x: Id)
    requires Joining(s, j, x) && !s.ptcbs[x].detached && !s.ptcbs[x].exited
    ensures Inv(s.(joins := s.joins[j := Joiner(x, true)]))
  {
    var s0, s' := s.(joins := s.joins[j := Joiner(x, false)]), s.(joins := s.joins[j := Joiner(x, true)]);
    forall y
      ensures PtcbOk(s', y) && JoinerOk(s', y)
    {
      assert PtcbOk(s0, y) && JoinerOk(s0, y);
      assert JoinersOf(s', y) == JoinersOf(s0, y);
    }
    forall q
      ensures ProcOk(s', q)
    {
      assert ProcOk(s0, q);
      assert LiveThreads(s', q) == LiveThreads(s0, q);
    }
  }

  lemma LeavePtcb(s: State, j: Id, x: Id, y: Id)
    requires Joining(s, j, x) && (s.ptcbs[x].detached || s.ptcbs[x].exited)
    ensures PtcbOk(JoinOn(s, j, x), y)
  {
    var s0, s' := s.(joins := s.joins[j := Joiner(x, false)]), JoinOn(s, j, x);
    assert PtcbOk(s0, y);
    assert JoinersOf(s', y) == if y == x then JoinersOf(s0, y) - {j} else JoinersOf(s0, y);
    assert j in JoinersOf(s0, x);
  }

  lemma LeaveJoiner(s: State, j: Id, x: Id, y: Id)
    requires Joining(s, j, x) && (s.ptcbs[x].detached || s.ptcbs[x].exited)
    ensures JoinerOk(JoinOn(s, j, x), y)
  {
    assert JoinerOk(s.(joins := s.joins[j := Joiner(x, false)]), y);
  }

  lemma LeaveProc(s: State, j: Id, x: Id, q: Pid)
    requires Joining(s, j, x) && (s.ptcbs[x].detached || s.ptcbs[x].exited)
    ensures ProcOk(JoinOn(s, j, x), q)
  {
    var s0 := s.(joins := s.joins[j := Joiner(x, false)]);
    assert ProcOk(s0, q) && ListOf(s0, q) == ListOf(s, q);
    RemoveKeeps(ListOf(s, q), x);
    assert LiveThreads(JoinOn(s, j, x), q) == LiveThreads(s0, q);
  }

  lemma LeaveKeeps(s: State, j: Id, x: Id)
    requires Joining(s, j, x) && (s.ptcbs[x].detached || s.ptcbs[x].exited)
    ensures Inv(JoinOn(s, j, x))
  {
    forall y
      ensures PtcbOk(JoinOn(s, j, x), y) && JoinerOk(JoinOn(s, j, x), y)
    {
      LeavePtcb(s, j, x, y);
      LeaveJoiner(s, j, x, y);
    }
    forall q
      ensures ProcOk(JoinOn(s, j, x), q)
    {
      LeaveProc(s, j, x, q);
    }
  }

  lemma JoinOnKeeps(s: State, j: Id, x: Id)
    requires Joining(s, j, x)
    ensures Inv(JoinOn(s, j, x))
  {
    if !s.ptcbs[x].detached && !s.ptcbs[x].exited {
      SleepKeeps(s, j, x);
    } else {
      LeaveKeeps(s, j, x);
    }
  }

  // s with x's count raised and j inside its join.
  function Inside(s: State, j: Id, x: Id): State
    requires x in s.ptcbs
  {
    Counted(s, x).(joins := s.joins[j := Joiner(x, false)])
  }

  lemma CountedThreads(s: State, j: Id, x: Id, y: Id)
    requires Inv(s) && Running(s, j) && x in s.ptcbs && j != x
    requires s.ptcbs[x].owner == s.ptcbs[j].owner && s.ptcbs[x].frees == 0
    ensures PtcbOk(Inside(s, j, x), y) && JoinerOk(Inside(s, j, x), y)
  {
    assert PtcbOk(s, y) && JoinerOk(s, y);
    assert JoinersOf(Inside(s, j, x), y) == if y == x then JoinersOf(s, y) + {j} else JoinersOf(s, y);
  }

  lemma CountedProc(s: State, j: Id, x: Id, q: Pid)
    requires Inv(s) && x in s.ptcbs
    ensures ProcOk(Inside(s, j, x), q)
  {
    assert ProcOk(s, q);
    assert LiveThreads(Inside(s, j, x), q) == LiveThreads(s, q);
  }

  lemma CountedIsJoining(s: State, j: Id, x: Id)
    requires Inv(s) && Running(s, j) && CanJoin(s, j, x)
    ensures Joining(Counted(s, x), j, x)
  {
    assert ProcOk(s, s.ptcbs[j].owner);
    forall y
      ensures PtcbOk(Inside(s, j, x), y) && JoinerOk(Inside(s, j, x), y)
    {
      CountedThreads(s, j, x, y);
    }
    forall q
      ensures ProcOk(Inside(s, j, x), q)
    {
      CountedProc(s, j, x, q);
    }
    assert Counted(s, x).(joins := Counted(s, x).joins[j := Joiner(x, false)]) == Inside(s, j, x);
  }

  lemma ResumedIsJoining(s: State, j: Id)
    requires Inv(s) && j in s.joins && !s.joins[j].asleep
    ensures Joining(s, j, s.joins[j].target)
  {
    var x := s.joins[j].target;
    assert JoinerOk(s, j) && PtcbOk(s, x) && j in JoinersOf(s, x);
    assert s.joins[j := Joiner(x, false)] == s.joins;
  }

  // --- detach and exit

  lemma DetachKeeps(s: State, x: Id)
    requires Inv(s) && x in s.ptcbs && !s.ptcbs[x].exited
    ensures Inv(SetPtcb(s, x, s.ptcbs[x].(detached := true)).(joins := WakeJoiners(s.joins, x)))
  {
    var s' := SetPtcb(s, x, s.ptcbs[x].(detached := true)).(joins := WakeJoiners(s.joins, x));
    forall y
      ensures PtcbOk(s', y) && JoinerOk(s', y)
    {
      assert PtcbOk(s, y) && JoinerOk(s, y);
      assert JoinersOf(s', y) == JoinersOf(s, y);
    }
    forall q
      ensures ProcOk(s', q)
    {
      assert ProcOk(s, q);
      assert LiveThreads(s', q) == LiveThreads(s, q);
    }
  }

  lemma ExitThreads(s: State, j: Id, val: int, y: Id)
    requires Inv(s) && Running(s, j)
    ensures PtcbOk(DoExit(s, j, val), y) && JoinerOk(DoExit(s, j, val), y)
  {
    assert PtcbOk(s, j) && PtcbOk(s, y) && JoinerOk(s, y);
    assert JoinersOf(DoExit(s, j, val), y) == JoinersOf(s, y);
    assert s.ptcbs[j].refcount == 0 ==> y !in JoinersOf(s, j);
  }

  lemma ExitList(s: State, j: Id, val: int, q: Pid)
    requires Inv(s) && Running(s, j)
    ensures ListOk(DoExit(s, j, val), q)
  {
    assert ProcOk(s, q);
  }

  lemma ExitCounter(s: State, j: Id, val: int, q: Pid)
    requires Inv(s) && Running(s, j)
    ensures CounterOk(DoExit(s, j, val), q)
  {
    var s', p := DoExit(s, j, val), s.ptcbs[j].owner;
    assert ProcOk(s, q);
    if q == p {
      assert LiveThreads(s', q) == LiveThreads(s, q) - {j} && j in LiveThreads(s, q);
    } else {
      assert LiveThreads(s', q) == LiveThreads(s, q);
    }
  }

  lemma ExitKeeps(s: State, j: Id, val: int)
    requires Inv(s) && Running(s, j)
    ensures Inv(DoExit(s, j, val))
  {
    forall y
      ensures PtcbOk(DoExit(s, j, val), y) && JoinerOk(DoExit(s, j, val), y)
    {
      ExitThreads(s, j, val, y);
    }
    forall q
      ensures ProcOk(DoExit(s, j, val), q)
    {
      ExitList(s, j, val, q);
      ExitCounter(s, j, val, q);
    }
  }

  lemma NextKeepsInv(s: State, a: Action)
    requires Inv(s) && Enabled(s, a)
    ensures Inv(Next(s, a))
  {
    match a
    case Spawn(p, x) => SpawnKeeps(s, p, x);
    case Join(j, x) =>
      if CanJoin(s, j, x) {
        CountedIsJoining(s, j, x);
        JoinOnKeeps(Counted(s, x), j, x);
      }
    case Resume(j) =>
      ResumedIsJoining(s, j);
      JoinOnKeeps(s, j, s.joins[j].target);
    case Detach(j, x) => if CanDetach(s, j, x) { DetachKeeps(s, x); }
    case Exit(j, val) => ExitKeeps(s, j, val);
  }

  lemma {:induction false} RunsKeepInv(states: seq<State>, actions: seq<Action>, i: nat)
    requires Run(states, actions) && i < |states|
    ensures Inv(states[i])
  {
    if i == 0 {
      var s := states[0];
      assert forall x :: PtcbOk(s, x) && JoinerOk(s, x);
      forall p
        ensures ProcOk(s, p)
      {
        assert LiveThreads(s, p) == {};
      }
    } else {
      RunsKeepInv(states, actions, i - 1);
      NextKeepsInv(states[i - 1], actions[i - 1]);
    }
  }

  // --- the counts

  // refcount is the number of threads inside a join of x; threadCounter is the
  // number of threads on PTCB_List that have not exited, each there once.
  lemma CountsAreExact(states: seq<State>, actions: seq<Action>, i: nat, x: Id, p: Pid)
    requires Run(states, actions) && i < |states|
    ensures x in states[i].ptcbs ==> states[i].ptcbs[x].refcount == |JoinersOf(states[i], x)|
    ensures var s := states[i];
            && CounterOf(s, p) == |set y | y in ListOf(s, p) && y in s.ptcbs && !s.ptcbs[y].exited|
            && Distinct(ListOf(s, p))
            && forall y :: y in LiveThreads(s, p) ==> y in ListOf(s, p)
  {
    RunsKeepInv(states, actions, i);
    var s := states[i];
    assert PtcbOk(s, x) && ProcOk(s, p);
    forall y | y in LiveThreads(s, p)
      ensures y in ListOf(s, p)
    {
      assert PtcbOk(s, y);
    }
    assert LiveThreads(s, p) == set y | y in ListOf(s, p) && y in s.ptcbs && !s.ptcbs[y].exited;
  }

  // --- the verdict

  // Nobody sleeps on a thread that has exited or been detached.
  lemma JoinersAreWoken(states: seq<State>, actions: seq<Action>, i: nat, j: Id)
    requires Run(states, actions) && i < |states| && j in states[i].joins
    ensures var s, x := states[i], states[i].joins[j].target;
            x in s.ptcbs && (Verdict(s.ptcbs[x]) != Sleeps ==> Enabled(s, Resume(j)))
  {
    RunsKeepInv(states, actions, i);
    assert JoinerOk(states[i], j);
  }

  // The first of exit and detach decides, for good.
  lemma VerdictStays(s: State, a: Action, x: Id)
    requires Enabled(s, a) && x in s.ptcbs
    ensures x in Next(s, a).ptcbs
    ensures Verdict(s.ptcbs[x]) != Sleeps ==> Verdict(Next(s, a).ptcbs[x]) == Verdict(s.ptcbs[x])
  {
  }

  lemma {:induction false} VerdictIsFinal(states: seq<State>, actions: seq<Action>, i: nat, k: nat, x: Id)
    requires Run(states, actions) && i <= k < |states| && x in states[i].ptcbs && Verdict(states[i].ptcbs[x]) != Sleeps
    ensures x in states[k].ptcbs && Verdict(states[k].ptcbs[x]) == Verdict(states[i].ptcbs[x])
  {
    if i < k {
      VerdictIsFinal(states, actions, i, k - 1, x);
      VerdictStays(states[k - 1], actions[k - 1], x);
    }
  }

  // The step of a counted join of x.
  predicate CountedJoin(s: State, a: Action, x: Id)
  {
    match a
    case Join(j, y) => y == x && Running(s, j) && CanJoin(s, j, x)
    case Resume(j) => j in s.joins && s.joins[j].target == x
    case _ => false
  }

  // All joins of a thread that get as far as waiting for it answer alike: all 0
  // with the same exit value, or all -1.
  lemma JoinersAgree(states: seq<State>, actions: seq<Action>, i: nat, k: nat, x: Id)
    requires Run(states, actions) && i <= k < |actions|
    requires CountedJoin(states[i], actions[i], x) && AnswerOf(states[i], actions[i]) != Sleeps
    requires CountedJoin(states[k], actions[k], x) && AnswerOf(states[k], actions[k]) != Sleeps
    ensures AnswerOf(states[i], actions[i]) == AnswerOf(states[k], actions[k])
  {
    VerdictIsFinal(states, actions, i, k, x);
  }

  // A join that waits is decided by what its target did: 0 with the value it
  // exited with, or -1 if it was detached before that.
  lemma JoinAnswers(s: State, a: Action, x: Id)
    requires Inv(s) && Enabled(s, a) && CountedJoin(s, a, x)
    ensures x in s.ptcbs
    ensures match AnswerOf(s, a)
            case Sleeps =>
              && !s.ptcbs[x].exited && !s.ptcbs[x].detached
              && a.j in Next(s, a).joins && Next(s, a).joins[a.j].asleep
            case Returns(ret, val) =>
              && a.j !in Next(s, a).joins
              && (ret == -1 <==> s.ptcbs[x].detached)
              && (ret == 0 <==> s.ptcbs[x].exited && !s.ptcbs[x].detached)
              && (ret == 0 ==> val == s.ptcbs[x].exitval)
  {
  }

  // A running thread can make any call, and a joiner goes on once it is awake.
  lemma ThreadsCanAct(s: State, j: Id, x: Id, val: int)
    requires Inv(s)
    ensures Running(s, j) ==> Enabled(s, Join(j, x)) && Enabled(s, Detach(j, x)) && Enabled(s, Exit(j, val))
    ensures j in s.joins && !s.joins[j].asleep ==> Enabled(s, Resume(j))
    ensures j in s.ptcbs && !s.ptcbs[j].exited ==> Running(s, j) || j in s.joins
  {
    assert JoinerOk(s, j);
  }

  // Another thread's join stays what it is, and is woken just by the exit or a
  // detach of the thread it waits for.
  lemma JoinersStandBy(s: State, a: Action, j: Id)
    requires Inv(s) && Enabled(s, a) && !((a.Join? || a.Resume?) && a.j == j)
    ensures j in Next(s, a).joins <==> j in s.joins
    ensures j in s.joins ==>
              var w, w' := s.joins[j], Next(s, a).joins[j];
              && w'.target == w.target
              && (w'.asleep <==> w.asleep && !(a.Exit? && a.j == w.target) && !Detaches(s, a, w.target))
  {
    assert JoinerOk(s, j);
    if j in s.joins {
      assert PtcbOk(s, s.joins[j].target) && j in JoinersOf(s, s.joins[j].target);
    }
    if a.Detach? { CanDetachIff(s, a.j, a.x); }
  }

  // --- what exit, detach and join do, over whole runs

  // j makes x detached: a thread of the same process, that has not exited.
  predicate Detaches(s: State, a: Action, x: Id)
  {
    a.Detach? && a.x == x && a.j in s.ptcbs && x in s.ptcbs && !s.ptcbs[x].exited
    && s.ptcbs[x].owner == s.ptcbs[a.j].owner
  }

  // ThreadDetach succeeds just for such a thread.
  lemma CanDetachIff(s: State, j: Id, x: Id)
    requires Inv(s) && Running(s, j)
    ensures CanDetach(s, j, x) <==> Detaches(s, Detach(j, x), x)
  {
    assert ProcOk(s, s.ptcbs[j].owner) && PtcbOk(s, x);
  }

  // ThreadJoin waits for a thread of the same process other than the caller, that
  // is not detached and not freed; for any other it answers -1 and changes nothing.
  lemma CanJoinIff(s: State, j: Id, x: Id)
    requires Inv(s) && Running(s, j)
    ensures CanJoin(s, j, x) <==>
            && x in s.ptcbs && x != j && s.ptcbs[x].owner == s.ptcbs[j].owner
            && !s.ptcbs[x].detached && s.ptcbs[x].frees == 0
    ensures !CanJoin(s, j, x) ==> AnswerOf(s, Join(j, x)) == Returns(-1, 0) && Next(s, Join(j, x)) == s
  {
    assert ProcOk(s, s.ptcbs[j].owner);
  }

  // One step makes of x what it says and nothing else.
  lemma FlagsStep(s: State, a: Action, x: Id)
    requires Inv(s) && Enabled(s, a)
    ensures x in Next(s, a).ptcbs <==> x in s.ptcbs || (a.Spawn? && a.x == x)
    ensures x in s.ptcbs ==>
              var t, t' := s.ptcbs[x], Next(s, a).ptcbs[x];
              && t'.owner == t.owner
              && (t'.exited <==> t.exited || (a.Exit? && a.j == x))
              && (t'.detached <==> t.detached || Detaches(s, a, x))
              && t'.exitval == (if a.Exit? && a.j == x then a.val else t.exitval)
    ensures a.Spawn? && a.x == x ==>
              var t' := Next(s, a).ptcbs[x];
              t'.owner == a.p && !t'.exited && !t'.detached && ListOf(Next(s, a), a.p) == ListOf(s, a.p) + [x]
  {
    if a.Detach? { CanDetachIff(s, a.j, a.x); }
  }

  ghost predicate DetachedBefore(states: seq<State>, actions: seq<Action>, k: nat, x: Id)
    requires |states| == |actions| + 1 && k < |states|
  {
    exists i :: 0 <= i < k && Detaches(states[i], actions[i], x)
  }

  ghost predicate ExitedBefore(actions: seq<Action>, k: nat, x: Id)
    requires k <= |actions|
  {
    exists i :: 0 <= i < k && actions[i].Exit? && actions[i].j == x
  }

  // A PTCB is marked by exactly the exit of its thread, and by the detaches of it.
  lemma {:induction false} MarksAreEarned(states: seq<State>, actions: seq<Action>, k: nat, x: Id)
    requires Run(states, actions) && k < |states|
    ensures x in states[k].ptcbs ==>
              && (states[k].ptcbs[x].exited <==> ExitedBefore(actions, k, x))
              && (states[k].ptcbs[x].detached <==> DetachedBefore(states, actions, k, x))
    ensures x !in states[k].ptcbs ==> !ExitedBefore(actions, k, x) && !DetachedBefore(states, actions, k, x)
  {
    if k > 0 {
      RunsKeepInv(states, actions, k - 1);
      MarksAreEarned(states, actions, k - 1, x);
      var s, a := states[k - 1], actions[k - 1];
      FlagsStep(s, a, x);
      assert ExitedBefore(actions, k, x) <==> ExitedBefore(actions, k - 1, x) || (a.Exit? && a.j == x);
      assert DetachedBefore(states, actions, k, x) <==> DetachedBefore(states, actions, k - 1, x) || Detaches(s, a, x);
    }
  }

  // A join that waited answers the value its target passed to ThreadExit, unless
  // the target was detached before it exited.
  lemma JoinAnswersTheExitValue(states: seq<State>, actions: seq<Action>, i: nat, k: nat, x: Id, val: int)
    requires Run(states, actions) && i < k < |actions| && actions[i] == Exit(x, val)
    requires CountedJoin(states[k], actions[k], x) && !DetachedBefore(states, actions, i, x)
    ensures AnswerOf(states[k], actions[k]) == Returns(0, val)
  {
    MarksAreEarned(states, actions, i, x);
    VerdictIsFinal(states, actions, i + 1, k, x);
  }

  // It answers -1 if and only if its target has been detached, and sleeps if and
  // only if its target has neither been detached nor exited.
  lemma JoinVerdictIff(states: seq<State>, actions: seq<Action>, k: nat, x: Id)
    requires Run(states, actions) && k < |actions| && CountedJoin(states[k], actions[k], x)
    ensures AnswerOf(states[k], actions[k]) == Returns(-1, 0) <==> DetachedBefore(states, actions, k, x)
    ensures AnswerOf(states[k], actions[k]) == Sleeps <==>
            !DetachedBefore(states, actions, k, x) && !ExitedBefore(actions, k, x)
  {
    RunsKeepInv(states, actions, k);
    MarksAreEarned(states, actions, k, x);
    JoinAnswers(states[k], actions[k], x);
  }

  // --- freeing

  lemma JoinFrees(s: State, j: Id, x: Id)
    requires x in s.ptcbs
    ensures var t, s' := s.ptcbs[x], JoinOn(s, j, x);
            && x in s'.ptcbs
            && s'.ptcbs[x].frees == t.frees + if t.exited && !t.detached && t.refcount == 1 then 1 else 0
  {
  }

  lemma OthersFreeNobody(s: State, a: Action, x: Id)
    requires Enabled(s, a) && x in s.ptcbs && !CountedJoin(s, a, x)
    ensures x in Next(s, a).ptcbs && Next(s, a).ptcbs[x].frees == s.ptcbs[x].frees
  {
  }

  // The last joiner is the one whose leaving makes the count 0.
  lemma LastIsCountedLast(s: State, a: Action, x: Id)
    requires Inv(s) && Enabled(s, a) && x in s.ptcbs && CountedJoin(s, a, x)
    ensures JoinersOf(s, x) <= {a.j} <==> s.ptcbs[x].refcount + (if a.Join? then 1 else 0) == 1
  {
    assert PtcbOk(s, x);
    var js := JoinersOf(s, x);
    if a.Resume? {
      assert a.j in js && js == {a.j} + (js - {a.j});
    } else {
      assert a.j !in js;
    }
  }

  // A PTCB is freed by a join that answers 0, when it is the last one inside.
  lemma LastJoinerFrees(s: State, a: Action, x: Id)
    requires Inv(s) && Enabled(s, a) && x in s.ptcbs
    ensures var s' := Next(s, a);
            && x in s'.ptcbs
            && s'.ptcbs[x].frees == s.ptcbs[x].frees + if FreesPtcb(s, a, x) then 1 else 0
  {
    if CountedJoin(s, a, x) {
      LastIsCountedLast(s, a, x);
      JoinFrees(if a.Join? then Counted(s, x) else s, a.j, x);
    } else {
      OthersFreeNobody(s, a, x);
    }
  }

  // A join of an exited, undetached thread, with nobody else inside.
  predicate FreesPtcb(s: State, a: Action, x: Id)
    requires Enabled(s, a) && x in s.ptcbs
  {
    CountedJoin(s, a, x) && s.ptcbs[x].exited && !s.ptcbs[x].detached && JoinersOf(s, x) <= {a.j}
  }

  // It is freed at most once, after an exit that no detach came before, and
  // nobody is inside a join of it then or later.
  lemma FreedOnceAndUnused(states: seq<State>, actions: seq<Action>, i: nat, x: Id)
    requires Run(states, actions) && i < |states| && x in states[i].ptcbs
    ensures var s := states[i];
            && s.ptcbs[x].frees <= 1
            && (s.ptcbs[x].frees == 1 ==>
                  && s.ptcbs[x].exited && !s.ptcbs[x].detached && x !in ListOf(s, s.ptcbs[x].owner)
                  && (forall j :: j in s.joins ==> s.joins[j].target != x)
                  && (forall j :: Running(s, j) ==> !CanJoin(s, j, x) && !CanDetach(s, j, x)))
  {
    RunsKeepInv(states, actions, i);
    var s := states[i];
    assert PtcbOk(s, x) && ProcOk(s, s.ptcbs[x].owner);
    forall j | j in s.joins
      ensures s.ptcbs[x].frees == 1 ==> s.joins[j].target != x
    {
      assert j in JoinersOf(s, s.joins[j].target);
    }
    forall j | Running(s, j) && s.ptcbs[x].frees == 1
      ensures !CanJoin(s, j, x) && !CanDetach(s, j, x)
    {
      assert ProcOk(s, s.ptcbs[j].owner);
    }
  }
}
