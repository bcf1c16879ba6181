// What every run of the kernel lock keeps.
module KernelLockRuns {
  import opened Sequences
  import opened KernelLockModel

  // --- one step

  lemma StepFrame(s: State, a: Action)
    requires Enabled(s, a)
    ensures |Next(s, a).phases| == |s.phases|
  {
  }

  lemma MutexStep(s: State, a: Action)
    requires Inv(s) && Enabled(s, a)
    ensures MutexOk(Next(s, a))
  {
    WokenAreOnChannels(s, a);
  }

  // Signals only touch threads that sleep on the channel.
  lemma WokenAreOnChannels(s: State, a: Action)
    requires Inv(s) && Enabled(s, a)
    ensures a.Signal? || a.Broadcast? ==>
              ChanOk(s, a.c) && forall t :: t in On(s, a.c) ==> t < |s.phases| && s.phases[t].Waiting?
    ensures a.Timeout? ==> ChanOk(s, s.phases[a.t].chan)
  {
    if a.Signal? || a.Broadcast? {
      assert ChanOk(s, a.c);
    }
    if a.Timeout? {
      assert ChanOk(s, s.phases[a.t].chan);
    }
  }

  lemma QueueStep(s: State, a: Action)
    requires Inv(s) && Enabled(s, a)
    ensures QueueOk(Next(s, a))
  {
    WokenAreOnChannels(s, a);
  }

  // The semaphore and the holders: a step moves both or neither.
  lemma SemStep(s: State, a: Action)
    requires Inv(s) && Enabled(s, a)
    ensures SemOk(Next(s, a))
  {
    if a.Release? {
      assert Holders(Next(s, a)) == Holders(s) - {a.t} && a.t in Holders(s);
    } else if a.Test? && s.sem > 0 {
      assert Holders(Next(s, a)) == Holders(s) + {a.t} && a.t !in Holders(s);
    } else {
      HoldersSame(s, a);
    }
  }

  lemma HoldersSame(s: State, a: Action)
    requires Inv(s) && Enabled(s, a) && !a.Release? && (a.Test? ==> s.sem <= 0)
    ensures Holders(Next(s, a)) == Holders(s) && Next(s, a).sem == s.sem
  {
    WokenAreOnChannels(s, a);
    if a.SignalSem? && s.queue != [] {
      assert s.queue[0] in s.queue;
    }
    forall t | 0 <= t < |s.phases|
      ensures Next(s, a).phases[t].Holding? <==> s.phases[t].Holding?
    {
    }
  }

  lemma ReleasingStep(s: State, a: Action)
    requires Inv(s) && Enabled(s, a)
    ensures ReleasingOk(Next(s, a))
  {
    WokenAreOnChannels(s, a);
    if a.Release? {
      OneHolder(s, a.t);
    }
  }

  lemma ServedStep(s: State, a: Action)
    requires Inv(s) && Enabled(s, a)
    ensures ServedOk(Next(s, a))
  {
    WokenAreOnChannels(s, a);
    var s' := Next(s, a);
    SemStep(s, a);
    if a.SignalSem? && s.queue != [] {
      assert s.queue[0] in s.queue;
      assert s'.phases[s.queue[0]].Signalled?;
    } else if Awaited(s) {
      var t :| 0 <= t < |s.phases| && s.phases[t].Signalled?;
      assert a.Retake? || s'.phases[t].Signalled?;
    }
  }

  lemma TailFacts(q: seq<Tid>)
    requires Distinct(q) && q != []
    ensures Distinct(q[1..]) && forall t :: t in q[1..] <==> t in q && t != q[0]
  {
    assert q == [q[0]] + q[1..];
  }

  lemma WakingStep(s: State, a: Action, c: Chan)
    requires Inv(s) && Enabled(s, a) && (a.Signal? || a.Broadcast?)
    ensures ChanOk(Next(s, a), c)
  {
    WokenAreOnChannels(s, a);
    assert ChanOk(s, c);
    var q := On(s, a.c);
    if a.Signal? && q != [] {
      TailFacts(q);
      assert forall t :: t in q[..1] <==> t == q[0];
    }
    if c != a.c {
      assert On(Next(s, a), c) == On(s, c);
    }
  }

  lemma TimeoutStep(s: State, a: Action, c: Chan)
    requires Inv(s) && Enabled(s, a) && a.Timeout?
    ensures ChanOk(Next(s, a), c)
  {
    WokenAreOnChannels(s, a);
    assert ChanOk(s, c);
    RemoveKeeps(On(s, s.phases[a.t].chan), a.t);
  }

  lemma JoiningStep(s: State, a: Action, c: Chan)
    requires Inv(s) && Enabled(s, a) && a.Leave?
    ensures ChanOk(Next(s, a), c)
  {
    assert ChanOk(s, c);
  }

  lemma OnChanStays(s: State, a: Action, c: Chan, t: Tid)
    requires Inv(s) && Enabled(s, a) && !a.Signal? && !a.Broadcast? && !a.Timeout? && !a.Leave? && t < |s.phases|
    ensures t < |Next(s, a).phases| && (OnChan(Next(s, a).phases[t], c) <==> OnChan(s.phases[t], c))
  {
    if a.SignalSem? && s.queue != [] {
      assert s.queue[0] in s.queue;
    }
  }

  lemma ChanStep(s: State, a: Action, c: Chan)
    requires Inv(s) && Enabled(s, a) && !a.Signal? && !a.Broadcast? && !a.Timeout? && !a.Leave?
    ensures ChanOk(Next(s, a), c)
  {
    assert ChanOk(s, c);
    forall t: Tid
      ensures t in On(s, c) <==> t < |Next(s, a).phases| && OnChan(Next(s, a).phases[t], c)
    {
      if t < |s.phases| { OnChanStays(s, a, c, t); }
    }
  }

  lemma OneHolder(s: State, t: Tid)
    requires SemOk(s) && t in Holders(s) && s.sem >= 0
    ensures s.sem == 0 && Holders(s) == {t}
  {
    assert Holders(s) == {t} + (Holders(s) - {t});
  }

  lemma NextKeepsInv(s: State, a: Action)
    requires Inv(s) && Enabled(s, a)
    ensures Inv(Next(s, a))
  {
    MutexStep(s, a);
    QueueStep(s, a);
    SemStep(s, a);
    ReleasingStep(s, a);
    ServedStep(s, a);
    forall c
      ensures ChanOk(Next(s, a), c)
    {
      if a.Signal? || a.Broadcast? {
        WakingStep(s, a, c);
      } else if a.Timeout? {
        TimeoutStep(s, a, c);
      } else if a.Leave? {
        JoiningStep(s, a, c);
      } else {
        ChanStep(s, a, c);
      }
    }
  }

  lemma {:induction false} RunsKeepInv(states: seq<State>, actions: seq<Action>, i: nat)
    requires Run(states, actions) && i < |states|
    ensures Inv(states[i]) && |states[i].phases| == |states[0].phases|
  {
    if i == 0 {
      assert Holders(states[0]) == {};
      assert forall c :: On(states[0], c) == [];
      assert forall c :: ChanOk(states[0], c);
    } else {
      RunsKeepInv(states, actions, i - 1);
      NextKeepsInv(states[i - 1], actions[i - 1]);
      StepFrame(states[i - 1], actions[i - 1]);
    }
  }

  // --- the kernel lock

  // kernel_sem and the holders always add up to 1, so no two threads hold the
  // kernel lock, and kernel_sem is 0 just when one does.
  lemma KernelLockIsExclusive(states: seq<State>, actions: seq<Action>, i: nat)
    requires Run(states, actions) && i < |states|
    ensures states[i].sem + |Holders(states[i])| == 1
    ensures forall t, u :: t in Holders(states[i]) && u in Holders(states[i]) ==> t == u
    ensures states[i].sem == 0 <==> Holders(states[i]) != {}
  {
    RunsKeepInv(states, actions, i);
    var s := states[i];
    forall t, u | t in Holders(s) && u in Holders(s)
      ensures t == u
    {
      OneHolder(s, t);
    }
    if Holders(s) != {} {
      var t :| t in Holders(s);
      OneHolder(s, t);
    }
  }

  // With kernel_mutex free, threads asleep on a free kernel lock have a thread
  // already woken that will test kernel_sem again.
  lemma FreeLockIsAwaited(states: seq<State>, actions: seq<Action>, i: nat)
    requires Run(states, actions) && i < |states|
    requires states[i].mutex == None && states[i].sem == 1 && states[i].queue != []
    ensures Awaited(states[i])
  {
    RunsKeepInv(states, actions, i);
  }

  // A step of a thread that has the kernel lock, or kernel_mutex, or has been
  // woken to take the lock.
  predicate TowardsTheLock(s: State, a: Action)
  {
    a.t < |s.phases| &&
    match a
    case Retake(t) => s.phases[t].Signalled?
    case Test(_) => true
    case Release(_, goal) => goal.Unlocking?
    case SignalSem(_) => true
    case Leave(_) => true
    case Drop(_) => true
    case _ => false
  }

  // While a thread sleeps on the kernel lock, another can take a step towards
  // handing it over: the monitor never stalls.
  lemma KernelLockNeverStalls(s: State)
    requires Inv(s) && s.queue != []
    ensures exists a :: Enabled(s, a) && TowardsTheLock(s, a)
  {
    if s.mutex.Some? {
      var t := s.mutex.value;
      var a := if s.phases[t].Testing? then Test(t) else if s.phases[t].Released? then SignalSem(t)
               else if s.phases[t].Leaving? then Leave(t) else Drop(t);
      assert Enabled(s, a) && TowardsTheLock(s, a);
    } else if s.sem == 1 {
      var t :| 0 <= t < |s.phases| && s.phases[t].Signalled?;
      assert Enabled(s, Retake(t)) && TowardsTheLock(s, Retake(t));
    } else {
      assert Holders(s) != {};
      var t :| t in Holders(s);
      assert Enabled(s, Release(t, Unlocking)) && TowardsTheLock(s, Release(t, Unlocking));
    }
  }

  // --- waiting with the kernel lock

  // A thread that gives up the kernel lock is found, by whoever takes it next,
  // to have dropped kernel_mutex: nobody holds the lock while it is on its way.
  lemma NobodyHoldsBesideAReleaser(s: State, t: Tid, u: Tid)
    requires Inv(s) && t < |s.phases| && u < |s.phases| && s.phases[u].Holding?
    ensures !Releasing(s.phases[t])
    ensures forall c :: WaitsetFree(s, c)
  {
    assert u in Holders(s);
    OneHolder(s, u);
  }

  predicate OnTheWay(p: Phase, c: Chan, timed: bool)
  {
    p == Released(WaitingOn(c, timed)) || p == Leaving(WaitingOn(c, timed)) || p == Joined(c, timed)
  }

  // No wakeup is lost: once a thread has released kernel_sem to wait on c, it is
  // asleep on c, where a signal finds it, before any thread holds the lock.
  lemma {:induction false} WaiterSleepsBeforeAnyoneHolds(
      states: seq<State>, actions: seq<Action>, i: nat, j: nat, t: Tid, c: Chan, timed: bool, u: Tid)
    requires Run(states, actions) && i < j < |states|
    requires t < |states[i].phases| && OnTheWay(states[i].phases[t], c, timed)
    requires u < |states[j].phases| && states[j].phases[u].Holding?
    ensures exists k :: i <= k < j && actions[k] == Drop(t) && t in On(states[k + 1], c)
    decreases j - i
  {
    RunsKeepInv(states, actions, i);
    RunsKeepInv(states, actions, i + 1);
    RunsKeepInv(states, actions, j);
    var s, s' := states[i], states[i + 1];
    WokenAreOnChannels(s, actions[i]);
    assert ChanOk(s', c);
    if actions[i] == Drop(t) {
      assert OnChan(s'.phases[t], c);
    } else {
      assert OnTheWay(s'.phases[t], c, timed);
      if i + 1 == j {
        NobodyHoldsBesideAReleaser(s', t, u);
        assert false;
      } else {
        WaiterSleepsBeforeAnyoneHolds(states, actions, i + 1, j, t, c, timed, u);
      }
    }
  }

  // A broadcast wakes everybody on the channel; a signal wakes the one that has
  // waited longest; neither is held up by a thread that is joining.
  lemma ChannelSignals(s: State, t: Tid, c: Chan)
    requires Inv(s) && t < |s.phases| && s.phases[t].Holding?
    ensures Enabled(s, Broadcast(t, c)) && Enabled(s, Signal(t, c))
    ensures forall v :: 0 <= v < |s.phases| && OnChan(s.phases[v], c) ==>
              Next(s, Broadcast(t, c)).phases[v] == Woken(true)
    ensures On(Next(s, Broadcast(t, c)), c) == []
    ensures forall v :: 0 <= v < |s.phases| && OnChan(s.phases[v], c) ==>
              (Next(s, Signal(t, c)).phases[v] == if v == On(s, c)[0] then Woken(true) else s.phases[v])
  {
    NobodyHoldsBesideAReleaser(s, t, t);
    assert ChanOk(s, c);
    var q := On(s, c);
    if q != [] {
      assert q == [q[0]] + q[1..];
    }
  }

  // Step k wakes t by a signal.
  predicate Signals(s: State, a: Action, t: Tid)
  {
    (a.Signal? && On(s, a.c) != [] && On(s, a.c)[0] == t) || (a.Broadcast? && t in On(s, a.c))
  }

  predicate HasRet(p: Phase)
  {
    p.Woken? || p.Testing? || p.Queued? || p.Signalled? || p.Holding?
  }

  // What one step does to a thread on its way through kernel_wait.
  lemma WaiterStep(s: State, a: Action, t: Tid)
    requires Inv(s) && Enabled(s, a) && t < |s.phases| && !(a.Release? && a.t == t)
    ensures t < |Next(s, a).phases|
    ensures var p, p' := s.phases[t], Next(s, a).phases[t];
            && (p.Waiting? ==> (p' == p && !Signals(s, a, t)) || (HasRet(p') && p'.ret == Signals(s, a, t)))
            && (HasRet(p) ==> HasRet(p') && p'.ret == p.ret && !Signals(s, a, t))
  {
    WokenAreOnChannels(s, a);
    if s.phases[t].Waiting? {
      assert ChanOk(s, s.phases[t].chan);
    }
    if a.SignalSem? && s.queue != [] {
      assert s.queue[0] in s.queue;
    }
  }

  ghost predicate SignalledWithin(states: seq<State>, actions: seq<Action>, i: nat, j: nat, t: Tid)
    requires Run(states, actions) && i <= j < |states|
  {
    exists k :: i <= k < j && Signals(states[k], actions[k], t)
  }

  // kernel_wait returns 1 exactly when a signal woke the thread.
  lemma {:induction false} WaitReturnsOneIffSignalled(
      states: seq<State>, actions: seq<Action>, i: nat, j: nat, t: Tid)
    requires Run(states, actions) && i <= j < |states|
    requires t < |states[i].phases| && states[i].phases[t].Waiting?
    requires forall k :: i <= k < j ==> !actions[k].Release? || actions[k].t != t
    ensures t < |states[j].phases|
    ensures var signalled, p := SignalledWithin(states, actions, i, j, t), states[j].phases[t];
            (p.Waiting? && !signalled) || (HasRet(p) && p.ret == signalled)
  {
    if i < j {
      RunsKeepInv(states, actions, j - 1);
      WaitReturnsOneIffSignalled(states, actions, i, j - 1, t);
      WaiterStep(states[j - 1], actions[j - 1], t);
      if Signals(states[j - 1], actions[j - 1], t) {
        assert SignalledWithin(states, actions, i, j, t);
      } else {
        assert SignalledWithin(states, actions, i, j, t) == SignalledWithin(states, actions, i, j - 1, t);
      }
    }
  }

  // --- the order of service

  // u comes before t in q.
  ghost predicate Before(q: seq<Tid>, u: Tid, t: Tid)
  {
    exists i, j :: 0 <= i < j < |q| && q[i] == u && q[j] == t
  }

  // What one step does to a queue: a newcomer at the back, the first or anybody
  // gone, or everybody.
  ghost predicate InOrder(q: seq<Tid>, q': seq<Tid>)
  {
    q' == q || q' == [] || (exists t :: q' == q + [t]) || (exists t :: q' == Remove(q, t))
  }

  lemma NewcomerIsLast(q: seq<Tid>, u: Tid, t: Tid)
    requires u in q
    ensures Before(q + [t], u, t)
  {
    var i :| 0 <= i < |q| && q[i] == u;
    assert (q + [t])[i] == u && (q + [t])[|q|] == t;
  }

  lemma RemovalKeepsOrder(q: seq<Tid>, x: Tid, u: Tid, t: Tid)
    requires Distinct(q) && Before(q, u, t) && u != x && t != x
    ensures Before(Remove(q, x), u, t)
  {
    var i, j :| 0 <= i < j < |q| && q[i] == u && q[j] == t;
    var n := RemoveIndex(q, x);
    if n < |q| {
      var i', j' := if i < n then i else i - 1, if j < n then j else j - 1;
      assert Remove(q, x)[i'] == u && Remove(q, x)[j'] == t;
    }
  }

  lemma OrderStays(q: seq<Tid>, q': seq<Tid>, u: Tid, t: Tid)
    requires Distinct(q) && InOrder(q, q') && u in q && u in q' && t in q' && (t in q ==> Before(q, u, t)) && u != t
    requires Distinct(q')
    ensures Before(q', u, t)
  {
    if q' != q {
      if x :| q' == q + [x] {
        if t in q {
          var i, j :| 0 <= i < j < |q| && q[i] == u && q[j] == t;
          assert q'[i] == u && q'[j] == t;
        } else {
          NewcomerIsLast(q, u, x);
        }
      } else {
        var x :| q' == Remove(q, x);
        RemoveKeeps(q, x);
        RemovalKeepsOrder(q, x, u, t);
      }
    }
  }

  // On every channel, and on kernel_sem_cv, threads queue up: one that comes joins
  // at the back, and those that stay keep their order.
  lemma QueuesAreInOrder(s: State, a: Action, c: Chan)
    requires Inv(s) && Enabled(s, a)
    ensures InOrder(s.queue, Next(s, a).queue) && InOrder(On(s, c), On(Next(s, a), c))
    ensures a.Test? && s.sem <= 0 ==> Next(s, a).queue == s.queue + [a.t]
    ensures a.Leave? && s.phases[a.t].goal.WaitingOn? ==>
              var c := s.phases[a.t].goal.chan; On(Next(s, a), c) == On(s, c) + [a.t]
  {
    LockQueueInOrder(s, a);
    ChannelInOrder(s, a, c);
    if a.Leave? && s.phases[a.t].goal.WaitingOn? { ThreadJoins(s, a, s.phases[a.t].goal.chan); }
  }

  lemma LockQueueInOrder(s: State, a: Action)
    requires Inv(s) && Enabled(s, a)
    ensures InOrder(s.queue, Next(s, a).queue)
    ensures a.Test? && s.sem <= 0 ==> Next(s, a).queue == s.queue + [a.t]
  {
    if s.queue != [] { assert Remove(s.queue, s.queue[0]) == s.queue[1..]; }
  }

  lemma ChannelInOrder(s: State, a: Action, c: Chan)
    requires Inv(s) && Enabled(s, a)
    ensures InOrder(On(s, c), On(Next(s, a), c))
  {
    var q := On(s, c);
    if a.Leave? {
      ThreadJoins(s, a, c);
    } else if a.Signal? && q != [] {
      assert Remove(q, q[0]) == q[1..];
    }
  }

  lemma ThreadJoins(s: State, a: Action, c: Chan)
    requires Enabled(s, a) && a.Leave?
    ensures var goal := s.phases[a.t].goal;
            On(Next(s, a), c) == On(s, c) + (if goal.WaitingOn? && goal.chan == c then [a.t] else [])
  {
    assert On(s, c) + [] == On(s, c);
  }

  // First come, first served: while u waits on c, whoever comes to c after it
  // stays behind it, so that no signal wakes the latecomer first.
  lemma {:induction false} FirstComeFirstServed(
      states: seq<State>, actions: seq<Action>, i: nat, j: nat, c: Chan, u: Tid, t: Tid)
    requires Run(states, actions) && i <= j < |states| && t !in On(states[i], c)
    requires forall k :: i <= k <= j ==> u in On(states[k], c)
    ensures t in On(states[j], c) ==> Before(On(states[j], c), u, t)
    ensures j < |actions| && actions[j].Signal? && actions[j].c == c ==> !Signals(states[j], actions[j], t)
  {
    RunsKeepInv(states, actions, j);
    assert ChanOk(states[j], c) && u in On(states[i], c) && u in On(states[j], c);
    if i < j {
      var k := j - 1;
      FirstComeFirstServed(states, actions, i, k, c, u, t);
      RunsKeepInv(states, actions, k);
      assert ChanOk(states[k], c) && u in On(states[k], c);
      QueuesAreInOrder(states[k], actions[k], c);
      if t in On(states[j], c) { OrderStays(On(states[k], c), On(states[j], c), u, t); }
    }
  }

  // The same for those who wait for the kernel lock itself.
  lemma {:induction false} LockIsServedInOrder(
      states: seq<State>, actions: seq<Action>, i: nat, j: nat, u: Tid, t: Tid)
    requires Run(states, actions) && i <= j < |states| && t !in states[i].queue
    requires forall k :: i <= k <= j ==> u in states[k].queue
    ensures t in states[j].queue ==> Before(states[j].queue, u, t)
  {
    RunsKeepInv(states, actions, j);
    assert u in states[i].queue && u in states[j].queue;
    if i < j {
      var k := j - 1;
      LockIsServedInOrder(states, actions, i, k, u, t);
      RunsKeepInv(states, actions, k);
      assert u in states[k].queue;
      QueuesAreInOrder(states[k], actions[k], 0);
      if t in states[j].queue { OrderStays(states[k].queue, states[j].queue, u, t); }
    }
  }

  // --- what a release leads to

  // t has given up the lock for `goal`, and is on its way there or has arrived.
  predicate Bound(p: Phase, goal: Goal)
  {
    || p == Released(goal) || p == Leaving(goal)
    || (match goal
        case Unlocking => p == Outside
        case Ending => p == Asleep
        case WaitingOn(c, timed) => p == Joined(c, timed) || p == Waiting(c, timed))
  }

  // A thread that gives up the lock raises kernel_sem, and gets to where it gave
  // it up for: outside, until it takes the lock again, or asleep for good.
  lemma ReleaseLeadsToItsGoal(s: State, a: Action, t: Tid, goal: Goal)
    requires Inv(s) && Enabled(s, a) && t < |s.phases|
    ensures t < |Next(s, a).phases|
    ensures a == Release(t, goal) ==> Next(s, a).phases[t] == Released(goal) && Next(s, a).sem == s.sem + 1
    ensures Bound(s.phases[t], goal) && !goal.WaitingOn? ==>
              if a == Enter(t) && goal.Unlocking? then Next(s, a).phases[t] == Testing(false)
              else Bound(Next(s, a).phases[t], goal)
  {
    WokenAreOnChannels(s, a);
    if a.SignalSem? && s.queue != [] {
      assert s.queue[0] in s.queue;
    }
  }

  // Or on its channel, until a signal wakes it, or its timeout if it has one.
  lemma WaitLeadsToItsChannel(s: State, a: Action, t: Tid, goal: Goal)
    requires Inv(s) && Enabled(s, a) && t < |s.phases| && goal.WaitingOn? && Bound(s.phases[t], goal)
    ensures t < |Next(s, a).phases|
    ensures var p' := Next(s, a).phases[t];
            if Signals(s, a, t) then p' == Woken(true)
            else if a == Timeout(t) then goal.timed && p' == Woken(false)
            else Bound(p', goal)
  {
    WokenAreOnChannels(s, a);
    assert ChanOk(s, goal.chan);
    if a.SignalSem? && s.queue != [] {
      assert s.queue[0] in s.queue;
    }
  }

  // The other threads stay where they are, but for one that SignalSem wakes from
  // kernel_sem_cv, which is the first, and those that a signal wakes.
  lemma OthersStandBy(s: State, a: Action, u: Tid)
    requires Inv(s) && Enabled(s, a) && u < |s.phases| && u != a.t
    ensures u < |Next(s, a).phases|
    ensures var p, p' := s.phases[u], Next(s, a).phases[u];
            if Signals(s, a, u) then p' == Woken(true)
            else if a.SignalSem? && s.queue != [] && s.queue[0] == u then p.Queued? && p' == Signalled(p.ret)
            else p' == p
  {
    if a.SignalSem? && s.queue != [] {
      assert s.queue[0] in s.queue;
    }
  }

  // --- who can act

  // What keeps a thread from its next step: kernel_mutex, when it is not free, or
  // its own sleep.
  predicate Blocked(s: State, p: Phase)
  {
    || ((p.Outside? || p.Signalled? || p.Woken? || p.Holding?) && s.mutex != None)
    || p.Queued? || (p.Waiting? && !p.timed) || p.Asleep?
  }

  function NextStep(s: State, t: Tid, goal: Goal): Action
    requires t < |s.phases|
  {
    match s.phases[t]
    case Outside => Enter(t)
    case Testing(_) => Test(t)
    case Queued(_) => Retake(t)
    case Signalled(_) => Retake(t)
    case Holding(_) => Release(t, goal)
    case Released(_) => SignalSem(t)
    case Leaving(_) => Leave(t)
    case Joined(_, _) => Drop(t)
    case Waiting(_, _) => Timeout(t)
    case Woken(_) => Retake(t)
    case Asleep => Retake(t)
  }

  // Nothing else does, and the holder of kernel_mutex can always go on; whoever
  // has the kernel lock can signal any channel at once.
  lemma ThreadsCanAct(s: State, t: Tid, goal: Goal, c: Chan)
    requires Inv(s) && t < |s.phases|
    ensures Enabled(s, NextStep(s, t, goal)) <==> !Blocked(s, s.phases[t])
    ensures s.mutex == Some(t) ==> !Blocked(s, s.phases[t])
    ensures s.phases[t].Holding? ==> Enabled(s, Signal(t, c)) && Enabled(s, Broadcast(t, c))
  {
    if s.phases[t].Holding? { ChannelSignals(s, t, c); }
  }
}
