/**
 A short run of the scheduler: core 0 boots with idle thread 0, thread 1 is
 spawned and woken, and the core switches to it.  It shows that the invariant of
 the header needs its two qualifications, and a sleep that breaks the timeout
 list.
 */
module SchedExample {
  import opened Sequences
  import opened SchedModel
  import opened SchedInvariant
  import opened SchedSwitch
  import opened SchedRuns

  const IDLE: Tid := 0
  const FIRST: Tid := 1
  const TOP: nat := MAX_PRIORITIES - 1

  ghost predicate ReadyAndClean(s: State, t: Tid)
  {
    t in s.tcbs && s.tcbs[t].state == READY && s.tcbs[t].phase == CTX_CLEAN
  }

  ghost predicate NotQueued(s: State, t: Tid)
  {
    forall i :: 0 <= i < MAX_PRIORITIES ==> !InQueue(s, i, t)
  }

  // A run grows by one enabled step whose clock fits.
  lemma GoOn(states: seq<State>, actions: seq<Action>, a: Action)
    returns (states': seq<State>, actions': seq<Action>)
    requires Reached(states, actions, |actions|) && Inv(states[|actions|])
    requires Enabled(states[|actions|], a) && ClockFits(a)
    ensures actions' == actions + [a] && states' == states + [Next(states[|actions|], a)]
    ensures Reached(states', actions', |actions'|) && Inv(states'[|actions'|])
  {
    states', actions' := states + [Next(states[|actions|], a)], actions + [a];
    forall i | 0 <= i < |actions'|
      ensures StepAt(states', actions', i)
    {
      if i < |actions| {
        assert StepAt(states, actions, i);
      }
    }
    RunsKeepInv(states', actions', |actions'|);
  }

  // The core runs its idle thread; the first thread waits in the top queue.
  ghost predicate Woken(s: State)
  {
    && Inv(s) && s.timeouts == [] && s.cores == map[0 := CoreState(IDLE, IDLE, IDLE, Run)]
    && s.tcbs.Keys == {IDLE, FIRST}
    && s.tcbs[IDLE] == Tcb(IDLE_THREAD, RUNNING, CTX_DIRTY, 0, NO_TIMEOUT, SCHED_IDLE, SCHED_IDLE)
    && s.tcbs[FIRST] == Tcb(NORMAL_THREAD, READY, CTX_CLEAN, TOP, NO_TIMEOUT, SCHED_IDLE, SCHED_IDLE)
    && s.sched[TOP] == [FIRST]
  }

  lemma WakeFirst(s: State)
    requires Inv(s) && s == Spawn(Boot(Initial(), 0, IDLE), FIRST)
    ensures Enabled(s, DoWakeup(FIRST)) && (Inv(Wakeup(s, FIRST)) ==> Woken(Wakeup(s, FIRST)))
  {
  }

  lemma RunToWoken() returns (states: seq<State>, actions: seq<Action>)
    ensures Reached(states, actions, |actions|) && |actions| == 3 && Woken(states[3])
  {
    InitialInv();
    states, actions := [Initial()], [];
    states, actions := GoOn(states, actions, DoBoot(0, IDLE));
    assert states[1] == Boot(Initial(), 0, IDLE);
    states, actions := GoOn(states, actions, DoSpawn(FIRST));
    assert states[2] == Spawn(Boot(Initial(), 0, IDLE), FIRST);
    WakeFirst(states[2]);
    states, actions := GoOn(states, actions, DoWakeup(FIRST));
  }

  // The core is on its way to the first thread.
  ghost predicate OnItsWay(s: State)
  {
    && Inv(s) && s.cores == map[0 := CoreState(FIRST, IDLE, IDLE, Switching)]
    && s.tcbs.Keys == {IDLE, FIRST}
    && s.tcbs[FIRST] == Tcb(NORMAL_THREAD, READY, CTX_CLEAN, TOP, NO_TIMEOUT, SCHED_IDLE, SCHED_IDLE)
    && s.tcbs[IDLE].kind == IDLE_THREAD && s.tcbs[IDLE].state == READY && s.timeouts == []
  }

  lemma YieldFromWoken(s: State)
    requires Woken(s)
    ensures Enabled(s, DoYield(0, SCHED_IDLE, false, 0)) && OnItsWay(Next(s, DoYield(0, SCHED_IDLE, false, 0)))
  {
    var a := DoYield(0, SCHED_IDLE, false, 0);
    NextKeepsInvIff(s, a);
    var s2 := YieldBegin(s, 0, SCHED_IDLE, false);
    assert s2 == Demote(s, 0, SCHED_IDLE);
    assert s2.timeouts == [] && s2.sched == s.sched;
    assert Distinct(s2.timeouts);
    SelectionIsHeadOfHighest(s2, 0, TOP);
  }

  // The first qualification: a NORMAL thread can be READY and CLEAN and in no
  // queue, between yield and gain.
  lemma PickedThreadIsOffItsQueue() returns (states: seq<State>, actions: seq<Action>)
    ensures Reached(states, actions, |actions|) && |actions| == 4 && OnItsWay(states[4])
    ensures ReadyAndClean(states[4], FIRST) && NotQueued(states[4], FIRST)
    ensures states[4].tcbs[FIRST].kind == NORMAL_THREAD
  {
    states, actions := RunToWoken();
    YieldFromWoken(states[3]);
    states, actions := GoOn(states, actions, DoYield(0, SCHED_IDLE, false, 0));
    var s := states[4];
    assert Picks(s.cores[0], FIRST);
    QueuedIffReadyAndClean(s, FIRST);
  }

  // The second: so can an idle thread, at any time.
  lemma IdleThreadIsNotQueued() returns (states: seq<State>, actions: seq<Action>)
    ensures Reached(states, actions, |actions|) && |actions| == 5
    ensures ReadyAndClean(states[5], IDLE) && !Picked(states[5], IDLE) && NotQueued(states[5], IDLE)
    ensures Enabled(states[5], DoSleep(0, STOPPED, 1, NO_TIMEOUT - 1))
  {
    states, actions := PickedThreadIsOffItsQueue();
    var s := states[4];
    GainDefined(s, 0);
    states, actions := GoOn(states, actions, DoGain(0));
    forall i | 0 <= i < MAX_PRIORITIES
      ensures !InQueue(states[5], i, IDLE)
    {
      IdleThreadsAreNeverQueued(states[5], IDLE, i);
    }
  }

  // A sleep of one tick, one tick before the clock's value NO_TIMEOUT, breaks the
  // invariant: the thread is on the timeout list without a timeout.
  lemma SleepCanBreakTheTimeoutList() returns (states: seq<State>, actions: seq<Action>)
    ensures Reached(states, actions, |actions|) && |actions| == 5 && Inv(states[5])
    ensures var a := DoSleep(0, STOPPED, 1, NO_TIMEOUT - 1); Enabled(states[5], a) && !Inv(Next(states[5], a))
  {
    states, actions := IdleThreadIsNotQueued();
    RunsKeepInv(states, actions, 5);
    NextKeepsInvIff(states[5], DoSleep(0, STOPPED, 1, NO_TIMEOUT - 1));
  }
}
