/**
 Runs of the scheduler: the actions, the invariant over every run, and what
 it gives.
 */
module SchedRuns {
  import opened Sequences
  import opened SchedModel
  import opened SchedInvariant
  import opened SchedSwitch

  datatype Action =
    | DoSpawn(t: Tid)
    | DoBoot(c: Core, idle: Tid)
    | DoWakeup(t: Tid)
    | DoSleep(c: Core, newState: ThreadState, timeout: nat, now: nat)
    | DoYield(c: Core, cause: Cause, boost: bool, now: nat)
    | DoGain(c: Core)

  ghost predicate Enabled(s: State, a: Action)
  {
    match a
    case DoSpawn(t) => t !in s.tcbs
    case DoBoot(c, idle) => c !in s.cores && idle !in s.tcbs
    case DoWakeup(t) => t in s.tcbs
    case DoSleep(c, newState, timeout, now) =>
      && c in s.cores && s.cores[c].point == Run
      && s.cores[c].current in s.tcbs && s.tcbs[s.cores[c].current].kind == NORMAL_THREAD
      && newState in {STOPPED, EXITED}
    case DoYield(c, cause, boost, now) => c in s.cores && s.cores[c].point != Switching
    case DoGain(c) => c in s.cores && s.cores[c].point == Switching
  }

  // yield, up to its unlock
  ghost function Yield(s: State, c: Core, cause: Cause, boost: bool, now: nat): State
    requires Inv(s) && c in s.cores && s.cores[c].point != Switching
  {
    var s2 := YieldBegin(s, c, cause, boost);
    WakeExpiredKeepsInv(s2, now);
    var s3 := WakeExpired(s2, now);
    SelectKeepsInv(s3, c);
    Select(s3, c)
  }

  ghost function YieldBegin(s: State, c: Core, cause: Cause, boost: bool): (s': State)
    requires Inv(s) && c in s.cores && s.cores[c].point != Switching
    ensures Inv(s') && s'.cores == s.cores[c := s.cores[c].(point := Yielding)]
  {
    DemoteKeepsInv(s, c, cause);
    var s1 := Demote(s, c, cause);
    if boost then BoostKeepsInv(s1); Boost(s1) else s1
  }

  ghost function Next(s: State, a: Action): State
    requires Inv(s) && Enabled(s, a)
  {
    match a
    case DoSpawn(t) => Spawn(s, t)
    case DoBoot(c, idle) => Boot(s, c, idle)
    case DoWakeup(t) => Wakeup(s, t)
    case DoSleep(c, newState, timeout, now) =>
      SleepKeepsInvIff(s, c, newState, timeout, now);
      Sleep(s, c, newState, timeout, now)
    case DoYield(c, cause, boost, now) => Yield(s, c, cause, boost, now)
    case DoGain(c) =>
      GainDefined(s, c);
      Gain(s, c)
  }

  lemma YieldKeepsInv(s: State, c: Core, cause: Cause, boost: bool, now: nat)
    requires Inv(s) && c in s.cores && s.cores[c].point != Switching
    ensures Inv(Yield(s, c, cause, boost, now))
  {
    var s2 := YieldBegin(s, c, cause, boost);
    WakeExpiredKeepsInv(s2, now);
    SelectKeepsInv(WakeExpired(s2, now), c);
  }

  // The action does not register a wakeup time that comes out as NO_TIMEOUT.
  predicate ClockFits(a: Action)
  {
    a.DoSleep? && a.newState == STOPPED ==> ClockOk(a.timeout, a.now)
  }

  // Every critical section keeps the invariant, but for that one sleep.
  lemma NextKeepsInvIff(s: State, a: Action)
    requires Inv(s) && Enabled(s, a)
    ensures Inv(Next(s, a)) <==> ClockFits(a)
  {
    match a
    case DoSpawn(t) => SpawnKeepsInv(s, t);
    case DoBoot(c, idle) => BootKeepsInv(s, c, idle);
    case DoWakeup(t) => WakeupKeepsInv(s, t);
    case DoSleep(c, newState, timeout, now) => SleepKeepsInvIff(s, c, newState, timeout, now);
    case DoYield(c, cause, boost, now) => YieldKeepsInv(s, c, cause, boost, now);
    case DoGain(c) => GainKeepsInv(s, c);
  }

  // A run: states, and the actions between them.
  ghost predicate Run'(states: seq<State>, actions: seq<Action>)
  {
    && |states| == |actions| + 1 && states[0] == Initial()
    && forall i :: 0 <= i < |actions| ==> StepAt(states, actions, i)
  }

  ghost predicate StepAt(states: seq<State>, actions: seq<Action>, i: nat)
    requires i < |actions| && |states| == |actions| + 1
  {
    Inv(states[i]) ==> Enabled(states[i], actions[i]) && states[i + 1] == Next(states[i], actions[i])
  }

  // The invariant holds all along a run, whatever the cores do, if and only if
  // no sleep of it registers NO_TIMEOUT for a wakeup time.
  lemma {:induction false} RunsKeepInvIff(states: seq<State>, actions: seq<Action>, n: nat)
    requires Run'(states, actions) && n < |states|
    ensures (forall m :: 0 <= m <= n ==> Inv(states[m])) <==> (forall i :: 0 <= i < n ==> ClockFits(actions[i]))
  {
    if n == 0 {
      InitialInv();
    } else {
      RunsKeepInvIff(states, actions, n - 1);
      assert StepAt(states, actions, n - 1);
      if Inv(states[n - 1]) {
        NextKeepsInvIff(states[n - 1], actions[n - 1]);
      }
    }
  }

  // A state of a run whose clock fits, up to there.
  ghost predicate Reached(states: seq<State>, actions: seq<Action>, n: nat)
  {
    Run'(states, actions) && n < |states| && forall i :: 0 <= i < n ==> ClockFits(actions[i])
  }

  lemma RunsKeepInv(states: seq<State>, actions: seq<Action>, n: nat)
    requires Reached(states, actions, n)
    ensures Inv(states[n])
  {
    RunsKeepInvIff(states, actions, n);
  }

  // --------------------------------------------------------------------
  // What the invariant gives in every reachable state
  // --------------------------------------------------------------------

  // The header's invariant, with its two qualifications.
  lemma QueuedIffReadyAndClean(s: State, t: Tid)
    requires Inv(s) && t in s.tcbs && s.tcbs[t].kind == NORMAL_THREAD
    ensures (exists i :: 0 <= i < MAX_PRIORITIES && InQueue(s, i, t)) <==>
            s.tcbs[t].state == READY && s.tcbs[t].phase == CTX_CLEAN && !Picked(s, t)
    ensures forall i :: 0 <= i < MAX_PRIORITIES && InQueue(s, i, t) ==> i == s.tcbs[t].priority
    ensures forall j, k :: 0 <= j < k < |s.sched[s.tcbs[t].priority]| ==>
              !(s.sched[s.tcbs[t].priority][j] == t == s.sched[s.tcbs[t].priority][k])
  {
    if Queueable(s, t) { assert InQueue(s, s.tcbs[t].priority, t); }
  }

  lemma IdleThreadsAreNeverQueued(s: State, t: Tid, i: nat)
    requires Inv(s) && t in s.tcbs && s.tcbs[t].kind == IDLE_THREAD && i < MAX_PRIORITIES
    ensures !InQueue(s, i, t)
  {
    assert !Queueable(s, t);
  }

  // No thread is on two cores, whether current or still being switched from.
  lemma NoThreadOnTwoCores(s: State, c: Core, d: Core)
    requires Inv(s) && c in s.cores && d in s.cores && c != d
    ensures s.cores[c].current != s.cores[d].current && Mine(s.cores[c]) !! Mine(s.cores[d])
  {
    assert Apart(s.cores[c], s.cores[d]);
  }

  // A READY thread is never lost: it waits in a queue, or a core has it.
  lemma NoReadyThreadIsLost(s: State, t: Tid)
    requires Inv(s) && t in s.tcbs && s.tcbs[t].kind == NORMAL_THREAD && s.tcbs[t].state == READY
    ensures InQueue(s, s.tcbs[t].priority, t) || Held(s, t) || Picked(s, t)
  {
    assert ThreadOk(s, t);
    if s.tcbs[t].phase == CTX_CLEAN && !Picked(s, t) { assert Queueable(s, t); }
  }

  // In every run the timeout list is sorted, holds exactly the STOPPED threads
  // that have a wakeup time, each once, and shares nobody with a queue.
  lemma TimeoutListIsExact(states: seq<State>, actions: seq<Action>, n: nat, t: Tid, i: nat)
    requires Reached(states, actions, n) && i < MAX_PRIORITIES
    ensures var s := states[n];
            && Distinct(s.timeouts) && (forall u :: u in s.timeouts ==> u in s.tcbs) && Sorted(s.timeouts, s.tcbs)
            && (t in s.timeouts <==> t in s.tcbs && s.tcbs[t].state == STOPPED && s.tcbs[t].wakeupTime != NO_TIMEOUT)
            && (t in s.timeouts ==> !InQueue(s, i, t))
  {
    RunsKeepInv(states, actions, n);
    var s := states[n];
    assert t in s.timeouts <==> Timed(s, t);
    if InQueue(s, i, t) {
      assert Queueable(s, t);
    }
  }

  // yield swaps to a CLEAN context, or does not swap.
  lemma YieldSwitchesToCleanContext(s: State, c: Core, cause: Cause, boost: bool, now: nat)
    requires Inv(s) && Enabled(s, DoYield(c, cause, boost, now))
    ensures var s' := Next(s, DoYield(c, cause, boost, now));
            && c in s'.cores && s'.cores[c].previous == s.cores[c].current && s'.cores[c].current in s'.tcbs
            && s'.tcbs[s'.cores[c].current].state == READY
            && (s'.cores[c].current != s'.cores[c].previous ==> s'.tcbs[s'.cores[c].current].phase == CTX_CLEAN)
  {
    var s2 := YieldBegin(s, c, cause, boost);
    WakeExpiredKeepsInv(s2, now);
    SelectedIsSafe(WakeExpired(s2, now), c);
  }

  // --------------------------------------------------------------------
  // How the state of one thread evolves
  // --------------------------------------------------------------------

  lemma {:induction false} ExpiryOf(s: State, now: nat, t: Tid)
    requires Inv(s) && t in s.tcbs
    ensures ExpiryDefined(s)
    ensures var s' := WakeExpired(s, now);
            && s'.tcbs.Keys == s.tcbs.Keys
            && (if Timed(s, t) && s.tcbs[t].wakeupTime <= now
                then s'.tcbs[t] == s.tcbs[t].(state := READY, wakeupTime := NO_TIMEOUT)
                else s'.tcbs[t] == s.tcbs[t])
    decreases |s.timeouts|
  {
    TimedAreStopped(s);
    if s.timeouts == [] {
      assert !Timed(s, t);
    } else {
      var h := s.timeouts[0];
      assert Timed(s, h);
      assert t in s.timeouts <==> Timed(s, t);
      if s.tcbs[h].wakeupTime <= now {
        var s1 := MakeReady(s, h);
        MakeReadyKeepsInv(s, h);
        assert s1.timeouts == s.timeouts[1..];
        ExpiryOf(s1, now, t);
      } else if Timed(s, t) {
        var i :| 0 <= i < |s.timeouts| && s.timeouts[i] == t;
        assert s.tcbs[h].wakeupTime <= s.tcbs[t].wakeupTime;
      }
    }
  }

  lemma BeginOf(s: State, c: Core, cause: Cause, boost: bool, t: Tid)
    requires Inv(s) && c in s.cores && s.cores[c].point != Switching && t in s.tcbs
    ensures var s' := YieldBegin(s, c, cause, boost);
            && s'.tcbs.Keys == s.tcbs.Keys
            && s'.tcbs[t].state ==
                 (if s.tcbs[t].state == RUNNING && t == s.cores[c].current then READY else s.tcbs[t].state)
            && s'.tcbs[t].wakeupTime == s.tcbs[t].wakeupTime
            && s'.tcbs[t].phase == s.tcbs[t].phase && s'.tcbs[t].kind == s.tcbs[t].kind
  {
    DemoteKeepsInv(s, c, cause);
    var s1 := Demote(s, c, cause);
    if boost { BoostKeepsInv(s1); }
  }

  // What yield does to any one thread's entry.
  lemma YieldOf(s: State, c: Core, cause: Cause, boost: bool, now: nat, t: Tid)
    requires Inv(s) && Enabled(s, DoYield(c, cause, boost, now)) && t in s.tcbs
    ensures var s' := Yield(s, c, cause, boost, now);
            && s'.tcbs.Keys == s.tcbs.Keys
            && (if s.tcbs[t].state == STOPPED && s.tcbs[t].wakeupTime <= now && s.tcbs[t].wakeupTime != NO_TIMEOUT
                then s'.tcbs[t].state == READY && s'.tcbs[t].wakeupTime == NO_TIMEOUT
                else s'.tcbs[t].state ==
                       (if s.tcbs[t].state == RUNNING && t == s.cores[c].current then READY else s.tcbs[t].state)
                     && s'.tcbs[t].wakeupTime == s.tcbs[t].wakeupTime)
            && s'.tcbs[t].phase == s.tcbs[t].phase && s'.tcbs[t].kind == s.tcbs[t].kind
  {
    BeginOf(s, c, cause, boost, t);
    var s2 := YieldBegin(s, c, cause, boost);
    WakeExpiredKeepsInv(s2, now);
    ExpiryOf(s2, now, t);
  }

  // yield wakes exactly the sleepers whose time has come.
  lemma YieldWakesExactlyTheExpired(s: State, c: Core, cause: Cause, boost: bool, now: nat, t: Tid)
    requires Inv(s) && Enabled(s, DoYield(c, cause, boost, now)) && t in s.tcbs && s.tcbs[t].state == STOPPED
    ensures var s' := Next(s, DoYield(c, cause, boost, now));
            && t in s'.tcbs
            && (s'.tcbs[t].state == READY <==> t in s.timeouts && s.tcbs[t].wakeupTime <= now)
            && (s'.tcbs[t].state == STOPPED <==> !(t in s.timeouts && s.tcbs[t].wakeupTime <= now))
  {
    YieldOf(s, c, cause, boost, now, t);
    assert t in s.timeouts <==> Timed(s, t);
  }

  // A sleeper without a timeout sleeps until somebody wakes it.
  lemma StoppedUntilWoken(s: State, a: Action, t: Tid)
    requires Inv(s) && Enabled(s, a) && t in s.tcbs
    requires s.tcbs[t].state == STOPPED && s.tcbs[t].wakeupTime == NO_TIMEOUT
    ensures t in Next(s, a).tcbs
    ensures if a == DoWakeup(t) then Next(s, a).tcbs[t].state == READY
            else Next(s, a).tcbs[t].state == STOPPED && Next(s, a).tcbs[t].wakeupTime == NO_TIMEOUT
  {
    match a
    case DoYield(c, cause, boost, now) => YieldOf(s, c, cause, boost, now, t);
    case DoGain(c) => GainDefined(s, c);
    case DoSleep(c, newState, timeout, now) =>
      SleepKeepsInvIff(s, c, newState, timeout, now);
      assert CoreOk(s, s.cores[c]);
    case _ =>
  }

  // Every core can always go on: it yields unless it is switching, and switches
  // then; a thread that runs can go to sleep; and anybody can be woken.
  lemma CoresCanAct(s: State, c: Core, t: Tid, newState: ThreadState, cause: Cause, boost: bool, now: nat)
    requires Inv(s) && newState in {STOPPED, EXITED}
    ensures c in s.cores && s.cores[c].point != Switching ==> Enabled(s, DoYield(c, cause, boost, now))
    ensures c in s.cores && s.cores[c].point == Switching ==> Enabled(s, DoGain(c))
    ensures c in s.cores && s.cores[c].point == Run ==>
              s.cores[c].current in s.tcbs
              && (s.tcbs[s.cores[c].current].kind == NORMAL_THREAD ==> Enabled(s, DoSleep(c, newState, now, now)))
    ensures t in s.tcbs <==> Enabled(s, DoWakeup(t))
    ensures t !in s.tcbs <==> Enabled(s, DoSpawn(t))
  {
    if c in s.cores { assert CoreOk(s, s.cores[c]); }
  }

  // wakeup makes a STOPPED or INIT thread READY, and does nothing to another.
  lemma WakeupTakesEffect(s: State, t: Tid, u: Tid)
    requires Inv(s) && t in s.tcbs
    ensures Enabled(s, DoWakeup(t))
    ensures var s', v := Next(s, DoWakeup(t)), s.tcbs[t];
            && t in s'.tcbs
            && (if v.state == STOPPED || v.state == INIT
                then s'.tcbs[t] == v.(state := READY, wakeupTime := NO_TIMEOUT) else s' == s)
            && (u != t ==> (u in s'.tcbs <==> u in s.tcbs) && (u in s.tcbs ==> s'.tcbs[u] == s.tcbs[u]))
  {
  }

  // The section of sleep_releasing puts the current thread to sleep, due when the
  // clock, on 64 bits, has moved on by the timeout; nobody else's entry changes.
  lemma SleepTakesEffect(s: State, c: Core, newState: ThreadState, timeout: nat, now: nat, u: Tid)
    requires Inv(s) && Enabled(s, DoSleep(c, newState, timeout, now))
    ensures var s', t := Next(s, DoSleep(c, newState, timeout, now)), s.cores[c].current;
            && t in s'.tcbs && s'.tcbs[t].state == newState
            && s'.tcbs[t].wakeupTime ==
                 (if newState == STOPPED && timeout != NO_TIMEOUT then (now + timeout) % CLOCK_RANGE else NO_TIMEOUT)
            && s'.tcbs[t].priority == s.tcbs[t].priority && s'.tcbs[t].phase == s.tcbs[t].phase
            && c in s'.cores && s'.cores[c] == s.cores[c].(point := Yielding)
            && (u != t ==> (u in s'.tcbs <==> u in s.tcbs) && (u in s.tcbs ==> s'.tcbs[u] == s.tcbs[u]))
            && s'.sched == s.sched
  {
    SleepKeepsInvIff(s, c, newState, timeout, now);
    assert CoreOk(s, s.cores[c]) && ThreadOk(s, s.cores[c].current);
  }

  // The action ends the sleep of t that is due at `due`.
  predicate EndsSleep(a: Action, t: Tid, due: nat)
  {
    a == DoWakeup(t) || (a.DoYield? && due != NO_TIMEOUT && due <= a.now)
  }

  predicate SleepsUntil(s: State, t: Tid, due: nat)
  {
    t in s.tcbs && s.tcbs[t].state == STOPPED && s.tcbs[t].wakeupTime == due
  }

  // A sleeper becomes READY by its own wakeup, or by the first yield that finds
  // its time come, and by nothing else.
  lemma SleeperStep(s: State, a: Action, t: Tid, due: nat)
    requires Inv(s) && Enabled(s, a) && SleepsUntil(s, t, due)
    ensures if EndsSleep(a, t, due)
            then t in Next(s, a).tcbs
                 && Next(s, a).tcbs[t].state == READY && Next(s, a).tcbs[t].wakeupTime == NO_TIMEOUT
            else SleepsUntil(Next(s, a), t, due)
  {
    match a
    case DoYield(c, cause, boost, now) => YieldOf(s, c, cause, boost, now, t);
    case DoGain(c) => GainDefined(s, c);
    case DoSleep(c, newState, timeout, now) =>
      SleepKeepsInvIff(s, c, newState, timeout, now);
      assert CoreOk(s, s.cores[c]);
    case _ =>
  }

  lemma {:induction false} SleeperSleepsOn(states: seq<State>, actions: seq<Action>, i: nat, j: nat, t: Tid, due: nat)
    requires Reached(states, actions, j) && i <= j && SleepsUntil(states[i], t, due)
    requires forall k :: i <= k < j ==> !EndsSleep(actions[k], t, due)
    ensures SleepsUntil(states[j], t, due)
  {
    if i < j {
      assert Reached(states, actions, j - 1);
      SleeperSleepsOn(states, actions, i, j - 1, t, due);
      RunsKeepInv(states, actions, j - 1);
      assert StepAt(states, actions, j - 1);
      SleeperStep(states[j - 1], actions[j - 1], t, due);
    }
  }

  // A sleep that begins at `now` lasts until somebody wakes the thread, or until
  // the first yield of any core at which the clock has come to now + timeout;
  // without a timeout, until somebody wakes it.
  lemma SleepLastsItsTimeout(states: seq<State>, actions: seq<Action>, i: nat, j: nat, t: Tid)
    requires i < j < |actions| && Reached(states, actions, j) && actions[i].DoSleep? && actions[i].newState == STOPPED
    requires actions[i].c in states[i].cores && t == states[i].cores[actions[i].c].current
    requires actions[i].timeout != NO_TIMEOUT ==> actions[i].now + actions[i].timeout < NO_TIMEOUT
    requires forall k :: i < k < j ==> !EndsSleep(actions[k], t, DueAt(actions[i]))
    ensures t in states[j].tcbs && states[j].tcbs[t].state == STOPPED
    ensures t in states[j + 1].tcbs
    ensures states[j + 1].tcbs[t].state == READY <==> EndsSleep(actions[j], t, DueAt(actions[i]))
    ensures states[j + 1].tcbs[t].state == STOPPED <==> !EndsSleep(actions[j], t, DueAt(actions[i]))
  {
    var a := actions[i];
    RunsKeepInv(states, actions, i);
    assert StepAt(states, actions, i);
    SleepTakesEffect(states[i], a.c, a.newState, a.timeout, a.now, t);
    SleeperSleepsOn(states, actions, i + 1, j, t, DueAt(a));
    RunsKeepInv(states, actions, j);
    assert StepAt(states, actions, j);
    SleeperStep(states[j], actions[j], t, DueAt(a));
  }

  function DueAt(a: Action): nat
    requires a.DoSleep?
  {
    if a.timeout == NO_TIMEOUT then NO_TIMEOUT else a.now + a.timeout
  }

  // A TCB disappears only when gain releases an EXITED thread, on the core
  // that has just switched away from it.  Once gone it cannot go again.
  lemma ReleasedOnlyByGain(s: State, a: Action, t: Tid)
    requires Inv(s) && Enabled(s, a) && t in s.tcbs
    ensures t !in Next(s, a).tcbs <==>
            a.DoGain? && s.cores[a.c].previous == t && s.cores[a.c].current != t && s.tcbs[t].state == EXITED
  {
    match a
    case DoYield(c, cause, boost, now) => YieldOf(s, c, cause, boost, now, t);
    case DoGain(c) => GainDefined(s, c);
    case DoSleep(c, newState, timeout, now) => SleepKeepsInvIff(s, c, newState, timeout, now);
    case _ =>
  }

  // An EXITED thread never runs again, and its core has no choice but to
  // switch away and release it.
  lemma ExitedStaysUntilReleased(s: State, a: Action, t: Tid)
    requires Inv(s) && Enabled(s, a) && t in s.tcbs && s.tcbs[t].state == EXITED
    ensures t in Next(s, a).tcbs ==> Next(s, a).tcbs[t].state == EXITED
    ensures exists c :: c in s.cores && Holds(s.cores[c], t) && s.cores[c].point != Run
                        && (s.cores[c].point == Switching ==> s.cores[c].current != t)
  {
    assert ThreadOk(s, t);
    var d :| d in s.cores && Holds(s.cores[d], t);
    assert CoreOk(s, s.cores[d]);
    match a
    case DoYield(c, cause, boost, now) => YieldOf(s, c, cause, boost, now, t);
    case DoGain(c) =>
      GainDefined(s, c);
      if c != d { assert Apart(s.cores[c], s.cores[d]); }
    case DoSleep(c, newState, timeout, now) =>
      SleepKeepsInvIff(s, c, newState, timeout, now);
      assert CoreOk(s, s.cores[c]);
    case _ =>
  }

  // --------------------------------------------------------------------
  // Priorities and selection
  // --------------------------------------------------------------------

  // Using up the quantum lowers the priority unless it is 0 already; there it
  // raises it.
  lemma QuantumLowersIffPositive(v: Tcb)
    ensures AdjustedPriority(v, SCHED_QUANTUM) < v.priority <==> v.priority > 0
    ensures v.priority == 0 ==> AdjustedPriority(v, SCHED_QUANTUM) == 1
  {
  }

  // SCHED_IO raises the priority unless it is at the top; there it falls into
  // the SCHED_MUTEX case, and lowers it just after a SCHED_MUTEX.
  lemma IoRaisesIffBelowTop(v: Tcb)
    ensures AdjustedPriority(v, SCHED_IO) > v.priority <==> v.priority < MAX_PRIORITIES - 1
    ensures AdjustedPriority(v, SCHED_IO) < v.priority <==>
            v.priority == MAX_PRIORITIES - 1 && v.lastCause == SCHED_MUTEX
  {
  }

  // For every cause: the priority moves by one level at most, and up or down just
  // when it says here.  At priority 0 the quantum counts as I/O, and at the top
  // I/O counts as a wait for a mutex, which is lowered the second time running.
  lemma PriorityMovesIff(v: Tcb, cause: Cause)
    ensures var p, q := v.priority, AdjustedPriority(v, cause);
            && q - 1 <= p <= q + 1
            && (q == p + 1 <==> (cause == SCHED_IO && p < MAX_PRIORITIES - 1) || (cause == SCHED_QUANTUM && p == 0))
            && (q == p - 1 <==>
                  || (cause == SCHED_QUANTUM && p > 0)
                  || (cause == SCHED_IO && p == MAX_PRIORITIES - 1 && v.lastCause == SCHED_MUTEX)
                  || (cause == SCHED_MUTEX && p > 0 && v.lastCause == SCHED_MUTEX))
  {
  }

  // What yield writes in the entries, besides states and wakeup times: the
  // priority and the causes of the thread that yields, and with a boost one level
  // more for those queued below the top.
  lemma YieldWrites(s: State, c: Core, cause: Cause, boost: bool, now: nat, u: Tid)
    requires Inv(s) && Enabled(s, DoYield(c, cause, boost, now)) && u in s.tcbs
    ensures var s', t := Next(s, DoYield(c, cause, boost, now)), s.cores[c].current;
            && u in s'.tcbs
            && (u == t ==>
                  && s'.tcbs[t].lastCause == s.tcbs[t].currCause && s'.tcbs[t].currCause == cause
                  && s'.tcbs[t].priority == AdjustedPriority(s.tcbs[t], cause))
            && (u != t ==>
                  && s'.tcbs[u].lastCause == s.tcbs[u].lastCause && s'.tcbs[u].currCause == s.tcbs[u].currCause
                  && s'.tcbs[u].priority == s.tcbs[u].priority +
                       if boost && BelowTop(s.sched, u) then 1 else 0)
  {
    DemoteKeepsInv(s, c, cause);
    var s1 := Demote(s, c, cause);
    assert s1.sched == s.sched;
    if boost { BoostKeepsInv(s1); }
    CurrentIsNotQueued(s, c);
    var s2 := YieldBegin(s, c, cause, boost);
    WakeExpiredKeepsInv(s2, now);
    ExpiryOf(s2, now, u);
  }

  lemma CurrentIsNotQueued(s: State, c: Core)
    requires Inv(s) && c in s.cores && s.cores[c].point != Switching
    ensures !BelowTop(s.sched, s.cores[c].current)
  {
    var t := s.cores[c].current;
    assert CoreOk(s, s.cores[c]);
    forall i | 0 <= i < MAX_PRIORITIES - 1
      ensures t !in s.sched[i]
    {
      QueuedAreQueueable(s, i, t);
    }
  }

  lemma QueuedAreQueueable(s: State, i: nat, t: Tid)
    requires Inv(s) && i < MAX_PRIORITIES
    ensures t in s.sched[i] ==> Queueable(s, t)
  {
    assert InQueue(s, i, t) <==> t in s.sched[i];
  }

  // With every queue empty a READY thread goes on, and otherwise the core's idle
  // thread runs.
  lemma EmptyQueuesSelect(s: State, c: Core)
    requires c in s.cores && s.cores[c].current in s.tcbs
    requires forall j :: 0 <= j < MAX_PRIORITIES ==> s.sched[j] == []
    ensures var s', k := Select(s, c), s.cores[c];
            && s'.cores[c].current == (if s.tcbs[k.current].state == READY then k.current else k.idle)
            && s'.sched == s.sched && s'.tcbs == s.tcbs
  {
  }

  // The boost lifts every queued thread one level, the top excepted, and moves
  // nobody else.
  lemma BoostLiftsOneLevel(s: State, i: nat, t: Tid)
    requires Inv(s) && i < MAX_PRIORITIES && BoostOk(s)
    ensures InQueue(s, i, t) ==> InQueue(Boost(s), if i < MAX_PRIORITIES - 1 then i + 1 else i, t)
    ensures InQueue(Boost(s), i, t) ==> exists j :: 0 <= j <= i && i - 1 <= j && InQueue(s, j, t)
  {
    BoostMembers(s, i, t);
    if i < MAX_PRIORITIES - 1 { BoostMembers(s, i + 1, t); }
    if InQueue(Boost(s), i, t) && i > 0 && InQueue(s, i - 1, t) {
      assert 0 <= i - 1 <= i;
    }
  }

  // It turns each queue round as it moves it up; at the top, those that come stand
  // before those that were there.
  lemma BoostTurnsQueuesRound(s: State, i: nat, k: nat)
    requires BoostOk(s) && i < MAX_PRIORITIES - 1 && k < |Boost(s).sched[i + 1]|
    ensures var q, n := Boost(s).sched[i + 1], |s.sched[i]|;
            && |q| == n + (if i + 1 == MAX_PRIORITIES - 1 then |s.sched[i + 1]| else 0)
            && q[k] == (if k < n then s.sched[i][n - 1 - k] else s.sched[i + 1][k - n])
    ensures Boost(s).sched[0] == []
  {
  }

  // Who is in some queues, and how often.
  function Queued(qs: seq<seq<Tid>>): multiset<Tid>
  {
    if qs == [] then multiset{} else Queued(qs[..|qs| - 1]) + multiset(qs[|qs| - 1])
  }

  lemma QueuedMore(qs: seq<seq<Tid>>, n: nat)
    requires n < |qs|
    ensures Queued(qs[..n + 1]) == Queued(qs[..n]) + multiset(qs[n])
  {
    assert qs[..n + 1][..n] == qs[..n];
  }

  lemma {:induction false} BoostShiftsQueued(s: State, n: nat)
    requires BoostOk(s) && 0 < n < MAX_PRIORITIES
    ensures Queued(Boost(s).sched[..n]) == Queued(s.sched[..n - 1])
  {
    var sched := Boost(s).sched;
    QueuedMore(sched, n - 1);
    if n > 1 {
      BoostShiftsQueued(s, n - 1);
      ReverseKeepsAll(s.sched[n - 2]);
      QueuedMore(s.sched, n - 2);
    } else {
      assert sched[..0] == [] && s.sched[..0] == [];
    }
  }

  lemma TopTakesTheNext(s: State, top: nat)
    requires BoostOk(s) && top == MAX_PRIORITIES - 1
    ensures multiset(Boost(s).sched[top]) == multiset(s.sched[top - 1]) + multiset(s.sched[top])
  {
    ReverseKeepsAll(s.sched[top - 1]);
    assert Boost(s).sched[top] == BoostedLevel(s.sched, top);
  }

  // It loses and duplicates nobody: taken together, the queues hold whom they
  // held, as often.
  lemma BoostKeepsEverybody(s: State)
    requires BoostOk(s)
    ensures Queued(Boost(s).sched) == Queued(s.sched)
  {
    var top := MAX_PRIORITIES - 1;
    BoostShiftsQueued(s, top);
    TopTakesTheNext(s, top);
    QueuedMore(s.sched, top - 1);
  }

  // The selection is the first thread of the highest non-empty queue, even
  // when the current thread is READY and has a higher priority.
  lemma SelectionIsHeadOfHighest(s: State, c: Core, i: nat)
    requires c in s.cores && s.cores[c].current in s.tcbs && i < MAX_PRIORITIES && s.sched[i] != []
    requires forall j :: i < j < MAX_PRIORITIES ==> s.sched[j] == []
    ensures Select(s, c).cores[c].current == s.sched[i][0]
    ensures Select(s, c).sched == s.sched[i := s.sched[i][1..]]
  {
    var top := TopLevel(s.sched, MAX_PRIORITIES);
    assert top == i;
  }
}
