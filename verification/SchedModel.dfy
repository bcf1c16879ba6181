/**
 The scheduler as a state machine.

 One action is one critical section under the scheduler's spinlock; the
 actions of any number of cores interleave freely.  Between the sections a
 core is at one of three points: running its current thread, about to yield
 after putting it to sleep, or switching from one thread to the next.
 */
module SchedModel {
  import opened Sequences

  const MAX_PRIORITIES: nat := 1000
  const CLOCK_RANGE: nat := 0x1_0000_0000_0000_0000
  const NO_TIMEOUT: nat := CLOCK_RANGE - 1

  // A priority, and the queues SCHED[0..MAX_PRIORITIES].
  type Level = p: nat | p < MAX_PRIORITIES
  type Queues = q: seq<seq<Tid>> | |q| == MAX_PRIORITIES witness seq(MAX_PRIORITIES, i => [])

  type Tid = nat
  type Core = nat

  datatype ThreadState = INIT | READY | RUNNING | STOPPED | EXITED
  datatype Phase = CTX_CLEAN | CTX_DIRTY
  datatype ThreadType = IDLE_THREAD | NORMAL_THREAD
  datatype Cause = SCHED_QUANTUM | SCHED_IO | SCHED_MUTEX | SCHED_PIPE | SCHED_POLL | SCHED_IDLE | SCHED_USER

  datatype Tcb = Tcb(kind: ThreadType, state: ThreadState, phase: Phase, priority: Level, wakeupTime: nat,
                     lastCause: Cause, currCause: Cause)

  datatype Point = Run | Yielding | Switching

  datatype CoreState = CoreState(current: Tid, previous: Tid, idle: Tid, point: Point)

  datatype State = State(tcbs: map<Tid, Tcb>, sched: Queues, timeouts: seq<Tid>, cores: map<Core, CoreState>)

  // --------------------------------------------------------------------
  // The critical sections
  // --------------------------------------------------------------------

  function Put(s: State, t: Tid, v: Tcb): State
  {
    s.(tcbs := s.tcbs[t := v])
  }

  // sched_queue_add
  function QueueAdd(s: State, t: Tid): State
    requires t in s.tcbs
  {
    var p := s.tcbs[t].priority;
    s.(sched := s.sched[p := s.sched[p] + [t]])
  }

  // sched_make_ready
  function MakeReady(s: State, t: Tid): State
    requires t in s.tcbs
  {
    var v := s.tcbs[t];
    var s1 := if v.wakeupTime != NO_TIMEOUT then s.(timeouts := Remove(s.timeouts, t)) else s;
    var s2 := Put(s1, t, v.(wakeupTime := NO_TIMEOUT, state := READY));
    if v.phase == CTX_CLEAN then QueueAdd(s2, t) else s2
  }

  predicate Asleep(v: Tcb)
  {
    v.state == STOPPED || v.state == INIT
  }

  // wakeup
  function Wakeup(s: State, t: Tid): State
    requires t in s.tcbs
  {
    if Asleep(s.tcbs[t]) then MakeReady(s, t) else s
  }

  // The place sched_register_timeout inserts at: after the entries that are not later.
  function InsertSorted(q: seq<Tid>, t: Tid, w: nat, tcbs: map<Tid, Tcb>): seq<Tid>
    requires forall u :: u in q ==> u in tcbs
  {
    if q == [] then [t]
    else if w < tcbs[q[0]].wakeupTime then [t] + q
    else [q[0]] + InsertSorted(q[1..], t, w, tcbs)
  }

  // sched_register_timeout; the clock is a 64-bit counter
  function RegisterTimeout(s: State, t: Tid, timeout: nat, now: nat): State
    requires t in s.tcbs && forall u :: u in s.timeouts ==> u in s.tcbs
  {
    if timeout == NO_TIMEOUT then s
    else
      var w := (now + timeout) % CLOCK_RANGE;
      Put(s, t, s.tcbs[t].(wakeupTime := w)).(timeouts := InsertSorted(s.timeouts, t, w, s.tcbs))
  }

  // The critical section of sleep_releasing, on core c
  function Sleep(s: State, c: Core, newState: ThreadState, timeout: nat, now: nat): State
    requires c in s.cores && s.cores[c].current in s.tcbs
    requires forall u :: u in s.timeouts ==> u in s.tcbs
  {
    var t := s.cores[c].current;
    var s1 := Put(s, t, s.tcbs[t].(state := newState)).(cores := s.cores[c := s.cores[c].(point := Yielding)]);
    if newState != EXITED then RegisterTimeout(s1, t, timeout, now) else s1
  }

  // The switch in yield: QUANTUM falls into IO at priority 0, IO falls into
  // MUTEX at the top priority.
  function AdjustedPriority(v: Tcb, cause: Cause): Level
  {
    var p := v.priority;
    match cause
    case SCHED_QUANTUM => if p > 0 then p - 1 else if p < MAX_PRIORITIES - 1 then p + 1 else AfterMutex(v)
    case SCHED_IO => if p < MAX_PRIORITIES - 1 then p + 1 else AfterMutex(v)
    case SCHED_MUTEX => AfterMutex(v)
    case _ => p
  }

  function AfterMutex(v: Tcb): Level
  {
    if v.lastCause == SCHED_MUTEX && v.priority > 0 then v.priority - 1 else v.priority
  }

  // What the boost loop leaves at each level.
  function BoostedLevel(sched: Queues, i: nat): seq<Tid>
    requires i < MAX_PRIORITIES
  {
    if i == 0 then []
    else if i < MAX_PRIORITIES - 1 then Reverse(sched[i - 1])
    else Reverse(sched[i - 1]) + sched[i]
  }

  ghost predicate BelowTop(sched: Queues, t: Tid)
  {
    exists i :: 0 <= i < MAX_PRIORITIES - 1 && t in sched[i]
  }

  ghost function Boost(s: State): State
    requires forall t :: t in s.tcbs && BelowTop(s.sched, t) ==> s.tcbs[t].priority < MAX_PRIORITIES - 1
  {
    s.(sched := seq(MAX_PRIORITIES, i requires 0 <= i < MAX_PRIORITIES => BoostedLevel(s.sched, i)),
       tcbs := map t | t in s.tcbs ::
         if BelowTop(s.sched, t) then s.tcbs[t].(priority := s.tcbs[t].priority + 1) else s.tcbs[t])
  }

  // The first part of yield: priority, state and causes of the current thread
  function Demote(s: State, c: Core, cause: Cause): State
    requires c in s.cores && s.cores[c].current in s.tcbs
  {
    var t := s.cores[c].current;
    var v := s.tcbs[t];
    var v' := v.(priority := AdjustedPriority(v, cause), state := if v.state == RUNNING then READY else v.state,
                 lastCause := v.currCause, currCause := cause);
    Put(s, t, v').(cores := s.cores[c := s.cores[c].(point := Yielding)])
  }

  // sched_wakeup_expired_timeouts
  ghost function WakeExpired(s: State, now: nat): State
    requires Distinct(s.timeouts)
    requires forall u :: u in s.timeouts ==> u in s.tcbs && s.tcbs[u].wakeupTime != NO_TIMEOUT
    decreases |s.timeouts|
  {
    if s.timeouts == [] || s.tcbs[s.timeouts[0]].wakeupTime > now then s
    else
      var s1 := MakeReady(s, s.timeouts[0]);
      assert s1.timeouts == s.timeouts[1..];
      WakeExpired(s1, now)
  }

  // The highest level with a thread, or -1
  function TopLevel(sched: Queues, n: nat): (i: int)
    requires n <= MAX_PRIORITIES
    ensures -1 <= i < n
    ensures i >= 0 ==> sched[i] != []
    ensures forall j :: i < j < n ==> sched[j] == []
  {
    if n == 0 then -1 else if sched[n - 1] != [] then n - 1 else TopLevel(sched, n - 1)
  }

  // sched_queue_select
  function Selected(s: State, c: Core): Tid
    requires c in s.cores && s.cores[c].current in s.tcbs
  {
    var i := TopLevel(s.sched, MAX_PRIORITIES);
    if i != -1 then s.sched[i][0]
    else if s.tcbs[s.cores[c].current].state == READY then s.cores[c].current
    else s.cores[c].idle
  }

  function Select(s: State, c: Core): State
    requires c in s.cores && s.cores[c].current in s.tcbs
  {
    var i := TopLevel(s.sched, MAX_PRIORITIES);
    var k := s.cores[c];
    var s1 := if i != -1 then s.(sched := s.sched[i := s.sched[i][1..]]) else s;
    s1.(cores := s.cores[c := k.(current := Selected(s, c), previous := k.current, point := Switching)])
  }

  // gain: what becomes of the thread that has left its core
  function Left(s: State, p: Tid): State
    requires p in s.tcbs
  {
    var s1 := Put(s, p, s.tcbs[p].(phase := CTX_CLEAN));
    match s.tcbs[p].state
    case EXITED => s.(tcbs := s.tcbs - {p})
    case READY => if s.tcbs[p].kind != IDLE_THREAD then QueueAdd(s1, p) else s1
    case _ => s1
  }

  // gain
  function Gain(s: State, c: Core): State
    requires c in s.cores && s.cores[c].current in s.tcbs && s.cores[c].previous in s.tcbs
  {
    var k := s.cores[c];
    var s1 := Put(s, k.current, s.tcbs[k.current].(state := RUNNING, phase := CTX_DIRTY))
              .(cores := s.cores[c := k.(point := Run)]);
    if k.current == k.previous then s1 else Left(s1, k.previous)
  }

  // spawn_thread
  function Spawn(s: State, t: Tid): State
  {
    Put(s, t, Tcb(NORMAL_THREAD, INIT, CTX_CLEAN, MAX_PRIORITIES - 1, NO_TIMEOUT, SCHED_IDLE, SCHED_IDLE))
  }

  // run_scheduler, when core c enters with its idle thread
  function Boot(s: State, c: Core, idle: Tid): State
  {
    Put(s, idle, Tcb(IDLE_THREAD, RUNNING, CTX_DIRTY, 0, NO_TIMEOUT, SCHED_IDLE, SCHED_IDLE))
      .(cores := s.cores[c := CoreState(idle, idle, idle, Run)])
  }

  // initialize_scheduler
  function Initial(): State
  {
    State(map[], seq(MAX_PRIORITIES, i => []), [], map[])
  }
}
