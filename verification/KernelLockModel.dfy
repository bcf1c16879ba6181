/**
 The kernel lock: a semaphore kept as a monitor over kernel_mutex, and the waits
 that give it up.

 A condition variable is here the queue of its sleeping waiters, which is what
 CondVarRuns.ConditionsAreMonitorQueues shows it to be.  An action is the code
 between two points where another thread can take effect.
 */
module KernelLockModel {
  import opened Sequences

  type Tid = nat
  type Chan = nat

  // What a thread gives up the kernel lock for.
  datatype Goal = Unlocking | WaitingOn(chan: Chan, timed: bool) | Ending

  datatype Phase =
    | Outside
    | Testing(ret: bool)                 // has kernel_mutex; at the test of kernel_sem
    | Queued(ret: bool)                  // asleep on kernel_sem_cv
    | Signalled(ret: bool)               // woken from kernel_sem_cv; wants kernel_mutex
    | Holding(ret: bool)                 // has the kernel lock
    | Released(goal: Goal)               // has kernel_mutex and has raised kernel_sem
    | Leaving(goal: Goal)                // has kernel_mutex and has signalled kernel_sem_cv
    | Joined(chan: Chan, timed: bool)    // on the channel, with its waitset_lock and kernel_mutex
    | Waiting(chan: Chan, timed: bool)   // asleep on the channel
    | Woken(ret: bool)                   // woken from the channel; wants kernel_mutex
    | Asleep                             // in kernel_sleep

  datatype State = State(
    sem: int,
    mutex: Option<Tid>,
    queue: seq<Tid>,               // kernel_sem_cv
    chans: map<Chan, seq<Tid>>,    // every other condition variable of the kernel
    phases: seq<Phase>)

  datatype Action =
    | Enter(t: Tid)                // kernel_lock
    | Retake(t: Tid)               // back from a wait, with kernel_mutex again
    | Test(t: Tid)                 // while(kernel_sem<=0) Cond_Wait; kernel_sem--
    | Release(t: Tid, goal: Goal)  // kernel_unlock, kernel_wait_wchan, kernel_sleep
    | SignalSem(t: Tid)
    | Leave(t: Tid)
    | Drop(t: Tid)                 // cv_wait drops kernel_mutex and sleeps
    | Signal(t: Tid, c: Chan)      // kernel_signal
    | Broadcast(t: Tid, c: Chan)   // kernel_broadcast
    | Timeout(t: Tid)

  function On(s: State, c: Chan): seq<Tid>
  {
    if c in s.chans then s.chans[c] else []
  }

  predicate HasMutex(p: Phase)
  {
    p.Testing? || p.Released? || p.Leaving? || p.Joined?
  }

  predicate OnChan(p: Phase, c: Chan)
  {
    (p.Joined? || p.Waiting?) && p.chan == c
  }

  // A thread that has joined c has its waitset_lock until it sleeps.
  predicate WaitsetFree(s: State, c: Chan)
  {
    forall t :: 0 <= t < |s.phases| ==> s.phases[t].Joined? ==> s.phases[t].chan != c
  }

  predicate Enabled(s: State, a: Action)
  {
    a.t < |s.phases| &&
    var p := s.phases[a.t];
    match a
    case Enter(_) => p.Outside? && s.mutex == None
    case Retake(_) => (p.Signalled? || p.Woken?) && s.mutex == None
    case Test(_) => p.Testing?
    case Release(_, _) => p.Holding? && s.mutex == None
    case SignalSem(_) => p.Released?
    case Leave(_) => p.Leaving?
    case Drop(_) => p.Joined?
    case Signal(_, c) => p.Holding? && WaitsetFree(s, c)
    case Broadcast(_, c) => p.Holding? && WaitsetFree(s, c)
    case Timeout(_) => p.Waiting? && p.timed
  }

  function At(s: State, t: Tid, p: Phase): State
    requires t < |s.phases|
  {
    s.(phases := s.phases[t := p])
  }

  // Every thread of q is woken from its channel by a signal.
  function Wake(s: State, q: seq<Tid>): State
  {
    s.(phases := seq(|s.phases|, t requires 0 <= t < |s.phases| => if t in q then Woken(true) else s.phases[t]))
  }

  function DoTest(s: State, t: Tid): State
    requires t < |s.phases| && s.phases[t].Testing?
  {
    if s.sem <= 0 then
      At(s, t, Queued(s.phases[t].ret)).(queue := s.queue + [t], mutex := None)
    else
      At(s, t, Holding(s.phases[t].ret)).(sem := s.sem - 1, mutex := None)
  }

  function DoSignalSem(s: State, t: Tid): State
    requires t < |s.phases| && s.phases[t].Released?
  {
    var s' := At(s, t, Leaving(s.phases[t].goal));
    if s.queue != [] && s.queue[0] < |s.phases| && s.phases[s.queue[0]].Queued? then
      s'.(queue := s.queue[1..], phases := s'.phases[s.queue[0] := Signalled(s.phases[s.queue[0]].ret)])
    else
      s'
  }

  function DoLeave(s: State, t: Tid): State
    requires t < |s.phases| && s.phases[t].Leaving?
  {
    match s.phases[t].goal
    case Unlocking => At(s, t, Outside).(mutex := None)
    case Ending => At(s, t, Asleep).(mutex := None)
    case WaitingOn(c, timed) => At(s, t, Joined(c, timed)).(chans := s.chans[c := On(s, c) + [t]])
  }

  function Next(s: State, a: Action): State
    requires Enabled(s, a)
  {
    var t := a.t;
    match a
    case Enter(_) => At(s, t, Testing(false)).(mutex := Some(t))
    case Retake(_) => At(s, t, Testing(s.phases[t].ret)).(mutex := Some(t))
    case Test(_) => DoTest(s, t)
    case Release(_, goal) => At(s, t, Released(goal)).(sem := s.sem + 1, mutex := Some(t))
    case SignalSem(_) => DoSignalSem(s, t)
    case Leave(_) => DoLeave(s, t)
    case Drop(_) => At(s, t, Waiting(s.phases[t].chan, s.phases[t].timed)).(mutex := None)
    case Signal(_, c) =>
      if On(s, c) == [] then s else Wake(s, On(s, c)[..1]).(chans := s.chans[c := On(s, c)[1..]])
    case Broadcast(_, c) => Wake(s, On(s, c)).(chans := s.chans[c := []])
    case Timeout(_) =>
      var c := s.phases[t].chan;
      At(s, t, Woken(false)).(chans := s.chans[c := Remove(On(s, c), t)])
  }

  predicate Init(s: State)
  {
    && s.sem == 1 && s.mutex == None && s.queue == [] && s.chans == map[]
    && forall t :: 0 <= t < |s.phases| ==> s.phases[t] == Outside
  }

  ghost predicate Run(states: seq<State>, actions: seq<Action>)
  {
    && |states| == |actions| + 1 && Init(states[0])
    && forall i :: 0 <= i < |actions| ==> Enabled(states[i], actions[i]) && states[i + 1] == Next(states[i], actions[i])
  }

  // --- the invariant

  function Holders(s: State): set<Tid>
  {
    set t | 0 <= t < |s.phases| && s.phases[t].Holding?
  }

  predicate MutexOk(s: State)
  {
    && (s.mutex.Some? ==> s.mutex.value < |s.phases| && HasMutex(s.phases[s.mutex.value]))
    && (forall t :: 0 <= t < |s.phases| ==> HasMutex(s.phases[t]) ==> s.mutex == Some(t))
  }

  ghost predicate QueueOk(s: State)
  {
    Distinct(s.queue) && forall t: Tid :: t in s.queue <==> (t < |s.phases| && s.phases[t].Queued?)
  }

  ghost predicate ChanOk(s: State, c: Chan)
  {
    Distinct(On(s, c)) && forall t: Tid :: t in On(s, c) <==> (t < |s.phases| && OnChan(s.phases[t], c))
  }

  predicate SemOk(s: State)
  {
    s.sem >= 0 && s.sem + |Holders(s)| == 1
  }

  // Whoever gives up the kernel lock finds nobody else holding it until it has
  // dropped kernel_mutex.
  predicate Releasing(p: Phase)
  {
    p.Released? || p.Leaving? || p.Joined?
  }

  predicate ReleasingOk(s: State)
  {
    s.mutex.Some? && s.mutex.value < |s.phases| && Releasing(s.phases[s.mutex.value]) ==> s.sem == 1
  }

  ghost predicate Awaited(s: State)
  {
    exists t :: 0 <= t < |s.phases| && s.phases[t].Signalled?
  }

  predicate MutexHolderServes(s: State)
  {
    s.mutex.Some? && s.mutex.value < |s.phases| &&
    (s.phases[s.mutex.value].Testing? || s.phases[s.mutex.value].Released?)
  }

  ghost predicate ServedOk(s: State)
  {
    s.sem == 1 && s.queue != [] ==> Awaited(s) || MutexHolderServes(s)
  }

  ghost predicate Inv(s: State)
  {
    && MutexOk(s) && QueueOk(s) && SemOk(s) && ReleasingOk(s) && ServedOk(s)
    && forall c :: ChanOk(s, c)
  }
}
