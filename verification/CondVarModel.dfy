/**
 Condition variables as a state machine.

 An action is the piece of cv_wait or cv_signal between two points where
 another thread can take effect: taking or dropping the mutex or the
 waitset_lock, waking a thread in the scheduler, writing a flag of a waiter
 record.  Any number of threads, mutexes and condition variables interleave.
 */
module CondVarModel {
  import opened Sequences

  type Tid = nat
  type Cv = nat
  type Mx = nat

  // A __cv_waiter record; `woken` is history: a signaller's wakeup succeeded.
  datatype Waiter = Waiter(signalled: bool, removed: bool, woken: bool)

  // Where a thread is.  `start` is history: the ring when the signaller locked it.
  datatype Pc =
    | Idle
    | Pushed(cv: Cv, mx: Mx, timed: bool)      // in the ring; holds waitset_lock and the mutex
    | Released(cv: Cv, mx: Mx, timed: bool)    // the mutex dropped; still holds waitset_lock
    | Sleeping(cv: Cv, mx: Mx, timed: bool)    // in sleep_releasing
    | Tidied(cv: Cv, mx: Mx, timed: bool)      // out of the ring; must take the mutex again
    | Scan(cv: Cv, all: bool, start: seq<Tid>)             // at the head of cv_signal's loop
    | Picked(cv: Cv, all: bool, start: seq<Tid>, w: Tid)   // has removed w from the ring
    | Woke(cv: Cv, all: bool, start: seq<Tid>, w: Tid)     // wakeup(w) returned 1
    | Leaving(cv: Cv, start: seq<Tid>, w: Tid)             // cv_signal has signalled w

  datatype State = State(
    pc: map<Tid, Pc>,
    rec: map<Tid, Waiter>,
    ring: map<Cv, seq<Tid>>,          // cv->waitset, from its first waiter
    wlock: map<Cv, Option<Tid>>,      // cv->waitset_lock
    mutex: map<Mx, Option<Tid>>,
    stopped: set<Tid>)                // the waiters the scheduler has STOPPED

  function PcOf(s: State, t: Tid): Pc
  {
    if t in s.pc then s.pc[t] else Idle
  }

  function RecOf(s: State, t: Tid): Waiter
  {
    if t in s.rec then s.rec[t] else Waiter(false, false, false)
  }

  function RingOf(s: State, cv: Cv): seq<Tid>
  {
    if cv in s.ring then s.ring[cv] else []
  }

  function LockOf(s: State, cv: Cv): Option<Tid>
  {
    if cv in s.wlock then s.wlock[cv] else None
  }

  function MutexOf(s: State, mx: Mx): Option<Tid>
  {
    if mx in s.mutex then s.mutex[mx] else None
  }

  datatype Action =
    | Lock(t: Tid, mx: Mx)
    | Unlock(t: Tid, mx: Mx)
    | BeginWait(t: Tid, cv: Cv, mx: Mx, timed: bool)
    | DropMutex(t: Tid)
    | GoToSleep(t: Tid)
    | Timeout(t: Tid)
    | Tidy(t: Tid)
    | Relock(t: Tid)
    | BeginSignal(t: Tid, cv: Cv, all: bool)
    | Pick(t: Tid)
    | Wake(t: Tid)
    | Mark(t: Tid)
    | EndSignal(t: Tid)

  predicate Enabled(s: State, a: Action)
  {
    match a
    case Lock(t, mx) => PcOf(s, t).Idle? && MutexOf(s, mx) == None
    case Unlock(t, mx) => PcOf(s, t).Idle? && MutexOf(s, mx) == Some(t)
    case BeginWait(t, cv, mx, timed) => PcOf(s, t).Idle? && MutexOf(s, mx) == Some(t) && LockOf(s, cv) == None
    case DropMutex(t) => PcOf(s, t).Pushed?
    case GoToSleep(t) => PcOf(s, t).Released?
    case Timeout(t) => t in s.stopped && PcOf(s, t).Sleeping? && PcOf(s, t).timed
    case Tidy(t) => PcOf(s, t).Sleeping? && t !in s.stopped && LockOf(s, PcOf(s, t).cv) == None
    case Relock(t) => PcOf(s, t).Tidied? && MutexOf(s, PcOf(s, t).mx) == None
    case BeginSignal(t, cv, all) => PcOf(s, t).Idle? && LockOf(s, cv) == None
    case Pick(t) => PcOf(s, t).Scan? && RingOf(s, PcOf(s, t).cv) != []
    case Wake(t) => PcOf(s, t).Picked?
    case Mark(t) => PcOf(s, t).Woke?
    case EndSignal(t) => PcOf(s, t).Leaving? || (PcOf(s, t).Scan? && RingOf(s, PcOf(s, t).cv) == [])
  }

  function SetPc(s: State, t: Tid, p: Pc): State
  {
    s.(pc := s.pc[t := p])
  }

  function Next(s: State, a: Action): State
    requires Enabled(s, a)
  {
    match a
    case Lock(t, mx) => s.(mutex := s.mutex[mx := Some(t)])
    case Unlock(t, mx) => s.(mutex := s.mutex[mx := None])
    case BeginWait(t, cv, mx, timed) =>
      SetPc(s, t, Pushed(cv, mx, timed))
        .(rec := s.rec[t := Waiter(false, false, false)], ring := s.ring[cv := RingOf(s, cv) + [t]],
          wlock := s.wlock[cv := Some(t)])
    case DropMutex(t) =>
      var p := PcOf(s, t);
      SetPc(s, t, Released(p.cv, p.mx, p.timed)).(mutex := s.mutex[p.mx := None])
    case GoToSleep(t) =>
      var p := PcOf(s, t);
      SetPc(s, t, Sleeping(p.cv, p.mx, p.timed)).(stopped := s.stopped + {t}, wlock := s.wlock[p.cv := None])
    case Timeout(t) => s.(stopped := s.stopped - {t})
    case Tidy(t) =>
      var p := PcOf(s, t);
      var s1 := if RecOf(s, t).removed then s else s.(ring := s.ring[p.cv := Remove(RingOf(s, p.cv), t)]);
      SetPc(s1, t, Tidied(p.cv, p.mx, p.timed))
    case Relock(t) => SetPc(s, t, Idle).(mutex := s.mutex[PcOf(s, t).mx := Some(t)])
    case BeginSignal(t, cv, all) => SetPc(s, t, Scan(cv, all, RingOf(s, cv))).(wlock := s.wlock[cv := Some(t)])
    case Pick(t) =>
      var p := PcOf(s, t);
      var w := RingOf(s, p.cv)[0];
      SetPc(s, t, Picked(p.cv, p.all, p.start, w))
        .(ring := s.ring[p.cv := RingOf(s, p.cv)[1..]], rec := s.rec[w := RecOf(s, w).(removed := true)])
    case Wake(t) =>
      var p := PcOf(s, t);
      if p.w in s.stopped then
        SetPc(s, t, Woke(p.cv, p.all, p.start, p.w))
          .(stopped := s.stopped - {p.w}, rec := s.rec[p.w := RecOf(s, p.w).(woken := true)])
      else SetPc(s, t, Scan(p.cv, p.all, p.start))
    case Mark(t) =>
      var p := PcOf(s, t);
      SetPc(s, t, if p.all then Scan(p.cv, p.all, p.start) else Leaving(p.cv, p.start, p.w))
        .(rec := s.rec[p.w := RecOf(s, p.w).(signalled := true)])
    case EndSignal(t) => SetPc(s, t, Idle).(wlock := s.wlock[PcOf(s, t).cv := None])
  }

  // What cv_wait returns when it has the mutex again.
  function Result(s: State, t: Tid): bool
  {
    RecOf(s, t).signalled
  }

  // --------------------------------------------------------------------
  // The invariant
  // --------------------------------------------------------------------

  predicate Waits(p: Pc)
  {
    p.Pushed? || p.Released? || p.Sleeping?
  }

  predicate HoldsRing(p: Pc)
  {
    p.Pushed? || p.Released? || p.Scan? || p.Picked? || p.Woke? || p.Leaving?
  }

  // The holder of waitset_lock is the thread inside that ring's section, and a
  // waiter holds its mutex until it drops it.
  ghost predicate LockOk(p: Pc, t: Tid, lock: Option<Tid>)
  {
    HoldsRing(p) ==> lock == Some(t)
  }

  ghost predicate MutexOk(p: Pc, t: Tid, mutex: Option<Tid>)
  {
    p.Pushed? ==> mutex == Some(t)
  }

  ghost predicate RingLocked(s: State, cv: Cv)
  {
    LockOf(s, cv).Some? ==> HoldsRing(PcOf(s, LockOf(s, cv).value)) && PcOf(s, LockOf(s, cv).value).cv == cv
  }

  function CvOf(p: Pc): Cv
  {
    if p.Idle? then 0 else p.cv
  }

  ghost predicate LockOkIn(s: State, t: Tid)
  {
    && LockOk(PcOf(s, t), t, LockOf(s, CvOf(PcOf(s, t))))
    && (PcOf(s, t).Pushed? ==> MutexOk(PcOf(s, t), t, MutexOf(s, PcOf(s, t).mx)))
  }

  ghost predicate LocksOk(s: State)
  {
    && (forall t {:trigger LockOkIn(s, t)} :: LockOkIn(s, t))
    && (forall cv {:trigger RingLocked(s, cv)} :: RingLocked(s, cv))
  }

  // The ring holds the waiters that have not been removed from it.
  ghost predicate InRing(s: State, cv: Cv, t: Tid)
  {
    Waits(PcOf(s, t)) && PcOf(s, t).cv == cv && !RecOf(s, t).removed
  }

  ghost predicate RingsOk(s: State)
  {
    && (forall cv {:trigger RingOf(s, cv)} :: Distinct(RingOf(s, cv)))
    && (forall cv, t {:trigger InRing(s, cv, t)} :: t in RingOf(s, cv) <==> InRing(s, cv, t))
  }

  // Where the holder of a ring's lock is.
  function HolderOf(s: State, cv: Cv): Pc
  {
    if LockOf(s, cv).Some? then PcOf(s, LockOf(s, cv).value) else Idle
  }

  // A waiter, and the record on its stack.
  ghost predicate WaiterOk(t: Tid, p: Pc, r: Waiter, stopped: bool, holder: Pc)
  {
    && (stopped ==> p.Sleeping?)
    && (p.Pushed? || p.Released? ==> r == Waiter(false, false, false))
    && (r.signalled ==> r.woken) && (r.woken ==> r.removed)
    && (p.Sleeping? ==>
          && (r.woken ==> !stopped)
          && (!p.timed && !r.woken ==> stopped)
          && (r.removed && stopped ==> holder.Picked? && holder.w == t)
          && (r.woken && !r.signalled ==> holder.Woke? && holder.w == t))
    && (p.Tidied? ==> r.signalled == r.woken)
  }

  ghost predicate WaiterOkIn(s: State, t: Tid)
  {
    WaiterOk(t, PcOf(s, t), RecOf(s, t), t in s.stopped, HolderOf(s, CvOf(PcOf(s, t))))
  }

  ghost predicate WaitersOk(s: State)
  {
    forall t {:trigger WaiterOkIn(s, t)} :: WaiterOkIn(s, t)
  }

  // A record a signaller refers to is alive: its thread is still inside
  // cv_wait, and cannot get out before the signaller has dropped the lock.
  ghost predicate SignallerOk(p: Pc, q: Pc, r: Waiter)
  {
    && (p.Picked? || p.Woke? || p.Leaving? ==> q.Sleeping? && q.cv == p.cv && r.removed)
    && (p.Picked? ==> !r.woken)
    && (p.Woke? ==> r.woken && !r.signalled)
    && (p.Leaving? ==> r.signalled)
  }

  function TargetOf(p: Pc): Tid
  {
    if p.Picked? || p.Woke? || p.Leaving? then p.w else 0
  }

  ghost predicate SignallerOkIn(s: State, t: Tid)
  {
    SignallerOk(PcOf(s, t), PcOf(s, TargetOf(PcOf(s, t))), RecOf(s, TargetOf(PcOf(s, t))))
  }

  ghost predicate SignallersOk(s: State)
  {
    forall t {:trigger SignallerOkIn(s, t)} :: SignallerOkIn(s, t)
  }

  // How far a signaller has come through the ring it locked: the waiters
  // before `rest` have been dropped.
  ghost predicate Passed(s: State, cv: Cv, all: bool, start: seq<Tid>, rest: seq<Tid>)
  {
    && |rest| <= |start| && start[|start| - |rest|..] == rest
    && forall i {:trigger start[i]} :: 0 <= i < |start| - |rest| ==>
         PassedOver(PcOf(s, start[i]), RecOf(s, start[i]), start[i] in s.stopped, cv, all)
  }

  // Dropped: too late for this signal, or signalled by this broadcast.
  ghost predicate PassedOver(q: Pc, r: Waiter, stopped: bool, cv: Cv, all: bool)
  {
    q.Sleeping? && q.cv == cv && r.removed && !stopped && ((all && r.signalled) || !r.woken)
  }

  // A waiter inside its section is the last of the ring.
  ghost predicate ProgressOk(s: State, t: Tid, p: Pc)
  {
    match p
    case Pushed(cv, mx, timed) => IsLast(RingOf(s, cv), t)
    case Released(cv, mx, timed) => IsLast(RingOf(s, cv), t)
    case Scan(cv, all, start) => Passed(s, cv, all, start, RingOf(s, cv))
    case Picked(cv, all, start, w) => Passed(s, cv, all, start, [w] + RingOf(s, cv))
    case Woke(cv, all, start, w) => Passed(s, cv, all, start, [w] + RingOf(s, cv))
    case Leaving(cv, start, w) => Passed(s, cv, false, start, [w] + RingOf(s, cv))
    case _ => true
  }

  predicate IsLast(q: seq<Tid>, t: Tid)
  {
    |q| > 0 && q[|q| - 1] == t
  }

  ghost predicate ProgressOkIn(s: State, t: Tid)
  {
    ProgressOk(s, t, PcOf(s, t))
  }

  ghost predicate AllProgressOk(s: State)
  {
    forall t {:trigger ProgressOkIn(s, t)} :: ProgressOkIn(s, t)
  }

  ghost predicate Inv(s: State)
  {
    LocksOk(s) && RingsOk(s) && WaitersOk(s) && SignallersOk(s) && AllProgressOk(s)
  }

  function Initial(): State
  {
    State(map[], map[], map[], map[], map[], {})
  }
}
