/**
 Every step of every thread keeps the invariant of the condition variables.
 */
module CondVarInvariant {
  import opened Sequences
  import opened CondVarModel

  lemma RingLocksKept(s: State, a: Action, cv: Cv)
    requires LocksOk(s) && Enabled(s, a)
    ensures RingLocked(Next(s, a), cv)
  {
    assert RingLocked(s, cv);
    var p := PcOf(s, a.t);
    assert LockOkIn(s, a.t);
  }

  lemma ThreadRingKept(s: State, a: Action, u: Tid)
    requires LocksOk(s) && Enabled(s, a)
    ensures var p := PcOf(Next(s, a), u); LockOk(p, u, LockOf(Next(s, a), CvOf(p)))
  {
    assert LockOkIn(s, u) && LockOkIn(s, a.t);
  }

  lemma ThreadMutexKept(s: State, a: Action, u: Tid)
    requires LocksOk(s) && Enabled(s, a) && PcOf(Next(s, a), u).Pushed?
    ensures var p := PcOf(Next(s, a), u); MutexOk(p, u, MutexOf(Next(s, a), p.mx))
  {
    assert LockOkIn(s, u) && LockOkIn(s, a.t);
  }

  lemma LocksKept(s: State, a: Action)
    requires LocksOk(s) && Enabled(s, a)
    ensures LocksOk(Next(s, a))
  {
    var s' := Next(s, a);
    forall cv
      ensures RingLocked(s', cv)
    {
      RingLocksKept(s, a, cv);
    }
    forall u
      ensures LockOkIn(s', u)
    {
      ThreadRingKept(s, a, u);
      if PcOf(s', u).Pushed? { ThreadMutexKept(s, a, u); }
    }
  }

  // The ring changes by one waiter, or not at all.
  lemma RingsKept(s: State, a: Action)
    requires RingsOk(s) && Enabled(s, a)
    ensures RingsOk(Next(s, a))
  {
    var s', p := Next(s, a), PcOf(s, a.t);
    var q := RingOf(s, CvOf(p));
    RingMembersKept(s, a);
    if a.BeginWait? {
      assert !InRing(s, a.cv, a.t);
      assert a.t !in RingOf(s, a.cv);
    }
    if a.Tidy? { RemoveKeeps(q, a.t); }
    forall cv
      ensures Distinct(RingOf(s', cv))
    {
      assert Distinct(RingOf(s, cv));
    }
  }

  // A thread enters the ring as a waiter and leaves it by Tidy or Pick.
  lemma RingMembersKept(s: State, a: Action)
    requires RingsOk(s) && Enabled(s, a)
    ensures forall cv, t {:trigger InRing(Next(s, a), cv, t)} ::
              t in RingOf(Next(s, a), cv) <==> InRing(Next(s, a), cv, t)
  {
    forall cv, u
      ensures u in RingOf(Next(s, a), cv) <==> InRing(Next(s, a), cv, u)
    {
      if a.Pick? {
        PickRing(s, a, cv, u);
      } else if a.Tidy? {
        TidyRing(s, a, cv, u);
      } else if a.BeginWait? {
        PushRing(s, a, cv, u);
      } else {
        OtherRing(s, a, cv, u);
      }
    }
  }

  lemma PickRing(s: State, a: Action, cv: Cv, u: Tid)
    requires RingsOk(s) && a.Pick? && Enabled(s, a)
    ensures u in RingOf(Next(s, a), cv) <==> InRing(Next(s, a), cv, u)
  {
    var q := RingOf(s, PcOf(s, a.t).cv);
    assert q == [q[0]] + q[1..];
    assert Distinct(q);
    assert u in RingOf(s, cv) <==> InRing(s, cv, u);
    assert InRing(s, PcOf(s, a.t).cv, q[0]);
    assert a.t in RingOf(s, cv) <==> InRing(s, cv, a.t);
  }

  lemma TidyRing(s: State, a: Action, cv: Cv, u: Tid)
    requires RingsOk(s) && a.Tidy? && Enabled(s, a)
    ensures u in RingOf(Next(s, a), cv) <==> InRing(Next(s, a), cv, u)
  {
    RemoveKeeps(RingOf(s, PcOf(s, a.t).cv), a.t);
    assert u in RingOf(s, cv) <==> InRing(s, cv, u);
    assert a.t in RingOf(s, cv) <==> InRing(s, cv, a.t);
  }

  lemma PushRing(s: State, a: Action, cv: Cv, u: Tid)
    requires RingsOk(s) && Enabled(s, a) && a.BeginWait?
    ensures u in RingOf(Next(s, a), cv) <==> InRing(Next(s, a), cv, u)
  {
    assert u in RingOf(s, cv) <==> InRing(s, cv, u);
    assert a.t in RingOf(s, cv) <==> InRing(s, cv, a.t);
  }

  lemma InRingStays(s: State, a: Action, cv: Cv, u: Tid)
    requires Enabled(s, a) && !a.Pick? && !a.Tidy? && !a.BeginWait?
    ensures InRing(Next(s, a), cv, u) <==> InRing(s, cv, u)
  {
  }

  lemma OtherRing(s: State, a: Action, cv: Cv, u: Tid)
    requires RingsOk(s) && Enabled(s, a) && !a.Pick? && !a.Tidy? && !a.BeginWait?
    ensures u in RingOf(Next(s, a), cv) <==> InRing(Next(s, a), cv, u)
  {
    InRingStays(s, a, cv, u);
    assert u in RingOf(s, cv) <==> InRing(s, cv, u);
  }

  // The other thread whose record an action writes, if any.
  function TargetIn(s: State, a: Action): Tid
    requires Enabled(s, a)
  {
    if a.Pick? then RingOf(s, PcOf(s, a.t).cv)[0]
    else if a.Wake? || a.Mark? then PcOf(s, a.t).w
    else a.t
  }

  // What a step by t, aimed at w, leaves alone.
  ghost predicate Frame(s: State, s': State, t: Tid, w: Tid)
  {
    && (forall u :: u != t ==> PcOf(s', u) == PcOf(s, u))
    && (forall u :: u != t && u != w ==> RecOf(s', u) == RecOf(s, u) && (u in s'.stopped <==> u in s.stopped))
    && (forall cv :: LockMoves(LockOf(s, cv), LockOf(s', cv), t))
  }

  predicate LockMoves(l: Option<Tid>, l': Option<Tid>, t: Tid)
  {
    l' == l || (l == None && l' == Some(t)) || (l == Some(t) && l' == None)
  }

  lemma LockFrame(s: State, a: Action, cv: Cv)
    requires LocksOk(s) && Enabled(s, a)
    ensures LockMoves(LockOf(s, cv), LockOf(Next(s, a), cv), a.t)
  {
    assert LockOkIn(s, a.t);
  }

  lemma PcFrame(s: State, a: Action, u: Tid)
    requires Enabled(s, a) && u != a.t
    ensures PcOf(Next(s, a), u) == PcOf(s, u)
  {
  }

  lemma RecFrame(s: State, a: Action, u: Tid)
    requires Enabled(s, a) && u != a.t && u != TargetIn(s, a)
    ensures RecOf(Next(s, a), u) == RecOf(s, u) && (u in Next(s, a).stopped <==> u in s.stopped)
  {
  }

  lemma StepFrame(s: State, a: Action)
    requires LocksOk(s) && Enabled(s, a)
    ensures Frame(s, Next(s, a), a.t, TargetIn(s, a))
  {
    forall u | u != a.t
      ensures PcOf(Next(s, a), u) == PcOf(s, u)
      ensures u != TargetIn(s, a) ==>
                RecOf(Next(s, a), u) == RecOf(s, u) && (u in Next(s, a).stopped <==> u in s.stopped)
    {
      PcFrame(s, a, u);
      if u != TargetIn(s, a) { RecFrame(s, a, u); }
    }
    forall cv
      ensures LockMoves(LockOf(s, cv), LockOf(Next(s, a), cv), a.t)
    {
      LockFrame(s, a, cv);
    }
  }

  // A waiter that neither acts nor is acted on.
  lemma WaiterAside(s: State, s': State, t: Tid, w: Tid, u: Tid)
    requires Frame(s, s', t, w) && WaitersOk(s) && u != t && u != w
    requires TargetOf(PcOf(s, t)) == w || !(PcOf(s, t).Picked? || PcOf(s, t).Woke?)
    ensures WaiterOkIn(s', u)
  {
    var cv := CvOf(PcOf(s, u));
    assert WaiterOkIn(s, u);
    assert LockMoves(LockOf(s, cv), LockOf(s', cv), t);
  }

  lemma WaitersKept(s: State, a: Action)
    requires LocksOk(s) && RingsOk(s) && SignallersOk(s) && WaitersOk(s) && Enabled(s, a)
    ensures WaitersOk(Next(s, a))
  {
    var s', w := Next(s, a), TargetIn(s, a);
    StepFrame(s, a);
    forall u
      ensures WaiterOkIn(s', u)
    {
      if u == a.t {
        WaiterActs(s, a);
      } else if u == w {
        if a.Pick? { WaiterPicked(s, a); } else if a.Wake? { WaiterWoken(s, a); } else { WaiterMarked(s, a); }
        assert WaiterOkIn(s', u);
      } else {
        WaiterAside(s, s', a.t, w, u);
      }
    }
  }

  // The thread that acts.
  lemma WaiterWaits(s: State, a: Action)
    requires LocksOk(s) && WaitersOk(s) && Enabled(s, a)
    requires !Signalling(a)
    ensures WaiterOkIn(Next(s, a), a.t)
  {
    assert WaiterOkIn(s, a.t);
    assert LockOkIn(s, a.t);
  }

  predicate Signalling(a: Action)
  {
    a.BeginSignal? || a.Pick? || a.Wake? || a.Mark? || a.EndSignal?
  }

  // In cv_wait.
  predicate Inside(p: Pc)
  {
    Waits(p) || p.Tidied?
  }

  // A signaller's own record is not the one it writes.
  lemma SignallerKeepsItself(s: State, a: Action)
    requires LocksOk(s) && RingsOk(s) && SignallersOk(s) && WaitersOk(s) && Enabled(s, a) && Signalling(a)
    ensures var s', t := Next(s, a), a.t;
            && RecOf(s', t) == RecOf(s, t) && !Inside(PcOf(s, t)) && !Inside(PcOf(s', t))
            && (t in s'.stopped ==> t in s.stopped)
  {
    var p := PcOf(s, a.t);
    assert SignallerOkIn(s, a.t);
    if a.Pick? { assert InRing(s, p.cv, RingOf(s, p.cv)[0]); }
  }

  lemma WaiterSignals(s: State, a: Action)
    requires LocksOk(s) && RingsOk(s) && SignallersOk(s) && WaitersOk(s) && Enabled(s, a) && Signalling(a)
    ensures WaiterOkIn(Next(s, a), a.t)
  {
    SignallerKeepsItself(s, a);
    StaysOutside(s, Next(s, a), a.t);
  }

  lemma StaysOutside(s: State, s': State, t: Tid)
    requires WaitersOk(s) && RecOf(s', t) == RecOf(s, t) && !Inside(PcOf(s, t)) && !Inside(PcOf(s', t))
    requires t in s'.stopped ==> t in s.stopped
    ensures WaiterOkIn(s', t)
  {
    assert WaiterOkIn(s, t);
  }

  lemma WaiterActs(s: State, a: Action)
    requires LocksOk(s) && RingsOk(s) && SignallersOk(s) && WaitersOk(s) && Enabled(s, a)
    ensures WaiterOkIn(Next(s, a), a.t)
  {
    if Signalling(a) {
      WaiterSignals(s, a);
    } else {
      WaiterWaits(s, a);
    }
  }

  // The waiter whose record the step writes.
  lemma WaiterPicked(s: State, a: Action)
    requires LocksOk(s) && RingsOk(s) && WaitersOk(s) && a.Pick? && Enabled(s, a)
    ensures WaiterOkIn(Next(s, a), TargetIn(s, a))
  {
    PickedSleeps(s, a);
    assert LockOkIn(s, a.t);
    assert WaiterOkIn(s, TargetIn(s, a));
  }

  lemma WaiterWoken(s: State, a: Action)
    requires LocksOk(s) && SignallersOk(s) && WaitersOk(s) && a.Wake? && Enabled(s, a)
    ensures WaiterOkIn(Next(s, a), TargetIn(s, a))
  {
    var p := PcOf(s, a.t);
    assert LockOkIn(s, a.t);
    assert SignallerOkIn(s, a.t);
    assert WaiterOkIn(s, p.w);
  }

  lemma WaiterMarked(s: State, a: Action)
    requires LocksOk(s) && SignallersOk(s) && WaitersOk(s) && a.Mark? && Enabled(s, a)
    ensures WaiterOkIn(Next(s, a), TargetIn(s, a))
  {
    var p := PcOf(s, a.t);
    assert LockOkIn(s, a.t);
    assert SignallerOkIn(s, a.t);
    assert WaiterOkIn(s, p.w);
  }

  // The waiter a signaller picks is asleep on the signaller's condition.
  lemma PickedSleeps(s: State, a: Action)
    requires LocksOk(s) && RingsOk(s) && WaitersOk(s) && a.Pick? && Enabled(s, a)
    ensures var w := TargetIn(s, a);
            && PcOf(s, w).Sleeping? && PcOf(s, w).cv == PcOf(s, a.t).cv && w != a.t
            && RecOf(s, w) == Waiter(false, false, false)
  {
    var w, p := TargetIn(s, a), PcOf(s, a.t);
    assert InRing(s, p.cv, w);
    assert LockOkIn(s, a.t);
    assert LockOkIn(s, w);
    assert WaiterOkIn(s, w);
  }

  // --------------------------------------------------------------------
  // Signallers
  // --------------------------------------------------------------------

  lemma SignallerPicks(s: State, a: Action)
    requires LocksOk(s) && RingsOk(s) && WaitersOk(s) && a.Pick? && Enabled(s, a)
    ensures SignallerOkIn(Next(s, a), a.t)
  {
    PickedSleeps(s, a);
  }

  lemma SignallerWakes(s: State, a: Action)
    requires SignallersOk(s) && WaitersOk(s) && a.Wake? && Enabled(s, a)
    ensures SignallerOkIn(Next(s, a), a.t)
  {
    assert SignallerOkIn(s, a.t);
    assert WaiterOkIn(s, PcOf(s, a.t).w);
  }

  lemma SignallerMarks(s: State, a: Action)
    requires SignallersOk(s) && WaitersOk(s) && a.Mark? && Enabled(s, a)
    ensures SignallerOkIn(Next(s, a), a.t)
  {
    assert SignallerOkIn(s, a.t);
    assert WaiterOkIn(s, PcOf(s, a.t).w);
  }

  lemma NotSignalling(s: State, a: Action)
    requires SignallersOk(s) && Enabled(s, a) && !a.Pick? && !a.Wake? && !a.Mark?
    ensures SignallerOkIn(Next(s, a), a.t)
  {
    assert SignallerOkIn(s, a.t);
    var p, p' := PcOf(s, a.t), PcOf(Next(s, a), a.t);
    assert p' == p || !(p'.Picked? || p'.Woke? || p'.Leaving?);
  }

  // Inside a locked ring, no waiter can tidy up and no other signaller is at work.
  lemma LockExcludes(s: State, a: Action, u: Tid, cv: Cv)
    requires LocksOk(s) && Enabled(s, a) && u != a.t && HoldsRing(PcOf(s, u)) && PcOf(s, u).cv == cv
    ensures LockOf(s, cv) == Some(u)
    ensures HoldsRing(PcOf(s, a.t)) ==> PcOf(s, a.t).cv != cv
    ensures a.Tidy? ==> PcOf(s, a.t).cv != cv
    ensures a.BeginWait? || a.BeginSignal? ==> a.cv != cv
  {
    assert LockOkIn(s, u);
    assert LockOkIn(s, a.t);
  }

  lemma SignallerAside(s: State, s': State, a: Action, u: Tid)
    requires LocksOk(s) && RingsOk(s) && WaitersOk(s) && SignallersOk(s) && Enabled(s, a) && u != a.t
    requires Frame(s, s', a.t, TargetIn(s, a)) && ActorAsleep(s, s', a)
    ensures SignallerOkIn(s', u)
  {
    assert SignallerOkIn(s, u);
    var p := PcOf(s, u);
    if p.Picked? || p.Woke? || p.Leaving? {
      LockExcludes(s, a, u, p.cv);
      StepAimed(s, a);
      TargetKept(s, s', a, TargetIn(s, a), p.cv, p.w);
    }
  }

  // A thread asleep does nothing but time out, or tidy up.
  ghost predicate ActorAsleep(s: State, s': State, a: Action)
  {
    PcOf(s, a.t).Sleeping? && !a.Tidy? ==>
      PcOf(s', a.t) == PcOf(s, a.t) && RecOf(s', a.t) == RecOf(s, a.t) && s'.stopped <= s.stopped
  }

  lemma StepActorAsleep(s: State, a: Action)
    requires Enabled(s, a)
    ensures ActorAsleep(s, Next(s, a), a)
  {
  }

  // Whom a step writes to: a sleeper on the ring the actor has locked.
  ghost predicate Aimed(s: State, t: Tid, w: Tid)
  {
    w != t ==> HoldsRing(PcOf(s, t)) && PcOf(s, w).Sleeping? && PcOf(s, w).cv == PcOf(s, t).cv
  }

  lemma StepAimed(s: State, a: Action)
    requires LocksOk(s) && RingsOk(s) && WaitersOk(s) && SignallersOk(s) && Enabled(s, a)
    ensures Aimed(s, a.t, TargetIn(s, a))
  {
    assert SignallerOkIn(s, a.t);
    if a.Pick? { PickedSleeps(s, a); }
  }

  // A sleeper on a ring locked by somebody else is left alone.
  lemma TargetKept(s: State, s': State, a: Action, w': Tid, cv: Cv, w: Tid)
    requires Frame(s, s', a.t, w') && Aimed(s, a.t, w') && ActorAsleep(s, s', a)
    requires PcOf(s, w).Sleeping? && PcOf(s, w).cv == cv
    requires HoldsRing(PcOf(s, a.t)) ==> PcOf(s, a.t).cv != cv
    requires a.Tidy? ==> PcOf(s, a.t).Sleeping? && PcOf(s, a.t).cv != cv
    ensures PcOf(s', w) == PcOf(s, w) && RecOf(s', w) == RecOf(s, w)
    ensures w in s'.stopped ==> w in s.stopped
  {
  }

  lemma SignallersKept(s: State, a: Action)
    requires LocksOk(s) && RingsOk(s) && WaitersOk(s) && SignallersOk(s) && Enabled(s, a)
    ensures SignallersOk(Next(s, a))
  {
    forall u
      ensures SignallerOkIn(Next(s, a), u)
    {
      if u != a.t {
        StepFrame(s, a);
        StepActorAsleep(s, a);
        SignallerAside(s, Next(s, a), a, u);
      } else if a.Pick? {
        SignallerPicks(s, a);
      } else if a.Wake? {
        SignallerWakes(s, a);
      } else if a.Mark? {
        SignallerMarks(s, a);
      } else {
        NotSignalling(s, a);
      }
    }
    var s' := Next(s, a);
  }

  // --------------------------------------------------------------------
  // Progress of the signallers
  // --------------------------------------------------------------------

  lemma ProgressAside(s: State, s': State, a: Action, u: Tid)
    requires LocksOk(s) && AllProgressOk(s) && Enabled(s, a) && u != a.t
    requires Frame(s, s', a.t, TargetIn(s, a)) && Aimed(s, a.t, TargetIn(s, a)) && ActorAsleep(s, s', a)
    requires HoldsRing(PcOf(s, u)) ==> RingOf(s', PcOf(s, u).cv) == RingOf(s, PcOf(s, u).cv)
    ensures ProgressOkIn(s', u)
  {
    var p := PcOf(s, u);
    assert ProgressOkIn(s, u);
    if p.Scan? || p.Picked? || p.Woke? || p.Leaving? {
      LockExcludes(s, a, u, p.cv);
      forall d | PcOf(s, d).Sleeping? && PcOf(s, d).cv == p.cv
        ensures PcOf(s', d) == PcOf(s, d) && RecOf(s', d) == RecOf(s, d) && (d in s'.stopped ==> d in s.stopped)
      {
        TargetKept(s, s', a, TargetIn(s, a), p.cv, d);
      }
      AllPassedKept(s, s', u, p);
    }
  }

  lemma AllPassedKept(s: State, s': State, u: Tid, p: Pc)
    requires p.Scan? || p.Picked? || p.Woke? || p.Leaving?
    requires forall d :: PcOf(s, d).Sleeping? && PcOf(s, d).cv == p.cv ==>
               PcOf(s', d) == PcOf(s, d) && RecOf(s', d) == RecOf(s, d) && (d in s'.stopped ==> d in s.stopped)
    requires RingOf(s', p.cv) == RingOf(s, p.cv) && ProgressOk(s, u, p)
    ensures ProgressOk(s', u, p)
  {
  }

  lemma RingAside(s: State, a: Action, cv: Cv)
    requires Enabled(s, a)
    requires HoldsRing(PcOf(s, a.t)) ==> PcOf(s, a.t).cv != cv
    requires a.Tidy? ==> PcOf(s, a.t).cv != cv
    requires a.BeginWait? || a.BeginSignal? ==> a.cv != cv
    ensures RingOf(Next(s, a), cv) == RingOf(s, cv)
  {
  }

  lemma ProgressBegin(s: State, a: Action)
    requires AllProgressOk(s) && Enabled(s, a) && a.BeginSignal?
    ensures ProgressOkIn(Next(s, a), a.t)
  {
    var q := RingOf(s, a.cv);
    assert PcOf(Next(s, a), a.t) == Scan(a.cv, a.all, q) && RingOf(Next(s, a), a.cv) == q;
  }

  // The waiters passed before stay passed when the next is picked.
  lemma ProgressPick(s: State, a: Action)
    requires AllProgressOk(s) && Enabled(s, a) && a.Pick?
    ensures ProgressOkIn(Next(s, a), a.t)
  {
    var s', p := Next(s, a), PcOf(s, a.t);
    var q := RingOf(s, p.cv);
    assert ProgressOkIn(s, a.t) && q == [q[0]] + q[1..];
    forall i {:trigger p.start[i]} | 0 <= i < |p.start| - |q|
      ensures PassedOver(PcOf(s', p.start[i]), RecOf(s', p.start[i]), p.start[i] in s'.stopped, p.cv, p.all)
    {
    }
    assert Passed(s', p.cv, p.all, p.start, [q[0]] + q[1..]);
    assert PcOf(s', a.t) == Picked(p.cv, p.all, p.start, q[0]) && RingOf(s', p.cv) == q[1..];
  }

  // Waking w, or finding it too late: the waiters passed before stay passed.
  lemma ProgressWake(s: State, a: Action)
    requires SignallersOk(s) && AllProgressOk(s) && Enabled(s, a) && a.Wake?
    ensures ProgressOkIn(Next(s, a), a.t)
  {
    var s', p := Next(s, a), PcOf(s, a.t);
    assert ProgressOkIn(s, a.t) && SignallerOkIn(s, a.t);
    RestSteps(s, s, p.cv, p.all, p.start, p.w, RingOf(s, p.cv));
    if p.w in s.stopped {
      PassedKept(s, s', p, p.w, [p.w] + RingOf(s, p.cv));
    } else {
      PassedKept(s, s', p, p.w, RingOf(s, p.cv));
    }
  }

  lemma ProgressMark(s: State, a: Action)
    requires SignallersOk(s) && WaitersOk(s) && AllProgressOk(s) && Enabled(s, a) && a.Mark?
    ensures ProgressOkIn(Next(s, a), a.t)
  {
    var s', p := Next(s, a), PcOf(s, a.t);
    assert ProgressOkIn(s, a.t) && SignallerOkIn(s, a.t);
    assert WaiterOkIn(s, p.w);
    PassedKept(s, s', p, p.w, [p.w] + RingOf(s, p.cv));
    RestSteps(s, s', p.cv, p.all, p.start, p.w, RingOf(s, p.cv));
  }

  // A step that writes w's record, while w is not passed or only gains a mark.
  lemma PassedKept(s: State, s': State, p: Pc, w: Tid, rest: seq<Tid>)
    requires p.Picked? || p.Woke?
    requires Passed(s, p.cv, p.all, p.start, rest)
    requires forall u :: PcOf(s, u).Sleeping? ==> PcOf(s', u) == PcOf(s, u)
    requires forall u :: u != w ==> RecOf(s', u) == RecOf(s, u)
    requires s'.stopped <= s.stopped
    requires PassedOver(PcOf(s, w), RecOf(s, w), w in s.stopped, p.cv, p.all) ==>
               PassedOver(PcOf(s', w), RecOf(s', w), w in s'.stopped, p.cv, p.all)
    ensures Passed(s', p.cv, p.all, p.start, rest)
  {
  }

  // One more waiter is behind the signaller.
  lemma RestSteps(s: State, s': State, cv: Cv, all: bool, start: seq<Tid>, w: Tid, rest: seq<Tid>)
    requires Passed(s, cv, all, start, [w] + rest)
    ensures start[|start| - |rest|..] == rest && start[|start| - |rest| - 1] == w
    ensures Passed(s', cv, all, start, [w] + rest) && PassedOver(PcOf(s', w), RecOf(s', w), w in s'.stopped, cv, all)
            ==> Passed(s', cv, all, start, rest)
  {
    var n := |start| - |rest|;
    assert start[n - 1..] == [w] + rest;
    assert start[n..] == start[n - 1..][1..];
    assert start[n - 1] == start[n - 1..][0];
  }

  lemma ProgressKept(s: State, a: Action)
    requires Inv(s) && Enabled(s, a)
    ensures AllProgressOk(Next(s, a))
  {
    var s' := Next(s, a);
    forall u
      ensures ProgressOkIn(s', u)
    {
      if u != a.t {
        StepFrame(s, a);
        StepActorAsleep(s, a);
        if HoldsRing(PcOf(s, u)) {
          LockExcludes(s, a, u, PcOf(s, u).cv);
          RingAside(s, a, PcOf(s, u).cv);
        }
        StepAimed(s, a);
        ProgressAside(s, s', a, u);
      } else if a.BeginSignal? {
        ProgressBegin(s, a);
      } else if a.Pick? {
        ProgressPick(s, a);
      } else if a.Wake? {
        ProgressWake(s, a);
      } else if a.Mark? {
        ProgressMark(s, a);
      } else {
        ProgressElse(s, a);
      }
    }
  }

  lemma ProgressElse(s: State, a: Action)
    requires AllProgressOk(s) && Enabled(s, a) && !a.BeginSignal? && !a.Pick? && !a.Wake? && !a.Mark?
    ensures ProgressOkIn(Next(s, a), a.t)
  {
    assert ProgressOkIn(s, a.t);
  }

  // Every step keeps the invariant.
  lemma NextKeepsInv(s: State, a: Action)
    requires Inv(s) && Enabled(s, a)
    ensures Inv(Next(s, a))
  {
    LocksKept(s, a);
    RingsKept(s, a);
    WaitersKept(s, a);
    SignallersKept(s, a);
    ProgressKept(s, a);
  }

  lemma InitialInv()
    ensures Inv(Initial())
  {
  }
}
