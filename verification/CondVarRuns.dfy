/**
 What condition variables promise, over every run.
 */
module CondVarRuns {
  import opened Sequences
  import opened CondVarModel
  import opened CondVarInvariant

  ghost predicate StepAt(states: seq<State>, actions: seq<Action>, i: nat)
    requires i < |actions| && |states| == |actions| + 1
  {
    Enabled(states[i], actions[i]) && states[i + 1] == Next(states[i], actions[i])
  }

  ghost predicate Run(states: seq<State>, actions: seq<Action>)
  {
    && |states| == |actions| + 1 && states[0] == Initial()
    && forall i :: 0 <= i < |actions| ==> StepAt(states, actions, i)
  }

  lemma {:induction false} RunsKeepInv(states: seq<State>, actions: seq<Action>, n: nat)
    requires Run(states, actions) && n < |states|
    ensures Inv(states[n])
  {
    if n == 0 {
      InitialInv();
    } else {
      RunsKeepInv(states, actions, n - 1);
      assert StepAt(states, actions, n - 1);
      NextKeepsInv(states[n - 1], actions[n - 1]);
    }
  }

  // --------------------------------------------------------------------
  // In every reachable state
  // --------------------------------------------------------------------

  // With the ring unlocked, a waiter without a timeout that is in it is STOPPED.
  lemma UntimedWaiterIsStopped(s: State, cv: Cv, t: Tid)
    requires Inv(s) && LockOf(s, cv) == None && t in RingOf(s, cv)
    ensures PcOf(s, t).Sleeping? && (!PcOf(s, t).timed ==> t in s.stopped)
  {
    assert t in RingOf(s, cv) <==> InRing(s, cv, t);
    assert LockOkIn(s, t);
    assert WaiterOkIn(s, t);
  }

  // A signal that has signalled w took the ring it locked, dropped unsignalled
  // the waiters before w, none of whom is STOPPED, and left those after w.
  lemma SignalTakesFirstStopped(s: State, t: Tid)
    requires Inv(s) && PcOf(s, t).Leaving?
    ensures var p := PcOf(s, t);
            var n := |p.start| - |RingOf(s, p.cv)| - 1;
            && 0 <= n < |p.start| && p.start[n] == p.w && p.start[n + 1..] == RingOf(s, p.cv)
            && RecOf(s, p.w).signalled
            && forall i :: 0 <= i < n ==> p.start[i] !in s.stopped && !RecOf(s, p.start[i]).signalled
  {
    var p := PcOf(s, t);
    assert ProgressOkIn(s, t) && SignallerOkIn(s, t);
    RestSteps(s, s, p.cv, false, p.start, p.w, RingOf(s, p.cv));
    forall i | 0 <= i < |p.start| - |RingOf(s, p.cv)| - 1
      ensures p.start[i] !in s.stopped && !RecOf(s, p.start[i]).signalled
    {
      assert WaiterOkIn(s, p.start[i]);
    }
  }

  // A signal that ends without waking anybody found nobody STOPPED.
  lemma SignalFindsNobody(s: State, t: Tid, i: nat)
    requires Inv(s) && PcOf(s, t).Scan? && !PcOf(s, t).all && Enabled(s, EndSignal(t))
    requires i < |PcOf(s, t).start|
    ensures var w := PcOf(s, t).start[i];
            w !in s.stopped && !RecOf(s, w).signalled && RecOf(s, w).removed
  {
    assert ProgressOkIn(s, t);
    assert WaiterOkIn(s, PcOf(s, t).start[i]);
  }

  // A broadcast ends with the ring empty, and with every waiter of the ring it
  // locked out of it: signalled, or too late to be.
  lemma BroadcastEmptiesRing(s: State, t: Tid, i: nat)
    requires Inv(s) && PcOf(s, t).Scan? && PcOf(s, t).all && Enabled(s, EndSignal(t))
    requires i < |PcOf(s, t).start|
    ensures RingOf(s, PcOf(s, t).cv) == []
    ensures var w := PcOf(s, t).start[i];
            && w !in s.stopped && RecOf(s, w).removed
            && (RecOf(s, w).signalled || !RecOf(s, w).woken)
  {
    assert ProgressOkIn(s, t);
  }

  // cv_wait returns 1 if and only if the wakeup of some signaller succeeded.
  lemma WaitReturnsOneIffWoken(s: State, t: Tid)
    requires Inv(s) && Enabled(s, Relock(t))
    ensures Result(s, t) <==> RecOf(s, t).woken
  {
    assert WaiterOkIn(s, t);
  }

  // The history is what it says: `woken` is set by a successful wakeup alone.
  lemma WokenByWakeup(s: State, a: Action, t: Tid)
    requires Inv(s) && Enabled(s, a) && !RecOf(s, t).woken
    ensures RecOf(Next(s, a), t).woken <==> a.Wake? && PcOf(s, a.t).w == t && t in s.stopped
  {
  }

  // --------------------------------------------------------------------
  // The mutex, and a whole call of cv_wait
  // --------------------------------------------------------------------

  // A step gets its thread the mutex mx: by a Mutex_Lock of its own, or as the
  // last thing in cv_wait.
  predicate Takes(s: State, a: Action, mx: Mx)
  {
    (a.Lock? && a.mx == mx) || (a.Relock? && PcOf(s, a.t).Tidied? && PcOf(s, a.t).mx == mx)
  }

  predicate GivesUp(s: State, a: Action, mx: Mx)
  {
    (a.Unlock? && a.mx == mx) || (a.DropMutex? && PcOf(s, a.t).Pushed? && PcOf(s, a.t).mx == mx)
  }

  // A mutex is taken only when it is free and given up only by its owner; no
  // other step moves it.
  lemma MutexMoves(s: State, a: Action, mx: Mx)
    requires Inv(s) && Enabled(s, a)
    ensures Takes(s, a, mx) ==> MutexOf(s, mx) == None && MutexOf(Next(s, a), mx) == Some(a.t)
    ensures GivesUp(s, a, mx) ==> MutexOf(s, mx) == Some(a.t) && MutexOf(Next(s, a), mx) == None
    ensures !Takes(s, a, mx) && !GivesUp(s, a, mx) ==> MutexOf(Next(s, a), mx) == MutexOf(s, mx)
  {
    assert LockOkIn(s, a.t);
  }

  // A thread comes back from cv_wait with the mutex, and nobody had it.
  lemma WaitReturnsWithMutex(s: State, a: Action, t: Tid, mx: Mx)
    requires Inv(s) && Enabled(s, a) && PcOf(s, t).Tidied? && PcOf(s, t).mx == mx && PcOf(Next(s, a), t).Idle?
    ensures a == Relock(t) && MutexOf(s, mx) == None && MutexOf(Next(s, a), mx) == Some(t)
  {
    assert WaiterOkIn(s, a.t) && SignallerOkIn(s, a.t);
  }

  // A mutex stays its owner's until the owner unlocks it or waits with it.
  lemma {:induction false} OwnerKeepsMutex(states: seq<State>, actions: seq<Action>, i: nat, j: nat, t: Tid, mx: Mx)
    requires Run(states, actions) && i <= j < |states| && MutexOf(states[i], mx) == Some(t)
    requires forall k :: i <= k < j && actions[k].t == t ==> !GivesUp(states[k], actions[k], mx)
    ensures MutexOf(states[j], mx) == Some(t)
  {
    if i < j {
      OwnerKeepsMutex(states, actions, i, j - 1, t, mx);
      RunsKeepInv(states, actions, j - 1);
      assert StepAt(states, actions, j - 1);
      MutexMoves(states[j - 1], actions[j - 1], mx);
    }
  }

  // Step k ends the sleep of t by a signaller's wakeup.
  predicate WakesUp(s: State, a: Action, t: Tid)
  {
    a.Wake? && PcOf(s, a.t).Picked? && PcOf(s, a.t).w == t && t in s.stopped
  }

  ghost predicate WokenWithin(states: seq<State>, actions: seq<Action>, i: nat, j: nat, t: Tid)
    requires |states| == |actions| + 1 && j < |states|
  {
    exists k :: i <= k < j && WakesUp(states[k], actions[k], t)
  }

  ghost predicate ExpiredWithin(actions: seq<Action>, i: nat, j: nat, t: Tid)
    requires j <= |actions|
  {
    exists k :: i <= k < j && actions[k] == Timeout(t)
  }

  predicate InWait(p: Pc)
  {
    Waits(p) || p.Tidied?
  }

  // t is in the cv_wait it began as b, has been woken or not, and has timed out
  // or not: its sleep ends by one of the two, and by no more.
  predicate Underway(s: State, t: Tid, b: Action, woken: bool, expired: bool)
    requires b.BeginWait?
  {
    var p := PcOf(s, t);
    && InWait(p) && p.cv == b.cv && p.mx == b.mx && p.timed == b.timed
    && RecOf(s, t).woken == woken && (woken ==> !expired) && (expired ==> b.timed)
    && (p.Pushed? || p.Released? ==> !woken && !expired)
    && (p.Sleeping? ==> (t in s.stopped <==> !woken && !expired))
    && (p.Tidied? ==> woken || expired)
  }

  lemma WaitBegins(s: State, a: Action)
    requires Inv(s) && Enabled(s, a) && a.BeginWait?
    ensures Underway(Next(s, a), a.t, a, false, false)
  {
  }

  lemma WaitGoesOn(s: State, a: Action, t: Tid, b: Action, woken: bool, expired: bool)
    requires Inv(s) && Enabled(s, a) && a != Relock(t) && b.BeginWait? && Underway(s, t, b, woken, expired)
    ensures Underway(Next(s, a), t, b, woken || WakesUp(s, a, t), expired || a == Timeout(t))
  {
    assert SignallerOkIn(s, a.t) && LockOkIn(s, a.t);
    if a.t == t {
      WaitMovesOn(s, a, t, b, woken, expired);
    } else {
      WaitStandsBy(s, a, t, b, woken, expired);
    }
  }

  lemma WaitMovesOn(s: State, a: Action, t: Tid, b: Action, woken: bool, expired: bool)
    requires Inv(s) && Enabled(s, a) && a != Relock(t) && b.BeginWait? && Underway(s, t, b, woken, expired) && a.t == t
    ensures Underway(Next(s, a), t, b, woken || WakesUp(s, a, t), expired || a == Timeout(t))
  {
  }

  lemma WaitStandsBy(s: State, a: Action, t: Tid, b: Action, woken: bool, expired: bool)
    requires Inv(s) && Enabled(s, a) && b.BeginWait? && Underway(s, t, b, woken, expired) && a.t != t
    ensures Underway(Next(s, a), t, b, woken || WakesUp(s, a, t), expired)
  {
    PcFrame(s, a, t);
    if t == TargetIn(s, a) {
      WaitIsServed(s, a, t, b, woken, expired);
    } else {
      RecFrame(s, a, t);
    }
  }

  lemma WaitIsServed(s: State, a: Action, t: Tid, b: Action, woken: bool, expired: bool)
    requires Inv(s) && Enabled(s, a) && b.BeginWait? && Underway(s, t, b, woken, expired)
    requires a.t != t && t == TargetIn(s, a)
    ensures Underway(Next(s, a), t, b, woken || WakesUp(s, a, t), expired)
  {
    assert SignallerOkIn(s, a.t);
  }

  lemma {:induction false} WaitIsUnderway(states: seq<State>, actions: seq<Action>, i: nat, j: nat, t: Tid)
    requires Run(states, actions) && i < j < |states| && actions[i].BeginWait? && actions[i].t == t
    requires forall k :: i < k < j ==> actions[k] != Relock(t)
    ensures Underway(states[j], t, actions[i], WokenWithin(states, actions, i, j, t), ExpiredWithin(actions, i, j, t))
  {
    var k := j - 1;
    RunsKeepInv(states, actions, k);
    assert StepAt(states, actions, k);
    if i < k {
      WaitIsUnderway(states, actions, i, k, t);
      var woken, expired := WokenWithin(states, actions, i, k, t), ExpiredWithin(actions, i, k, t);
      WaitGoesOn(states[k], actions[k], t, actions[i], woken, expired);
      assert WokenWithin(states, actions, i, j, t) <==> woken || WakesUp(states[k], actions[k], t);
      assert ExpiredWithin(actions, i, j, t) <==> expired || actions[k] == Timeout(t);
    } else {
      WaitBegins(states[k], actions[k]);
    }
  }

  // A whole call: it returns with the mutex it was called with, which nobody
  // has had at that moment.  It returns 1 if and only if a signaller woke it,
  // and otherwise its timeout had expired; so without a timeout it returns 1.
  lemma WaitFromStartToEnd(states: seq<State>, actions: seq<Action>, i: nat, j: nat, t: Tid)
    requires Run(states, actions) && i < j < |actions| && actions[i].BeginWait? && actions[i].t == t
    requires actions[j] == Relock(t) && forall k :: i < k < j ==> actions[k] != Relock(t)
    ensures var b := actions[i];
            && MutexOf(states[i], b.mx) == Some(t) && MutexOf(states[j], b.mx) == None
            && MutexOf(states[j + 1], b.mx) == Some(t) && PcOf(states[j + 1], t) == Idle
    ensures Result(states[j], t) <==> WokenWithin(states, actions, i, j, t)
    ensures !Result(states[j], t) <==> ExpiredWithin(actions, i, j, t)
    ensures !actions[i].timed ==> Result(states[j], t)
  {
    WaitIsUnderway(states, actions, i, j, t);
    RunsKeepInv(states, actions, j);
    assert StepAt(states, actions, i) && StepAt(states, actions, j);
    WaitReturnsOneIffWoken(states[j], t);
    MutexMoves(states[j], actions[j], actions[i].mx);
  }

  // What a Cond_Signal or Cond_Broadcast is about stays the same until it ends.
  lemma SignallerKeepsItsCall(s: State, a: Action, t: Tid)
    requires Inv(s) && Enabled(s, a) && HoldsRing(PcOf(s, t)) && !Waits(PcOf(s, t)) && !(a == EndSignal(t))
    ensures var p, p' := PcOf(s, t), PcOf(Next(s, a), t);
            && HoldsRing(p') && !Waits(p') && p'.cv == p.cv && p'.start == p.start
            && (p.Leaving? ==> p' == p) && (p'.Leaving? && !p.Leaving? ==> !p.all)
            && (!p.Leaving? && !p'.Leaving? ==> p'.all == p.all)
  {
    if a.t != t { PcFrame(s, a, t); }
  }

  // It begins with the ring as it finds it; a broadcast goes on after a wakeup,
  // and a signal has done.
  lemma SignalBegins(s: State, a: Action)
    requires Inv(s) && Enabled(s, a)
    ensures a.BeginSignal? ==>
              PcOf(Next(s, a), a.t) == Scan(a.cv, a.all, RingOf(s, a.cv)) && LockOf(Next(s, a), a.cv) == Some(a.t)
    ensures a.Mark? ==> PcOf(s, a.t).Woke? && (PcOf(Next(s, a), a.t).Scan? <==> PcOf(s, a.t).all)
    ensures a.EndSignal? ==> PcOf(Next(s, a), a.t) == Idle && LockOf(Next(s, a), PcOf(s, a.t).cv) == None
  {
  }

  // While a signaller refers to a waiter's record, the waiter is still in
  // cv_wait and cannot take the step that would lead it out.
  lemma RecordOutlivesSignaller(s: State, t: Tid)
    requires Inv(s) && (PcOf(s, t).Picked? || PcOf(s, t).Woke? || PcOf(s, t).Leaving?)
    ensures PcOf(s, PcOf(s, t).w).Sleeping? && !Enabled(s, Tidy(PcOf(s, t).w))
  {
    assert SignallerOkIn(s, t);
    assert LockOkIn(s, t);
  }

  // The record of a thread that has left the ring is written by nobody.
  lemma DeadRecordIsNotWritten(s: State, a: Action, t: Tid)
    requires Inv(s) && Enabled(s, a) && !Waits(PcOf(s, t)) && !(a.BeginWait? && a.t == t)
    ensures RecOf(Next(s, a), t) == RecOf(s, t)
  {
    StepFrame(s, a);
    StepAimed(s, a);
    if t == a.t { assert SignallerOkIn(s, t); }
    if a.Pick? { PickedSleeps(s, a); }
  }

  // --------------------------------------------------------------------
  // The monitor that condition variables implement
  // --------------------------------------------------------------------

  // Those of a ring who are to be woken: asleep, or about to be.
  function Live(s: State, q: seq<Tid>): seq<Tid>
  {
    if q == [] then []
    else (if q[0] in s.stopped || PcOf(s, q[0]).Released? then [q[0]] else []) + Live(s, q[1..])
  }

  // The monitor's queue of a condition.  A waiter a signaller has in hand and
  // has not tested yet is still first.
  function Waiting(s: State, cv: Cv): seq<Tid>
  {
    var h := HolderOf(s, cv);
    Live(s, if h.Picked? then [h.w] + RingOf(s, cv) else RingOf(s, cv))
  }

  // What a step means to one condition of the monitor.
  datatype Effect = Nothing | Joins(t: Tid) | FirstLeaves | Expires(t: Tid)

  function EffectOn(s: State, a: Action, cv: Cv): Effect
    requires Enabled(s, a)
  {
    match a
    case DropMutex(t) => if PcOf(s, t).cv == cv then Joins(t) else Nothing
    case Wake(t) => if PcOf(s, t).cv == cv && PcOf(s, t).w in s.stopped then FirstLeaves else Nothing
    case Timeout(t) => if PcOf(s, t).cv == cv then Expires(t) else Nothing
    case _ => Nothing
  }

  function Apply(q: seq<Tid>, e: Effect): seq<Tid>
  {
    match e
    case Nothing => q
    case Joins(t) => q + [t]
    case FirstLeaves => if q == [] then [] else q[1..]
    case Expires(t) => Remove(q, t)
  }

  predicate LiveIn(s: State, t: Tid)
  {
    t in s.stopped || PcOf(s, t).Released?
  }

  lemma {:induction false} LiveSame(s: State, s': State, q: seq<Tid>)
    requires forall u :: u in q ==> (LiveIn(s', u) <==> LiveIn(s, u))
    ensures Live(s', q) == Live(s, q)
  {
    if q != [] {
      assert q[0] in q;
      LiveSame(s, s', q[1..]);
    }
  }

  lemma {:induction false} LiveConcat(s: State, p: seq<Tid>, q: seq<Tid>)
    ensures Live(s, p + q) == Live(s, p) + Live(s, q)
  {
    if p == [] {
      assert p + q == q;
    } else {
      assert (p + q)[1..] == p[1..] + q;
      LiveConcat(s, p[1..], q);
    }
  }

  lemma {:induction false} LiveMembers(s: State, q: seq<Tid>)
    ensures forall u :: u in Live(s, q) <==> u in q && LiveIn(s, u)
  {
    if q != [] {
      LiveMembers(s, q[1..]);
      assert q == [q[0]] + q[1..];
    }
  }

  lemma LiveHead(s: State, q: seq<Tid>)
    requires q != []
    ensures Live(s, q) == if LiveIn(s, q[0]) then [q[0]] + Live(s, q[1..]) else Live(s, q[1..])
  {
    assert [] + Live(s, q[1..]) == Live(s, q[1..]);
  }

  lemma RemoveHead(x: Tid, l: seq<Tid>, t: Tid)
    ensures Remove([x] + l, t) == if x == t then l else [x] + Remove(l, t)
  {
    assert ([x] + l)[1..] == l;
  }

  // One thread of q stops being live.
  lemma {:induction false} LiveLoses(s: State, s': State, q: seq<Tid>, t: Tid)
    requires Distinct(q) && LiveIn(s, t) && !LiveIn(s', t)
    requires forall u :: u != t ==> (LiveIn(s', u) <==> LiveIn(s, u))
    ensures Live(s', q) == Remove(Live(s, q), t)
  {
    if q != [] {
      LiveHead(s, q);
      LiveHead(s', q);
      RemoveHead(q[0], Live(s, q[1..]), t);
      if q[0] == t {
        LiveSame(s, s', q[1..]);
      } else {
        LiveLoses(s, s', q[1..], t);
      }
    }
  }

  // A thread that is not live goes from the list itself.
  lemma {:induction false} LiveWithout(s: State, q: seq<Tid>, t: Tid)
    requires !LiveIn(s, t)
    ensures Live(s, Remove(q, t)) == Live(s, q)
  {
    if q != [] && q[0] != t { LiveWithout(s, q[1..], t); }
  }

  // The list Waiting is taken from.
  function Line(s: State, cv: Cv): seq<Tid>
  {
    var h := HolderOf(s, cv);
    if h.Picked? then [h.w] + RingOf(s, cv) else RingOf(s, cv)
  }

  lemma LineFacts(s: State, cv: Cv)
    requires Inv(s)
    ensures Distinct(Line(s, cv)) && forall u :: u in Line(s, cv) ==> Waits(PcOf(s, u)) && PcOf(s, u).cv == cv
  {
    assert Distinct(RingOf(s, cv)) && RingLocked(s, cv);
    var h := HolderOf(s, cv);
    forall u | u in RingOf(s, cv)
      ensures Waits(PcOf(s, u)) && PcOf(s, u).cv == cv && (h.Picked? ==> u != h.w)
    {
      assert u in RingOf(s, cv) <==> InRing(s, cv, u);
      if h.Picked? { assert SignallerOkIn(s, LockOf(s, cv).value); }
    }
    if h.Picked? { assert SignallerOkIn(s, LockOf(s, cv).value); }
  }

  // A step that leaves the line, and who of it is live, alone.
  lemma LineSame(s: State, s': State, cv: Cv)
    requires Line(s', cv) == Line(s, cv)
    requires forall u :: u in Line(s, cv) ==> (LiveIn(s', u) <==> LiveIn(s, u))
    ensures Waiting(s', cv) == Waiting(s, cv)
  {
    LiveSame(s, s', Line(s, cv));
  }

  lemma MutexStep(s: State, a: Action, cv: Cv)
    requires Inv(s) && Enabled(s, a) && (a.Lock? || a.Unlock? || a.Relock?)
    ensures Waiting(Next(s, a), cv) == Waiting(s, cv)
  {
    LineFacts(s, cv);
    StepFrame(s, a);
    assert RingLocked(s, cv);
    LineSame(s, Next(s, a), cv);
  }

  lemma BeginWaitStep(s: State, a: Action, cv: Cv)
    requires Inv(s) && Enabled(s, a) && a.BeginWait?
    ensures Waiting(Next(s, a), cv) == Waiting(s, cv)
  {
    LineFacts(s, cv);
    if a.cv == cv {
      WaiterIsPushed(s, a);
    } else {
      LineSame(s, Next(s, a), cv);
    }
  }

  // Until it drops the mutex, the new waiter does not count as waiting.
  lemma WaiterIsPushed(s: State, a: Action)
    requires Inv(s) && Enabled(s, a) && a.BeginWait?
    ensures Waiting(Next(s, a), a.cv) == Waiting(s, a.cv)
  {
    var s', q := Next(s, a), RingOf(s, a.cv);
    LineFacts(s, a.cv);
    assert Line(s, a.cv) == q && Line(s', a.cv) == q + [a.t];
    LiveSame(s, s', q);
    LiveConcat(s', q, [a.t]);
    assert WaiterOkIn(s, a.t);
    assert Live(s', [a.t]) == [];
  }

  // The mutex is dropped, and the waiter joins the queue, in one step.
  lemma DropMutexStep(s: State, a: Action, cv: Cv)
    requires Inv(s) && Enabled(s, a) && a.DropMutex?
    ensures Waiting(Next(s, a), cv) == Apply(Waiting(s, cv), EffectOn(s, a, cv))
    ensures MutexOf(Next(s, a), PcOf(s, a.t).mx) == None
  {
    var s', p, t := Next(s, a), PcOf(s, a.t), a.t;
    LineFacts(s, cv);
    assert LockOkIn(s, t) && ProgressOkIn(s, t) && WaiterOkIn(s, t) && RingLocked(s, cv);
    if p.cv == cv {
      var q := RingOf(s, cv);
      var q' := q[..|q| - 1];
      assert q == q' + [t];
      LiveConcat(s, q', [t]);
      LiveConcat(s', q', [t]);
      LiveSame(s, s', q');
      assert Live(s, [t]) == [] && Live(s', [t]) == [t];
    } else {
      LineSame(s, s', cv);
    }
  }

  lemma GoToSleepStep(s: State, a: Action, cv: Cv)
    requires Inv(s) && Enabled(s, a) && a.GoToSleep?
    ensures Waiting(Next(s, a), cv) == Waiting(s, cv)
  {
    var p := PcOf(s, a.t);
    LineFacts(s, cv);
    assert LockOkIn(s, a.t) && RingLocked(s, cv);
    LineSame(s, Next(s, a), cv);
  }

  lemma TimeoutStep(s: State, a: Action, cv: Cv)
    requires Inv(s) && Enabled(s, a) && a.Timeout?
    ensures Waiting(Next(s, a), cv) == Apply(Waiting(s, cv), EffectOn(s, a, cv))
  {
    var s' := Next(s, a);
    LineFacts(s, cv);
    assert Line(s', cv) == Line(s, cv);
    if PcOf(s, a.t).cv == cv {
      LiveLoses(s, s', Line(s, cv), a.t);
    } else {
      LineSame(s, s', cv);
    }
  }

  lemma TidyStep(s: State, a: Action, cv: Cv)
    requires Inv(s) && Enabled(s, a) && a.Tidy?
    ensures Waiting(Next(s, a), cv) == Waiting(s, cv)
  {
    var s' := Next(s, a);
    LineFacts(s, cv);
    assert RingLocked(s, cv);
    LiveSame(s, s', Line(s, cv));
    if PcOf(s, a.t).cv == cv { LiveWithout(s', RingOf(s, cv), a.t); }
  }

  lemma PickStep(s: State, a: Action, cv: Cv)
    requires Inv(s) && Enabled(s, a) && (a.Pick? || a.BeginSignal?)
    ensures Waiting(Next(s, a), cv) == Waiting(s, cv)
  {
    var s', p := Next(s, a), PcOf(s, a.t);
    LineFacts(s, cv);
    assert LockOkIn(s, a.t) && RingLocked(s, cv) && WaiterOkIn(s, a.t);
    if a.Pick? {
      var q := RingOf(s, p.cv);
      assert q == [q[0]] + q[1..];
    }
    LineSame(s, s', cv);
  }

  lemma WakeStep(s: State, a: Action, cv: Cv)
    requires Inv(s) && Enabled(s, a) && a.Wake?
    ensures Waiting(Next(s, a), cv) == Apply(Waiting(s, cv), EffectOn(s, a, cv))
  {
    var s', p := Next(s, a), PcOf(s, a.t);
    LineFacts(s, cv);
    assert LockOkIn(s, a.t) && RingLocked(s, cv) && SignallerOkIn(s, a.t) && WaiterOkIn(s, a.t);
    if p.cv == cv {
      assert Line(s, cv) == [p.w] + RingOf(s, cv);
      assert Line(s, cv)[1..] == RingOf(s, cv);
      WokenNotInRing(s, a.t);
      LiveSame(s, s', RingOf(s, cv));
    } else {
      LineSame(s, s', cv);
    }
  }

  lemma WokenNotInRing(s: State, t: Tid)
    requires Inv(s) && PcOf(s, t).Picked?
    ensures PcOf(s, t).w !in RingOf(s, PcOf(s, t).cv)
  {
    var p := PcOf(s, t);
    assert SignallerOkIn(s, t);
    assert p.w in RingOf(s, p.cv) <==> InRing(s, p.cv, p.w);
  }

  lemma MarkStep(s: State, a: Action, cv: Cv)
    requires Inv(s) && Enabled(s, a) && (a.Mark? || a.EndSignal?)
    ensures Waiting(Next(s, a), cv) == Waiting(s, cv)
  {
    var p := PcOf(s, a.t);
    LineFacts(s, cv);
    assert LockOkIn(s, a.t) && RingLocked(s, cv) && WaiterOkIn(s, a.t);
    LineSame(s, Next(s, a), cv);
  }

  // The monitor: a thread joins a condition's queue in the very step that drops
  // its mutex, leaves it as its first by a signaller's wakeup, or leaves it by
  // its timeout.  No other step of any thread changes the queue.
  lemma ConditionsAreMonitorQueues(s: State, a: Action, cv: Cv)
    requires Inv(s) && Enabled(s, a)
    ensures Waiting(Next(s, a), cv) == Apply(Waiting(s, cv), EffectOn(s, a, cv))
  {
    match a
    case Lock(t, mx) => MutexStep(s, a, cv);
    case Unlock(t, mx) => MutexStep(s, a, cv);
    case Relock(t) => MutexStep(s, a, cv);
    case BeginWait(t, c, mx, timed) => BeginWaitStep(s, a, cv);
    case DropMutex(t) => DropMutexStep(s, a, cv);
    case GoToSleep(t) => GoToSleepStep(s, a, cv);
    case Timeout(t) => TimeoutStep(s, a, cv);
    case Tidy(t) => TidyStep(s, a, cv);
    case BeginSignal(t, c, all) => PickStep(s, a, cv);
    case Pick(t) => PickStep(s, a, cv);
    case Wake(t) => WakeStep(s, a, cv);
    case Mark(t) => MarkStep(s, a, cv);
    case EndSignal(t) => MarkStep(s, a, cv);
  }

  // A signal that ends without a wakeup, and every broadcast, ends with the
  // queue empty; a wakeup that succeeds takes the first of a non-empty queue.
  lemma SignalsServeTheQueue(s: State, a: Action)
    requires Inv(s) && Enabled(s, a)
    ensures a.EndSignal? && PcOf(s, a.t).Scan? ==> Waiting(s, PcOf(s, a.t).cv) == []
    ensures a.Wake? && PcOf(s, a.t).w in s.stopped ==>
              Waiting(s, PcOf(s, a.t).cv) != [] && Waiting(s, PcOf(s, a.t).cv)[0] == PcOf(s, a.t).w
  {
    assert LockOkIn(s, a.t);
  }

  // A waiter goes on only when it has left the queue.
  lemma QueuedWaiterIsBlocked(s: State, t: Tid, cv: Cv)
    requires Inv(s) && t in Waiting(s, cv)
    ensures !Enabled(s, Tidy(t)) && !Enabled(s, Relock(t)) && Waits(PcOf(s, t))
  {
    LineFacts(s, cv);
    LiveMembers(s, Line(s, cv));
  }

  // --------------------------------------------------------------------
  // Who can act
  // --------------------------------------------------------------------

  // What keeps a thread that is inside a call from its next step: its sleep, a
  // ring that is locked, or a mutex that is not free.
  predicate Blocked(s: State, t: Tid)
  {
    var p := PcOf(s, t);
    || (p.Sleeping? && t in s.stopped && !p.timed)
    || (p.Sleeping? && t !in s.stopped && LockOf(s, p.cv) != None)
    || (p.Tidied? && MutexOf(s, p.mx) != None)
  }

  function NextStep(s: State, t: Tid): Action
    requires !PcOf(s, t).Idle?
  {
    match PcOf(s, t)
    case Pushed(_, _, _) => DropMutex(t)
    case Released(_, _, _) => GoToSleep(t)
    case Sleeping(_, _, _) => if t in s.stopped then Timeout(t) else Tidy(t)
    case Tidied(_, _, _) => Relock(t)
    case Scan(cv, _, _) => if RingOf(s, cv) == [] then EndSignal(t) else Pick(t)
    case Picked(_, _, _, _) => Wake(t)
    case Woke(_, _, _, _) => Mark(t)
    case Leaving(_, _, _) => EndSignal(t)
  }

  // A thread inside a call is held up by nothing else; so whoever has a ring
  // locked can go on until it has unlocked it.
  lemma ThreadsCanAct(s: State, t: Tid)
    requires Inv(s)
    ensures !PcOf(s, t).Idle? ==> (Enabled(s, NextStep(s, t)) <==> !Blocked(s, t))
    ensures forall cv :: LockOf(s, cv) == Some(t) ==> !PcOf(s, t).Idle? && !Blocked(s, t)
  {
    forall cv | LockOf(s, cv) == Some(t)
      ensures HoldsRing(PcOf(s, t))
    {
      assert RingLocked(s, cv);
    }
  }

  // A thread outside all calls can begin any: a wait with a mutex it has, if the
  // ring is not locked; a signal, if the ring is not locked.
  lemma CallersCanBegin(s: State, t: Tid, cv: Cv, mx: Mx, timed: bool, all: bool)
    requires PcOf(s, t).Idle?
    ensures MutexOf(s, mx) == None ==> Enabled(s, Lock(t, mx))
    ensures MutexOf(s, mx) == Some(t) ==> Enabled(s, Unlock(t, mx))
    ensures MutexOf(s, mx) == Some(t) && LockOf(s, cv) == None ==> Enabled(s, BeginWait(t, cv, mx, timed))
    ensures LockOf(s, cv) == None ==> Enabled(s, BeginSignal(t, cv, all))
  {
  }
}
