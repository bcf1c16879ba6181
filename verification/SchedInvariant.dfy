/**
 The scheduler's invariant, and that every critical section keeps it.
 */
module SchedInvariant {
  import opened Sequences
  import opened SchedModel

  // Core k is responsible for t's context: it is executing it, or has not yet
  // finished switching away from it.
  predicate Holds(k: CoreState, t: Tid)
  {
    t == if k.point == Switching then k.previous else k.current
  }

  // Core k has taken t from the scheduler and not yet reached gain.
  predicate Picks(k: CoreState, t: Tid)
  {
    k.point == Switching && k.current == t && k.previous != t
  }

  ghost predicate Held(s: State, t: Tid)
  {
    exists c :: c in s.cores && Holds(s.cores[c], t)
  }

  ghost predicate Picked(s: State, t: Tid)
  {
    exists c :: c in s.cores && Picks(s.cores[c], t)
  }

  // --- cores

  // The thread whose context the core holds.
  ghost predicate HolderOk(s: State, k: CoreState)
  {
    var t := if k.point == Switching then k.previous else k.current;
    && t in s.tcbs && s.tcbs[t].phase == CTX_DIRTY
    && (k.point == Run <==> s.tcbs[t].state == RUNNING)
    && s.tcbs[t].state != INIT
    && (s.tcbs[t].kind == IDLE_THREAD ==> t == k.idle)
  }

  // The thread the core switches to.
  ghost predicate NextOk(s: State, k: CoreState)
  {
    k.point == Switching ==>
      && k.current in s.tcbs && s.tcbs[k.current].state == READY
      && (k.current != k.previous ==> s.tcbs[k.current].phase == CTX_CLEAN)
      && (s.tcbs[k.current].kind == IDLE_THREAD ==> k.current == k.idle)
  }

  // The core's idle thread is never asleep, and is free unless the core has it.
  ghost predicate IdleOk(s: State, k: CoreState)
  {
    && k.idle in s.tcbs && s.tcbs[k.idle].kind == IDLE_THREAD
    && s.tcbs[k.idle].state in {READY, RUNNING}
    && (!Holds(k, k.idle) ==> s.tcbs[k.idle].state == READY && s.tcbs[k.idle].phase == CTX_CLEAN)
  }

  ghost predicate CoreOk(s: State, k: CoreState)
  {
    HolderOk(s, k) && NextOk(s, k) && IdleOk(s, k)
  }

  function Mine(k: CoreState): set<Tid>
  {
    if k.point == Switching then {k.current, k.previous} else {k.current}
  }

  ghost predicate Apart(k: CoreState, l: CoreState)
  {
    Mine(k) !! Mine(l) && k.idle != l.idle
  }

  // No thread is on two cores.
  ghost predicate Exclusive(s: State)
  {
    forall c, d {:trigger Apart(s.cores[c], s.cores[d])} ::
      c in s.cores && d in s.cores && c != d ==> Apart(s.cores[c], s.cores[d])
  }

  ghost predicate CoresOk(s: State)
  {
    && (forall c {:trigger CoreOk(s, s.cores[c])} :: c in s.cores ==> CoreOk(s, s.cores[c]))
    && Exclusive(s)
  }

  // --- threads

  ghost predicate ThreadOk(s: State, t: Tid)
    requires t in s.tcbs
  {
    var v := s.tcbs[t];
    && (v.state == INIT ==> v.phase == CTX_CLEAN && v.wakeupTime == NO_TIMEOUT)
    && (v.state == EXITED || v.state == RUNNING ==> v.phase == CTX_DIRTY)
    && (v.phase == CTX_DIRTY ==> Held(s, t))
    && (v.kind == IDLE_THREAD ==> v.state in {READY, RUNNING})
    && (v.wakeupTime != NO_TIMEOUT ==> v.state == STOPPED)
  }

  ghost predicate ThreadsOk(s: State)
  {
    forall t {:trigger ThreadOk(s, t)} :: t in s.tcbs ==> ThreadOk(s, t)
  }

  // --- scheduler queues: a thread is queued iff it is READY and CLEAN,
  // it is not an idle thread, and no core has just picked it.

  ghost predicate Queueable(s: State, t: Tid)
  {
    && t in s.tcbs && s.tcbs[t].kind == NORMAL_THREAD
    && s.tcbs[t].state == READY && s.tcbs[t].phase == CTX_CLEAN && !Picked(s, t)
  }

  predicate InQueue(s: State, i: nat, t: Tid)
    requires i < MAX_PRIORITIES
  {
    t in s.sched[i]
  }

  ghost predicate LevelsOk(s: State)
  {
    forall i :: 0 <= i < MAX_PRIORITIES ==> Distinct(s.sched[i])
  }

  ghost predicate QueuesSound(s: State)
  {
    forall i, t :: 0 <= i < MAX_PRIORITIES && InQueue(s, i, t) ==> Queueable(s, t) && s.tcbs[t].priority == i
  }

  ghost predicate QueuesComplete(s: State)
  {
    forall t :: Queueable(s, t) ==> InQueue(s, s.tcbs[t].priority, t)
  }

  ghost predicate QueuesOk(s: State)
  {
    LevelsOk(s) && QueuesSound(s) && QueuesComplete(s)
  }

  // --- timeouts

  ghost predicate Sorted(q: seq<Tid>, tcbs: map<Tid, Tcb>)
  {
    forall i, j :: 0 <= i < j < |q| && q[i] in tcbs && q[j] in tcbs ==> tcbs[q[i]].wakeupTime <= tcbs[q[j]].wakeupTime
  }

  ghost predicate Timed(s: State, t: Tid)
  {
    t in s.tcbs && s.tcbs[t].state == STOPPED && s.tcbs[t].wakeupTime != NO_TIMEOUT
  }

  ghost predicate TimeoutsOk(s: State)
  {
    && Distinct(s.timeouts) && Sorted(s.timeouts, s.tcbs)
    && (forall t :: t in s.timeouts <==> Timed(s, t))
  }

  ghost predicate Inv(s: State)
  {
    CoresOk(s) && ThreadsOk(s) && QueuesOk(s) && TimeoutsOk(s)
  }

  // --------------------------------------------------------------------
  // sched_make_ready
  // --------------------------------------------------------------------

  lemma RemoveFacts(q: seq<Tid>, t: Tid, tcbs: map<Tid, Tcb>)
    requires Distinct(q) && Sorted(q, tcbs)
    ensures Distinct(Remove(q, t)) && Sorted(Remove(q, t), tcbs)
    ensures forall u :: u in Remove(q, t) <==> u in q && u != t
  {
    var i := RemoveIndex(q, t);
    if i < |q| {
      CutMembers(q, i);
      var r := q[..i] + q[i + 1..];
      assert forall j :: 0 <= j < |r| ==> r[j] == q[if j < i then j else j + 1];
    }
  }

  lemma CutMembers(q: seq<Tid>, i: nat)
    requires Distinct(q) && i < |q|
    ensures forall u :: u in q[..i] + q[i + 1..] <==> u in q && u != q[i]
  {
    assert q == q[..i] + [q[i]] + q[i + 1..];
  }

  // MakeReady touches the entry of one thread only.
  lemma MakeReadyKeepsTimeouts(s: State, t: Tid)
    requires Inv(s) && t in s.tcbs && Asleep(s.tcbs[t])
    ensures TimeoutsOk(MakeReady(s, t))
  {
    assert ThreadOk(s, t);
    var s' := MakeReady(s, t);
    RemoveFacts(s.timeouts, t, s.tcbs);
    assert s.tcbs[t].wakeupTime == NO_TIMEOUT ==> !Timed(s, t);
    assert s'.timeouts == if s.tcbs[t].wakeupTime != NO_TIMEOUT then Remove(s.timeouts, t) else s.timeouts;
    assert t !in s'.timeouts;
    forall u
      ensures u in s'.timeouts <==> Timed(s', u)
    {
      assert u in s.timeouts <==> Timed(s, u);
    }
  }

  lemma MakeReadyKeepsCore(s: State, t: Tid, k: CoreState)
    requires Inv(s) && t in s.tcbs && Asleep(s.tcbs[t]) && CoreOk(s, k)
    ensures CoreOk(MakeReady(s, t), k)
  {
  }

  lemma MakeReadyKeepsCores(s: State, t: Tid)
    requires Inv(s) && t in s.tcbs && Asleep(s.tcbs[t])
    ensures CoresOk(MakeReady(s, t))
  {
    var s' := MakeReady(s, t);
    assert s'.cores == s.cores;
    forall c | c in s'.cores
      ensures CoreOk(s', s'.cores[c])
    {
      MakeReadyKeepsCore(s, t, s.cores[c]);
    }
    SameCoresExclusive(s, s');
  }

  lemma SameCoresExclusive(s: State, s': State)
    requires s'.cores == s.cores && Exclusive(s)
    ensures Exclusive(s')
  {
    forall c, d | c in s'.cores && d in s'.cores && c != d
      ensures Apart(s'.cores[c], s'.cores[d])
    {
      assert Apart(s.cores[c], s.cores[d]);
    }
  }

  lemma MakeReadyKeepsThreads(s: State, t: Tid)
    requires Inv(s) && t in s.tcbs && Asleep(s.tcbs[t])
    ensures ThreadsOk(MakeReady(s, t))
  {
    var s' := MakeReady(s, t);
    forall u | u in s'.tcbs
      ensures ThreadOk(s', u)
    {
      assert ThreadOk(s, u);
      SameCoresSamePicked(s, s', u);
    }
  }

  lemma MakeReadyKeepsQueues(s: State, t: Tid)
    requires Inv(s) && t in s.tcbs && Asleep(s.tcbs[t])
    ensures QueuesOk(MakeReady(s, t))
  {
    assert ThreadOk(s, t);
    var s', p := MakeReady(s, t), s.tcbs[t].priority;
    forall c | c in s.cores
      ensures !Picks(s.cores[c], t)
    {
      assert CoreOk(s, s.cores[c]);
    }
    assert !Picked(s, t) && !Queueable(s, t);
    forall u
      ensures Picked(s', u) <==> Picked(s, u)
    {
      SameCoresSamePicked(s, s', u);
    }
    forall i, u | 0 <= i < MAX_PRIORITIES
      ensures InQueue(s', i, u) <==> InQueue(s, i, u) || (u == t && i == p && s.tcbs[t].phase == CTX_CLEAN)
    {
    }
    assert !InQueue(s, p, t);
  }

  lemma SameCoresSamePicked(s: State, s': State, t: Tid)
    requires s.cores == s'.cores
    ensures Picked(s, t) <==> Picked(s', t)
    ensures Held(s, t) <==> Held(s', t)
  {
    if Picked(s, t) {
      var c :| c in s.cores && Picks(s.cores[c], t);
      assert Picks(s'.cores[c], t);
    }
    if Picked(s', t) {
      var c :| c in s'.cores && Picks(s'.cores[c], t);
      assert Picks(s.cores[c], t);
    }
    if Held(s, t) {
      var c :| c in s.cores && Holds(s.cores[c], t);
      assert Holds(s'.cores[c], t);
    }
    if Held(s', t) {
      var c :| c in s'.cores && Holds(s'.cores[c], t);
      assert Holds(s.cores[c], t);
    }
  }

  lemma MakeReadyKeepsInv(s: State, t: Tid)
    requires Inv(s) && t in s.tcbs && Asleep(s.tcbs[t])
    ensures Inv(MakeReady(s, t))
  {
    MakeReadyKeepsCores(s, t);
    MakeReadyKeepsThreads(s, t);
    MakeReadyKeepsQueues(s, t);
    MakeReadyKeepsTimeouts(s, t);
  }

  // What it does to t: READY, off the timeout list, and queued, at its priority
  // and as the last, if and only if it is CLEAN.  Nobody else is touched.
  lemma MakeReadyQueuesIffClean(s: State, t: Tid, u: Tid, i: nat)
    requires Inv(s) && t in s.tcbs && Asleep(s.tcbs[t]) && u != t && i < MAX_PRIORITIES
    ensures var s', v := MakeReady(s, t), s.tcbs[t];
            && s'.tcbs[t] == v.(state := READY, wakeupTime := NO_TIMEOUT) && t !in s'.timeouts
            && (InQueue(s', i, t) <==> v.phase == CTX_CLEAN && i == v.priority)
            && (v.phase == CTX_CLEAN ==> s'.sched[v.priority] == s.sched[v.priority] + [t])
            && (u in s'.tcbs <==> u in s.tcbs) && (u in s.tcbs ==> s'.tcbs[u] == s.tcbs[u])
            && (u in s'.timeouts <==> u in s.timeouts)
            && (InQueue(s', i, u) <==> InQueue(s, i, u))
            && s'.cores == s.cores
  {
    MakeReadyKeepsTimeouts(s, t);
    assert ThreadOk(s, t) && !Queueable(s, t) && !InQueue(s, i, t);
    RemoveFacts(s.timeouts, t, s.tcbs);
    assert Timed(s, t) <==> t in s.timeouts;
    assert Timed(MakeReady(s, t), t) <==> t in MakeReady(s, t).timeouts;
  }

  lemma WakeupKeepsInv(s: State, t: Tid)
    requires Inv(s) && t in s.tcbs
    ensures Inv(Wakeup(s, t))
  {
    if Asleep(s.tcbs[t]) { MakeReadyKeepsInv(s, t); }
  }

  lemma {:induction false} WakeExpiredKeepsInv(s: State, now: nat)
    requires Inv(s)
    ensures ExpiryDefined(s) && Inv(WakeExpired(s, now))
    ensures WakeExpired(s, now).cores == s.cores
    decreases |s.timeouts|
  {
    TimedAreStopped(s);
    if s.timeouts != [] && s.tcbs[s.timeouts[0]].wakeupTime <= now {
      var s1 := MakeReady(s, s.timeouts[0]);
      assert Timed(s, s.timeouts[0]);
      MakeReadyKeepsInv(s, s.timeouts[0]);
      assert s1.timeouts == s.timeouts[1..];
      WakeExpiredKeepsInv(s1, now);
    }
  }

  ghost predicate ExpiryDefined(s: State)
  {
    && Distinct(s.timeouts)
    && (forall u :: u in s.timeouts ==> u in s.tcbs && s.tcbs[u].wakeupTime != NO_TIMEOUT)
  }

  lemma TimedAreStopped(s: State)
    requires Inv(s)
    ensures ExpiryDefined(s)
  {
    forall u | u in s.timeouts
      ensures u in s.tcbs && s.tcbs[u].wakeupTime != NO_TIMEOUT
    {
      assert Timed(s, u);
    }
  }

  // --------------------------------------------------------------------
  // A core changes its current thread, which stays DIRTY
  // --------------------------------------------------------------------

  function Update(s: State, c: Core, v: Tcb): State
    requires c in s.cores
  {
    Put(s, s.cores[c].current, v).(cores := s.cores[c := s.cores[c].(point := Yielding)])
  }

  // The new entry leaves the core in order, and the thread's timeout alone.
  ghost predicate UpdateOk(s: State, c: Core, v: Tcb)
  {
    && c in s.cores && s.cores[c].point != Switching && s.cores[c].current in s.tcbs
    && var u := s.tcbs[s.cores[c].current];
    && v.phase == CTX_DIRTY && v.kind == u.kind && v.wakeupTime == u.wakeupTime
    && v.state in {READY, STOPPED, EXITED}
    && (v.kind == IDLE_THREAD ==> v.state == READY)
    && (v.state == u.state || u.state == RUNNING)
  }

  lemma UpdateKeepsCores(s: State, c: Core, v: Tcb)
    requires Inv(s) && UpdateOk(s, c, v)
    ensures CoresOk(Update(s, c, v))
  {
    var s' := Update(s, c, v);
    var t := s.cores[c].current;
    forall d | d in s'.cores
      ensures CoreOk(s', s'.cores[d])
    {
      assert CoreOk(s, s.cores[d]) && CoreOk(s, s.cores[c]);
      if d != c { assert Apart(s.cores[c], s.cores[d]); }
    }
    forall d, e | d in s'.cores && e in s'.cores && d != e
      ensures Apart(s'.cores[d], s'.cores[e])
    {
      assert Apart(s.cores[d], s.cores[e]);
    }
  }

  // Moving a core from one point to another before Switching picks nobody.
  lemma UpdateSamePicked(s: State, c: Core, v: Tcb, t: Tid)
    requires Inv(s) && UpdateOk(s, c, v)
    ensures Picked(Update(s, c, v), t) <==> Picked(s, t)
    ensures Held(Update(s, c, v), t) <==> Held(s, t)
  {
    var s' := Update(s, c, v);
    assert forall d :: d in s.cores ==> (Picks(s'.cores[d], t) <==> Picks(s.cores[d], t));
    assert forall d :: d in s.cores ==> (Holds(s'.cores[d], t) <==> Holds(s.cores[d], t));
    if Held(s, t) {
      var d :| d in s.cores && Holds(s.cores[d], t);
      assert Holds(s'.cores[d], t);
    }
    if Picked(s, t) {
      var d :| d in s.cores && Picks(s.cores[d], t);
      assert Picks(s'.cores[d], t);
    }
  }

  lemma UpdateKeepsThreads(s: State, c: Core, v: Tcb)
    requires Inv(s) && UpdateOk(s, c, v)
    ensures ThreadsOk(Update(s, c, v))
  {
    var s' := Update(s, c, v);
    assert CoreOk(s, s.cores[c]);
    forall u | u in s'.tcbs
      ensures ThreadOk(s', u)
    {
      assert ThreadOk(s, u);
      UpdateSamePicked(s, c, v, u);
      if u == s.cores[c].current { assert Holds(s.cores[c], u); }
    }
  }

  lemma UpdateKeepsQueues(s: State, c: Core, v: Tcb)
    requires Inv(s) && UpdateOk(s, c, v)
    ensures QueuesOk(Update(s, c, v))
  {
    var s' := Update(s, c, v);
    assert CoreOk(s, s.cores[c]);
    forall u
      ensures Queueable(s', u) <==> Queueable(s, u)
      ensures u == s.cores[c].current ==> !Queueable(s, u)
    {
      UpdateSamePicked(s, c, v, u);
    }
    forall i, u | 0 <= i < MAX_PRIORITIES && InQueue(s', i, u)
      ensures Queueable(s', u) && s'.tcbs[u].priority == i
    {
      assert InQueue(s, i, u);
    }
    forall u | Queueable(s', u)
      ensures InQueue(s', s'.tcbs[u].priority, u)
    {
      assert Queueable(s, u);
      assert InQueue(s, s.tcbs[u].priority, u);
    }
  }

  lemma UpdateKeepsTimeouts(s: State, c: Core, v: Tcb)
    requires Inv(s) && UpdateOk(s, c, v)
    ensures TimeoutsOk(Update(s, c, v))
  {
    var s', t := Update(s, c, v), s.cores[c].current;
    assert ThreadOk(s, t);
    forall u
      ensures Timed(s', u) <==> Timed(s, u)
    {
    }
    forall u
      ensures u in s'.timeouts <==> Timed(s', u)
    {
      assert u in s.timeouts <==> Timed(s, u);
    }
  }

  lemma UpdateKeepsInv(s: State, c: Core, v: Tcb)
    requires Inv(s) && UpdateOk(s, c, v)
    ensures Inv(Update(s, c, v))
  {
    UpdateKeepsCores(s, c, v);
    UpdateKeepsThreads(s, c, v);
    UpdateKeepsQueues(s, c, v);
    UpdateKeepsTimeouts(s, c, v);
  }

  lemma DemoteKeepsInv(s: State, c: Core, cause: Cause)
    requires Inv(s) && c in s.cores && s.cores[c].point != Switching
    ensures s.cores[c].current in s.tcbs && Inv(Demote(s, c, cause))
    ensures Demote(s, c, cause).cores[c] == s.cores[c].(point := Yielding)
  {
    assert CoreOk(s, s.cores[c]);
    var t := s.cores[c].current;
    assert ThreadOk(s, t);
    var v := s.tcbs[t];
    var v' := v.(priority := AdjustedPriority(v, cause), state := if v.state == RUNNING then READY else v.state,
                 lastCause := v.currCause, currCause := cause);
    assert Demote(s, c, cause) == Update(s, c, v');
    UpdateKeepsInv(s, c, v');
  }

  // --------------------------------------------------------------------
  // sched_register_timeout and sleep_releasing
  // --------------------------------------------------------------------

  ghost predicate Known(q: seq<Tid>, tcbs: map<Tid, Tcb>)
  {
    forall u :: u in q ==> u in tcbs
  }

  lemma {:induction false} InsertIndex(q: seq<Tid>, t: Tid, w: nat, tcbs: map<Tid, Tcb>) returns (i: nat)
    requires Known(q, tcbs)
    ensures i <= |q| && InsertSorted(q, t, w, tcbs) == q[..i] + [t] + q[i..]
    ensures forall j :: 0 <= j < i ==> tcbs[q[j]].wakeupTime <= w
    ensures i < |q| ==> w < tcbs[q[i]].wakeupTime
  {
    if q == [] || w < tcbs[q[0]].wakeupTime {
      i := 0;
    } else {
      var k := InsertIndex(q[1..], t, w, tcbs);
      i := k + 1;
      assert q[..i] + [t] + q[i..] == [q[0]] + (q[1..][..k] + [t] + q[1..][k..]);
    }
  }

  lemma InsertFacts(q: seq<Tid>, t: Tid, v: Tcb, tcbs: map<Tid, Tcb>)
    requires Known(q, tcbs) && Distinct(q) && t !in q && Sorted(q, tcbs)
    ensures var r := InsertSorted(q, t, v.wakeupTime, tcbs);
            Distinct(r) && Sorted(r, tcbs[t := v]) && forall u :: u in r <==> u in q || u == t
  {
    var i := InsertIndex(q, t, v.wakeupTime, tcbs);
    InsertNoDup(q, t, i);
    InsertIsSorted(q, t, v, tcbs, i);
  }

  lemma InsertNoDup(q: seq<Tid>, t: Tid, i: nat)
    requires Distinct(q) && t !in q && i <= |q|
    ensures Distinct(q[..i] + [t] + q[i..])
    ensures forall u :: u in q[..i] + [t] + q[i..] <==> u in q || u == t
  {
    var r := q[..i] + [t] + q[i..];
    assert q == q[..i] + q[i..];
    forall j, k | 0 <= j < k < |r|
      ensures r[j] != r[k]
    {
      assert r[j] == if j < i then q[j] else if j == i then t else q[j - 1];
      assert r[k] == if k < i then q[k] else if k == i then t else q[k - 1];
    }
  }

  lemma InsertIsSorted(q: seq<Tid>, t: Tid, v: Tcb, tcbs: map<Tid, Tcb>, i: nat)
    requires Known(q, tcbs) && t !in q && Sorted(q, tcbs) && i <= |q|
    requires forall j :: 0 <= j < i ==> tcbs[q[j]].wakeupTime <= v.wakeupTime
    requires i < |q| ==> v.wakeupTime < tcbs[q[i]].wakeupTime
    ensures Sorted(q[..i] + [t] + q[i..], tcbs[t := v])
  {
    var r, new' := q[..i] + [t] + q[i..], tcbs[t := v];
    assert forall j :: 0 <= j < |q| ==> q[j] in q;
    forall j, k | 0 <= j < k < |r| && r[j] in new' && r[k] in new'
      ensures new'[r[j]].wakeupTime <= new'[r[k]].wakeupTime
    {
      assert r[j] == if j < i then q[j] else if j == i then t else q[j - 1];
      assert r[k] == if k < i then q[k] else if k == i then t else q[k - 1];
    }
  }

  // The thread has just been stopped, without a timeout so far.
  ghost predicate JustStopped(s: State, t: Tid)
  {
    t in s.tcbs && s.tcbs[t].state == STOPPED && s.tcbs[t].wakeupTime == NO_TIMEOUT
  }

  // The wakeup time does not come out as the mark of "no timeout".
  predicate ClockOk(timeout: nat, now: nat)
  {
    timeout == NO_TIMEOUT || (now + timeout) % CLOCK_RANGE != NO_TIMEOUT
  }

  // The timeout list stays right if and only if the clock plus the timeout,
  // on 64 bits, misses the value NO_TIMEOUT.
  lemma RegisterKeepsTimeoutsIff(s: State, t: Tid, timeout: nat, now: nat)
    requires TimeoutsOk(s) && JustStopped(s, t)
    ensures Known(s.timeouts, s.tcbs)
    ensures TimeoutsOk(RegisterTimeout(s, t, timeout, now)) <==> ClockOk(timeout, now)
  {
    forall u | u in s.timeouts
      ensures u in s.tcbs
    {
      assert Timed(s, u);
    }
    assert !Timed(s, t);
    if timeout != NO_TIMEOUT {
      var s' := RegisterTimeout(s, t, timeout, now);
      var v := s'.tcbs[t];
      InsertFacts(s.timeouts, t, v, s.tcbs);
      assert s'.tcbs == s.tcbs[t := v];
      assert ClockOk(timeout, now) <==> Timed(s', t);
      if ClockOk(timeout, now) {
        forall u
          ensures u in s'.timeouts <==> Timed(s', u)
        {
          assert u in s.timeouts <==> Timed(s, u);
        }
      } else {
        assert t in s'.timeouts && !Timed(s', t);
      }
    }
  }

  lemma RegisterKeepsInv(s: State, t: Tid, timeout: nat, now: nat)
    requires Inv(s) && JustStopped(s, t) && ClockOk(timeout, now)
    ensures Known(s.timeouts, s.tcbs) && Inv(RegisterTimeout(s, t, timeout, now))
  {
    RegisterKeepsTimeoutsIff(s, t, timeout, now);
    var s' := RegisterTimeout(s, t, timeout, now);
    forall c | c in s'.cores
      ensures CoreOk(s', s'.cores[c])
    {
      assert CoreOk(s, s.cores[c]);
    }
    SameCoresExclusive(s, s');
    forall u | u in s'.tcbs
      ensures ThreadOk(s', u)
    {
      assert ThreadOk(s, u);
      SameCoresSamePicked(s, s', u);
    }
    RegisterKeepsQueues(s, t, timeout, now);
  }

  lemma RegisterKeepsQueues(s: State, t: Tid, timeout: nat, now: nat)
    requires Inv(s) && JustStopped(s, t) && Known(s.timeouts, s.tcbs)
    ensures QueuesOk(RegisterTimeout(s, t, timeout, now))
  {
    var s' := RegisterTimeout(s, t, timeout, now);
    forall u
      ensures Queueable(s', u) <==> Queueable(s, u)
    {
      SameCoresSamePicked(s, s', u);
    }
    forall i, u | 0 <= i < MAX_PRIORITIES && InQueue(s', i, u)
      ensures Queueable(s', u) && s'.tcbs[u].priority == i
    {
      assert InQueue(s, i, u);
    }
    forall u | Queueable(s', u)
      ensures InQueue(s', s'.tcbs[u].priority, u)
    {
      assert Queueable(s, u);
      assert InQueue(s, s.tcbs[u].priority, u);
    }
  }

  // The section of sleep_releasing keeps the invariant if and only if it does
  // not have to register a wakeup time that comes out as NO_TIMEOUT.
  lemma SleepKeepsInvIff(s: State, c: Core, newState: ThreadState, timeout: nat, now: nat)
    requires Inv(s) && c in s.cores && s.cores[c].point == Run
    requires s.cores[c].current in s.tcbs ==> s.tcbs[s.cores[c].current].kind == NORMAL_THREAD
    requires newState in {STOPPED, EXITED}
    ensures s.cores[c].current in s.tcbs && Known(s.timeouts, s.tcbs)
    ensures Inv(Sleep(s, c, newState, timeout, now)) <==> newState == EXITED || ClockOk(timeout, now)
  {
    assert CoreOk(s, s.cores[c]);
    var t := s.cores[c].current;
    assert ThreadOk(s, t);
    TimedAreStopped(s);
    var v := s.tcbs[t].(state := newState);
    UpdateKeepsInv(s, c, v);
    if newState == STOPPED {
      RegisterKeepsTimeoutsIff(Update(s, c, v), t, timeout, now);
      if ClockOk(timeout, now) {
        RegisterKeepsInv(Update(s, c, v), t, timeout, now);
      }
    }
  }
}
