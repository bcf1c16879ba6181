/**
 The boost, the selection and the switch: the rest of yield, and gain.
 */
module SchedSwitch {
  import opened Sequences
  import opened SchedModel
  import opened SchedInvariant

  // --------------------------------------------------------------------
  // The boost
  // --------------------------------------------------------------------

  lemma BoostDefined(s: State)
    requires QueuesSound(s)
    ensures forall t :: t in s.tcbs && BelowTop(s.sched, t) ==> s.tcbs[t].priority < MAX_PRIORITIES - 1
  {
    forall t | t in s.tcbs && BelowTop(s.sched, t)
      ensures s.tcbs[t].priority < MAX_PRIORITIES - 1
    {
      var i :| 0 <= i < MAX_PRIORITIES - 1 && t in s.sched[i];
      assert InQueue(s, i, t);
    }
  }

  // A queued thread is below the top exactly when its priority is.
  lemma BelowTopIffPriority(s: State, i: nat, t: Tid)
    requires QueuesSound(s) && i < MAX_PRIORITIES && InQueue(s, i, t)
    ensures t in s.tcbs && s.tcbs[t].priority == i && (BelowTop(s.sched, t) <==> i < MAX_PRIORITIES - 1)
  {
    if BelowTop(s.sched, t) {
      var j :| 0 <= j < MAX_PRIORITIES - 1 && t in s.sched[j];
      assert InQueue(s, j, t);
    }
  }

  // Where a thread is after the boost: one level up, or still at the top.
  lemma BoostMembers(s: State, i: nat, t: Tid)
    requires QueuesSound(s) && i < MAX_PRIORITIES
    ensures t in BoostedLevel(s.sched, i) <==>
            (i > 0 && InQueue(s, i - 1, t)) || (i == MAX_PRIORITIES - 1 && InQueue(s, i, t))
  {
    if i > 0 { ReverseFacts(s.sched[i - 1]); }
  }

  lemma BoostKeepsLevels(s: State)
    requires LevelsOk(s) && QueuesSound(s)
    ensures forall i :: 0 <= i < MAX_PRIORITIES ==> Distinct(BoostedLevel(s.sched, i))
  {
    forall i | 0 <= i < MAX_PRIORITIES
      ensures Distinct(BoostedLevel(s.sched, i))
    {
      if i > 0 {
        ReverseFacts(s.sched[i - 1]);
        if i == MAX_PRIORITIES - 1 {
          forall t | t in s.sched[i]
            ensures t !in Reverse(s.sched[i - 1])
          {
            assert InQueue(s, i, t);
            assert InQueue(s, i - 1, t) <==> t in Reverse(s.sched[i - 1]);
          }
          DistinctConcat(Reverse(s.sched[i - 1]), s.sched[i]);
        }
      }
    }
  }

  lemma BoostKeepsQueues(s: State)
    requires Inv(s)
    ensures BoostOk(s) && QueuesOk(Boost(s))
  {
    BoostDefined(s);
    BoostKeepsLevels(s);
    var s' := Boost(s);
    forall u
      ensures Queueable(s', u) <==> Queueable(s, u)
    {
      SameCoresSamePicked(s, s', u);
    }
    forall i, u | 0 <= i < MAX_PRIORITIES && InQueue(s', i, u)
      ensures Queueable(s', u) && s'.tcbs[u].priority == i
    {
      BoostMembers(s, i, u);
      if i > 0 && InQueue(s, i - 1, u) {
        BelowTopIffPriority(s, i - 1, u);
      } else {
        BelowTopIffPriority(s, i, u);
      }
      assert Queueable(s, u);
    }
    forall u | Queueable(s', u)
      ensures InQueue(s', s'.tcbs[u].priority, u)
    {
      assert Queueable(s, u);
      var p := s.tcbs[u].priority;
      assert InQueue(s, p, u);
      BelowTopIffPriority(s, p, u);
      BoostMembers(s, s'.tcbs[u].priority, u);
    }
  }

  ghost predicate BoostOk(s: State)
  {
    forall t :: t in s.tcbs && BelowTop(s.sched, t) ==> s.tcbs[t].priority < MAX_PRIORITIES - 1
  }

  lemma BoostKeepsInv(s: State)
    requires Inv(s)
    ensures BoostOk(s) && Inv(Boost(s))
    ensures Boost(s).cores == s.cores
  {
    BoostKeepsQueues(s);
    var s' := Boost(s);
    forall c | c in s'.cores
      ensures CoreOk(s', s'.cores[c])
    {
      assert CoreOk(s, s.cores[c]);
    }
    SameCoresExclusive(s, s');
    forall u | u in s'.tcbs
      ensures ThreadOk(s', u)
    {
      assert ThreadOk(s, u);
      SameCoresSamePicked(s, s', u);
    }
    forall u
      ensures u in s'.timeouts <==> Timed(s', u)
    {
      assert u in s.timeouts <==> Timed(s, u);
    }
  }

  // --------------------------------------------------------------------
  // sched_queue_select and the end of yield
  // --------------------------------------------------------------------

  // The selected thread may be switched to: it is READY, and its context is
  // CLEAN unless no switch is made.
  lemma SelectedIsSafe(s: State, c: Core)
    requires Inv(s) && c in s.cores && s.cores[c].point == Yielding
    ensures s.cores[c].current in s.tcbs && Selected(s, c) in s.tcbs
    ensures var n := s.tcbs[Selected(s, c)];
            && n.state == READY
            && (Selected(s, c) != s.cores[c].current ==> n.phase == CTX_CLEAN)
            && (n.kind == IDLE_THREAD ==> Selected(s, c) == s.cores[c].idle)
  {
    assert CoreOk(s, s.cores[c]);
    var i := TopLevel(s.sched, MAX_PRIORITIES);
    if i != -1 {
      assert InQueue(s, i, s.sched[i][0]);
      assert Queueable(s, s.sched[i][0]);
    }
  }

  // It is on no other core.
  lemma SelectedIsFree(s: State, c: Core, d: Core)
    requires Inv(s) && c in s.cores && s.cores[c].point == Yielding && d in s.cores && d != c
    ensures s.cores[c].current in s.tcbs && Selected(s, c) !in Mine(s.cores[d])
  {
    assert CoreOk(s, s.cores[c]) && CoreOk(s, s.cores[d]) && Apart(s.cores[c], s.cores[d]);
    var i := TopLevel(s.sched, MAX_PRIORITIES);
    var t := Selected(s, c);
    if i != -1 {
      assert InQueue(s, i, t);
      assert Queueable(s, t);
      assert !Picks(s.cores[d], t);
    }
  }

  lemma SelectKeepsCores(s: State, c: Core)
    requires Inv(s) && c in s.cores && s.cores[c].point == Yielding
    ensures s.cores[c].current in s.tcbs && CoresOk(Select(s, c))
  {
    SelectedIsSafe(s, c);
    var s' := Select(s, c);
    forall d | d in s'.cores
      ensures CoreOk(s', s'.cores[d])
    {
      assert CoreOk(s, s.cores[d]);
    }
    forall d, e | d in s'.cores && e in s'.cores && d != e
      ensures Apart(s'.cores[d], s'.cores[e])
    {
      assert Apart(s.cores[d], s.cores[e]);
      if d == c { SelectedIsFree(s, c, e); }
      if e == c { SelectedIsFree(s, c, d); }
    }
  }

  lemma SelectPicks(s: State, c: Core, t: Tid)
    requires Inv(s) && c in s.cores && s.cores[c].point == Yielding
    ensures s.cores[c].current in s.tcbs
    ensures Held(Select(s, c), t) <==> Held(s, t)
    ensures Picked(Select(s, c), t) <==> Picked(s, t) || (t == Selected(s, c) && t != s.cores[c].current)
  {
    assert CoreOk(s, s.cores[c]);
    var s' := Select(s, c);
    assert forall d :: d in s.cores ==> (Holds(s'.cores[d], t) <==> Holds(s.cores[d], t));
    assert forall d :: d in s.cores && d != c ==> (Picks(s'.cores[d], t) <==> Picks(s.cores[d], t));
    if Held(s, t) {
      var d :| d in s.cores && Holds(s.cores[d], t);
      assert Holds(s'.cores[d], t);
    }
    if Picked(s, t) {
      var d :| d in s.cores && Picks(s.cores[d], t);
      assert Picks(s'.cores[d], t);
    }
    if t == Selected(s, c) && t != s.cores[c].current {
      assert Picks(s'.cores[c], t);
    }
  }

  lemma SelectKeepsQueues(s: State, c: Core)
    requires Inv(s) && c in s.cores && s.cores[c].point == Yielding
    ensures s.cores[c].current in s.tcbs && QueuesOk(Select(s, c))
  {
    SelectedIsSafe(s, c);
    var s', top := Select(s, c), TopLevel(s.sched, MAX_PRIORITIES);
    if top != -1 {
      assert s.sched[top] == [s.sched[top][0]] + s.sched[top][1..];
      assert InQueue(s, top, s.sched[top][0]);
      assert CoreOk(s, s.cores[c]);
    }
    forall i, u | 0 <= i < MAX_PRIORITIES
      ensures InQueue(s', i, u) <==> InQueue(s, i, u) && !(top != -1 && u == Selected(s, c))
    {
      if top != -1 && InQueue(s, i, u) && u == Selected(s, c) {
        assert InQueue(s, top, u);
      }
    }
    forall u
      ensures Queueable(s', u) <==> Queueable(s, u) && !(top != -1 && u == Selected(s, c))
    {
      SelectPicks(s, c, u);
    }
    forall i, u | 0 <= i < MAX_PRIORITIES && InQueue(s', i, u)
      ensures Queueable(s', u) && s'.tcbs[u].priority == i
    {
      assert InQueue(s, i, u);
    }
    forall u | Queueable(s', u)
      ensures InQueue(s', s'.tcbs[u].priority, u)
    {
      assert Queueable(s, u);
      assert InQueue(s, s.tcbs[u].priority, u);
    }
  }

  lemma SelectKeepsInv(s: State, c: Core)
    requires Inv(s) && c in s.cores && s.cores[c].point == Yielding
    ensures s.cores[c].current in s.tcbs && Inv(Select(s, c))
  {
    SelectKeepsCores(s, c);
    SelectKeepsQueues(s, c);
    var s' := Select(s, c);
    forall u | u in s'.tcbs
      ensures ThreadOk(s', u)
    {
      assert ThreadOk(s, u);
      SelectPicks(s, c, u);
    }
    forall u
      ensures u in s'.timeouts <==> Timed(s', u)
    {
      assert u in s.timeouts <==> Timed(s, u);
    }
  }

  // The selection takes the selected thread out of its queue and changes nothing
  // else but core c; no other core has that thread.
  lemma SelectTakesOnlyOne(s: State, c: Core, d: Core, i: nat, u: Tid)
    requires Inv(s) && c in s.cores && s.cores[c].point == Yielding && i < MAX_PRIORITIES
    ensures s.cores[c].current in s.tcbs
    ensures var s', t := Select(s, c), Selected(s, c);
            && s'.tcbs == s.tcbs && s'.timeouts == s.timeouts && s'.cores == s.cores[c := s'.cores[c]]
            && s'.cores[c].current == t && s'.cores[c].previous == s.cores[c].current
            && (InQueue(s', i, u) <==> InQueue(s, i, u) && u != t)
            && (d in s.cores && d != c ==> t !in Mine(s'.cores[d]))
  {
    SelectKeepsCores(s, c);
    var s', top := Select(s, c), TopLevel(s.sched, MAX_PRIORITIES);
    if d in s.cores && d != c { assert Apart(s'.cores[c], s'.cores[d]); }
    if top != -1 {
      assert s.sched[top] == [s.sched[top][0]] + s.sched[top][1..];
      assert InQueue(s, top, s.sched[top][0]);
      if InQueue(s, i, u) {
        assert Queueable(s, u);
      }
    }
  }

  // --------------------------------------------------------------------
  // gain
  // --------------------------------------------------------------------

  ghost predicate AtGain(s: State, c: Core)
  {
    Inv(s) && c in s.cores && s.cores[c].point == Switching
  }

  lemma GainDefined(s: State, c: Core)
    requires AtGain(s, c)
    ensures s.cores[c].current in s.tcbs && s.cores[c].previous in s.tcbs
    ensures var k := s.cores[c];
            && s.tcbs[k.previous].phase == CTX_DIRTY
            && s.tcbs[k.previous].state in {READY, STOPPED, EXITED}
            && s.tcbs[k.current].state == READY
            && (k.current == k.previous || s.tcbs[k.current].phase == CTX_CLEAN)
            && (s.tcbs[k.previous].kind == IDLE_THREAD ==> s.tcbs[k.previous].state == READY)
  {
    assert CoreOk(s, s.cores[c]);
    assert ThreadOk(s, s.cores[c].previous);
  }

  lemma GainKeepsCore(s: State, c: Core, d: Core)
    requires AtGain(s, c) && d in s.cores
    ensures s.cores[c].current in s.tcbs && s.cores[c].previous in s.tcbs
    ensures d in Gain(s, c).cores && CoreOk(Gain(s, c), Gain(s, c).cores[d])
  {
    GainDefined(s, c);
    assert CoreOk(s, s.cores[d]) && CoreOk(s, s.cores[c]);
    if d != c { assert Apart(s.cores[c], s.cores[d]); }
  }

  lemma GainKeepsCores(s: State, c: Core)
    requires AtGain(s, c)
    ensures s.cores[c].current in s.tcbs && s.cores[c].previous in s.tcbs && CoresOk(Gain(s, c))
  {
    GainDefined(s, c);
    var s' := Gain(s, c);
    forall d | d in s'.cores
      ensures CoreOk(s', s'.cores[d])
    {
      GainKeepsCore(s, c, d);
    }
    forall d, e | d in s'.cores && e in s'.cores && d != e
      ensures Apart(s'.cores[d], s'.cores[e])
    {
      assert Apart(s.cores[d], s.cores[e]);
    }
  }

  // On the other cores nothing changes.
  lemma GainElsewhere(s: State, c: Core, d: Core, t: Tid)
    requires AtGain(s, c) && d in s.cores && d != c
    ensures s.cores[c].current in s.tcbs && s.cores[c].previous in s.tcbs
    ensures Gain(s, c).cores.Keys == s.cores.Keys && Gain(s, c).cores[d] == s.cores[d]
    ensures Picks(s.cores[d], t) ==> t != s.cores[c].current
  {
    GainDefined(s, c);
    assert Apart(s.cores[c], s.cores[d]);
  }

  lemma GainHolds(s: State, c: Core, t: Tid)
    requires AtGain(s, c)
    ensures s.cores[c].current in s.tcbs && s.cores[c].previous in s.tcbs
    ensures t != s.cores[c].previous ==> (Held(Gain(s, c), t) <==> Held(s, t) || t == s.cores[c].current)
    ensures t == s.cores[c].current ==> Held(Gain(s, c), t)
  {
    GainDefined(s, c);
    var s' := Gain(s, c);
    if t == s.cores[c].current {
      assert Holds(s'.cores[c], t);
    }
    if Held(s, t) {
      var d :| d in s.cores && Holds(s.cores[d], t);
      if d != c {
        GainElsewhere(s, c, d, t);
        assert Holds(s'.cores[d], t);
      }
    }
    forall d | d in s'.cores && d != c
      ensures Holds(s'.cores[d], t) <==> Holds(s.cores[d], t)
    {
      GainElsewhere(s, c, d, t);
    }
  }

  lemma GainPicks(s: State, c: Core, t: Tid)
    requires AtGain(s, c)
    ensures s.cores[c].current in s.tcbs && s.cores[c].previous in s.tcbs
    ensures Picked(Gain(s, c), t) <==> Picked(s, t) && t != s.cores[c].current
  {
    GainDefined(s, c);
    var s' := Gain(s, c);
    if Picked(s, t) {
      var d :| d in s.cores && Picks(s.cores[d], t);
      if d != c {
        GainElsewhere(s, c, d, t);
        assert Picks(s'.cores[d], t);
      }
    }
    if Picked(s', t) {
      var d :| d in s'.cores && Picks(s'.cores[d], t);
      if d != c {
        GainElsewhere(s, c, d, t);
        assert Picks(s.cores[d], t);
      }
    }
  }

  lemma GainKeepsThreads(s: State, c: Core)
    requires AtGain(s, c)
    ensures s.cores[c].current in s.tcbs && s.cores[c].previous in s.tcbs && ThreadsOk(Gain(s, c))
  {
    GainDefined(s, c);
    var s' := Gain(s, c);
    forall u | u in s'.tcbs
      ensures ThreadOk(s', u)
    {
      assert ThreadOk(s, u);
      GainHolds(s, c, u);
    }
  }

  // The thread switched away from: queued now if it is READY and not idle.
  lemma GainKeepsQueues(s: State, c: Core)
    requires AtGain(s, c)
    ensures s.cores[c].current in s.tcbs && s.cores[c].previous in s.tcbs && QueuesOk(Gain(s, c))
  {
    GainDefined(s, c);
    var s', k := Gain(s, c), s.cores[c];
    var p := k.previous;
    var added := k.current != p && s.tcbs[p].state == READY && s.tcbs[p].kind == NORMAL_THREAD;
    forall d | d in s.cores
      ensures !Picks(s.cores[d], p)
    {
      if d != c { assert Apart(s.cores[c], s.cores[d]); }
    }
    assert !Queueable(s, p);
    if p != k.current {
      assert Picks(k, k.current);
    }
    assert !Queueable(s, k.current);
    forall u
      ensures Queueable(s', u) <==> Queueable(s, u) || (added && u == p)
    {
      GainPicks(s, c, u);
    }
    assert !InQueue(s, s.tcbs[p].priority, p);
    forall i, u | 0 <= i < MAX_PRIORITIES
      ensures InQueue(s', i, u) <==> InQueue(s, i, u) || (added && u == p && i == s.tcbs[p].priority)
    {
    }
    GainQueuesFollow(s, s', p, added);
  }

  lemma GainQueuesFollow(s: State, s': State, p: Tid, added: bool)
    requires QueuesOk(s) && p in s.tcbs && !Queueable(s, p)
    requires forall u :: Queueable(s', u) <==> Queueable(s, u) || (added && u == p)
    requires forall u :: u in s'.tcbs ==> u in s.tcbs && s'.tcbs[u].priority == s.tcbs[u].priority
    requires forall i, u :: 0 <= i < MAX_PRIORITIES ==>
               (InQueue(s', i, u) <==> InQueue(s, i, u) || (added && u == p && i == s.tcbs[p].priority))
    requires s'.sched == if added then s.sched[s.tcbs[p].priority := s.sched[s.tcbs[p].priority] + [p]] else s.sched
    ensures QueuesOk(s')
  {
    assert !InQueue(s, s.tcbs[p].priority, p);
    forall i, u | 0 <= i < MAX_PRIORITIES && InQueue(s', i, u)
      ensures Queueable(s', u) && s'.tcbs[u].priority == i
    {
      if InQueue(s, i, u) { assert Queueable(s, u); }
    }
    forall u | Queueable(s', u)
      ensures InQueue(s', s'.tcbs[u].priority, u)
    {
      if Queueable(s, u) { assert InQueue(s, s.tcbs[u].priority, u); }
    }
  }

  lemma GainKeepsInv(s: State, c: Core)
    requires AtGain(s, c)
    ensures s.cores[c].current in s.tcbs && s.cores[c].previous in s.tcbs && Inv(Gain(s, c))
  {
    GainKeepsCores(s, c);
    GainKeepsThreads(s, c);
    GainKeepsQueues(s, c);
    GainDefined(s, c);
    var s' := Gain(s, c);
    assert ThreadOk(s, s.cores[c].current);
    forall u
      ensures Timed(s', u) <==> Timed(s, u)
    {
    }
    forall u
      ensures u in s'.timeouts <==> Timed(s', u)
    {
      assert u in s.timeouts <==> Timed(s, u);
    }
  }

  // What becomes of the thread switched away from: released if it has EXITED,
  // queued as the last at its priority if it is READY and not idle, left asleep
  // if it is STOPPED.  Its context is CLEAN from now on.
  lemma GainDisposesOfThePrevious(s: State, c: Core)
    requires AtGain(s, c) && s.cores[c].current != s.cores[c].previous
    ensures s.cores[c].current in s.tcbs && s.cores[c].previous in s.tcbs
    ensures var s', p := Gain(s, c), s.cores[c].previous;
            var v := s.tcbs[p];
            && (p !in s'.tcbs <==> v.state == EXITED)
            && (v.state != EXITED ==> s'.tcbs[p] == v.(phase := CTX_CLEAN))
            && s'.timeouts == s.timeouts
            && s'.sched == if v.state == READY && v.kind == NORMAL_THREAD
                           then s.sched[v.priority := s.sched[v.priority] + [p]] else s.sched
  {
    GainDefined(s, c);
  }

  // The thread that takes the core runs, and nobody but these two is touched.
  lemma GainRunsTheCurrent(s: State, c: Core, u: Tid)
    requires AtGain(s, c) && u != s.cores[c].current && u != s.cores[c].previous
    ensures s.cores[c].current in s.tcbs && s.cores[c].previous in s.tcbs
    ensures var s', t := Gain(s, c), s.cores[c].current;
            && t in s'.tcbs && s'.tcbs[t] == s.tcbs[t].(state := RUNNING, phase := CTX_DIRTY)
            && c in s'.cores && s'.cores[c].current == t && s'.cores[c].point == Run
            && (u in s'.tcbs <==> u in s.tcbs) && (u in s.tcbs ==> s'.tcbs[u] == s.tcbs[u])
  {
    GainDefined(s, c);
  }

  // --------------------------------------------------------------------
  // New threads and new cores
  // --------------------------------------------------------------------

  lemma SpawnKeepsInv(s: State, t: Tid)
    requires Inv(s) && t !in s.tcbs
    ensures Inv(Spawn(s, t))
  {
    var s' := Spawn(s, t);
    forall c | c in s'.cores
      ensures CoreOk(s', s'.cores[c])
    {
      assert CoreOk(s, s.cores[c]);
    }
    SameCoresExclusive(s, s');
    forall u | u in s'.tcbs
      ensures ThreadOk(s', u)
    {
      if u != t { assert ThreadOk(s, u); }
      SameCoresSamePicked(s, s', u);
    }
    AddedNotQueueable(s, s', t);
  }

  // Adding a thread that is not READY and CLEAN leaves queues and timeouts right.
  lemma AddedNotQueueable(s: State, s': State, t: Tid)
    requires QueuesOk(s) && TimeoutsOk(s) && t !in s.tcbs && t in s'.tcbs
    requires s'.tcbs == s.tcbs[t := s'.tcbs[t]] && s'.sched == s.sched && s'.timeouts == s.timeouts
    requires !Queueable(s', t) && !Timed(s', t)
    requires forall u :: u != t ==> (Picked(s', u) <==> Picked(s, u))
    ensures QueuesOk(s') && TimeoutsOk(s')
  {
    forall u
      ensures Queueable(s', u) <==> Queueable(s, u)
    {
    }
    forall i, u | 0 <= i < MAX_PRIORITIES && InQueue(s', i, u)
      ensures Queueable(s', u) && s'.tcbs[u].priority == i
    {
      assert InQueue(s, i, u);
    }
    forall u | Queueable(s', u)
      ensures InQueue(s', s'.tcbs[u].priority, u)
    {
      assert Queueable(s, u);
      assert InQueue(s, s.tcbs[u].priority, u);
    }
    forall u
      ensures u in s'.timeouts <==> Timed(s', u)
    {
      assert u in s.timeouts <==> Timed(s, u);
      assert Timed(s', u) <==> Timed(s, u);
    }
  }

  lemma BootKeepsInv(s: State, c: Core, idle: Tid)
    requires Inv(s) && c !in s.cores && idle !in s.tcbs
    ensures Inv(Boot(s, c, idle))
  {
    var s' := Boot(s, c, idle);
    forall d | d in s'.cores
      ensures CoreOk(s', s'.cores[d])
    {
      if d != c { assert CoreOk(s, s.cores[d]); }
    }
    forall d, e | d in s'.cores && e in s'.cores && d != e
      ensures Apart(s'.cores[d], s'.cores[e])
    {
      if d != c && e != c { assert Apart(s.cores[d], s.cores[e]); }
      if d != c { assert CoreOk(s, s.cores[d]); }
      if e != c { assert CoreOk(s, s.cores[e]); }
    }
    forall u
      ensures (Picked(s', u) <==> Picked(s, u)) && (Held(s', u) <==> Held(s, u) || u == idle)
    {
      BootPicks(s, c, idle, u);
    }
    forall u | u in s'.tcbs
      ensures ThreadOk(s', u)
    {
      if u != idle { assert ThreadOk(s, u); }
    }
    AddedNotQueueable(s, s', idle);
  }

  lemma BootPicks(s: State, c: Core, idle: Tid, t: Tid)
    requires c !in s.cores
    ensures Picked(Boot(s, c, idle), t) <==> Picked(s, t)
    ensures Held(Boot(s, c, idle), t) <==> Held(s, t) || t == idle
  {
    var s' := Boot(s, c, idle);
    if t == idle { assert Holds(s'.cores[c], t); }
    if Held(s, t) {
      var d :| d in s.cores && Holds(s.cores[d], t);
      assert Holds(s'.cores[d], t);
    }
    if Picked(s, t) {
      var d :| d in s.cores && Picks(s.cores[d], t);
      assert Picks(s'.cores[d], t);
    }
    if Held(s', t) && t != idle {
      var d :| d in s'.cores && Holds(s'.cores[d], t);
      assert Holds(s.cores[d], t);
    }
    if Picked(s', t) {
      var d :| d in s'.cores && Picks(s'.cores[d], t);
      assert Picks(s.cores[d], t);
    }
  }

  lemma InitialInv()
    ensures Inv(Initial())
  {
  }
}
