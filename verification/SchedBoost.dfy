/**
 The boost loop of yield, one thread at a time.

 For i from the level below the top down to 0, the loop pops the threads of
 SCHED[i] from the front, raises each by one and pushes it to the front of
 SCHED[i + 1].  PartBoost is where it stands at level i after k threads.
 */
module SchedBoost {
  import opened Sequences
  import opened SchedModel
  import opened SchedInvariant
  import opened SchedSwitch

  ghost predicate Raised(s: State, i: nat, k: nat, t: Tid)
    requires i < MAX_PRIORITIES - 1 && k <= |s.sched[i]|
  {
    (exists j :: i < j < MAX_PRIORITIES - 1 && InQueue(s, j, t)) || t in s.sched[i][..k]
  }

  function PartLevel(sched: Queues, i: nat, k: nat, j: nat): seq<Tid>
    requires i < MAX_PRIORITIES - 1 && k <= |sched[i]| && j < MAX_PRIORITIES
  {
    if j > i + 1 then BoostedLevel(sched, j)
    else if j == i + 1 then Reverse(sched[i][..k]) + (if j == MAX_PRIORITIES - 1 then sched[j] else [])
    else if j == i then sched[i][k..]
    else sched[j]
  }

  ghost function PartBoost(s: State, i: nat, k: nat): State
    requires BoostOk(s) && QueuesSound(s) && i < MAX_PRIORITIES - 1 && k <= |s.sched[i]|
  {
    RaisedBelowTop(s, i, k);
    s.(sched := seq(MAX_PRIORITIES, j requires 0 <= j < MAX_PRIORITIES => PartLevel(s.sched, i, k, j)),
       tcbs := map t | t in s.tcbs ::
         if Raised(s, i, k, t) then s.tcbs[t].(priority := s.tcbs[t].priority + 1) else s.tcbs[t])
  }

  lemma RaisedBelowTop(s: State, i: nat, k: nat)
    requires i < MAX_PRIORITIES - 1 && k <= |s.sched[i]|
    ensures forall t :: Raised(s, i, k, t) ==> BelowTop(s.sched, t)
  {
    forall t | Raised(s, i, k, t)
      ensures BelowTop(s.sched, t)
    {
      if t !in s.sched[i][..k] {
        var j :| i < j < MAX_PRIORITIES - 1 && InQueue(s, j, t);
        assert t in s.sched[j];
      }
    }
  }

  lemma BoostStarts(s: State)
    requires BoostOk(s) && QueuesSound(s)
    ensures PartBoost(s, MAX_PRIORITIES - 2, 0) == s
  {
    var i := MAX_PRIORITIES - 2;
    var s' := PartBoost(s, i, 0);
    assert s.sched[i][..0] == [] && s.sched[i][0..] == s.sched[i];
    assert forall t :: !Raised(s, i, 0, t);
    assert s'.tcbs == s.tcbs;
    forall j | 0 <= j < MAX_PRIORITIES
      ensures s'.sched[j] == s.sched[j]
    {
      assert j == i + 1 ==> s'.sched[j] == [] + s.sched[j];
    }
    assert s'.sched == s.sched;
  }

  // One turn of the loop, on the tables.
  function Moved(s: State, i: nat): State
    requires i < MAX_PRIORITIES - 1 && s.sched[i] != [] && s.sched[i][0] in s.tcbs
    requires s.tcbs[s.sched[i][0]].priority < MAX_PRIORITIES - 1
  {
    var t := s.sched[i][0];
    Put(s, t, s.tcbs[t].(priority := s.tcbs[t].priority + 1))
      .(sched := s.sched[i := s.sched[i][1..]][i + 1 := [t] + s.sched[i + 1]])
  }

  // One thread: the head of SCHED[i] goes to the front of SCHED[i + 1].
  lemma BoostOne(s: State, i: nat, k: nat)
    requires BoostOk(s) && QueuesSound(s) && LevelsOk(s) && i < MAX_PRIORITIES - 1 && k < |s.sched[i]|
    ensures var p := PartBoost(s, i, k);
            && p.sched[i] != [] && p.sched[i][0] in p.tcbs && p.tcbs[p.sched[i][0]].priority < MAX_PRIORITIES - 1
            && PartBoost(s, i, k + 1) == Moved(p, i)
  {
    var p, p', t := PartBoost(s, i, k), PartBoost(s, i, k + 1), s.sched[i][k];
    assert InQueue(s, i, t);
    BelowTopIffPriority(s, i, t);
    BoostOneLevels(s, i, k);
    NotYetRaised(s, i, k);
    assert s.sched[i][..k + 1] == s.sched[i][..k] + [t];
    assert forall u :: Raised(s, i, k + 1, u) <==> Raised(s, i, k, u) || u == t;
    assert p'.tcbs == p.tcbs[t := p.tcbs[t].(priority := p.tcbs[t].priority + 1)];
  }

  // One thread more, level by level.
  lemma PartLevelStep(sched: Queues, i: nat, k: nat, j: nat)
    requires i < MAX_PRIORITIES - 1 && k < |sched[i]| && j < MAX_PRIORITIES
    ensures PartLevel(sched, i, k, i) == [sched[i][k]] + PartLevel(sched, i, k + 1, i)
    ensures PartLevel(sched, i, k + 1, i + 1) == [sched[i][k]] + PartLevel(sched, i, k, i + 1)
    ensures j != i && j != i + 1 ==> PartLevel(sched, i, k + 1, j) == PartLevel(sched, i, k, j)
  {
    var t, top := sched[i][k], if i + 1 == MAX_PRIORITIES - 1 then sched[i + 1] else [];
    assert sched[i][..k + 1] == sched[i][..k] + [t];
    ReverseAppend(sched[i][..k], t);
    assert ([t] + Reverse(sched[i][..k])) + top == [t] + (Reverse(sched[i][..k]) + top);
  }

  lemma BoostOneLevels(s: State, i: nat, k: nat)
    requires BoostOk(s) && QueuesSound(s) && i < MAX_PRIORITIES - 1 && k < |s.sched[i]|
    ensures var p, t := PartBoost(s, i, k), s.sched[i][k];
            && p.sched[i] == [t] + s.sched[i][k + 1..]
            && PartBoost(s, i, k + 1).sched == p.sched[i := p.sched[i][1..]][i + 1 := [t] + p.sched[i + 1]]
  {
    var p, p', t := PartBoost(s, i, k), PartBoost(s, i, k + 1), s.sched[i][k];
    forall j | 0 <= j < MAX_PRIORITIES
      ensures p.sched[j] == PartLevel(s.sched, i, k, j) && p'.sched[j] == PartLevel(s.sched, i, k + 1, j)
      ensures p'.sched[j] == p.sched[i := p.sched[i][1..]][i + 1 := [t] + p.sched[i + 1]][j]
    {
      PartLevelStep(s.sched, i, k, j);
    }
  }

  lemma NotYetRaised(s: State, i: nat, k: nat)
    requires QueuesSound(s) && LevelsOk(s) && i < MAX_PRIORITIES - 1 && k < |s.sched[i]|
    ensures !Raised(s, i, k, s.sched[i][k])
  {
    var t := s.sched[i][k];
    assert InQueue(s, i, t);
    forall j | i < j < MAX_PRIORITIES - 1
      ensures !InQueue(s, j, t)
    {
    }
  }

  // A level is done: the loop goes one down, or ends with the boosted state.
  lemma BoostLevelDone(s: State, i: nat)
    requires BoostOk(s) && QueuesSound(s) && i < MAX_PRIORITIES - 1
    ensures i > 0 ==> PartBoost(s, i, |s.sched[i]|) == PartBoost(s, i - 1, 0)
    ensures i == 0 ==> PartBoost(s, 0, |s.sched[0]|) == Boost(s)
  {
    var n := |s.sched[i]|;
    assert s.sched[i][..n] == s.sched[i] && s.sched[i][n..] == [];
    forall u
      ensures i > 0 ==> (Raised(s, i, n, u) <==> Raised(s, i - 1, 0, u))
      ensures i == 0 ==> (Raised(s, 0, n, u) <==> BelowTop(s.sched, u))
    {
      LevelRaised(s, i, u);
    }
    forall j | 0 <= j < MAX_PRIORITIES
      ensures i > 0 ==> PartLevel(s.sched, i, n, j) == PartLevel(s.sched, i - 1, 0, j)
      ensures i == 0 ==> PartLevel(s.sched, i, n, j) == BoostedLevel(s.sched, j)
    {
      DoneLevel(s.sched, i, j);
    }
    if i > 0 {
      assert PartBoost(s, i, n).sched == PartBoost(s, i - 1, 0).sched;
      assert PartBoost(s, i, n).tcbs == PartBoost(s, i - 1, 0).tcbs;
    } else {
      assert PartBoost(s, 0, n).sched == Boost(s).sched;
      assert PartBoost(s, 0, n).tcbs == Boost(s).tcbs;
    }
  }

  lemma DoneLevel(sched: Queues, i: nat, j: nat)
    requires i < MAX_PRIORITIES - 1 && j < MAX_PRIORITIES
    ensures i > 0 ==> PartLevel(sched, i, |sched[i]|, j) == PartLevel(sched, i - 1, 0, j)
    ensures i == 0 ==> PartLevel(sched, 0, |sched[0]|, j) == BoostedLevel(sched, j)
  {
    var n := |sched[i]|;
    assert sched[i][..n] == sched[i] && sched[i][n..] == [];
    assert Reverse(sched[i]) + [] == Reverse(sched[i]);
    if i > 0 {
      assert sched[i - 1][..0] == [] && sched[i - 1][0..] == sched[i - 1];
    }
  }

  lemma LevelRaised(s: State, i: nat, u: Tid)
    requires i < MAX_PRIORITIES - 1
    ensures i > 0 ==> (Raised(s, i, |s.sched[i]|, u) <==> Raised(s, i - 1, 0, u))
    ensures i == 0 ==> (Raised(s, 0, |s.sched[0]|, u) <==> BelowTop(s.sched, u))
  {
    var n := |s.sched[i]|;
    assert s.sched[i][..n] == s.sched[i];
    if Raised(s, i, n, u) {
      if u in s.sched[i][..n] {
        assert InQueue(s, i, u);
      } else {
        var j :| i < j < MAX_PRIORITIES - 1 && InQueue(s, j, u);
        assert u in s.sched[j];
      }
    }
    if i > 0 && Raised(s, i - 1, 0, u) {
      var j :| i - 1 < j < MAX_PRIORITIES - 1 && InQueue(s, j, u);
      assert j == i ==> u in s.sched[i][..n];
    }
    if BelowTop(s.sched, u) {
      var j :| 0 <= j < MAX_PRIORITIES - 1 && u in s.sched[j];
      assert InQueue(s, j, u);
    }
  }

  // --------------------------------------------------------------------
  // The order of the steps at the start of yield
  // --------------------------------------------------------------------

  // The mark that yield puts on the current thread after the boost.
  function Marked(s: State, c: Core, cause: Cause): State
    requires c in s.cores && s.cores[c].current in s.tcbs
  {
    var t := s.cores[c].current;
    var v := s.tcbs[t];
    Put(s, t, v.(state := if v.state == RUNNING then READY else v.state, lastCause := v.currCause, currCause := cause))
      .(cores := s.cores[c := s.cores[c].(point := Yielding)])
  }

  function Adjusted(s: State, t: Tid, cause: Cause): State
    requires t in s.tcbs
  {
    Put(s, t, s.tcbs[t].(priority := AdjustedPriority(s.tcbs[t], cause)))
  }

  // yield adjusts the priority first, boosts, and then marks the thread.  The
  // current thread is in no queue, so this is Demote followed by Boost.
  lemma BoostCommutes(s: State, c: Core, cause: Cause)
    requires Inv(s) && c in s.cores && s.cores[c].point != Switching
    ensures s.cores[c].current in s.tcbs
    ensures var s1 := Adjusted(s, s.cores[c].current, cause);
            && QueuesOk(s1) && BoostOk(s1) && BoostOk(Demote(s, c, cause))
            && Demote(s, c, cause) == Marked(s1, c, cause)
            && Boost(Demote(s, c, cause)) == Marked(Boost(s1), c, cause)
  {
    AdjustedQueues(s, c, cause);
    CurrentInNoQueue(s, c);
    MarkAfterBoost(Adjusted(s, s.cores[c].current, cause), c, cause);
  }

  // Marking a thread that is in no queue and boosting the queues commute.
  lemma MarkAfterBoost(s: State, c: Core, cause: Cause)
    requires BoostOk(s) && c in s.cores && s.cores[c].current in s.tcbs && !BelowTop(s.sched, s.cores[c].current)
    ensures BoostOk(Marked(s, c, cause)) && Boost(Marked(s, c, cause)) == Marked(Boost(s), c, cause)
  {
    assert Boost(Marked(s, c, cause)).tcbs == Marked(Boost(s), c, cause).tcbs;
  }

  lemma AdjustedQueues(s: State, c: Core, cause: Cause)
    requires Inv(s) && c in s.cores && s.cores[c].point != Switching
    ensures s.cores[c].current in s.tcbs
    ensures var s1 := Adjusted(s, s.cores[c].current, cause);
            && QueuesOk(s1) && BoostOk(s1) && BoostOk(Demote(s, c, cause))
            && Demote(s, c, cause) == Marked(s1, c, cause)
  {
    DemoteKeepsInv(s, c, cause);
    BoostKeepsInv(Demote(s, c, cause));
    var s1 := Adjusted(s, s.cores[c].current, cause);
    SameQueues(s, s1, c);
    BoostDefined(s1);
  }

  lemma CurrentInNoQueue(s: State, c: Core)
    requires Inv(s) && c in s.cores && s.cores[c].point != Switching
    ensures !BelowTop(s.sched, s.cores[c].current)
  {
    var t := s.cores[c].current;
    assert CoreOk(s, s.cores[c]);
    assert !Queueable(s, t);
    forall j | 0 <= j < MAX_PRIORITIES
      ensures t !in s.sched[j]
    {
      assert t in s.sched[j] <==> InQueue(s, j, t);
    }
  }

  lemma SameQueues(s: State, s1: State, c: Core)
    requires Inv(s) && c in s.cores && s.cores[c].point != Switching && s.cores[c].current in s.tcbs
    requires var t := s.cores[c].current;
             t in s1.tcbs && s1 == Put(s, t, s1.tcbs[t]) && s1.tcbs[t].phase == s.tcbs[t].phase
    ensures QueuesOk(s1)
  {
    assert CoreOk(s, s.cores[c]);
    forall u
      ensures Queueable(s1, u) <==> Queueable(s, u)
      ensures u == s.cores[c].current ==> !Queueable(s, u)
    {
      SameCoresSamePicked(s, s1, u);
    }
    forall i, u | 0 <= i < MAX_PRIORITIES && InQueue(s1, i, u)
      ensures Queueable(s1, u) && s1.tcbs[u].priority == i
    {
      assert InQueue(s, i, u);
    }
    forall u | Queueable(s1, u)
      ensures InQueue(s1, s1.tcbs[u].priority, u)
    {
      assert Queueable(s, u);
      assert InQueue(s, s.tcbs[u].priority, u);
    }
  }
}
