/**
 The scheduler, as it updates its tables in place.  Each method is one routine
 of kernel_sched.c, run with the spinlock held, and is proved to do what the
 state machine says.
 */
module Scheduler {
  import opened Sequences
  import opened SchedModel
  import opened SchedInvariant
  import opened SchedSwitch
  import opened SchedBoost
  import Runs = SchedRuns

  const MAX_YIELDS := 2000

  // A thread control block.
  class TCB {
    const kind: ThreadType
    var state: ThreadState
    var phase: Phase
    var Priority: Level
    var wakeupTime: nat
    var lastCause: Cause
    var currCause: Cause

    // spawn_thread
    constructor Spawn()
      ensures Value() == Tcb(NORMAL_THREAD, INIT, CTX_CLEAN, MAX_PRIORITIES - 1, NO_TIMEOUT, SCHED_IDLE, SCHED_IDLE)
    {
      kind := NORMAL_THREAD;
      state := INIT;
      phase := CTX_CLEAN;
      wakeupTime := NO_TIMEOUT;
      Priority := MAX_PRIORITIES - 1;
      lastCause := SCHED_IDLE;
      currCause := SCHED_IDLE;
    }

    // the idle thread, as run_scheduler sets it up
    constructor Idle()
      ensures Value() == Tcb(IDLE_THREAD, RUNNING, CTX_DIRTY, 0, NO_TIMEOUT, SCHED_IDLE, SCHED_IDLE)
    {
      kind := IDLE_THREAD;
      state := RUNNING;
      phase := CTX_DIRTY;
      wakeupTime := NO_TIMEOUT;
      Priority := 0;
      lastCause := SCHED_IDLE;
      currCause := SCHED_IDLE;
    }

    // the switch at the start of yield, with its cases falling through
    method AdjustPriority(cause: Cause)
      modifies this`Priority
      ensures Value() == old(Value()).(priority := AdjustedPriority(old(Value()), cause))
    {
      var io := cause == SCHED_IO;
      if cause == SCHED_QUANTUM {
        if Priority > 0 {
          Priority := Priority - 1;
          return;
        }
        io := true;
      }
      var mutex := cause == SCHED_MUTEX;
      if io {
        if Priority < MAX_PRIORITIES - 1 {
          Priority := Priority + 1;
          return;
        }
        mutex := true;
      }
      if mutex {
        if lastCause == SCHED_MUTEX {
          if Priority > 0 {
            Priority := Priority - 1;
          }
        }
      }
    }

    // the state and the causes of a thread that yields
    method MarkYield(cause: Cause)
      modifies this
      ensures Value() == old(Value()).(state := if old(state) == RUNNING then READY else old(state),
                                       lastCause := old(currCause), currCause := cause)
    {
      if state == RUNNING {
        state := READY;
      }
      lastCause := currCause;
      currCause := cause;
    }

    ghost function Value(): Tcb
      reads this
    {
      Tcb(kind, state, phase, Priority, wakeupTime, lastCause, currCause)
    }
  }

  class Kernel {
    var tcb: map<Tid, TCB>            // the TCBs, by address
    const SCHED: array<seq<Tid>>      // the scheduler queues
    var TIMEOUT_LIST: seq<Tid>
    var cctx: map<Core, CoreState>    // the core table
    var numofYields: int

    ghost predicate Valid()
      reads this`tcb
    {
      && SCHED.Length == MAX_PRIORITIES
      && (forall t, u :: t in tcb && u in tcb && t != u ==> tcb[t] != tcb[u])
    }

    ghost function Repr(): set<TCB>
      reads this`tcb
    {
      set t | t in tcb :: tcb[t]
    }

    ghost function Table(): map<Tid, Tcb>
      reads this`tcb, Repr()
    {
      map t | t in tcb :: tcb[t].Value()
    }

    ghost function State(): State
      requires Valid()
      reads this`tcb, this`TIMEOUT_LIST, this`cctx, SCHED, Repr()
    {
      SchedModel.State(Table(), SCHED[..], TIMEOUT_LIST, cctx)
    }

    // initialize_scheduler
    constructor ()
      ensures Valid() && State() == Initial()
    {
      tcb := map[];
      SCHED := new seq<Tid>[MAX_PRIORITIES](i => []);
      TIMEOUT_LIST := [];
      cctx := map[];
      numofYields := 0;
      new;
      assert SCHED[..] == seq(MAX_PRIORITIES, i => []);
    }

    // sched_queue_add
    method QueueAdd(t: Tid)
      requires Valid() && t in tcb
      modifies SCHED
      ensures Valid() && State() == SchedModel.QueueAdd(old(State()), t)
    {
      var p := tcb[t].Priority;
      SCHED[p] := SCHED[p] + [t];
    }

    // sched_make_ready
    method MakeReady(t: Tid)
      requires Valid() && t in tcb && Asleep(tcb[t].Value())
      modifies this`TIMEOUT_LIST, SCHED, tcb[t]
      ensures Valid() && State() == SchedModel.MakeReady(old(State()), t)
    {
      ghost var s := State();
      if tcb[t].wakeupTime != NO_TIMEOUT {
        TIMEOUT_LIST := Remove(TIMEOUT_LIST, t);
        tcb[t].wakeupTime := NO_TIMEOUT;
      }
      tcb[t].state := READY;
      assert Table() == s.tcbs[t := s.tcbs[t].(wakeupTime := NO_TIMEOUT, state := READY)];
      if tcb[t].phase == CTX_CLEAN {
        QueueAdd(t);
      }
    }

    // wakeup
    method Wakeup(t: Tid) returns (ret: bool)
      requires Valid() && t in tcb
      modifies this`TIMEOUT_LIST, SCHED, tcb[t]
      ensures Valid() && State() == SchedModel.Wakeup(old(State()), t)
      ensures ret <==> old(Asleep(tcb[t].Value()))
    {
      ret := false;
      if tcb[t].state == STOPPED || tcb[t].state == INIT {
        MakeReady(t);
        ret := true;
      }
    }

    // sched_wakeup_expired_timeouts
    method WakeupExpiredTimeouts(now: nat)
      requires Valid() && Inv(State())
      modifies this`TIMEOUT_LIST, SCHED, Repr()
      ensures Valid() && ExpiryDefined(old(State()))
      ensures State() == WakeExpired(old(State()), now) && Inv(State())
    {
      ghost var s := State();
      WakeExpiredKeepsInv(s, now);
      while TIMEOUT_LIST != []
        invariant Valid() && Inv(State())
        invariant ExpiryDefined(State()) && WakeExpired(s, now) == WakeExpired(State(), now)
        decreases |TIMEOUT_LIST|
      {
        var t := TIMEOUT_LIST[0];
        assert Timed(State(), t);
        if tcb[t].wakeupTime > now {
          break;
        }
        MakeReadyKeepsInv(State(), t);
        MakeReady(t);
        TimedAreStopped(State());
      }
    }

    // sched_queue_select, on core c
    method QueueSelect(c: Core) returns (next: Tid)
      requires Valid() && c in cctx && cctx[c].current in tcb
      modifies SCHED
      ensures Valid() && next == Selected(old(State()), c)
      ensures tcb == old(tcb) && var i := TopLevel(old(State()).sched, MAX_PRIORITIES);
              SCHED[..] == if i == -1 then old(SCHED[..]) else old(SCHED[..])[i := old(SCHED[..])[i][1..]]
    {
      ghost var q: Queues := SCHED[..];
      var i := MAX_PRIORITIES - 1;
      while i >= 0
        invariant -1 <= i < MAX_PRIORITIES
        invariant forall j :: i < j < MAX_PRIORITIES ==> q[j] == []
      {
        if SCHED[i] != [] {
          break;
        }
        i := i - 1;
      }
      TopLevelIs(q, i);
      if i != -1 {
        next := SCHED[i][0];
        SCHED[i] := SCHED[i][1..];
      } else {
        next := if tcb[cctx[c].current].state == READY then cctx[c].current else cctx[c].idle;
      }
    }

    // the scan of sched_register_timeout: skip the entries that are not later
    method FindPlace(t: Tid, w: nat) returns (n: nat)
      requires Valid() && Known(TIMEOUT_LIST, Table())
      ensures n <= |TIMEOUT_LIST|
      ensures InsertSorted(TIMEOUT_LIST, t, w, Table()) == TIMEOUT_LIST[..n] + [t] + TIMEOUT_LIST[n..]
    {
      ghost var q, m := TIMEOUT_LIST, Table();
      n := 0;
      while n < |TIMEOUT_LIST|
        invariant n <= |TIMEOUT_LIST|
        invariant InsertSorted(q, t, w, m) == q[..n] + InsertSorted(q[n..], t, w, m)
      {
        assert q[n] in q && m[q[n]].wakeupTime == tcb[q[n]].wakeupTime;
        if w < tcb[TIMEOUT_LIST[n]].wakeupTime {
          break;
        }
        SkipEntry(q, n, t, w, m);
        n := n + 1;
      }
      assert InsertSorted(q[n..], t, w, m) == [t] + q[n..];
      assert q[..n] + ([t] + q[n..]) == q[..n] + [t] + q[n..];
      assert InsertSorted(q, t, w, m) == q[..n] + [t] + q[n..];
      assert m == Table();
      assert q == TIMEOUT_LIST;
    }

    // sched_register_timeout
    method RegisterTimeout(t: Tid, timeout: nat, now: nat)
      requires Valid() && t in tcb && Known(TIMEOUT_LIST, Table()) && t !in TIMEOUT_LIST
      modifies this`TIMEOUT_LIST, tcb[t]
      ensures Valid() && State() == SchedModel.RegisterTimeout(old(State()), t, timeout, now)
    {
      if timeout != NO_TIMEOUT {
        ghost var s := State();
        var w := (now + timeout) % CLOCK_RANGE;
        var n := FindPlace(t, w);
        assert Table() == s.tcbs;
        tcb[t].wakeupTime := w;
        TIMEOUT_LIST := TIMEOUT_LIST[..n] + [t] + TIMEOUT_LIST[n..];
        assert TIMEOUT_LIST == InsertSorted(s.timeouts, t, w, s.tcbs);
        assert Table() == s.tcbs[t := s.tcbs[t].(wakeupTime := w)];
      }
    }

    // the boost loop of yield
    method BoostAll()
      requires Valid() && BoostOk(State()) && QueuesOk(State())
      modifies SCHED, Repr()
      ensures unchanged(this) && Valid() && State() == Boost(old(State()))
    {
      ghost var s := State();
      BoostStarts(s);
      var i := MAX_PRIORITIES - 2;
      while i >= 0
        invariant -1 <= i < MAX_PRIORITIES - 1 && unchanged(this) && Valid()
        invariant if i >= 0 then State() == PartBoost(s, i, 0) else State() == Boost(s)
        decreases i
      {
        BoostLevel(i, s);
        BoostLevelDone(s, i);
        i := i - 1;
      }
    }

    // the inner loop: one level
    method BoostLevel(i: nat, ghost s: SchedModel.State)
      requires Valid() && BoostOk(s) && QueuesOk(s) && i < MAX_PRIORITIES - 1 && State() == PartBoost(s, i, 0)
      modifies SCHED, Repr()
      ensures unchanged(this) && Valid() && State() == PartBoost(s, i, |s.sched[i]|)
    {
      ghost var k := 0;
      while SCHED[i] != []
        invariant 0 <= k <= |s.sched[i]| && unchanged(this) && Valid() && State() == PartBoost(s, i, k)
        decreases |s.sched[i]| - k
      {
        BoostHead(i, s, k);
        k := k + 1;
      }
      assert PartLevel(s.sched, i, k, i) == SCHED[i];
    }

    // the boost, when the count of yields has reached its limit
    method BoostIfDue()
      requires Valid() && BoostOk(State()) && QueuesOk(State())
      modifies this`numofYields, SCHED, Repr()
      ensures Valid() && State() == if old(numofYields) == MAX_YIELDS then Boost(old(State())) else old(State())
      ensures numofYields == if old(numofYields) == MAX_YIELDS then 0 else old(numofYields)
    {
      if numofYields == MAX_YIELDS {
        ghost var s := State();
        numofYields := 0;
        assert State() == s;
        BoostAll();
      }
    }

    // one turn of the inner loop
    method BoostHead(i: nat, ghost s: SchedModel.State, ghost k: nat)
      requires Valid() && BoostOk(s) && QueuesOk(s) && i < MAX_PRIORITIES - 1 && SCHED[i] != []
      requires k <= |s.sched[i]| && State() == PartBoost(s, i, k)
      modifies SCHED, Repr()
      ensures unchanged(this) && k < |s.sched[i]| && Valid() && State() == PartBoost(s, i, k + 1)
    {
      assert State().sched[i] == PartLevel(s.sched, i, k, i);
      BoostOne(s, i, k);
      MoveHeadUp(i);
    }

    method MoveHeadUp(i: nat)
      requires Valid() && i < MAX_PRIORITIES - 1 && SCHED[i] != [] && SCHED[i][0] in tcb
      requires tcb[SCHED[i][0]].Priority < MAX_PRIORITIES - 1
      modifies SCHED, Repr()
      ensures unchanged(this) && Valid() && State() == Moved(old(State()), i)
    {
      ghost var s := State();
      ghost var m := Moved(s, i);
      var node := PopHead(i);
      Raise(node);
      assert State().tcbs == m.tcbs;
      PushHead(i + 1, node);
      assert State().tcbs == m.tcbs && State().sched == m.sched;
      assert State() == m;
    }

    method PopHead(i: nat) returns (t: Tid)
      requires Valid() && i < MAX_PRIORITIES && SCHED[i] != []
      modifies SCHED
      ensures Valid() && t == old(SCHED[i][0])
      ensures State() == var s := old(State()); s.(sched := s.sched[i := s.sched[i][1..]])
    {
      t := SCHED[i][0];
      SCHED[i] := SCHED[i][1..];
    }

    method PushHead(i: nat, t: Tid)
      requires Valid() && i < MAX_PRIORITIES
      modifies SCHED
      ensures Valid() && State() == var s := old(State()); s.(sched := s.sched[i := [t] + s.sched[i]])
    {
      SCHED[i] := [t] + SCHED[i];
    }

    method Raise(t: Tid)
      requires Valid() && t in tcb && tcb[t].Priority < MAX_PRIORITIES - 1
      modifies tcb[t]
      ensures Valid() && State() == var s := old(State()); Put(s, t, s.tcbs[t].(priority := s.tcbs[t].priority + 1))
    {
      ghost var s := State();
      tcb[t].Priority := tcb[t].Priority + 1;
      assert Table() == s.tcbs[t := tcb[t].Value()];
    }

    // the state and the causes of the thread that yields
    method Mark(c: Core, cause: Cause)
      requires Valid() && c in cctx && cctx[c].current in tcb
      modifies this`cctx, tcb[cctx[c].current]
      ensures Valid() && State() == Marked(old(State()), c, cause)
    {
      ghost var s := State();
      var t := cctx[c].current;
      tcb[t].MarkYield(cause);
      assert Table() == s.tcbs[t := tcb[t].Value()];
      cctx := cctx[c := cctx[c].(point := Yielding)];
    }

    method Adjust(t: Tid, cause: Cause)
      requires Valid() && t in tcb
      modifies tcb[t]
      ensures Valid() && State() == Adjusted(old(State()), t, cause)
    {
      ghost var s := State();
      tcb[t].AdjustPriority(cause);
      assert Table() == s.tcbs[t := tcb[t].Value()];
    }

    // the first part of yield, on core c: the priorities and the thread's state
    method YieldBegin(c: Core, cause: Cause)
      requires Valid() && Inv(State()) && c in cctx && cctx[c].point != Switching
      modifies this`numofYields, this`cctx, SCHED, Repr()
      ensures Valid()
      ensures State() == Runs.YieldBegin(old(State()), c, cause, old(numofYields) == MAX_YIELDS)
      ensures numofYields == if old(numofYields) == MAX_YIELDS then 0 else old(numofYields)
    {
      BoostCommutes(State(), c, cause);
      YieldBeginIs(State(), c, cause, numofYields == MAX_YIELDS);
      AdjustBoostMark(c, cause);
    }

    method AdjustBoostMark(c: Core, cause: Cause)
      requires Valid() && c in cctx && cctx[c].current in tcb
      requires BoostOk(Adjusted(State(), cctx[c].current, cause)) && QueuesOk(Adjusted(State(), cctx[c].current, cause))
      modifies this`numofYields, this`cctx, SCHED, Repr()
      ensures Valid() && var s1 := Adjusted(old(State()), old(cctx)[c].current, cause);
              State() == Marked(if old(numofYields) == MAX_YIELDS then Boost(s1) else s1, c, cause)
      ensures numofYields == if old(numofYields) == MAX_YIELDS then 0 else old(numofYields)
    {
      Adjust(cctx[c].current, cause);
      BoostIfDue();
      Mark(c, cause);
    }

    // the last part of yield: select, and remember the thread switched from
    method Switch(c: Core)
      requires Valid() && c in cctx && cctx[c].current in tcb
      modifies this`cctx, SCHED
      ensures Valid() && State() == Select(old(State()), c)
    {
      var next := QueueSelect(c);
      cctx := cctx[c := cctx[c].(previous := cctx[c].current, current := next, point := Switching)];
    }

    // yield, on core c, from its lock to its unlock
    method Yield(c: Core, cause: Cause, now: nat)
      requires Valid() && Inv(State()) && c in cctx && cctx[c].point != Switching
      modifies this`numofYields, this`TIMEOUT_LIST, this`cctx, SCHED, Repr()
      ensures Valid()
      ensures State() == Runs.Yield(old(State()), c, cause, old(numofYields) == MAX_YIELDS, now)
      ensures numofYields == if old(numofYields) == MAX_YIELDS then 0 else old(numofYields)
    {
      YieldBegin(c, cause);
      YieldEnd(c, now);
    }

    // the second part of yield: the timeouts, and the choice of the next thread
    method YieldEnd(c: Core, now: nat)
      requires Valid() && Inv(State()) && c in cctx && cctx[c].point == Yielding
      modifies this`TIMEOUT_LIST, this`cctx, SCHED, Repr()
      ensures Valid() && ExpiryDefined(old(State()))
      ensures var s := WakeExpired(old(State()), now);
              Inv(s) && c in s.cores && s.cores[c].current in s.tcbs && State() == Select(s, c)
    {
      WakeupExpiredTimeouts(now);
      SelectKeepsInv(State(), c);
      Switch(c);
    }

    // the critical section of sleep_releasing, on core c
    method SleepReleasing(c: Core, newState: ThreadState, timeout: nat, now: nat)
      requires Valid() && Inv(State()) && c in cctx && cctx[c].current in tcb && cctx[c].point == Run
      modifies this`TIMEOUT_LIST, this`cctx, tcb[cctx[c].current]
      ensures Valid() && State() == Sleep(old(State()), c, newState, timeout, now)
    {
      ghost var s := State();
      NotTimed(s, c);
      var t := cctx[c].current;
      tcb[t].state := newState;
      assert Table() == s.tcbs[t := s.tcbs[t].(state := newState)];
      cctx := cctx[c := cctx[c].(point := Yielding)];
      assert State() == Put(s, t, s.tcbs[t].(state := newState)).(cores := cctx);
      if newState != EXITED {
        RegisterTimeout(t, timeout, now);
      }
    }

    // gain, on core c: the thread that takes the core
    method TakeCore(t: Tid)
      requires Valid() && t in tcb
      modifies tcb[t]
      ensures Valid() && State() == Put(old(State()), t, old(State()).tcbs[t].(state := RUNNING, phase := CTX_DIRTY))
    {
      ghost var s := State();
      tcb[t].state := RUNNING;
      tcb[t].phase := CTX_DIRTY;
      assert Table() == s.tcbs[t := s.tcbs[t].(state := RUNNING, phase := CTX_DIRTY)];
    }

    // gain, on core c: the thread that has left the core
    method LeaveCore(p: Tid)
      requires Valid() && p in tcb
      modifies this`tcb, SCHED, tcb[p]
      ensures Valid() && cctx == old(cctx) && State() == Left(old(State()), p)
    {
      ghost var s := State();
      tcb[p].phase := CTX_CLEAN;
      assert Table() == s.tcbs[p := s.tcbs[p].(phase := CTX_CLEAN)];
      match tcb[p].state {
        case READY =>
          if tcb[p].kind != IDLE_THREAD {
            QueueAdd(p);
          }
        case EXITED =>
          tcb := tcb - {p};
          assert Table() == s.tcbs - {p};
        case _ =>
      }
    }

    // gain, on core c
    method Gain(c: Core)
      requires Valid() && c in cctx && cctx[c].current in tcb && cctx[c].previous in tcb
      modifies this`tcb, this`cctx, SCHED, tcb[cctx[c].current], tcb[cctx[c].previous]
      ensures Valid() && State() == SchedModel.Gain(old(State()), c)
    {
      ghost var s := State();
      var k := cctx[c];
      cctx := cctx[c := k.(point := Run)];
      assert State() == s.(cores := cctx);
      TakeCore(k.current);
      if k.current != k.previous {
        LeaveCore(k.previous);
      }
    }

    // spawn_thread: the TCB is put at a fresh address
    method SpawnThread(t: Tid) returns (v: TCB)
      requires Valid() && t !in tcb
      modifies this`tcb
      ensures Valid() && State() == SchedModel.Spawn(old(State()), t) && tcb == old(tcb)[t := v]
    {
      ghost var s := State();
      v := new TCB.Spawn();
      tcb := tcb[t := v];
      assert Table() == s.tcbs[t := v.Value()];
    }

    // run_scheduler, as core c enters it
    method RunScheduler(c: Core, idle: Tid)
      requires Valid() && c !in cctx && idle !in tcb
      modifies this`tcb, this`cctx
      ensures Valid() && State() == SchedModel.Boot(old(State()), c, idle)
    {
      ghost var s := State();
      var v := new TCB.Idle();
      tcb := tcb[idle := v];
      assert Table() == s.tcbs[idle := v.Value()];
      cctx := cctx[c := CoreState(idle, idle, idle, Run)];
    }
  }

  lemma YieldBeginIs(s: SchedModel.State, c: Core, cause: Cause, boost: bool)
    requires Inv(s) && c in s.cores && s.cores[c].point != Switching
    ensures s.cores[c].current in s.tcbs
    ensures var s1 := Adjusted(s, s.cores[c].current, cause);
            && BoostOk(s1)
            && Runs.YieldBegin(s, c, cause, boost) == Marked(if boost then Boost(s1) else s1, c, cause)
  {
    BoostCommutes(s, c, cause);
    DemoteKeepsInv(s, c, cause);
  }

  lemma {:induction false} TopLevelIs(q: Queues, i: int)
    requires -1 <= i < MAX_PRIORITIES && (i >= 0 ==> q[i] != [])
    requires forall j :: i < j < MAX_PRIORITIES ==> q[j] == []
    ensures TopLevel(q, MAX_PRIORITIES) == i
  {
    var k := TopLevel(q, MAX_PRIORITIES);
  }

  lemma SkipEntry(q: seq<Tid>, n: nat, t: Tid, w: nat, m: map<Tid, Tcb>)
    requires Known(q, m) && n < |q| && m[q[n]].wakeupTime <= w
    ensures q[..n] + InsertSorted(q[n..], t, w, m) == q[..n + 1] + InsertSorted(q[n + 1..], t, w, m)
  {
    assert q[n..][1..] == q[n + 1..];
    assert q[..n + 1] == q[..n] + [q[n]];
  }

  // A running thread is on no timeout list.
  lemma NotTimed(s: SchedModel.State, c: Core)
    requires Inv(s) && c in s.cores && s.cores[c].point == Run
    ensures s.cores[c].current !in s.timeouts && Known(s.timeouts, s.tcbs)
  {
    assert CoreOk(s, s.cores[c]);
    assert s.cores[c].current in s.timeouts <==> Timed(s, s.cores[c].current);
    TimedAreStopped(s);
  }
}
