// kernel_lock, kernel_unlock, kernel_wait_wchan and kernel_sleep on the
// variables they share.
module KernelLock {
  import opened Sequences
  import opened KernelLockModel
  import opened KernelLockRuns

  // The state after the steps of a thread that holds kernel_mutex throughout.
  function GiveUp(s: State, t: Tid, goal: Goal): State
    requires Enabled(s, Release(t, goal))
  {
    var s1 := Next(s, Release(t, goal));
    var s2 := Next(s1, SignalSem(t));
    if s2.phases[t].Leaving? then Next(s2, Leave(t)) else s2
  }

  class KernelMonitor {
    var kernelSem: int
    var kernelMutex: Option<Tid>
    var semCv: seq<Tid>                 // kernel_sem_cv
    var chans: map<Chan, seq<Tid>>
    ghost var phases: seq<Phase>

    ghost function Now(): State
      reads this
    {
      State(kernelSem, kernelMutex, semCv, chans, phases)
    }

    constructor (ghost n: nat)
      ensures Init(Now()) && |phases| == n && Inv(Now())
    {
      kernelSem := 1;
      kernelMutex := None;
      semCv := [];
      chans := map[];
      phases := seq(n, _ => Outside);
      new;
      RunsKeepInv([Now()], [], 0);
    }

    // Mutex_Lock(&kernel_mutex), when it is free
    method TakeMutex(t: Tid, ghost p: Phase)
      requires kernelMutex == None && t < |phases|
      modifies `kernelMutex, `phases
      ensures Now() == At(old(Now()), t, p).(mutex := Some(t))
    {
      kernelMutex := Some(t);
      phases := phases[t := p];
    }

    method DropMutex(t: Tid, ghost p: Phase)
      requires t < |phases|
      modifies `kernelMutex, `phases
      ensures Now() == At(old(Now()), t, p).(mutex := None)
    {
      kernelMutex := None;
      phases := phases[t := p];
    }

    // One test of the loop that kernel_lock and kernel_wait_wchan end with.
    method TestSem(t: Tid) returns (got: bool)
      requires Inv(Now()) && Enabled(Now(), Test(t))
      modifies this
      ensures Inv(Now()) && Now() == Next(old(Now()), Test(t))
      ensures got ==> Holders(Now()) == {t}
      ensures !got ==> t in semCv
    {
      NextKeepsInv(Now(), Test(t));
      ghost var p := phases[t];
      if kernelSem <= 0 {
        semCv := semCv + [t];
        DropMutex(t, Queued(p.ret));
        got := false;
      } else {
        kernelSem := kernelSem - 1;
        DropMutex(t, Holding(p.ret));
        got := true;
        OneHolder(Now(), t);
      }
    }

    // Cond_Signal(&kernel_sem_cv)
    method SignalKernelSem(t: Tid)
      requires Inv(Now()) && Enabled(Now(), SignalSem(t))
      modifies `semCv, `phases
      ensures Now() == Next(old(Now()), SignalSem(t))
    {
      phases := phases[t := Leaving(phases[t].goal)];
      if semCv != [] {
        var u := semCv[0];
        assert u in semCv && u < |phases| && old(phases)[u].Queued?;
        semCv := semCv[1..];
        phases := phases[u := Signalled(phases[u].ret)];
      }
    }

    // Raise the semaphore and signal it, which is how a thread gives it up.
    method RaiseSem(t: Tid, ghost goal: Goal)
      requires Inv(Now()) && Enabled(Now(), Release(t, goal))
      modifies this
      ensures Inv(Now()) && Now() == Next(Next(old(Now()), Release(t, goal)), SignalSem(t))
      ensures Enabled(Now(), Leave(t)) && phases[t].goal == goal
    {
      NextKeepsInv(Now(), Release(t, goal));
      TakeMutex(t, Released(goal));
      kernelSem := kernelSem + 1;
      NextKeepsInv(Now(), SignalSem(t));
      SignalKernelSem(t);
    }

    method Unlock(t: Tid)
      requires Inv(Now()) && Enabled(Now(), Release(t, Unlocking))
      modifies this
      ensures Inv(Now()) && Now() == GiveUp(old(Now()), t, Unlocking)
      ensures t !in Holders(Now()) && kernelSem == 1 && kernelMutex == None
      ensures semCv != [] ==> Awaited(Now())
    {
      RaiseSem(t, Unlocking);
      assert kernelSem == 1;
      NextKeepsInv(Now(), Leave(t));
      DropMutex(t, Outside);
    }

    // kernel_sleep
    method Sleep(t: Tid)
      requires Inv(Now()) && Enabled(Now(), Release(t, Ending))
      modifies this
      ensures Inv(Now()) && Now() == GiveUp(old(Now()), t, Ending)
      ensures t !in Holders(Now()) && kernelSem == 1 && kernelMutex == None
      ensures semCv != [] ==> Awaited(Now())
    {
      RaiseSem(t, Ending);
      assert kernelSem == 1;
      NextKeepsInv(Now(), Leave(t));
      DropMutex(t, Asleep);
    }

    // kernel_wait_wchan, as far as the thread's sleep
    method BeginWait(t: Tid, c: Chan, timed: bool)
      requires Inv(Now()) && Enabled(Now(), Release(t, WaitingOn(c, timed)))
      modifies this
      ensures Inv(Now()) && Now() == Next(GiveUp(old(Now()), t, WaitingOn(c, timed)), Drop(t))
      ensures t !in Holders(Now()) && kernelSem == 1 && kernelMutex == None && t in On(Now(), c)
      ensures semCv != [] ==> Awaited(Now())
    {
      RaiseSem(t, WaitingOn(c, timed));
      assert kernelSem == 1;
      NextKeepsInv(Now(), Leave(t));
      chans := chans[c := (if c in chans then chans[c] else []) + [t]];
      phases := phases[t := Joined(c, timed)];
      NextKeepsInv(Now(), Drop(t));
      DropMutex(t, Waiting(c, timed));
      assert ChanOk(Now(), c);
    }

    // kernel_broadcast
    method KernelBroadcast(t: Tid, c: Chan)
      requires Inv(Now()) && t < |phases| && phases[t].Holding?
      modifies this
      ensures Inv(Now()) && Enabled(old(Now()), Broadcast(t, c)) && Now() == Next(old(Now()), Broadcast(t, c))
      ensures On(Now(), c) == []
    {
      ChannelSignals(Now(), t, c);
      NextKeepsInv(Now(), Broadcast(t, c));
      ghost var q := On(Now(), c);
      chans := chans[c := []];
      phases := Wake(Now(), q).phases;
    }
  }
}
