/**
 A short run of the process table: the initial process starts a child, two of
 its threads wait for it, the child ends, and both waits go on.  The second
 frees the PCB again.
 */
module ProcExample {
  import opened Sequences
  import opened ProcModel
  import opened ProcInvariant
  import opened ProcRuns

  const INIT: Pid := 1
  const CHILD: Pid := 2
  const FIRST: Tid := 0
  const SECOND: Tid := 1

  // A run grows by one harmless step.
  lemma GoOn(states: seq<State>, actions: seq<Action>, a: Action)
    returns (states': seq<State>, actions': seq<Action>)
    requires Reached(states, actions, |actions|)
    requires Enabled(states[|actions|], a) && Harmless(states[|actions|], a)
    ensures actions' == actions + [a] && states' == states + [Next(states[|actions|], a)]
    ensures Reached(states', actions', |actions'|)
  {
    states', actions' := states + [Next(states[|actions|], a)], actions + [a];
    forall i | 0 <= i < |actions'|
      ensures Enabled(states'[i], actions'[i]) && states'[i + 1] == Next(states'[i], actions'[i])
      ensures Harmless(states'[i], actions'[i])
    {
      if i < |actions| {
        assert states'[i] == states[i] && actions'[i] == actions[i];
      }
    }
  }

  // --- the initial process

  lemma BootTwice() returns (states: seq<State>, actions: seq<Action>)
    ensures Reached(states, actions, |actions|) && |actions| == 2
    ensures var s := states[2];
            && Untouched(s.free, 2) && s.pstate[INIT] == Alive && s.waits == map[]
            && s.born == seq(MAX_PROC, _ => 0)[0 := 1][1 := 1] && s.reaped == seq(MAX_PROC, _ => 0)
  {
    var s := SomeInit();
    states, actions := [s], [];
    states, actions := GoOn(states, actions, Boot);
    assert Untouched(states[1].free, 1);
    states, actions := GoOn(states, actions, Boot);
    assert Untouched(states[2].free, 2);
  }

  lemma SomeInit() returns (s: State)
    ensures Init(s)
  {
    var free: seq<Pid> := seq(MAX_PROC, i requires 0 <= i < MAX_PROC => i);
    var zeros: seq<nat> := seq(MAX_PROC, _ => 0);
    s := State(seq(MAX_PROC, _ => Free),
               seq(MAX_PROC, i requires 0 <= i < MAX_PROC => if i < MAX_PROC - 1 then Some(i + 1) else None),
               seq(MAX_PROC, _ => []), seq(MAX_PROC, _ => []), seq(MAX_PROC, _ => 0),
               free, 0, map[], zeros, zeros, zeros);
  }

  // --- the two waits

  // What matters of the child, and of those who wait for it.
  predicate Family(s: State, state: PidState, reaped: nat, waits: map<Tid, Wait>)
  {
    && s.pstate[INIT] == Alive && s.pstate[CHILD] == state && s.waits == waits
    && s.born[CHILD] == 1 && s.reaped[CHILD] == reaped
    && (state != Free ==> s.parent[CHILD] == Some(INIT))
  }

  function WaitsForChild(asleep: bool): Wait
  {
    Wait(INIT, Some(CHILD), asleep)
  }

  lemma TwoWaiters() returns (states: seq<State>, actions: seq<Action>)
    ensures Reached(states, actions, |actions|) && |actions| == 5
    ensures Family(states[5], Alive, 0, map[FIRST := WaitsForChild(true), SECOND := WaitsForChild(true)])
  {
    states, actions := BootTwice();
    states, actions := GoOn(states, actions, Exec(INIT));
    assert Family(states[3], Alive, 0, map[]);
    states, actions := GoOn(states, actions, BeginWait(FIRST, INIT, CHILD));
    assert Family(states[4], Alive, 0, map[FIRST := WaitsForChild(true)]);
    states, actions := GoOn(states, actions, BeginWait(SECOND, INIT, CHILD));
  }

  lemma ChildEnds(s: State)
    requires Inv(s) && Family(s, Alive, 0, map[FIRST := WaitsForChild(true), SECOND := WaitsForChild(true)])
    ensures Enabled(s, ExitLast(CHILD))
    ensures Family(Next(s, ExitLast(CHILD)), Zombie, 0,
                   map[FIRST := WaitsForChild(false), SECOND := WaitsForChild(false)])
  {
    assert ListsOk(s, CHILD);
    assert CHILD !in s.children[CHILD];
  }

  lemma FirstGoesOn(s: State)
    requires Inv(s) && Family(s, Zombie, 0, map[FIRST := WaitsForChild(false), SECOND := WaitsForChild(false)])
    ensures Enabled(s, Resume(FIRST)) && Rightful(s, Resume(FIRST))
    ensures Family(Next(s, Resume(FIRST)), Free, 1, map[SECOND := WaitsForChild(false)])
  {
  }

  // The first wait goes on and answers the child; the state is still fine, but
  // the second is about to resume a wait for a free PCB.
  lemma SecondIsStale() returns (states: seq<State>, actions: seq<Action>)
    ensures Reached(states, actions, |actions|) && |actions| == 7
    ensures Inv(states[7]) && Family(states[7], Free, 1, map[SECOND := WaitsForChild(false)])
  {
    states, actions := TwoWaiters();
    RunsKeepInv(states, actions, 5);
    ChildEnds(states[5]);
    states, actions := GoOn(states, actions, ExitLast(CHILD));
    RunsKeepInv(states, actions, 6);
    FirstGoesOn(states[6]);
    states, actions := GoOn(states, actions, Resume(FIRST));
    RunsKeepInv(states, actions, 7);
  }

  // The second wait answers the child once more, and frees its PCB once more:
  // a PCB acquired once has been released twice.
  lemma SecondWaiterReapsAgain() returns (states: seq<State>, actions: seq<Action>)
    ensures Reached(states, actions, |actions|) && |actions| == 7 && Inv(states[7])
    ensures var s, a := states[7], Resume(SECOND);
            && Enabled(s, a) && Stale(s, a) && AnswerOf(s, a) == Returns(CHILD, Some(s.exitval[CHILD]))
            && !Inv(Next(s, a)) && !Distinct(Next(s, a).free)
            && Next(s, a).born[CHILD] == 1 && Next(s, a).reaped[CHILD] == 2
  {
    states, actions := SecondIsStale();
    var s := states[7];
    NextKeepsInvIff(s, Resume(SECOND));
    TwiceFree(Done(s, SECOND), CHILD) by {
      DoneKeeps(s, SECOND);
    }
  }
}
