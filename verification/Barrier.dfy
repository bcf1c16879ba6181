/**
 The reusable barrier of tinyoslib, for callers that all pass the same n.

 A step is what a caller does with mx held, up to its unlock or its wait.  The
 epoch is taken not to wrap around.
 */
module Barrier {

  type Tid = nat

  // A caller inside BarrierSync: the epoch it came in, and whether it sleeps.
  datatype Caller = Caller(epoch: nat, asleep: bool)

  // `parties` is history: who has arrived in each epoch so far.
  datatype State = State(n: nat, count: nat, epoch: nat, callers: map<Tid, Caller>, parties: seq<set<Tid>>)

  datatype Action = Arrive(t: Tid) | Resume(t: Tid)

  predicate Enabled(s: State, a: Action)
  {
    match a
    case Arrive(t) => t !in s.callers && s.count < s.n && s.epoch < |s.parties|
    case Resume(t) => t in s.callers && !s.callers[t].asleep
  }

  function WakeAll(callers: map<Tid, Caller>): map<Tid, Caller>
  {
    map t | t in callers :: callers[t].(asleep := false)
  }

  // The loop that waits for the epoch to pass.
  function WaitEpoch(s: State, t: Tid, e: nat): State
  {
    if e == s.epoch then s.(callers := s.callers[t := Caller(e, true)]) else s.(callers := s.callers - {t})
  }

  function Next(s: State, a: Action): State
    requires Enabled(s, a)
  {
    match a
    case Arrive(t) =>
      var e := s.epoch;
      var s1 := s.(count := s.count + 1, parties := s.parties[e := s.parties[e] + {t}]);
      var s2 :=
        if s1.count == s1.n then
          s1.(epoch := e + 1, count := 0, callers := WakeAll(s1.callers), parties := s1.parties + [{}])
        else s1;
      WaitEpoch(s2, t, e)
    case Resume(t) => WaitEpoch(s, t, s.callers[t].epoch)
  }

  // The caller of action a returns from BarrierSync in this step.
  predicate Leaves(s: State, a: Action)
    requires Enabled(s, a)
  {
    a.t !in Next(s, a).callers
  }

  function CameIn(s: State, a: Action): nat
    requires Enabled(s, a)
  {
    if a.Arrive? then s.epoch else s.callers[a.t].epoch
  }

  predicate Init(s: State)
  {
    s.n > 0 && s == State(s.n, 0, 0, map[], [{}])
  }

  ghost predicate Run(states: seq<State>, actions: seq<Action>)
  {
    && |states| == |actions| + 1 && Init(states[0])
    && forall i :: 0 <= i < |actions| ==> Enabled(states[i], actions[i]) && states[i + 1] == Next(states[i], actions[i])
  }

  // --- the invariant

  predicate CallerOk(s: State, t: Tid)
  {
    t in s.callers ==>
      && s.callers[t].epoch <= s.epoch < |s.parties|
      && (s.callers[t].asleep <==> s.callers[t].epoch == s.epoch)
      && t in s.parties[s.callers[t].epoch]
  }

  predicate PartyOk(s: State, e: nat)
  {
    e < |s.parties| ==> |s.parties[e]| == if e == s.epoch then s.count else s.n
  }

  ghost predicate Inv(s: State)
  {
    && s.count < s.n && |s.parties| == s.epoch + 1
    && (forall t {:trigger CallerOk(s, t)} :: CallerOk(s, t))
    && (forall e {:trigger PartyOk(s, e)} :: PartyOk(s, e))
    && (forall t :: t in s.parties[s.epoch] ==> t in s.callers && s.callers[t].epoch == s.epoch)
  }

  lemma ArriveKeeps(s: State, t: Tid)
    requires Inv(s) && Enabled(s, Arrive(t))
    ensures Inv(Next(s, Arrive(t)))
  {
    var s' := Next(s, Arrive(t));
    forall u
      ensures CallerOk(s', u)
    {
      assert CallerOk(s, u);
    }
    assert t !in s.parties[s.epoch];
    forall e: nat
      ensures PartyOk(s', e)
    {
      assert PartyOk(s, e);
    }
  }

  lemma NextKeepsInv(s: State, a: Action)
    requires Inv(s) && Enabled(s, a)
    ensures Inv(Next(s, a)) && Next(s, a).n == s.n
  {
    if a.Arrive? {
      ArriveKeeps(s, a.t);
    } else {
      var s' := Next(s, a);
      assert CallerOk(s, a.t);
      forall u
        ensures CallerOk(s', u)
      {
        assert CallerOk(s, u);
      }
      forall e: nat
        ensures PartyOk(s', e)
      {
        assert PartyOk(s, e);
      }
    }
  }

  lemma {:induction false} RunsKeepInv(states: seq<State>, actions: seq<Action>, i: nat)
    requires Run(states, actions) && i < |states|
    ensures Inv(states[i]) && states[i].n == states[0].n
  {
    if i > 0 {
      RunsKeepInv(states, actions, i - 1);
      NextKeepsInv(states[i - 1], actions[i - 1]);
    }
  }

  // --- what the barrier promises

  // A caller that returns from an epoch finds that exactly n different callers
  // had arrived in it, itself among them.
  lemma NobodyLeavesEarly(states: seq<State>, actions: seq<Action>, i: nat)
    requires Run(states, actions) && i < |actions| && Leaves(states[i], actions[i])
    ensures var s, e := states[i + 1], CameIn(states[i], actions[i]);
            e < s.epoch && e < |s.parties| && |s.parties[e]| == s.n && actions[i].t in s.parties[e]
  {
    RunsKeepInv(states, actions, i);
    RunsKeepInv(states, actions, i + 1);
    var s, a := states[i], actions[i];
    assert CallerOk(s, a.t) && PartyOk(states[i + 1], CameIn(s, a));
    if a.Resume? {
      assert s.callers[a.t].epoch < s.epoch;
    }
  }

  // Nobody sleeps on an epoch that has passed, and the count stays below n, so a
  // caller's assertion of it never fails.
  lemma NobodySleepsOnThePast(states: seq<State>, actions: seq<Action>, i: nat, t: Tid)
    requires Run(states, actions) && i < |states|
    ensures var s := states[i];
            && s.count < s.n
            && (t in s.callers ==>
                  s.callers[t].epoch <= s.epoch && (s.callers[t].asleep <==> s.callers[t].epoch == s.epoch))
            && (t !in s.callers ==> Enabled(s, Arrive(t)))
  {
    RunsKeepInv(states, actions, i);
    assert CallerOk(states[i], t);
  }

  // Once its epoch has passed a caller can go on, and the next thing it does is to
  // leave; no other caller is touched by that.
  lemma PassedCallersLeave(s: State, t: Tid, u: Tid)
    requires Inv(s) && t in s.callers && s.callers[t].epoch < s.epoch
    ensures Enabled(s, Resume(t)) && Leaves(s, Resume(t))
    ensures var s' := Next(s, Resume(t));
            && s' == s.(callers := s'.callers)
            && (u != t ==> (u in s'.callers <==> u in s.callers) && (u in s.callers ==> s'.callers[u] == s.callers[u]))
  {
    assert CallerOk(s, t);
  }

  // The other callers stay inside with the epoch they came in with, and sleep on
  // just as long as it has not passed.
  lemma CallersStandBy(s: State, a: Action, u: Tid)
    requires Inv(s) && Enabled(s, a) && u != a.t
    ensures u in Next(s, a).callers <==> u in s.callers
    ensures u in s.callers ==>
              var e := s.callers[u].epoch; Next(s, a).callers[u] == Caller(e, e == Next(s, a).epoch)
  {
    assert CallerOk(s, u);
  }

  // An epoch that has passed is closed: its party is the same for ever.
  lemma {:induction false} PartiesAreFinal(states: seq<State>, actions: seq<Action>, i: nat, j: nat, e: nat)
    requires Run(states, actions) && i <= j < |states| && e < states[i].epoch
    ensures e < states[j].epoch && e < |states[i].parties| && e < |states[j].parties|
    ensures states[j].parties[e] == states[i].parties[e]
  {
    RunsKeepInv(states, actions, i);
    RunsKeepInv(states, actions, j);
    if i < j {
      PartiesAreFinal(states, actions, i, j - 1, e);
    }
  }

  // The callers asleep are those counted: the barrier opens with the arrival
  // that makes them n, and with no other step.
  lemma LastArrivalOpens(s: State, a: Action)
    requires Inv(s) && Enabled(s, a)
    ensures Next(s, a).epoch == (if a.Arrive? && |Sleepers(s)| == s.n - 1 then s.epoch + 1 else s.epoch)
    ensures Next(s, a).epoch > s.epoch ==> Sleepers(Next(s, a)) == {} && Leaves(s, a)
  {
    SleepersAreCounted(s);
  }

  function Sleepers(s: State): set<Tid>
  {
    set t | t in s.callers && s.callers[t].asleep
  }

  lemma SleepersAreCounted(s: State)
    requires Inv(s)
    ensures |Sleepers(s)| == s.count
  {
    forall t
      ensures t in Sleepers(s) <==> t in s.parties[s.epoch]
    {
      assert CallerOk(s, t);
    }
    assert Sleepers(s) == s.parties[s.epoch] && PartyOk(s, s.epoch);
  }

  // --- the code

  class BarrierMonitor {
    var count: nat
    var epoch: nat
    var callers: map<Tid, Caller>          // those inside; the sleeping ones are on cv
    ghost var parties: seq<set<Tid>>

    ghost function Now(n: nat): State
      reads this
    {
      State(n, count, epoch, callers, parties)
    }

    // BARRIER_INIT
    constructor (ghost n: nat)
      requires n > 0
      ensures Init(Now(n)) && Inv(Now(n))
    {
      count, epoch, callers, parties := 0, 0, map[], [{}];
      new;
      RunsKeepInv([Now(n)], [], 0);
    }

    // The loop that waits, up to its next wait.
    method WaitPast(t: Tid, e: nat, ghost n: nat) returns (leaves: bool)
      modifies `callers
      ensures Now(n) == WaitEpoch(old(Now(n)), t, e) && leaves == (e != epoch)
    {
      if e == epoch {
        callers := callers[t := Caller(e, true)];
        return false;
      }
      callers := callers - {t};
      leaves := true;
    }

    // BarrierSync, up to its first wait
    method Sync(t: Tid, n: nat) returns (leaves: bool)
      requires Inv(Now(n)) && t !in callers
      modifies this
      ensures Inv(Now(n)) && Now(n) == Next(old(Now(n)), Arrive(t)) && leaves == Leaves(old(Now(n)), Arrive(t))
    {
      NextKeepsInv(Now(n), Arrive(t));
      var e := epoch;
      parties := parties[e := parties[e] + {t}];
      count := count + 1;
      if count == n {
        epoch := epoch + 1;
        count := 0;
        callers := WakeAll(callers);
        parties := parties + [{}];
      }
      leaves := WaitPast(t, e, n);
    }
  }
}
