// What every run of the symposium keeps, and that it ends.
module SymposiumRuns {
  import opened SymposiumModel

  lemma Neighbours(i: nat, n: nat)
    requires i < n
    ensures Left(Right(i, n), n) == i && Right(Left(i, n), n) == i
    ensures Left(i, n) == i <==> n == 1
    ensures Right(i, n) == i <==> n == 1
  {
  }

  function Try(state: seq<Phil>, i: nat): seq<Phil>
    requires i < |state|
  {
    if MayEat(state, i) then state[i := EATING] else state
  }

  lemma TryKeepsApart(state: seq<Phil>, i: nat)
    requires i < |state| && AllApart(state)
    ensures AllApart(Try(state, i))
  {
    forall k: nat | k < |state|
      ensures Apart(Try(state, i), k)
    {
      assert Apart(state, k);
    }
  }

  lemma TryHolds(state: seq<Phil>, i: nat, k: nat)
    requires i < |state| && k < |state|
    ensures Held(Try(state, i), i)
    ensures Held(state, k) ==> Held(Try(state, i), k)
  {
  }

  // --- the table, by action

  lemma ArriveOrLeave(s: State, i: nat, p: Phil)
    requires Inv(s) && i < |s.state| && s.state[i] != EATING && (p == THINKING || p == NOTHERE)
    ensures AllApart(s.state[i := p]) && AllHeld(s.state[i := p])
  {
    var t := s.state[i := p];
    forall k: nat | k < |t|
      ensures Apart(t, k) && Held(t, k)
    {
      assert Apart(s.state, k) && Held(s.state, k);
    }
  }

  lemma Hungers(s: State, i: nat)
    requires Inv(s) && i < |s.state| && s.state[i] == THINKING
    ensures var t := Try(s.state[i := HUNGRY], i);
            AllApart(t) && AllHeld(t)
  {
    var h := s.state[i := HUNGRY];
    forall k: nat | k < |h|
      ensures Apart(h, k)
    {
      assert Apart(s.state, k);
    }
    TryKeepsApart(h, i);
    forall k: nat | k < |h|
      ensures Held(Try(h, i), k)
    {
      assert Held(s.state, k) && (k != i ==> Held(h, k));
      TryHolds(h, i, k);
    }
  }

  lemma PutsForksDown(s: State, i: nat)
    requires Inv(s) && i < |s.state|
    ensures var n := |s.state|;
            var t := Try(Try(s.state[i := THINKING], Left(i, n)), Right(i, n));
            AllApart(t) && AllHeld(t)
  {
    var n, h := |s.state|, s.state[i := THINKING];
    var l, r := Left(i, n), Right(i, n);
    forall k: nat | k < n
      ensures Apart(h, k)
    {
      assert Apart(s.state, k);
    }
    TryKeepsApart(h, l);
    TryKeepsApart(Try(h, l), r);
    forall k: nat | k < n
      ensures Held(Try(Try(h, l), r), k)
    {
      assert Held(s.state, k);
      Neighbours(k, n);
      assert k != l && k != r ==> Held(h, k);
      TryHolds(h, l, k);
      TryHolds(Try(h, l), r, k);
    }
  }

  // --- the places

  // What Try does to a philosopher's place and meals.
  lemma TriedPlace(s: State, i: nat, k: nat)
    requires Shape(s) && i < |s.state| && k < |s.state| && PlaceOk(s, k)
    ensures PlaceOk(TryToEat(s, i), k)
    ensures TryToEat(s, i).state == Try(s.state, i)
  {
  }

  lemma DonePlaces(s: State, i: nat, k: nat)
    requires Inv(s) && Enabled(s, Finish(i)) && k < |s.state|
    ensures PlaceOk(Move(s, i, THINKING, Thinking(s.place[i].j + 1)), k)
  {
    assert PlaceOk(s, i) && PlaceOk(s, k);
  }

  lemma FinishPlaces(s: State, a: Action, k: nat)
    requires Inv(s) && Enabled(s, a) && a.Finish? && k < |s.state|
    ensures PlaceOk(Next(s, a), k)
  {
    var n, s1 := |s.state|, Move(s, a.i, THINKING, Thinking(s.place[a.i].j + 1));
    var s2 := TryToEat(s1, Left(a.i, n));
    DonePlaces(s, a.i, k);
    TriedPlace(s1, Left(a.i, n), k);
    TriedPlace(s2, Right(a.i, n), k);
    assert Next(s, a) == TryToEat(s2, Right(a.i, n));
  }

  lemma PlacesStep(s: State, a: Action, k: nat)
    requires Inv(s) && Enabled(s, a) && k < |s.state|
    ensures PlaceOk(Next(s, a), k)
  {
    if a.Finish? {
      FinishPlaces(s, a, k);
    } else {
      assert PlaceOk(s, a.i) && PlaceOk(s, k);
    }
  }

  lemma TableStep(s: State, a: Action)
    requires Inv(s) && Enabled(s, a)
    ensures AllApart(Next(s, a).state) && AllHeld(Next(s, a).state)
  {
    var n, i := |s.state|, a.i;
    assert PlaceOk(s, i);
    match a
    case Arrive(_) => ArriveOrLeave(s, i, THINKING);
    case Leave(_) => ArriveOrLeave(s, i, NOTHERE);
    case Wake(_) =>
    case GetHungry(_) => Hungers(s, i);
    case Finish(_) => PutsForksDown(s, i);
  }

  lemma NextKeepsInv(s: State, a: Action)
    requires Inv(s) && Enabled(s, a)
    ensures Inv(Next(s, a)) && |Next(s, a).state| == |s.state| && Next(s, a).bites == s.bites
  {
    TableStep(s, a);
    forall k: nat | k < |s.state|
      ensures PlaceOk(Next(s, a), k)
    {
      PlacesStep(s, a, k);
    }
  }

  lemma {:induction false} RunsKeepInv(states: seq<State>, actions: seq<Action>, i: nat)
    requires Run(states, actions) && i < |states|
    ensures Inv(states[i]) && |states[i].state| == |states[0].state| && states[i].bites == states[0].bites
  {
    if i > 0 {
      RunsKeepInv(states, actions, i - 1);
      NextKeepsInv(states[i - 1], actions[i - 1]);
    }
  }

  // --- the monitor

  // With mx free: no two neighbours eat, whoever is hungry has an eating
  // neighbour, and a philosopher sleeps on its condition just when it is hungry.
  lemma NeighboursNeverEatTogether(states: seq<State>, actions: seq<Action>, i: nat, k: nat)
    requires Run(states, actions) && i < |states| && k < |states[i].state|
    ensures Shape(states[i])
    ensures var s, n := states[i], |states[i].state|;
            && (n >= 2 && s.state[k] == EATING ==> s.state[Left(k, n)] != EATING && s.state[Right(k, n)] != EATING)
            && (s.state[k] == HUNGRY ==> s.state[Left(k, n)] == EATING || s.state[Right(k, n)] == EATING)
            && (s.place[k].Asleep? <==> s.state[k] == HUNGRY)
  {
    RunsKeepInv(states, actions, i);
    var s := states[i];
    Neighbours(k, |s.state|);
    assert Apart(s.state, k) && Held(s.state, k) && PlaceOk(s, k);
  }

  // --- it never stalls

  function StepOf(s: State, i: nat): Action
    requires Shape(s) && i < |s.state|
  {
    match s.place[i]
    case Coming => Arrive(i)
    case Thinking(j) => if j < s.bites then GetHungry(i) else Leave(i)
    case Woken(_) => Wake(i)
    case Eating(_) => Finish(i)
    case _ => Arrive(i)
  }

  // As long as one philosopher has not left, one can go on.
  lemma SomeoneCanMove(s: State, i: nat)
    requires Inv(s) && i < |s.state| && s.place[i] != Gone
    ensures exists a :: Enabled(s, a)
  {
    if s.place[i].Asleep? {
      assert PlaceOk(s, i) && Held(s.state, i);
      var k := if s.state[Left(i, |s.state|)] == EATING then Left(i, |s.state|) else Right(i, |s.state|);
      assert PlaceOk(s, k);
      assert Enabled(s, StepOf(s, k));
    } else {
      assert Enabled(s, StepOf(s, i));
    }
  }

  // --- it ends

  // The steps that philosopher i can still take.
  function StepsLeft(bites: nat, p: Place): nat
  {
    match p
    case Coming => 4 * bites + 2
    case Thinking(j) => if j <= bites then 4 * (bites - j) + 1 else 0
    case Asleep(j) => if j < bites then 4 * (bites - j) else 0
    case Woken(j) => if j < bites then 4 * (bites - j) - 1 else 0
    case Eating(j) => if j < bites then 4 * (bites - j) - 2 else 0
    case Gone => 0
  }

  function Total(bites: nat, places: seq<Place>): nat
  {
    if places == [] then 0 else StepsLeft(bites, places[0]) + Total(bites, places[1..])
  }

  // If no philosopher has more left to do, and one has less, the total is less.
  lemma {:induction false} TotalFalls(bites: nat, p: seq<Place>, q: seq<Place>, i: nat)
    requires |p| == |q| && i < |p|
    requires forall k :: 0 <= k < |p| ==> StepsLeft(bites, q[k]) <= StepsLeft(bites, p[k])
    requires StepsLeft(bites, q[i]) < StepsLeft(bites, p[i])
    ensures Total(bites, q) < Total(bites, p)
  {
    if i == 0 {
      TotalNoMore(bites, p[1..], q[1..]);
    } else {
      TotalFalls(bites, p[1..], q[1..], i - 1);
    }
  }

  lemma {:induction false} TotalNoMore(bites: nat, p: seq<Place>, q: seq<Place>)
    requires |p| == |q|
    requires forall k :: 0 <= k < |p| ==> StepsLeft(bites, q[k]) <= StepsLeft(bites, p[k])
    ensures Total(bites, q) <= Total(bites, p)
  {
    if p != [] { TotalNoMore(bites, p[1..], q[1..]); }
  }

  lemma OthersMove(s: State, a: Action, k: nat)
    requires Inv(s) && Enabled(s, a) && k < |s.place| && k != a.i
    ensures var p, p' := s.place[k], Next(s, a).place[k]; p' == p || (p.Asleep? && p' == Woken(p.j))
  {
  }

  lemma MoverMoves(s: State, a: Action)
    requires Inv(s) && Enabled(s, a)
    ensures StepsLeft(s.bites, Next(s, a).place[a.i]) < StepsLeft(s.bites, s.place[a.i])
  {
    var n, i := |s.state|, a.i;
    assert PlaceOk(s, i);
    if a.Finish? {
      var m := Move(s, i, THINKING, Thinking(s.place[i].j + 1));
      assert TryToEat(m, Left(i, n)).place[i] == m.place[i];
    }
  }

  // Every step of anybody lowers the total.
  lemma StepsLowerTheTotal(s: State, a: Action)
    requires Inv(s) && Enabled(s, a)
    ensures Total(s.bites, Next(s, a).place) < Total(s.bites, s.place)
  {
    var s' := Next(s, a);
    NextKeepsInv(s, a);
    forall k | 0 <= k < |s.place|
      ensures StepsLeft(s.bites, s'.place[k]) <= StepsLeft(s.bites, s.place[k])
    {
      if k == a.i {
        MoverMoves(s, a);
      } else {
        OthersMove(s, a, k);
      }
    }
    MoverMoves(s, a);
    TotalFalls(s.bites, s.place, s'.place, a.i);
  }

  lemma {:induction false} TotalAtStart(bites: nat, p: seq<Place>)
    requires forall k :: 0 <= k < |p| ==> p[k] == Coming
    ensures Total(bites, p) == |p| * (4 * bites + 2)
  {
    if p != [] { TotalAtStart(bites, p[1..]); }
  }

  lemma {:induction false} RunsAreShort(states: seq<State>, actions: seq<Action>, i: nat)
    requires Run(states, actions) && i < |states|
    ensures i + Total(states[0].bites, states[i].place) <= |states[0].state| * (4 * states[0].bites + 2)
  {
    if i == 0 {
      TotalAtStart(states[0].bites, states[0].place);
    } else {
      RunsKeepInv(states, actions, i - 1);
      RunsAreShort(states, actions, i - 1);
      StepsLowerTheTotal(states[i - 1], actions[i - 1]);
    }
  }

  // At any time a philosopher has had no more than `bites` meals, and exactly
  // as many when gone.
  lemma MealsAreCounted(states: seq<State>, actions: seq<Action>, i: nat, k: nat)
    requires Run(states, actions) && i < |states| && k < |states[0].state|
    ensures Shape(states[i]) && |states[i].state| == |states[0].state|
    ensures states[i].meals[k] <= states[0].bites
    ensures states[i].place[k] == Gone ==> states[i].meals[k] == states[0].bites && states[i].state[k] == NOTHERE
  {
    RunsKeepInv(states, actions, i);
    assert PlaceOk(states[i], k);
  }

  // No run has more than N(4 bites + 2) steps; one that cannot go on has ended,
  // with everybody gone after exactly `bites` meals.
  lemma SymposiumEnds(states: seq<State>, actions: seq<Action>)
    requires Run(states, actions)
    ensures |actions| <= |states[0].state| * (4 * states[0].bites + 2)
    ensures var s := states[|actions|];
            (forall a :: !Enabled(s, a)) <==>
              (forall i :: 0 <= i < |s.place| ==> s.place[i] == Gone)
    ensures var s := states[|actions|];
            Shape(s) && forall i :: 0 <= i < |s.place| && s.place[i] == Gone ==>
                          s.meals[i] == states[0].bites && s.state[i] == NOTHERE
  {
    RunsKeepInv(states, actions, |actions|);
    RunsAreShort(states, actions, |actions|);
    var s := states[|actions|];
    forall i: nat | i < |s.place|
      ensures s.place[i] != Gone ==> exists a :: Enabled(s, a)
      ensures s.place[i] == Gone ==> s.meals[i] == states[0].bites && s.state[i] == NOTHERE
    {
      MealsAreCounted(states, actions, |actions|, i);
      if s.place[i] != Gone {
        SomeoneCanMove(s, i);
      }
    }
  }
}
