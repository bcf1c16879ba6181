/**
 The dining philosophers of the symposium, as a state machine.

 A step is what a philosopher does with mx held, up to its unlock or its wait.
 There is any number of philosophers, one of them alone included, and each
 wants any number of bites.
 */
module SymposiumModel {

  datatype Phil = NOTHERE | THINKING | HUNGRY | EATING

  // Where philosopher i is in SymposiumTable_philosopher; j bites are behind it.
  datatype Place =
    | Coming
    | Thinking(j: nat)
    | Asleep(j: nat)     // on hungry[i]
    | Woken(j: nat)      // signalled; wants mx
    | Eating(j: nat)
    | Gone

  // `meals` is history: how often each was given both forks.
  datatype State = State(bites: nat, state: seq<Phil>, place: seq<Place>, meals: seq<nat>)

  datatype Action = Arrive(i: nat) | GetHungry(i: nat) | Wake(i: nat) | Finish(i: nat) | Leave(i: nat)

  predicate Shape(s: State)
  {
    |s.state| == |s.place| == |s.meals| >= 1
  }

  lemma Wraps(x: nat, n: nat)
    requires n <= x < 2 * n
    ensures x % n == x - n
  {
    assert x == n + (x - n);
  }

  // Neighbours around the table.
  function Left(i: nat, n: nat): (l: nat)
    requires i < n
    ensures l == if i + 1 < n then i + 1 else 0
  {
    if i + 1 == n then Wraps(n, n); (i + 1) % n else (i + 1) % n
  }

  function Right(i: nat, n: nat): (r: nat)
    requires i < n
    ensures r == if i > 0 then i - 1 else n - 1
  {
    if i > 0 then Wraps(i + n - 1, n); (i + n - 1) % n else (i + n - 1) % n
  }

  function Move(s: State, i: nat, p: Phil, at: Place): (s': State)
    requires Shape(s) && i < |s.state|
    ensures Shape(s') && |s'.state| == |s.state|
  {
    s.(state := s.state[i := p], place := s.place[i := at])
  }

  predicate MayEat(state: seq<Phil>, i: nat)
    requires i < |state|
  {
    state[i] == HUNGRY && state[Left(i, |state|)] != EATING && state[Right(i, |state|)] != EATING
  }

  // trytoeat: i starts to eat if it is hungry and its neighbours do not eat, and
  // is signalled.
  function TryToEat(s: State, i: nat): (s': State)
    requires Shape(s) && i < |s.state|
    ensures Shape(s') && |s'.state| == |s.state| && s'.bites == s.bites
  {
    if MayEat(s.state, i) then
      var at := if s.place[i].Asleep? then Woken(s.place[i].j) else s.place[i];
      s.(state := s.state[i := EATING], place := s.place[i := at], meals := s.meals[i := s.meals[i] + 1])
    else
      s
  }

  // The loop that waits for the forks: i sleeps while it is hungry.
  function WaitHungry(s: State, i: nat, j: nat): (s': State)
    requires Shape(s) && i < |s.state|
    ensures Shape(s')
  {
    if s.state[i] == HUNGRY then s.(place := s.place[i := Asleep(j)]) else s.(place := s.place[i := Eating(j)])
  }

  predicate Enabled(s: State, a: Action)
  {
    Shape(s) && a.i < |s.state| &&
    match a
    case Arrive(i) => s.place[i].Coming?
    case GetHungry(i) => s.place[i].Thinking? && s.place[i].j < s.bites
    case Wake(i) => s.place[i].Woken?
    case Finish(i) => s.place[i].Eating?
    case Leave(i) => s.place[i].Thinking? && s.place[i].j >= s.bites
  }

  function Next(s: State, a: Action): (s': State)
    requires Enabled(s, a)
    ensures Shape(s')
  {
    var n := |s.state|;
    match a
    case Arrive(i) => Move(s, i, THINKING, Thinking(0))
    case GetHungry(i) => WaitHungry(TryToEat(Move(s, i, HUNGRY, s.place[i]), i), i, s.place[i].j)
    case Wake(i) => WaitHungry(s, i, s.place[i].j)
    case Finish(i) =>
      TryToEat(TryToEat(Move(s, i, THINKING, Thinking(s.place[i].j + 1)), Left(i, n)), Right(i, n))
    case Leave(i) => Move(s, i, NOTHERE, Gone)
  }

  predicate Init(s: State)
  {
    Shape(s) && forall i :: 0 <= i < |s.state| ==> s.state[i] == NOTHERE && s.place[i] == Coming && s.meals[i] == 0
  }

  ghost predicate Run(states: seq<State>, actions: seq<Action>)
  {
    && |states| == |actions| + 1 && Init(states[0])
    && forall i :: 0 <= i < |actions| ==> Enabled(states[i], actions[i]) && states[i + 1] == Next(states[i], actions[i])
  }

  // --- the invariant

  // What the table says of i is where i is.
  predicate PlaceOk(s: State, i: nat)
    requires Shape(s) && i < |s.state|
  {
    match s.place[i]
    case Coming => s.state[i] == NOTHERE && s.meals[i] == 0
    case Thinking(j) => s.state[i] == THINKING && s.meals[i] == j <= s.bites
    case Asleep(j) => s.state[i] == HUNGRY && s.meals[i] == j < s.bites
    case Woken(j) => s.state[i] == EATING && s.meals[i] == j + 1 <= s.bites
    case Eating(j) => s.state[i] == EATING && s.meals[i] == j + 1 <= s.bites
    case Gone => s.state[i] == NOTHERE && s.meals[i] == s.bites
  }

  // Nobody eats beside an eater.
  predicate Apart(state: seq<Phil>, i: nat)
    requires i < |state|
  {
    var l, r := Left(i, |state|), Right(i, |state|);
    state[i] == EATING ==> (l != i ==> state[l] != EATING) && (r != i ==> state[r] != EATING)
  }

  // The hungry have an eating neighbour.
  predicate Held(state: seq<Phil>, i: nat)
    requires i < |state|
  {
    state[i] == HUNGRY ==> state[Left(i, |state|)] == EATING || state[Right(i, |state|)] == EATING
  }

  ghost predicate AllApart(state: seq<Phil>)
  {
    forall i: nat {:trigger Apart(state, i)} :: i < |state| ==> Apart(state, i)
  }

  ghost predicate AllHeld(state: seq<Phil>)
  {
    forall i: nat {:trigger Held(state, i)} :: i < |state| ==> Held(state, i)
  }

  ghost predicate Inv(s: State)
  {
    && Shape(s) && AllApart(s.state) && AllHeld(s.state)
    && (forall i: nat {:trigger PlaceOk(s, i)} :: i < |s.state| ==> PlaceOk(s, i))
  }
}
