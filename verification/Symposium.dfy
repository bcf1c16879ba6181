// SymposiumTable: the state array, and the sections of the philosopher's code
// between taking mx and giving it up.
module Symposium {
  import opened SymposiumModel
  import opened SymposiumRuns

  class SymposiumTable {
    const state: array<Phil>
    const bites: nat
    var hungry: set<nat>                 // i sleeps on hungry[i]
    ghost var place: seq<Place>
    ghost var meals: seq<nat>

    ghost function Now(): State
      reads this, state
    {
      State(bites, state[..], place, meals)
    }

    ghost predicate Sleepers()
      reads this
    {
      forall i: nat :: i in hungry <==> i < |place| && place[i].Asleep?
    }

    ghost predicate Valid()
      reads this, state
    {
      Inv(Now()) && Sleepers()
    }

    // SymposiumTable_init
    constructor (n: nat, bites: nat)
      requires n >= 1
      ensures Valid() && Init(Now()) && state.Length == n && this.bites == bites && fresh(state)
    {
      state := new Phil[n](_ => NOTHERE);
      this.bites := bites;
      hungry := {};
      place := seq(n, _ => Coming);
      meals := seq(n, _ => 0);
      new;
      RunsKeepInv([Now()], [], 0);
    }

    method TryToEat(i: nat)
      requires Shape(Now()) && i < state.Length && Sleepers()
      modifies this, state
      ensures Now() == SymposiumModel.TryToEat(old(Now()), i) && Sleepers()
    {
      var n := state.Length;
      if state[i] == HUNGRY && state[Left(i, n)] != EATING && state[Right(i, n)] != EATING {
        state[i] := EATING;
        meals := meals[i := meals[i] + 1];
        if i in hungry {
          hungry := hungry - {i};
          place := place[i := Woken(place[i].j)];
        }
      }
    }

    // while(state[i]==HUNGRY) Cond_Wait
    method WaitHungry(i: nat, ghost j: nat) returns (eats: bool)
      requires Shape(Now()) && i < state.Length && Sleepers()
      modifies this
      ensures Now() == SymposiumModel.WaitHungry(old(Now()), i, j) && Sleepers()
      ensures eats == (state[i] != HUNGRY)
    {
      if state[i] == HUNGRY {
        hungry := hungry + {i};
        place := place[i := Asleep(j)];
        return false;
      }
      hungry := hungry - {i};
      place := place[i := Eating(j)];
      eats := true;
    }

    method SetPhil(i: nat, p: Phil, ghost at: Place)
      requires Shape(Now()) && i < state.Length && Sleepers() && !place[i].Asleep? && !at.Asleep?
      modifies `place, state
      ensures Now() == Move(old(Now()), i, p, at) && Sleepers()
    {
      state[i] := p;
      place := place[i := at];
    }

    method Arrive(i: nat)
      requires Valid() && Enabled(Now(), SymposiumModel.Arrive(i))
      modifies this, state
      ensures Valid() && Now() == Next(old(Now()), SymposiumModel.Arrive(i))
    {
      NextKeepsInv(Now(), SymposiumModel.Arrive(i));
      SetPhil(i, THINKING, Thinking(0));
    }

    // From thinking to eating, or to sleep.
    method GetHungry(i: nat) returns (eats: bool)
      requires Valid() && Enabled(Now(), SymposiumModel.GetHungry(i))
      modifies this, state
      ensures Valid() && Now() == Next(old(Now()), SymposiumModel.GetHungry(i))
      ensures eats <==> state[i] == EATING
    {
      NextKeepsInv(Now(), SymposiumModel.GetHungry(i));
      ghost var at := place[i];
      SetPhil(i, HUNGRY, at);
      TryToEat(i);
      eats := WaitHungry(i, at.j);
    }

    // After Cond_Wait: the forks are there.
    method Wake(i: nat)
      requires Valid() && Enabled(Now(), SymposiumModel.Wake(i))
      modifies this, state
      ensures Valid() && Now() == Next(old(Now()), SymposiumModel.Wake(i)) && state[i] == EATING
    {
      NextKeepsInv(Now(), SymposiumModel.Wake(i));
      assert PlaceOk(Now(), i);
      var eats := WaitHungry(i, place[i].j);
    }

    // The forks are put down, and offered to the neighbours.
    method Finish(i: nat)
      requires Valid() && Enabled(Now(), SymposiumModel.Finish(i))
      modifies this, state
      ensures Valid() && Now() == Next(old(Now()), SymposiumModel.Finish(i))
    {
      NextKeepsInv(Now(), SymposiumModel.Finish(i));
      var n := state.Length;
      SetPhil(i, THINKING, Thinking(place[i].j + 1));
      TryToEat(Left(i, n));
      TryToEat(Right(i, n));
    }

    method Leave(i: nat)
      requires Valid() && Enabled(Now(), SymposiumModel.Leave(i))
      modifies this, state
      ensures Valid() && Now() == Next(old(Now()), SymposiumModel.Leave(i))
    {
      NextKeepsInv(Now(), SymposiumModel.Leave(i));
      SetPhil(i, NOTHERE, Gone);
    }
  }
}
