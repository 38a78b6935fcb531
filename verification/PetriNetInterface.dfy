/** The mutable net the translator builds, with the calls it makes to the net library.
    A node is identified by the reference it is created with, and can be created only once. */
module PetriNetInterface {
  import opened PetriNets

  class PetriNet<P(==), T(==)> {
    var places: map<P, nat>
    var transitions: map<T, Transition<P>>

    ghost function Value(): Net<P, T>
      reads this
    {
      Net(places, transitions)
    }

    constructor ()
      ensures places == map[] && transitions == map[]
    {
      places, transitions := map[], map[];
    }

    method AddPlace(p: P)
      requires p !in places
      modifies this
      ensures places == old(places)[p := 0] && transitions == old(transitions)
    {
      places := places[p := 0];
    }

    method AddToken(p: P, count: nat)
      requires p in places
      modifies this
      ensures places == old(places)[p := old(places)[p] + count] && transitions == old(transitions)
    {
      places := places[p := places[p] + count];
    }

    method AddTransition(t: T)
      requires t !in transitions
      modifies this
      ensures transitions == old(transitions)[t := Transition(multiset{}, multiset{})] && places == old(places)
    {
      transitions := transitions[t := Transition(multiset{}, multiset{})];
    }

    method AddArcPlaceTransition(p: P, t: T)
      requires p in places && t in transitions
      modifies this
      ensures places == old(places)
      ensures transitions == old(transitions)[t := Transition(old(transitions)[t].pre + multiset{p}, old(transitions)[t].post)]
    {
      transitions := transitions[t := Transition(transitions[t].pre + multiset{p}, transitions[t].post)];
    }

    method AddArcTransitionPlace(t: T, p: P)
      requires p in places && t in transitions
      modifies this
      ensures places == old(places)
      ensures transitions == old(transitions)[t := Transition(old(transitions)[t].pre, old(transitions)[t].post + multiset{p})]
    {
      transitions := transitions[t := Transition(transitions[t].pre, transitions[t].post + multiset{p})];
    }

    /** Connects two places through a new transition. */
    method ConnectPlaces(start: P, end: P, t: T)
      requires start in places && end in places && t !in transitions
      modifies this
      ensures places == old(places)
      ensures transitions == old(transitions)[t := Transition(multiset{start}, multiset{end})]
    {
      AddTransition(t);
      AddArcPlaceTransition(start, t);
      AddArcTransitionPlace(t, end);
      assert multiset{} + multiset{start} == multiset{start} && multiset{} + multiset{end} == multiset{end};
    }
  }
}
