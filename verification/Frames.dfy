/** Facts about frames: which points a frame has, where its blocks lead, and what visiting one block adds. */
module Frames {
  import opened Wrappers
  import opened PetriNets
  import opened Mir
  import opened ControlPoints
  import opened AliasMemory
  import opened Blueprint
  import opened Worlds

  // ---------------------------------------------------------------------------------------------
  // Places of a frame

  lemma DestPlaceAt(prog: Program, t: ThreadName, callers: seq<Site>, f: nat, b: nat, dest: Dest)
    ensures DestPlace(prog, Point(t, callers + [Site(f, b)]), dest)
         == if dest.ToReturn? then ReturnPlace(prog, t, callers) else DestPlaceInFrame(t, callers, f, dest)
  {
    assert (callers + [Site(f, b)])[..|callers|] == callers;
  }

  /** The end place of a called function is where its call ends. */
  lemma ReturnPlaceOfCall(prog: Program, t: ThreadName, callers: seq<Site>, site: Site)
    requires InRange(prog, site) && TerminatorAt(prog, site).Call?
    requires CallEnds(TerminatorAt(prog, site).returnTo, TerminatorAt(prog, site).unwind).Ends?
    ensures ReturnPlace(prog, t, callers + [site])
         == DestPlace(prog, Point(t, callers + [site]), CallEnds(TerminatorAt(prog, site).returnTo, TerminatorAt(prog, site).unwind).end)
  {
    assert (callers + [site])[..|callers|] == callers;
  }

  /** The start place of a called function is the place of the calling block. */
  lemma StartPlaceOfCall(t: ThreadName, callers: seq<Site>, g: nat)
    requires callers != []
    ensures PlaceOf(t, callers + [Site(g, 0)]) == PlaceOf(t, callers)
  {
    assert (callers + [Site(g, 0)])[..|callers|] == callers;
  }

  // ---------------------------------------------------------------------------------------------
  // Points of a frame

  lemma FrameEmpty(prog: Program, t: ThreadName, callers: seq<Site>, f: nat, b: nat)
    requires f < |prog.functions| && b >= |prog.functions[f].blocks|
    ensures FramePoints(prog, t, callers, f, b) == iset{}
  {
  }

  lemma InFrameSplit(prog: Program, pt: Point, t: ThreadName, callers: seq<Site>, f: nat, b: nat)
    requires InRange(prog, Site(f, b))
    ensures InFrame(prog, pt, t, callers, f, b) <==>
      || pt == Point(t, callers + [Site(f, b)])
      || (Calls(prog, Site(f, b)).Some? && InFrame(prog, pt, t, callers + [Site(f, b)], Calls(prog, Site(f, b)).value, 0))
      || InFrame(prog, pt, t, callers, f, b + 1)
  {
    hide Calls, InRange;
    var n := |callers|;
    var inner := callers + [Site(f, b)];
    if InFrame(prog, pt, t, callers, f, b) && pt.stack[n].b == b {
      assert pt.stack[..n + 1] == inner;
      if |pt.stack| == n + 1 {
        assert pt.stack == inner;
      } else {
        assert Calls(prog, pt.stack[n]) == Some(pt.stack[n + 1].f);
      }
    }
    if Calls(prog, Site(f, b)).Some? && InFrame(prog, pt, t, inner, Calls(prog, Site(f, b)).value, 0) {
      assert pt.stack[..n + 1] == inner;
      assert pt.stack[..n] == callers && pt.stack[n] == Site(f, b);
    }
  }

  ghost function CalleePoints(prog: Program, t: ThreadName, callers: seq<Site>, f: nat, b: nat): iset<Point> {
    if Calls(prog, Site(f, b)).Some? then FramePoints(prog, t, callers + [Site(f, b)], Calls(prog, Site(f, b)).value, 0)
    else iset{}
  }

  lemma FrameSplit(prog: Program, t: ThreadName, callers: seq<Site>, f: nat, b: nat)
    requires InRange(prog, Site(f, b))
    ensures FramePoints(prog, t, callers, f, b)
         == iset{Point(t, callers + [Site(f, b)])} + CalleePoints(prog, t, callers, f, b) + FramePoints(prog, t, callers, f, b + 1)
  {
    hide Calls, InRange, InFrame;
    forall pt: Point
      ensures pt in FramePoints(prog, t, callers, f, b) <==>
        pt in iset{Point(t, callers + [Site(f, b)])} + CalleePoints(prog, t, callers, f, b) + FramePoints(prog, t, callers, f, b + 1)
    {
      InFrameSplit(prog, pt, t, callers, f, b);
    }
  }

  lemma LaterPointsDiffer(prog: Program, t: ThreadName, callers: seq<Site>, f: nat, b: nat)
    ensures Point(t, callers + [Site(f, b)]) !in FramePoints(prog, t, callers, f, b + 1)
    ensures Point(t, callers + [Site(f, b)]) !in CalleePoints(prog, t, callers, f, b)
    ensures forall pt :: pt in CalleePoints(prog, t, callers, f, b) ==> pt !in FramePoints(prog, t, callers, f, b + 1)
  {
    hide Calls, Chain;
    forall pt | pt in CalleePoints(prog, t, callers, f, b) ensures pt !in FramePoints(prog, t, callers, f, b + 1) {
      assert pt.stack[..|callers| + 1] == callers + [Site(f, b)];
      assert pt.stack[|callers|] == Site(f, b);
    }
  }

  // ---------------------------------------------------------------------------------------------
  // One or two transitions

  lemma NoAction(prog: Program, w: World, pt: Point, e: Effect)
    requires pt.stack != [] && e.actions == [] && e.wait.None? && !CreatesCondvar(prog, pt)
    ensures NextTransitions(prog, w, pt, e) == w.transitions
  {
  }

  lemma OneAction(prog: Program, w: World, pt: Point, e: Effect, a: Action)
    requires pt.stack != [] && e.actions == [a] && e.wait.None? && !CreatesCondvar(prog, pt)
    ensures NextTransitions(prog, w, pt, e) == w.transitions[TransRef(pt, 0) := EdgeOfAction(prog, Ctx(w), pt, a)]
  {
    hide EdgeOfAction, CreatesCondvar;
    NumberedOne(pt, EdgeOfAction(prog, Ctx(w), pt, a));
    assert EdgesOf(prog, Ctx(w), pt, e.actions) == [EdgeOfAction(prog, Ctx(w), pt, a)];
  }

  lemma TwoActions(prog: Program, w: World, pt: Point, e: Effect, a: Action, b: Action)
    requires pt.stack != [] && e.actions == [a, b] && e.wait.None? && !CreatesCondvar(prog, pt)
    ensures NextTransitions(prog, w, pt, e)
         == w.transitions[TransRef(pt, 0) := EdgeOfAction(prog, Ctx(w), pt, a)][TransRef(pt, 1) := EdgeOfAction(prog, Ctx(w), pt, b)]
  {
    hide EdgeOfAction, CreatesCondvar;
    NumberedTwo(pt, EdgeOfAction(prog, Ctx(w), pt, a), EdgeOfAction(prog, Ctx(w), pt, b));
    assert EdgesOf(prog, Ctx(w), pt, e.actions) == [EdgeOfAction(prog, Ctx(w), pt, a), EdgeOfAction(prog, Ctx(w), pt, b)];
  }

  /** A visit that only adds transitions. */
  lemma PlainVisit(prog: Program, w: World, pt: Point, e: Effect, places: map<PlaceRef, nat>)
    requires pt.stack != [] && e.wait.None? && !CreatesMutex(prog, pt) && !CreatesCondvar(prog, pt)
    requires e.actions != [] ==> !e.actions[0].SetCondition? && !e.actions[0].JoinThread? && !e.actions[0].SpawnThread?
    ensures Visited(prog, w, pt, e, places)
         == w.(places := places, transitions := NextTransitions(prog, w, pt, e), visited := w.visited + iset{pt})
  {
    hide NextTransitions;
  }

  lemma PlainOne(prog: Program, w: World, pt: Point, e: Effect, a: Action, places: map<PlaceRef, nat>)
    requires pt.stack != [] && e.wait.None? && !CreatesMutex(prog, pt) && !CreatesCondvar(prog, pt)
    requires e.actions == [a] && !a.SetCondition? && !a.JoinThread? && !a.SpawnThread?
    ensures Visited(prog, w, pt, e, places)
         == w.(places := places, transitions := w.transitions[TransRef(pt, 0) := EdgeOfAction(prog, Ctx(w), pt, a)],
               visited := w.visited + iset{pt})
  {
    hide EdgeOfAction, CreatesMutex, CreatesCondvar, NextTransitions;
    PlainVisit(prog, w, pt, e, places);
    OneAction(prog, w, pt, e, a);
  }

  lemma PlainTwo(prog: Program, w: World, pt: Point, e: Effect, a: Action, b: Action, places: map<PlaceRef, nat>)
    requires pt.stack != [] && e.wait.None? && !CreatesMutex(prog, pt) && !CreatesCondvar(prog, pt)
    requires e.actions == [a, b] && !a.SetCondition? && !a.JoinThread? && !a.SpawnThread?
    ensures Visited(prog, w, pt, e, places)
         == w.(places := places,
               transitions := w.transitions[TransRef(pt, 0) := EdgeOfAction(prog, Ctx(w), pt, a)]
                                           [TransRef(pt, 1) := EdgeOfAction(prog, Ctx(w), pt, b)],
               visited := w.visited + iset{pt})
  {
    hide EdgeOfAction, CreatesMutex, CreatesCondvar, NextTransitions;
    PlainVisit(prog, w, pt, e, places);
    TwoActions(prog, w, pt, e, a, b);
  }

  // ---------------------------------------------------------------------------------------------
  // Failure

  lemma FaultyGrows(prog: Program, some: iset<Point>, more: iset<Point>)
    requires Faulty(prog, some) && some <= more
    ensures Faulty(prog, more)
  {
    hide Stuck, JoinsAt, WaitsAt;
    if pt :| pt in some && Stuck(prog, pt) {
    } else if p, q, t: ThreadName :| p in some && q in some && p != q && JoinsAt(prog, p, t) && JoinsAt(prog, q, t) {
      assert p in more && q in more;
    } else {
      var p, q, c: Point :| p in some && q in some && p != q && WaitsAt(prog, p, c) && WaitsAt(prog, q, c);
      assert p in more && q in more;
    }
  }

  /** A second join of the same thread or a second wait on the same condvar makes the program faulty. */
  lemma ConflictIsFaulty(prog: Program, w: World, pt: Point, e: Effect)
    requires Inv(prog, w, pt.thread) && pt !in w.visited && Shape(prog, pt, e) && !NoConflict(w, e)
    ensures Faulty(prog, w.visited + iset{pt})
  {
    hide Actions, WaitAt;
    if e.actions != [] && e.actions[0].JoinThread? && e.actions[0].thread in w.joins {
      var t := e.actions[0].thread;
      assert JoinsAt(prog, pt, t) && JoinsAt(prog, w.joins[t].pt, t);
    } else {
      var c := e.wait.value.condvar;
      assert WaitsAt(prog, pt, c) && WaitsAt(prog, w.condvars[c].value.at, c);
    }
  }

  // ---------------------------------------------------------------------------------------------
  // How many threads a body spawns, directly or not: the measure of the thread queue

  ghost function SpawnCost(prog: Program, f: nat, b: nat): nat
    decreases f, if f < |prog.functions| && b < |prog.functions[f].blocks| then |prog.functions[f].blocks| - b else 0
  {
    if !InRange(prog, Site(f, b)) then 0
    else
      var called := Calls(prog, Site(f, b));
      var spawned := SpawnsAt(prog, Site(f, b));
      (if called.Some? && called.value < f then SpawnCost(prog, called.value, 0) else 0)
      + (if spawned.Some? && spawned.value < f then 1 + SpawnCost(prog, spawned.value, 0) else 0)
      + SpawnCost(prog, f, b + 1)
  }

  ghost function QueueCost(prog: Program, threads: seq<Thread>): nat {
    if threads == [] then 0
    else QueueCost(prog, threads[..|threads| - 1]) + 1 + SpawnCost(prog, threads[|threads| - 1].f, 0)
  }

  lemma {:induction false} QueueCostHead(prog: Program, threads: seq<Thread>)
    requires threads != []
    ensures QueueCost(prog, threads) == 1 + SpawnCost(prog, threads[0].f, 0) + QueueCost(prog, threads[1..])
  {
    hide SpawnCost;
    if |threads| > 1 {
      QueueCostHead(prog, threads[..|threads| - 1]);
      assert threads[..|threads| - 1][1..] == threads[1..][..|threads| - 2];
    }
  }

  lemma VisitCost(prog: Program, w: World, pt: Point, e: Effect, places: map<PlaceRef, nat>)
    requires pt.stack != [] && EffectAt(prog, pt.thread, pt.stack) == Some(e)
    ensures QueueCost(prog, Visited(prog, w, pt, e, places).threads) == QueueCost(prog, w.threads)
      + var spawned := SpawnsAt(prog, pt.stack[|pt.stack| - 1]);
        if spawned.Some? then 1 + SpawnCost(prog, spawned.value, 0) else 0
  {
    EffectShape(prog, pt);
    hide SpawnCost, EffectAt, NextTransitions, Actions, WaitAt;
    var w' := Visited(prog, w, pt, e, places);
    if e.actions != [] && e.actions[0].SpawnThread? {
      assert w'.threads[..|w.threads|] == w.threads;
    }
  }
}
