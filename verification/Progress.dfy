/** How far the translation of a frame has come, as facts about the state of the translation: which points
    are still to be visited, which places may exist already, and what a block or a called function adds. */
module Progress {
  import opened Wrappers
  import opened PetriNets
  import opened Mir
  import opened ControlPoints
  import opened AliasMemory
  import opened Blueprint
  import opened Worlds
  import opened Provenance
  import opened Frames

  ghost predicate Begun(w: World, t: ThreadName) {
    t.MainThread? || t in w.prepared
  }

  /** Only points of the program are visited, and only they have places. */
  ghost predicate Real(prog: Program, w: World) {
    && (forall pt :: pt in w.visited ==> IsPoint(prog, pt) && Begun(w, pt.thread))
    && (forall t: ThreadName, stack: seq<Site> :: Control(t, stack) in w.places ==>
          IsPoint(prog, Point(t, stack)) && Home(stack) == stack && Begun(w, t))
  }

  /** A frame: the function `f` called from `callers` in thread `t`. */
  datatype Frame = Frame(t: ThreadName, callers: seq<Site>, f: nat) {
    function At(b: nat): Point {
      Point(t, callers + [Site(f, b)])
    }

    ghost function From(prog: Program, b: nat): iset<Point> {
      FramePoints(prog, t, callers, f, b)
    }

    function Callee(b: nat, g: nat): Frame {
      Frame(t, callers + [Site(f, b)], g)
    }
  }

  /** The blocks of the frame before `b` are translated and the blocks from `b` on are not; no function
      called from those has left a place behind. */
  ghost predicate Open(prog: Program, w: World, fr: Frame, b: nat, cells: Cells) {
    && Inv(prog, w, fr.t)
    && Real(prog, w)
    && IsPoint(prog, fr.At(0)) && Begun(w, fr.t)
    && KnownCells(w, fr.t, cells)
    && CellsBefore(prog, fr.t, fr.callers, fr.f, b) == Some(cells)
    && (forall pt :: pt in fr.From(prog, b) ==> pt !in w.visited)
    && Shallow(prog, w.places, fr, b)
  }

  ghost predicate Shallow(prog: Program, places: map<PlaceRef, nat>, fr: Frame, b: nat) {
    forall stack: seq<Site> :: Control(fr.t, stack) in places && InFrame(prog, Point(fr.t, stack), fr.t, fr.callers, fr.f, b) ==>
      |stack| == |fr.callers| + 1
  }

  /** The only place of the frame is its start place. */
  ghost predicate Vacant(prog: Program, places: map<PlaceRef, nat>, fr: Frame) {
    forall stack: seq<Site> :: Control(fr.t, stack) in places && InFrame(prog, Point(fr.t, stack), fr.t, fr.callers, fr.f, 0) ==>
      stack == fr.At(0).stack
  }

  lemma VacantIsShallow(prog: Program, places: map<PlaceRef, nat>, fr: Frame)
    requires Vacant(prog, places, fr)
    ensures Shallow(prog, places, fr, 0)
  {
  }

  /** No block of a vacant frame but the first has a place. */
  lemma VacantBlocks(prog: Program, w: World, fr: Frame, b: nat)
    requires Real(prog, w) && Vacant(prog, w.places, fr) && b > 0
    ensures Control(fr.t, fr.At(b).stack) !in w.places
  {
    hide IsThread, Root, Home, Calls;
    var stack := fr.At(b).stack;
    assert fr.At(0).stack[|fr.callers|] == Site(fr.f, 0);
    assert stack[..|fr.callers|] == fr.callers && stack[|fr.callers|] == Site(fr.f, b);
    assert IsPoint(prog, Point(fr.t, stack)) ==> InFrame(prog, Point(fr.t, stack), fr.t, fr.callers, fr.f, 0);
  }

  lemma OpenIsReal(prog: Program, w: World, fr: Frame, b: nat, cells: Cells)
    requires Open(prog, w, fr, b, cells)
    ensures Real(prog, w) && InvPlaces(prog, w) && Inv(prog, w, fr.t)
  {
    hide Real, IsPoint, CellsBefore, KnownCells, Shallow, EffectAt, InvPlaces;
  }

  lemma OpenGives(prog: Program, w: World, fr: Frame, b: nat, cells: Cells)
    requires Open(prog, w, fr, b, cells) && InRange(prog, Site(fr.f, b))
    ensures Inv(prog, w, fr.t) && KnownCells(w, fr.t, cells) && IsPoint(prog, fr.At(0))
    ensures CellsBefore(prog, fr.t, fr.callers, fr.f, b) == Some(cells)
    ensures fr.At(b) !in w.visited && forall pt :: pt in fr.From(prog, b) ==> pt !in w.visited
  {
    hide Real, IsPoint, CellsBefore, KnownCells, Shallow, Inv, FramePoints;
    BlockIsPoint(prog, fr, b);
  }

  /** The state grew; new control places lie in `region`. */
  ghost predicate Extends(w: World, w': World, region: iset<Point>) {
    && Grows(w, w')
    && w'.prepared == w.prepared && w'.conditions == w.conditions
    && (forall p :: p in w.places ==> p in w'.places)
    && (forall t: ThreadName, stack: seq<Site> :: Control(t, stack) in w'.places && Control(t, stack) !in w.places ==>
          Point(t, stack) in region)
  }

  lemma ExtendsTwice(w: World, w': World, w'': World, region: iset<Point>, region': iset<Point>, all: iset<Point>)
    requires Extends(w, w', region) && Extends(w', w'', region') && region <= all && region' <= all
    ensures Extends(w, w'', all)
  {
  }

  lemma ExtendsNot(w: World, region: iset<Point>)
    ensures Extends(w, w, region)
  {
  }

  lemma SameCallers(prog: Program, callers: seq<Site>, f: nat, b: nat, c: nat)
    requires Chain(prog, callers + [Site(f, b)], 0) && InRange(prog, Site(f, c))
    ensures Chain(prog, callers + [Site(f, c)], 0)
  {
    hide InRange, Calls;
    var stack, other := callers + [Site(f, b)], callers + [Site(f, c)];
    forall j | 0 <= j < |other| ensures InRange(prog, other[j]) {
      if j < |callers| {
        assert other[j] == stack[j];
      }
    }
    forall j | 0 <= j < |other| - 1 ensures Calls(prog, other[j]) == Some(other[j + 1].f) {
      assert other[j] == stack[j] && other[j + 1].f == stack[j + 1].f;
    }
  }

  lemma BlockIsPoint(prog: Program, fr: Frame, b: nat)
    requires IsPoint(prog, fr.At(0)) && InRange(prog, Site(fr.f, b))
    ensures IsPoint(prog, fr.At(b)) && fr.At(b) in fr.From(prog, b)
  {
    hide IsThread, Root, Chain, InRange;
    SameCallers(prog, fr.callers, fr.f, 0, b);
    assert fr.At(0).stack[0].f == fr.At(b).stack[0].f;
    assert fr.At(b).stack[|fr.callers|] == Site(fr.f, b);
    ChainSuffix(prog, fr.At(b).stack, |fr.callers|);
  }

  lemma ChainSuffix(prog: Program, stack: seq<Site>, from: nat)
    requires Chain(prog, stack, 0)
    ensures Chain(prog, stack, from)
  {
    hide InRange, Calls;
  }

  /** The new control places are places of blocks of the frame. */
  ghost predicate OwnBlocks(prog: Program, w: World, fr: Frame, places: map<PlaceRef, nat>) {
    forall t: ThreadName, stack: seq<Site> :: Control(t, stack) in places && Control(t, stack) !in w.places ==>
      && t == fr.t && stack != []
      && stack == fr.At(stack[|stack| - 1].b).stack
      && stack[|stack| - 1].b > 0
      && InRange(prog, stack[|stack| - 1])
  }

  lemma OwnBlocksReal(prog: Program, w: World, w': World, fr: Frame, b: nat)
    requires Real(prog, w) && Begun(w, fr.t) && IsPoint(prog, fr.At(0)) && OwnBlocks(prog, w, fr, w'.places)
    requires InRange(prog, Site(fr.f, b))
    requires w'.visited == w.visited + iset{fr.At(b)} && w'.prepared == w.prepared
    ensures Real(prog, w')
  {
    hide IsPoint;
    BlockIsPoint(prog, fr, b);
    forall t: ThreadName, stack: seq<Site> | Control(t, stack) in w'.places
      ensures IsPoint(prog, Point(t, stack)) && Home(stack) == stack && Begun(w', t)
    {
      if Control(t, stack) !in w.places {
        BlockIsPoint(prog, fr, stack[|stack| - 1].b);
      }
    }
  }

  lemma OwnBlocksExtend(prog: Program, w: World, w': World, fr: Frame)
    requires OwnBlocks(prog, w, fr, w'.places) && IsPoint(prog, fr.At(0))
    requires Grows(w, w') && w'.prepared == w.prepared && w'.conditions == w.conditions
    requires forall p :: p in w.places ==> p in w'.places
    ensures Extends(w, w', fr.From(prog, 0))
    ensures forall b: nat :: Shallow(prog, w.places, fr, b) ==> Shallow(prog, w'.places, fr, b)
  {
    hide IsPoint, InFrame;
    forall t: ThreadName, stack: seq<Site> | Control(t, stack) in w'.places && Control(t, stack) !in w.places
      ensures Point(t, stack) in fr.From(prog, 0)
    {
      BlockIsPoint(prog, fr, stack[|stack| - 1].b);
      Earlier(prog, fr, Point(t, stack), 0, stack[|stack| - 1].b);
    }
  }

  lemma Earlier(prog: Program, fr: Frame, pt: Point, b: nat, c: nat)
    requires b <= c && pt in fr.From(prog, c)
    ensures pt in fr.From(prog, b)
  {
  }

  // ---------------------------------------------------------------------------------------------
  // One block

  /** The effect of a block, from the memory with which it is reached. */
  lemma EffectIs(prog: Program, fr: Frame, b: nat, cells: Cells)
    requires InRange(prog, Site(fr.f, b)) && CellsBefore(prog, fr.t, fr.callers, fr.f, b) == Some(cells)
    ensures var fn := prog.functions[fr.f];
      EffectAt(prog, fr.t, fr.At(b).stack) ==
        match StatementsCells(fn, cells, fn.blocks[b].statements)
        case None => None
        case Some(c) => TerminatorEffect(fn, fr.At(b), c, fn.blocks[b].terminator)
  {
    hide CellsBefore, StatementsCells, TerminatorEffect;
    assert fr.At(b).stack[..|fr.callers|] == fr.callers;
  }

  lemma CellsNext(prog: Program, fr: Frame, b: nat)
    requires EffectAt(prog, fr.t, fr.At(b).stack).Some?
    ensures CellsBefore(prog, fr.t, fr.callers, fr.f, b + 1) == Some(EffectAt(prog, fr.t, fr.At(b).stack).value.cells)
  {
    hide EffectAt;
  }

  lemma KnownNext(prog: Program, w: World, pt: Point, e: Effect, places: map<PlaceRef, nat>, cells: Cells)
    requires EffectAt(prog, pt.thread, pt.stack) == Some(e) && pt.stack != [] && InRange(prog, pt.stack[|pt.stack| - 1])
    requires KnownAfter(w, pt, TerminatorAt(prog, pt.stack[|pt.stack| - 1]), cells)
    ensures KnownCells(Visited(prog, w, pt, e, places), pt.thread, cells)
  {
    hide EffectAt, NextTransitions, Actions, WaitAt;
    EffectShape(prog, pt);
    VisitedGrows(prog, w, pt, e, places);
    var w' := Visited(prog, w, pt, e, places);
    forall p | p in cells ensures Known(w', pt.thread, |w'.threads|, cells[p]) {
      if Known(w, pt.thread, |w.threads|, cells[p]) {
        StillKnown(w, w', pt.thread, |w.threads|, |w'.threads|, cells[p]);
      } else if cells[p].JoinHandle? {
        assert w'.threads[|w.threads|].name == cells[p].thread;
      }
    }
  }

  /** What a visit of block `b` leads to, whether or not it calls a function. */
  lemma BlockVisited(prog: Program, w: World, w': World, fr: Frame, b: nat, cells: Cells, e: Effect, places: map<PlaceRef, nat>)
    requires Open(prog, w, fr, b, cells) && InRange(prog, Site(fr.f, b))
    requires EffectAt(prog, fr.t, fr.At(b).stack) == Some(e)
    requires NoConflict(w, e) && PlacesAfter(prog, w, fr.At(b), e, places) && OwnBlocks(prog, w, fr, places)
    requires w' == Visited(prog, w, fr.At(b), e, places)
    ensures Inv(prog, w', fr.t) && Real(prog, w')
    ensures KnownCells(w', fr.t, e.cells)
    ensures Extends(w, w', fr.From(prog, 0))
    ensures Shallow(prog, w'.places, fr, b)
  {
    hide Inv, Real, Shallow, NoConflict, PlacesAfter, OwnBlocks, NextTransitions, EffectAt, CellsBefore, IsPoint, TerminatorEffect,
      StatementsCells, KnownCells, KnownAfter, KnownEffect, FramePoints;
    var fn := prog.functions[fr.f];
    BlockIsPoint(prog, fr, b);
    EffectIs(prog, fr, b, cells);
    var known := StatementsCells(fn, cells, fn.blocks[b].statements).value;
    KnownStatements(w, fr.t, fn, cells, fn.blocks[b].statements);
    KnownTerminator(w, fn, fr.At(b), known, fn.blocks[b].terminator);
    VisitedInv(prog, w, fr.At(b), e, places);
    KnownNext(prog, w, fr.At(b), e, places, e.cells);
    OwnBlocksReal(prog, w, w', fr, b);
    assert forall p :: p in w.places ==> p in w'.places by {
      PlacesKept(prog, w, fr.At(b), e, places);
    }
    OwnBlocksExtend(prog, w, w', fr);
  }

  lemma PlacesKept(prog: Program, w: World, pt: Point, e: Effect, places: map<PlaceRef, nat>)
    requires pt.stack != [] && PlacesAfter(prog, w, pt, e, places)
    ensures forall p :: p in w.places ==> p in places
  {
  }

  /** A block that calls no user function leaves the frame open at the next block. */
  lemma BlockDone(prog: Program, w: World, w': World, fr: Frame, b: nat, cells: Cells, e: Effect, places: map<PlaceRef, nat>)
    requires Open(prog, w, fr, b, cells) && InRange(prog, Site(fr.f, b)) && Calls(prog, Site(fr.f, b)).None?
    requires EffectAt(prog, fr.t, fr.At(b).stack) == Some(e)
    requires NoConflict(w, e) && PlacesAfter(prog, w, fr.At(b), e, places) && OwnBlocks(prog, w, fr, places)
    requires w' == Visited(prog, w, fr.At(b), e, places)
    ensures Open(prog, w', fr, b + 1, e.cells)
    ensures Extends(w, w', fr.From(prog, 0))
    ensures w'.visited + fr.From(prog, b + 1) == w.visited + fr.From(prog, b)
  {
    hide Inv, Real, Shallow, NoConflict, PlacesAfter, OwnBlocks, NextTransitions, EffectAt, CellsBefore, IsPoint, KnownCells, FramePoints, Extends;
    BlockVisited(prog, w, w', fr, b, cells, e, places);
    CellsNext(prog, fr, b);
    FrameSplit(prog, fr.t, fr.callers, fr.f, b);
    LaterPointsDiffer(prog, fr.t, fr.callers, fr.f, b);
    ShallowNext(prog, w'.places, fr, b);
  }

  lemma ShallowNext(prog: Program, places: map<PlaceRef, nat>, fr: Frame, b: nat)
    requires Shallow(prog, places, fr, b)
    ensures Shallow(prog, places, fr, b + 1)
  {
  }

  // ---------------------------------------------------------------------------------------------
  // Calls into user functions

  /** The frame was translated completely. */
  ghost predicate Translated(prog: Program, w: World, w': World, fr: Frame) {
    && Inv(prog, w', fr.t)
    && Real(prog, w')
    && Extends(w, w', fr.From(prog, 0))
    && w'.visited == w.visited + fr.From(prog, 0)
    && QueueCost(prog, w'.threads) == QueueCost(prog, w.threads) + SpawnCost(prog, fr.f, 0)
  }

  lemma CalleeIsPoint(prog: Program, fr: Frame, b: nat, g: nat)
    requires WellFormed(prog) && IsPoint(prog, fr.At(b)) && Calls(prog, Site(fr.f, b)) == Some(g) && InRange(prog, Site(fr.f, b))
    ensures IsPoint(prog, fr.Callee(b, g).At(0))
  {
    hide IsThread, Root;
    assert FunctionOk(prog, fr.f);
    assert TerminatorOk(prog, fr.f, TerminatorAt(prog, Site(fr.f, b)));
    assert FunctionOk(prog, g);
    var stack, inner := fr.At(b).stack, fr.Callee(b, g).At(0).stack;
    assert inner[..|stack|] == stack;
    assert forall j :: 0 <= j < |stack| ==> inner[j] == stack[j];
    forall j | 0 <= j < |inner| - 1 ensures Calls(prog, inner[j]) == Some(inner[j + 1].f) {
      if j < |stack| - 1 {
        assert Calls(prog, stack[j]) == Some(stack[j + 1].f);
      }
    }
  }

  lemma CalleeVacant(prog: Program, places: map<PlaceRef, nat>, fr: Frame, b: nat, g: nat)
    requires Shallow(prog, places, fr, b) && Calls(prog, Site(fr.f, b)) == Some(g) && InRange(prog, Site(fr.f, b))
    ensures Vacant(prog, places, fr.Callee(b, g))
  {
    hide Calls, Chain;
    forall stack: seq<Site> | Control(fr.t, stack) in places
      ensures !InFrame(prog, Point(fr.t, stack), fr.t, fr.Callee(b, g).callers, g, 0)
    {
      InFrameSplit(prog, Point(fr.t, stack), fr.t, fr.callers, fr.f, b);
    }
  }

  /** The frame of the called function is open at its first block, with an empty memory. */
  lemma CalleeOpen(prog: Program, w: World, w': World, fr: Frame, b: nat, g: nat, cells: Cells, e: Effect, places: map<PlaceRef, nat>)
    requires WellFormed(prog)
    requires Open(prog, w, fr, b, cells) && InRange(prog, Site(fr.f, b)) && Calls(prog, Site(fr.f, b)) == Some(g)
    requires EffectAt(prog, fr.t, fr.At(b).stack) == Some(e)
    requires NoConflict(w, e) && PlacesAfter(prog, w, fr.At(b), e, places) && OwnBlocks(prog, w, fr, places)
    requires w' == Visited(prog, w, fr.At(b), e, places)
    ensures Open(prog, w', fr.Callee(b, g), 0, map[]) && Vacant(prog, w'.places, fr.Callee(b, g))
    ensures KnownCells(w', fr.t, e.cells)
    ensures Extends(w, w', fr.From(prog, 0))
    ensures Shallow(prog, w'.places, fr, b)
  {
    hide Inv, Real, Shallow, NoConflict, PlacesAfter, OwnBlocks, NextTransitions, EffectAt, CellsBefore, IsPoint, FramePoints, Extends, WellFormed, Vacant;
    BlockVisited(prog, w, w', fr, b, cells, e, places);
    BlockIsPoint(prog, fr, b);
    CalleeIsPoint(prog, fr, b, g);
    CalleeVacant(prog, w'.places, fr, b, g);
    VacantIsShallow(prog, w'.places, fr.Callee(b, g));
    FrameSplit(prog, fr.t, fr.callers, fr.f, b);
    LaterPointsDiffer(prog, fr.t, fr.callers, fr.f, b);
    CalleeCells(prog, fr, b, g);
  }

  lemma CalleeCells(prog: Program, fr: Frame, b: nat, g: nat)
    ensures CellsBefore(prog, fr.t, fr.Callee(b, g).callers, g, 0) == Some(map[])
  {
  }

  lemma ShallowAfterCall(prog: Program, w: World, w': World, fr: Frame, b: nat, g: nat)
    requires Shallow(prog, w.places, fr, b) && Calls(prog, Site(fr.f, b)) == Some(g)
    requires Extends(w, w', fr.Callee(b, g).From(prog, 0))
    ensures Shallow(prog, w'.places, fr, b + 1)
  {
    hide Calls, Chain;
    forall stack: seq<Site> | Control(fr.t, stack) in w'.places && InFrame(prog, Point(fr.t, stack), fr.t, fr.callers, fr.f, b + 1)
      ensures |stack| == |fr.callers| + 1
    {
      if Control(fr.t, stack) !in w.places {
        assert Point(fr.t, stack) in CalleePoints(prog, fr.t, fr.callers, fr.f, b);
        LaterPointsDiffer(prog, fr.t, fr.callers, fr.f, b);
        assert false;
      }
    }
  }

  /** After the called function, the frame is open at its next block. */
  lemma CallDone(prog: Program, w: World, w': World, w'': World, fr: Frame, b: nat, g: nat, e: Effect)
    requires InRange(prog, Site(fr.f, b)) && Calls(prog, Site(fr.f, b)) == Some(g)
    requires EffectAt(prog, fr.t, fr.At(b).stack) == Some(e)
    requires IsPoint(prog, fr.At(0)) && Begun(w, fr.t) && KnownCells(w', fr.t, e.cells)
    requires forall pt :: pt in fr.From(prog, b) ==> pt !in w.visited
    requires Extends(w, w', fr.From(prog, 0)) && Shallow(prog, w'.places, fr, b) && w'.visited == w.visited + iset{fr.At(b)}
    requires Translated(prog, w', w'', fr.Callee(b, g))
    ensures Open(prog, w'', fr, b + 1, e.cells)
    ensures Extends(w, w'', fr.From(prog, 0))
    ensures w''.visited + fr.From(prog, b + 1) == w.visited + fr.From(prog, b)
  {
    hide Inv, Real, EffectAt, CellsBefore, IsPoint;
    CellsNext(prog, fr, b);
    ShallowAfterCall(prog, w', w'', fr, b, g);
    FrameSplit(prog, fr.t, fr.callers, fr.f, b);
    LaterPointsDiffer(prog, fr.t, fr.callers, fr.f, b);
    StillKnownCells(w', w'', fr.t, e.cells);
    assert fr.From(prog, b) <= fr.From(prog, 0) by {
      forall pt | pt in fr.From(prog, b) ensures pt in fr.From(prog, 0) {
        Earlier(prog, fr, pt, 0, b);
      }
    }
    hide Shallow, KnownCells, FramePoints;
    ExtendsTwice(w, w', w'', fr.From(prog, 0), fr.Callee(b, g).From(prog, 0), fr.From(prog, 0));
    hide Extends;
  }

  lemma CalleeSmaller(prog: Program, f: nat, b: nat)
    requires WellFormed(prog) && InRange(prog, Site(f, b))
    ensures Calls(prog, Site(f, b)).Some? ==> Calls(prog, Site(f, b)).value < f
    ensures SpawnsAt(prog, Site(f, b)).Some? ==> SpawnsAt(prog, Site(f, b)).value < f
  {
    assert FunctionOk(prog, f);
    assert TerminatorOk(prog, f, TerminatorAt(prog, Site(f, b)));
  }

  lemma CostOfBlock(prog: Program, f: nat, b: nat)
    requires WellFormed(prog) && InRange(prog, Site(f, b))
    ensures SpawnCost(prog, f, b) == SpawnCost(prog, f, b + 1)
      + (if Calls(prog, Site(f, b)).Some? then SpawnCost(prog, Calls(prog, Site(f, b)).value, 0) else 0)
      + (if SpawnsAt(prog, Site(f, b)).Some? then 1 + SpawnCost(prog, SpawnsAt(prog, Site(f, b)).value, 0) else 0)
  {
    CalleeSmaller(prog, f, b);
  }

  lemma NoCostAfter(prog: Program, f: nat, b: nat)
    requires !InRange(prog, Site(f, b))
    ensures SpawnCost(prog, f, b) == 0
  {
  }

  lemma CallsOrSpawns(prog: Program, site: Site)
    ensures Calls(prog, site).Some? ==> SpawnsAt(prog, site).None?
  {
  }

  // ---------------------------------------------------------------------------------------------
  // Failure

  lemma BlockFaulty(prog: Program, w: World, fr: Frame, b: nat)
    requires Inv(prog, w, fr.t) && IsPoint(prog, fr.At(0)) && InRange(prog, Site(fr.f, b))
    requires forall pt :: pt in fr.From(prog, b) ==> pt !in w.visited
    requires var e := EffectAt(prog, fr.t, fr.At(b).stack); e.None? || !NoConflict(w, e.value)
    ensures Faulty(prog, w.visited + fr.From(prog, b))
  {
    hide Inv, IsPoint, EffectAt, FramePoints, NoConflict;
    BlockIsPoint(prog, fr, b);
    if EffectAt(prog, fr.t, fr.At(b).stack).None? {
      assert Stuck(prog, fr.At(b));
    } else {
      EffectShape(prog, fr.At(b));
      hide Shape, Faulty;
      ConflictIsFaulty(prog, w, fr.At(b), EffectAt(prog, fr.t, fr.At(b).stack).value);
      FaultyGrows(prog, w.visited + iset{fr.At(b)}, w.visited + fr.From(prog, b));
    }
  }

  lemma CalleeFaulty(prog: Program, visited: iset<Point>, fr: Frame, b: nat, g: nat)
    requires InRange(prog, Site(fr.f, b)) && Calls(prog, Site(fr.f, b)) == Some(g)
    requires Faulty(prog, visited + iset{fr.At(b)} + fr.Callee(b, g).From(prog, 0))
    ensures Faulty(prog, visited + fr.From(prog, b))
  {
    hide FramePoints, Faulty;
    FrameSplit(prog, fr.t, fr.callers, fr.f, b);
    FaultyGrows(prog, visited + iset{fr.At(b)} + fr.Callee(b, g).From(prog, 0), visited + fr.From(prog, b));
  }
}
