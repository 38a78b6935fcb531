/** Which points, threads and objects a program has, read off its terminators. */
module Unfolding {
  import opened Wrappers
  import opened PetriNets
  import opened Mir
  import opened ControlPoints
  import opened AliasMemory
  import opened Blueprint
  import opened Worlds
  import opened Points
  import opened MirFunctions

  predicate HasBlock(prog: Program, site: Site) {
    site.f < |prog.functions| && site.b < |prog.functions[site.f].blocks|
  }

  function TerminatorOf(prog: Program, site: Site): Terminator
    requires HasBlock(prog, site)
  {
    prog.functions[site.f].blocks[site.b].terminator
  }

  predicate ComesBack(term: Terminator, callee: Callee) {
    term.Call? && term.callee == callee && (term.returnTo.Some? || term.unwind != Continue)
  }

  /** The block at `pt` ends in a call to `callee`, which has a block to return to or unwinds to somewhere. */
  predicate EndsInCall(prog: Program, pt: Point, callee: Callee) {
    pt.stack != [] && HasBlock(prog, pt.stack[|pt.stack| - 1]) && ComesBack(TerminatorOf(prog, pt.stack[|pt.stack| - 1]), callee)
  }

  /** A point is a block of the main function, of a function that an existing point calls, or of one that an existing point
      spawns a thread for. */
  ghost predicate Unfolds(prog: Program, pt: Point)
    decreases pt.thread, |pt.stack|
  {
    if |pt.stack| == 0 || !HasBlock(prog, pt.stack[|pt.stack| - 1]) then false
    else if |pt.stack| == 1 then
      match pt.thread
      case MainThread => pt.stack[0].f == prog.main
      case Spawned(parent, stack) =>
        Unfolds(prog, Point(parent, stack)) && EndsInCall(prog, Point(parent, stack), ThreadSpawn(pt.stack[0].f))
    else
      var caller := Point(pt.thread, pt.stack[..|pt.stack| - 1]);
      Unfolds(prog, caller) && EndsInCall(prog, caller, User(pt.stack[|pt.stack| - 1].f))
  }

  lemma CallsWhen(prog: Program, pt: Point, g: nat)
    requires pt.stack != []
    ensures Calls(prog, pt.stack[|pt.stack| - 1]) == Some(g) <==> EndsInCall(prog, pt, User(g))
  {
  }

  lemma SpawnsWhen(prog: Program, pt: Point, f: nat)
    requires EffectAt(prog, pt.thread, pt.stack).Some?
    ensures EndsInCall(prog, pt, ThreadSpawn(f)) <==> Actions(prog, pt) != [] && Actions(prog, pt)[0].SpawnThread? && Actions(prog, pt)[0].f == f
  {
  }

  /** A frame below another one is there if and only if the block above it calls its function. */
  lemma CalledPoint(prog: Program, pt: Point)
    requires |pt.stack| > 1
    ensures var top := |pt.stack| - 1;
      var caller := Point(pt.thread, pt.stack[..top]);
      IsPoint(prog, pt) <==> IsPoint(prog, caller) && HasBlock(prog, pt.stack[top]) && EndsInCall(prog, caller, User(pt.stack[top].f))
  {
    hide IsThread, Root, EndsInCall, Calls;
    var top := |pt.stack| - 1;
    var caller := Point(pt.thread, pt.stack[..top]);
    CallsWhen(prog, caller, pt.stack[top].f);
    assert forall j :: 0 <= j < top ==> caller.stack[j] == pt.stack[j];
    assert pt.stack[..0] == caller.stack[..0] == [];
  }

  /** The points of an accepted program are the ones that unfold from its main function. */
  lemma {:induction false} PointsUnfold(prog: Program, pt: Point)
    requires Translatable(prog)
    ensures IsPoint(prog, pt) <==> Unfolds(prog, pt)
    decreases pt.thread, |pt.stack|
  {
    if |pt.stack| > 1 {
      CalledPoint(prog, pt);
      PointsUnfold(prog, Point(pt.thread, pt.stack[..|pt.stack| - 1]));
    } else if |pt.stack| == 1 {
      match pt.thread
      case MainThread =>
      case Spawned(parent, stack) =>
        var spawn := Point(parent, stack);
        PointsUnfold(prog, spawn);
        if IsPoint(prog, spawn) {
          EffectDefined(prog, spawn);
          SpawnsWhen(prog, spawn, pt.stack[0].f);
        }
    }
  }

  lemma CreatesWhen(prog: Program, pt: Point, callee: Callee)
    ensures CreatesWith(prog, pt, callee) <==> EndsInCall(prog, pt, callee)
  {
  }

  lemma HomeWhen(stack: seq<Site>)
    ensures Home(stack) == stack <==> |stack| <= 1 || stack[|stack| - 1].b != 0
  {
    if |stack| > 1 && stack[|stack| - 1].b == 0 {
      HomeIsNotLonger(stack[..|stack| - 1]);
    }
  }

  ghost predicate SpawnsHere(prog: Program, pt: Point) {
    exists f: nat :: EndsInCall(prog, pt, ThreadSpawn(f))
  }

  lemma ThreadUnfolds(prog: Program, parent: ThreadName, stack: seq<Site>)
    requires Translatable(prog)
    ensures IsThread(prog, Spawned(parent, stack)) <==> Unfolds(prog, Point(parent, stack)) && SpawnsHere(prog, Point(parent, stack))
  {
    hide EndsInCall, Unfolds, EffectAt;
    var spawn := Point(parent, stack);
    PointsUnfold(prog, spawn);
    if IsPoint(prog, spawn) {
      EffectDefined(prog, spawn);
      forall f: nat ensures EndsInCall(prog, spawn, ThreadSpawn(f)) <==> Actions(prog, spawn) != [] && Actions(prog, spawn)[0].SpawnThread? && Actions(prog, spawn)[0].f == f
      {
        SpawnsWhen(prog, spawn, f);
      }
      if IsThread(prog, Spawned(parent, stack)) {
        assert EndsInCall(prog, spawn, ThreadSpawn(Actions(prog, spawn)[0].f));
      }
    }
  }

  lemma NoStackNoPoint(prog: Program, pt: Point)
    requires Unfolds(prog, pt)
    ensures pt.stack != []
  {
  }

  /** The places of the net: one for each block, except that the first block of a called function has the place of the call;
      one for each mutex, two for each condvar and one for each thread, all at the calls that create them. */
  lemma PlacesUnfold(prog: Program, net: ProgramNet, ctx: Context, pt: Point)
    requires Translatable(prog) && IsNetOf(prog, net, ctx)
    ensures Control(pt.thread, pt.stack) in net.places <==> Unfolds(prog, pt) && (|pt.stack| == 1 || pt.stack[|pt.stack| - 1].b != 0)
    ensures MutexPlace(pt) in net.places <==> Unfolds(prog, pt) && EndsInCall(prog, pt, MutexNew)
    ensures WaitEnabled(pt) in net.places <==> Unfolds(prog, pt) && EndsInCall(prog, pt, CondvarNew)
    ensures Notify(pt) in net.places <==> Unfolds(prog, pt) && EndsInCall(prog, pt, CondvarNew)
    ensures ThreadEnd(Spawned(pt.thread, pt.stack)) in net.places <==> Unfolds(prog, pt) && SpawnsHere(prog, pt)
    ensures ThreadEnd(MainThread) !in net.places
  {
    hide IsPoint, IsThread, Translatable, IsContext, EdgeOf, Tokens, Actions, SpawnsHere, Unfolds, EndsInCall, CreatesWith, Home;
    PointsUnfold(prog, pt);
    if Unfolds(prog, pt) {
      NoStackNoPoint(prog, pt);
    }
    CreatesWhen(prog, pt, MutexNew);
    CreatesWhen(prog, pt, CondvarNew);
    ThreadUnfolds(prog, pt.thread, pt.stack);
    HomeWhen(pt.stack);
    assert pt == Point(pt.thread, pt.stack);
  }
}
