/** A program with a spawned thread, a call and unwinding for which the verdict is correct: the worker drops its guard
    before it calls the function that may unwind, so nothing is left for its cleanup to unlock. */
module CoveredThreads {
  import opened Wrappers
  import opened PetriNets
  import opened Mir
  import opened ControlPoints
  import opened AliasMemory
  import opened Blueprint
  import opened CallEffects
  import opened Worlds
  import opened Frames
  import opened Progress
  import opened Points
  import opened NetLaws
  import opened Condvars
  import opened Control
  import opened Mutexes
  import opened Links
  import opened Machine
  import opened Paths
  import opened Simulation
  import opened Verdict
  import opened Verdicts
  import opened Witnesses
  import opened Cleanups

  function LettingGo(): seq<Block> {
    [Block0(Call(MutexLock, [Copy(FIELD)], Local(2), Some(1), Continue)),
     Block0(Drop(Local(2), 2, Continue)),
     Block0(Call(User(0), [], Local(5), Some(3), Cleanup(4))),
     Block0(Return),
     Block0(UnwindResume)]
  }

  function LettingGoProgram(): Program {
    Threaded(LettingGo())
  }

  function WorkerMemory(b: nat): Cells {
    if b == 0 then CAPTURED else GUARDED
  }

  lemma LettingGoEffects()
    ensures var prog := LettingGoProgram();
      && Actions(prog, WorkerPoint(0)) == [Acquire(THE_MUTEX, ToBlock(1))]
      && Actions(prog, WorkerPoint(1)) == [Release(THE_MUTEX, ToBlock(2))]
      && Actions(prog, WorkerPoint(2)) == [Flow(ToBlock(4))]
      && Actions(prog, WorkerPoint(3)) == [Flow(ToReturn)]
      && Actions(prog, WorkerPoint(4)) == [Flow(ToPanic)]
      && forall b: nat :: b < 5 ==> CellsBefore(prog, WORKER, [], 1, b) == Some(WorkerMemory(b))
    ensures IsWorker(LettingGo()) && WorkerDefined(LettingGo()) && |LettingGo()| == 5
    ensures forall b: nat :: CallsWork(LettingGo(), b) <==> b == 2
  {
    hide EffectAt, CellsBefore, CallEffect, StatementsCells;
    var prog, fr := LettingGoProgram(), Frame(WORKER, [], 1);
    var fn := prog.functions[1];
    forall b: nat ensures fr.At(b) == WorkerPoint(b) {
    }
    WorkerStarts(LettingGo());
    NoStatements(fn, CAPTURED);
    NoStatements(fn, GUARDED);
    LockIs(fn, WorkerPoint(0), CAPTURED, fn.blocks[0].terminator);
    UserIs(fn, WorkerPoint(2), GUARDED, fn.blocks[2].terminator);
    EffectOf(prog, fr, 0, CAPTURED, CAPTURED, Effect([Acquire(THE_MUTEX, ToBlock(1))], GUARDED, None));
    EffectOf(prog, fr, 1, GUARDED, GUARDED, Effect([Release(THE_MUTEX, ToBlock(2))], GUARDED, None));
    EffectOf(prog, fr, 2, GUARDED, GUARDED, Effect([Flow(ToBlock(4))], GUARDED, None));
    EffectOf(prog, fr, 3, GUARDED, GUARDED, Effect([Flow(ToReturn)], GUARDED, None));
    EffectOf(prog, fr, 4, GUARDED, GUARDED, Effect([Flow(ToPanic)], GUARDED, None));
  }

  lemma LettingGoAccepted()
    ensures Translatable(LettingGoProgram())
  {
    hide EffectAt, Actions, WorkerDefined, WellFormed, IsWorker, CallsWork, LettingGo;
    LettingGoEffects();
    LettingGoIsWellFormed();
    ThreadedAccepted(LettingGo());
  }

  lemma LettingGoIsWellFormed()
    ensures WellFormed(LettingGoProgram())
  {
    hide WellFormed;
    ThreadedIsWellFormed(LettingGo());
  }

  /** The points of the program. */
  lemma LettingGoPoints(pt: Point)
    requires IsPoint(LettingGoProgram(), pt)
    ensures (exists b: nat :: b < 4 && pt == MainPoint(b)) || (exists b: nat :: b < 5 && pt == WorkerPoint(b)) || (exists c: nat :: c < 3 && pt == WorkPoint(2, c))
  {
    hide EffectAt, IsPoint, Actions, WorkerDefined, LettingGo, CallsWork, IsWorker;
    LettingGoEffects();
    ThreadedPoints(LettingGo(), pt);
  }

  // ---------------------------------------------------------------------------------------------
  // The objects of the translator are those of the program

  /** A block from which the thread goes on to the next block only. */
  ghost predicate GoesStraight(prog: Program, pt: Point)
    requires Located(prog, pt)
  {
    && (forall e :: e in Exits(EndOf(prog, pt)) ==> e == Exit(pt.stack[|pt.stack| - 1].b + 1, true))
    && Calls(prog, pt.stack[|pt.stack| - 1]).None? && ReturnsTo(prog, pt).None? && UnwindsTo(prog, pt).None?
  }

  lemma StraightEdges(prog: Program, pt: Point, need: Needs)
    requires EffectAt(prog, pt.thread, pt.stack).Some? && Located(prog, pt) && PlainBlock(prog, pt) && GoesStraight(prog, pt)
    ensures EdgesAgree(prog, pt, need)
  {
    hide EffectAt, Exits, Passed, TranslatorBefore, PlainBlock, Calls, ReturnsTo, UnwindsTo;
    NextBlock(prog, pt);
  }

  lemma EverythingIsClosed(prog: Program, pt: Point, need: Needs)
    requires Located(prog, pt) && need(pt) == EVERYTHING
    ensures Closed(prog, pt, need)
  {
    hide NeededFor, NeededAtEnd;
  }

  lemma MainIsStraight(b: nat)
    requires b < 4
    ensures Located(LettingGoProgram(), MainPoint(b)) && PlainBlock(LettingGoProgram(), MainPoint(b)) && GoesStraight(LettingGoProgram(), MainPoint(b))
  {
    assert MainPoint(b).stack[..0] == [];
    if b == 1 {
      BundleIsPlain();
    }
  }

  lemma WorkerIsStraight(b: nat)
    requires b < 5 && b != 2
    ensures Located(LettingGoProgram(), WorkerPoint(b)) && PlainBlock(LettingGoProgram(), WorkerPoint(b)) && GoesStraight(LettingGoProgram(), WorkerPoint(b))
  {
    assert WorkerPoint(b).stack[..0] == [];
  }

  /** The block of the call leads to the cleanup, and into the function. */
  lemma CallBlock()
    ensures var prog, pt := LettingGoProgram(), WorkerPoint(2);
      && Located(prog, pt) && PlainBlock(prog, pt) && Exits(EndOf(prog, pt)) == {Exit(4, false)} && Calls(prog, pt.stack[|pt.stack| - 1]) == Some(0)
      && ReturnsTo(prog, pt).None? && UnwindsTo(prog, pt).None? && EndOf(prog, pt).Call? && EndOf(prog, pt).args == []
      && AtEnd(prog, pt, GUARDED) == GUARDED && Passed(prog, pt, GUARDED, false) == GUARDED && Passing(GUARDED, []) == map[]
      && EntryOf(pt, 0) == WorkPoint(2, 0) && BlockOf(pt, 4) == WorkerPoint(4)
  {
    assert [Site(1, 2)] + [Site(0, 0)] == [Site(1, 2), Site(0, 0)];
    assert WorkerPoint(2).stack[..0] == [] && [] + [Site(1, 4)] == [Site(1, 4)];
  }

  lemma CallEdges(need: Needs)
    requires EffectAt(LettingGoProgram(), WORKER, WorkerPoint(2).stack).Some?
    ensures Located(LettingGoProgram(), WorkerPoint(2)) && EdgesAgree(LettingGoProgram(), WorkerPoint(2), need)
  {
    hide EffectAt, LettingGoProgram, TranslatorBefore, PlainBlock, Exits, Calls, ReturnsTo, UnwindsTo, AtEnd, Passed, Passing, EntryOf, BlockOf;
    CallBlock();
    NextBlock(LettingGoProgram(), WorkerPoint(2));
    WorkerTranslated(2);
    WorkerTranslated(4);
    WorkTranslated(0);
  }

  lemma WorkerTranslated(b: nat)
    requires b < 5
    ensures TranslatorBefore(LettingGoProgram(), WorkerPoint(b)) == WorkerMemory(b)
  {
    hide EffectAt, CellsBefore, Actions;
    LettingGoEffects();
    assert WorkerPoint(b).stack[..0] == [];
  }

  lemma WorkTranslated(c: nat)
    requires c < 3
    ensures TranslatorBefore(LettingGoProgram(), WorkPoint(2, c)) == map[]
  {
    hide EffectAt, CellsBefore, Actions;
    WorkEffects(LettingGo(), 2);
    assert WorkPoint(2, c).stack[..1] == [Site(1, 2)];
  }

  lemma WorkBlock()
    ensures var prog, pt := LettingGoProgram(), WorkPoint(2, 0);
      && Located(prog, pt) && PlainBlock(prog, pt) && Exits(EndOf(prog, pt)) == {Exit(1, true), Exit(2, false)} && Calls(prog, pt.stack[|pt.stack| - 1]).None?
      && ReturnsTo(prog, pt).None? && UnwindsTo(prog, pt).None?
      && AtEnd(prog, pt, map[]) == map[] && Passed(prog, pt, map[], false) == map[] && Passed(prog, pt, map[], true) == map[]
      && BlockOf(pt, 1) == WorkPoint(2, 1) && BlockOf(pt, 2) == WorkPoint(2, 2)
  {
    assert WorkPoint(2, 0).stack[..1] == [Site(1, 2)];
  }

  lemma WorkBegins(need: Needs)
    requires EffectAt(LettingGoProgram(), WORKER, WorkPoint(2, 0).stack).Some?
    ensures Located(LettingGoProgram(), WorkPoint(2, 0)) && EdgesAgree(LettingGoProgram(), WorkPoint(2, 0), need)
  {
    hide EffectAt, LettingGoProgram, TranslatorBefore, PlainBlock, Exits, Calls, ReturnsTo, UnwindsTo, AtEnd, Passed, BlockOf;
    WorkBlock();
    NextBlock(LettingGoProgram(), WorkPoint(2, 0));
    WorkTranslated(0);
    WorkTranslated(1);
    WorkTranslated(2);
  }

  lemma WorkLeaves(c: nat)
    requires c == 1 || c == 2
    ensures var prog, pt := LettingGoProgram(), WorkPoint(2, c);
      && Located(prog, pt) && PlainBlock(prog, pt) && Exits(EndOf(prog, pt)) == {} && Calls(prog, pt.stack[|pt.stack| - 1]).None?
      && EndOf(prog, pt) == (if c == 1 then Return else UnwindResume) && AtEnd(prog, pt, map[]) == map[] && pt.stack[..1] == [Site(1, 2)]
  {
  }

  lemma WorkReturnsThere()
    ensures var prog, pt := LettingGoProgram(), WorkPoint(2, 1);
      && Located(prog, pt) && ReturnsTo(prog, pt) == Some(WorkerPoint(3)) && UnwindsTo(prog, pt).None? && CallerOf(pt) == WorkerPoint(2)
      && EndOf(prog, WorkerPoint(2)).destination == Local(5)
  {
    hide AtEnd, PlainBlock, LettingGoProgram;
    var pt := WorkPoint(2, 1);
    WorkLeaves(1);
    CallSite();
    assert CallerOf(pt) == WorkerPoint(2) by { assert pt.stack[..1] == [Site(1, 2)]; }
    assert BlockOf(WorkerPoint(2), 3) == WorkerPoint(3) by { assert [Site(1, 2)][..0] == [] && [] + [Site(1, 3)] == [Site(1, 3)]; }
  }

  lemma CallSite()
    ensures var prog := LettingGoProgram();
      && InRange(prog, Site(1, 2)) && TerminatorAt(prog, Site(1, 2)) == LettingGo()[2].terminator && Located(prog, WorkerPoint(2))
      && EndOf(prog, WorkerPoint(2)) == LettingGo()[2].terminator
  {
  }

  lemma NothingReturned()
    ensures var prog, pt := LettingGoProgram(), WorkPoint(2, 1);
      Located(prog, pt) && ReturnsTo(prog, pt).Some? && ReturnedMemory(prog, pt, map[], GUARDED) == GUARDED
  {
    hide LettingGoProgram, PlainBlock, Exits, Calls, ReturnsTo, UnwindsTo, AtEnd;
    WorkLeaves(1);
    WorkReturnsThere();
    assert GUARDED - {Local(5)} == GUARDED;
  }

  lemma WorkReturnsEdge(need: Needs)
    requires EffectAt(LettingGoProgram(), WORKER, WorkPoint(2, 1).stack).Some?
    ensures Located(LettingGoProgram(), WorkPoint(2, 1)) && EdgesAgree(LettingGoProgram(), WorkPoint(2, 1), need)
  {
    hide EffectAt, LettingGoProgram, TranslatorBefore, PlainBlock, Exits, Calls, ReturnsTo, UnwindsTo, AtEnd, Passed, Passing, BlockOf, ReturnedMemory;
    WorkLeaves(1);
    WorkReturnsThere();
    NothingReturned();
    NextBlock(LettingGoProgram(), WorkPoint(2, 1));
    WorkTranslated(1);
    WorkerTranslated(2);
    WorkerTranslated(3);
    CallBlock();
  }

  lemma WorkUnwindsThere()
    ensures var prog, pt := LettingGoProgram(), WorkPoint(2, 2);
      && Located(prog, pt) && ReturnsTo(prog, pt).None? && UnwindsTo(prog, pt) == Some(WorkerPoint(4)) && UnwindDepth(prog, pt) == 0
      && CallerAt(pt, 0) == WorkerPoint(2) && Lands(prog, pt.stack[..1]) == InCleanup(0, 4)
  {
    hide AtEnd, PlainBlock, LettingGoProgram;
    var pt := WorkPoint(2, 2);
    WorkLeaves(2);
    CallSite();
    assert CallerAt(pt, 0) == WorkerPoint(2) by { assert pt.stack[..1] == [Site(1, 2)]; }
    assert BlockOf(WorkerPoint(2), 4) == WorkerPoint(4) by { assert [Site(1, 2)][..0] == [] && [] + [Site(1, 4)] == [Site(1, 4)]; }
  }

  lemma WorkUnwindsEdge(need: Needs)
    requires EffectAt(LettingGoProgram(), WORKER, WorkPoint(2, 2).stack).Some?
    ensures Located(LettingGoProgram(), WorkPoint(2, 2)) && EdgesAgree(LettingGoProgram(), WorkPoint(2, 2), need)
  {
    hide EffectAt, LettingGoProgram, TranslatorBefore, PlainBlock, Exits, Calls, ReturnsTo, UnwindsTo, UnwindDepth, AtEnd, BlockOf;
    WorkLeaves(2);
    WorkUnwindsThere();
    NextBlock(LettingGoProgram(), WorkPoint(2, 2));
    WorkTranslated(2);
    WorkerTranslated(2);
    WorkerTranslated(4);
    CallBlock();
  }

  lemma WorkEdges(need: Needs, c: nat)
    requires c < 3 && EffectAt(LettingGoProgram(), WORKER, WorkPoint(2, c).stack).Some?
    ensures Located(LettingGoProgram(), WorkPoint(2, c)) && EdgesAgree(LettingGoProgram(), WorkPoint(2, c), need)
  {
    hide EdgesAgree, LettingGoProgram, EffectAt;
    if c == 0 {
      WorkBegins(need);
    } else if c == 1 {
      WorkReturnsEdge(need);
    } else {
      WorkUnwindsEdge(need);
    }
  }

  lemma LettingGoAligned(notes: Notes)
    requires forall pt: Point :: notes.need(pt) == EVERYTHING
    ensures Aligned(LettingGoProgram(), notes)
  {
    hide IsPoint, LettingGoProgram, EdgesAgree, Closed, GoesStraight, PlainBlock, Translatable, EffectAt;
    var prog := LettingGoProgram();
    LettingGoAccepted();
    forall pt: Point | IsPoint(prog, pt) && Located(prog, pt) ensures Closed(prog, pt, notes.need) && EdgesAgree(prog, pt, notes.need) {
      EverythingIsClosed(prog, pt, notes.need);
      LettingGoPoints(pt);
      EffectDefined(prog, pt);
      if b: nat :| b < 4 && pt == MainPoint(b) {
        MainIsStraight(b);
        StraightEdges(prog, pt, notes.need);
      } else if c: nat :| c < 3 && pt == WorkPoint(2, c) {
        WorkEdges(notes.need, c);
      } else if pt == WorkerPoint(2) {
        CallEdges(notes.need);
      } else {
        var b: nat :| b < 5 && pt == WorkerPoint(b);
        WorkerIsStraight(b);
        StraightEdges(prog, pt, notes.need);
      }
    }
  }

  // ---------------------------------------------------------------------------------------------
  // It locks in a disciplined way

  /** The guard is held by the worker at block 1, and by the main thread at block 3. */
  function LettingGoHeld(m: Point): Weighing {
    (p: PlaceRef) => One(p == Control(WORKER, [Site(1, 1)]) || p == Control(MainThread, [Site(2, 3)]))
  }

  lemma MainIsBalanced(ctx: Context, b: nat, i: nat)
    requires b < 4 && i < |Actions(LettingGoProgram(), MainPoint(b))|
    ensures Balanced(LettingGoProgram(), ctx, THE_MUTEX, LettingGoHeld(THE_MUTEX), MainPoint(b), Actions(LettingGoProgram(), MainPoint(b))[i])
  {
    hide Actions, EffectAt, DestPlace, PlaceOf, LettingGo, Threaded;
    SpawnerBegins(LettingGo());
    SpawnerEnds(LettingGo());
    ThreadedPlaces(LettingGo(), b, 0, b + 1);
    MainGoesTo(b);
  }

  lemma MainGoesTo(b: nat)
    ensures DestPlace(LettingGoProgram(), MainPoint(b), ToReturn) == ProgramEnd
  {
    assert MainPoint(b).stack[..0] == [];
  }

  lemma WorkerIsBalanced(ctx: Context, b: nat, i: nat)
    requires b < 5 && i < |Actions(LettingGoProgram(), WorkerPoint(b))|
    ensures Balanced(LettingGoProgram(), ctx, THE_MUTEX, LettingGoHeld(THE_MUTEX), WorkerPoint(b), Actions(LettingGoProgram(), WorkerPoint(b))[i])
  {
    hide Actions, EffectAt, WorkerDefined, IsWorker, CallsWork, LettingGo, DestPlace, PlaceOf, Threaded;
    LettingGoEffects();
    ThreadedPlaces(LettingGo(), b, 0, b + 1);
    ThreadedPlaces(LettingGo(), b, 0, b + 2);
    WorkerGoesTo(b);
  }

  lemma WorkerGoesTo(b: nat)
    ensures DestPlace(LettingGoProgram(), WorkerPoint(b), ToReturn) == ThreadEnd(WORKER) && DestPlace(LettingGoProgram(), WorkerPoint(b), ToPanic) == ThreadEnd(WORKER)
  {
    assert WorkerPoint(b).stack[..0] == [];
  }

  lemma WorkGoesTo(c: nat)
    ensures DestPlace(LettingGoProgram(), WorkPoint(2, c), ToReturn) == Control(WORKER, [Site(1, 3)])
  {
    assert WorkPoint(2, c).stack[..1] == [Site(1, 2)] && [Site(1, 2)][..0] == [] && [] + [Site(1, 3)] == [Site(1, 3)];
  }

  lemma WorkIsBalanced(ctx: Context, c: nat, i: nat)
    requires c < 3 && i < |Actions(LettingGoProgram(), WorkPoint(2, c))|
    ensures Balanced(LettingGoProgram(), ctx, THE_MUTEX, LettingGoHeld(THE_MUTEX), WorkPoint(2, c), Actions(LettingGoProgram(), WorkPoint(2, c))[i])
  {
    hide Actions, EffectAt, DestPlace, PlaceOf, LettingGo, Threaded;
    WorkEffects(LettingGo(), 2);
    ThreadedPlaces(LettingGo(), 2, c, 1);
    ThreadedPlaces(LettingGo(), 2, c, 2);
    WorkGoesTo(c);
  }

  lemma LettingGoMutex(m: Point)
    requires IsMutex(LettingGoProgram(), m)
    ensures m == THE_MUTEX
  {
    hide IsPoint;
    LettingGoPoints(m);
  }

  lemma LettingGoDisciplined(ctx: Context)
    requires ctx.waits == map[]
    ensures Disciplined(LettingGoProgram(), ctx, THE_MUTEX, LettingGoHeld(THE_MUTEX))
  {
    hide IsPoint, Actions, Balanced;
    var prog, h := LettingGoProgram(), LettingGoHeld(THE_MUTEX);
    forall pt: Point, i: nat | IsPoint(prog, pt) && pt.stack != [] && i < |Actions(prog, pt)| ensures Balanced(prog, ctx, THE_MUTEX, h, pt, Actions(prog, pt)[i]) {
      LettingGoPoints(pt);
      if b: nat :| b < 4 && pt == MainPoint(b) {
        MainIsBalanced(ctx, b, i);
      } else if c: nat :| c < 3 && pt == WorkPoint(2, c) {
        WorkIsBalanced(ctx, c, i);
      } else {
        var b: nat :| b < 5 && pt == WorkerPoint(b);
        WorkerIsBalanced(ctx, b, i);
      }
    }
  }

  // ---------------------------------------------------------------------------------------------
  // It cleans up well

  /** Block 4 of the worker cleans up after the function, and then leaves the thread. */
  function LettingGoCleanup(pt: Point): Option<nat> {
    if pt == WorkerPoint(4) then Some(0) else None
  }

  lemma MainUnwindsWell(b: nat)
    requires b < 4
    ensures Located(LettingGoProgram(), MainPoint(b)) && UnwindsWell(LettingGoProgram(), MainPoint(b), LettingGoCleanup)
  {
    assert MainPoint(b).stack[..0] == [];
  }

  lemma WorkerUnwindsWell(b: nat)
    requires b < 5
    ensures Located(LettingGoProgram(), WorkerPoint(b)) && UnwindsWell(LettingGoProgram(), WorkerPoint(b), LettingGoCleanup)
  {
    hide Actions, EffectAt, WorkerDefined, IsWorker, CallsWork;
    LettingGoEffects();
    assert WorkerPoint(b).stack[..0] == [];
    if b == 4 {
      assert NearerTheEnd(LettingGoProgram(), WorkerPoint(4), Actions(LettingGoProgram(), WorkerPoint(4))[0].dest, LettingGoCleanup);
    }
  }

  lemma WorkUnwindsWell(c: nat)
    requires c < 3
    ensures Located(LettingGoProgram(), WorkPoint(2, c)) && UnwindsWell(LettingGoProgram(), WorkPoint(2, c), LettingGoCleanup)
  {
    hide Actions, EffectAt, LettingGoProgram, PlainBlock, Exits, Calls, ReturnsTo, UnwindsTo, UnwindDepth, AtEnd, BlockOf, Passed, Lands;
    WorkEffects(LettingGo(), 2);
    assert LettingGoProgram() == Threaded(LettingGo()) by { IsLettingGo(); }
    if c == 0 {
      WorkBlock();
    } else {
      WorkLeaves(c);
      CallSite();
      WorkReturnsThere();
      WorkUnwindsThere();
    }
  }

  lemma IsLettingGo()
    ensures LettingGoProgram() == Threaded(LettingGo())
  {
  }

  lemma LettingGoCleansUp(notes: Notes)
    requires notes.cleanup == LettingGoCleanup
    ensures CleansUp(LettingGoProgram(), notes)
  {
    hide IsPoint, UnwindsWell, LettingGoProgram;
    forall pt: Point | IsPoint(LettingGoProgram(), pt) && Located(LettingGoProgram(), pt) ensures UnwindsWell(LettingGoProgram(), pt, notes.cleanup) {
      LettingGoPoints(pt);
      if b: nat :| b < 4 && pt == MainPoint(b) {
        MainUnwindsWell(b);
      } else if c: nat :| c < 3 && pt == WorkPoint(2, c) {
        WorkUnwindsWell(c);
      } else {
        var b: nat :| b < 5 && pt == WorkerPoint(b);
        WorkerUnwindsWell(b);
      }
    }
  }

  // ---------------------------------------------------------------------------------------------
  // So the verdict is correct

  ghost function LettingGoNotes(): Notes {
    Notes(LettingGoHeld, (pt: Point) => EVERYTHING, LettingGoCleanup)
  }

  lemma LettingGoSupported()
    ensures Supported(LettingGoProgram()) && NeverDiverges(LettingGoProgram())
    ensures forall pt: Point :: IsPoint(LettingGoProgram(), pt) ==> WaitAt(LettingGoProgram(), pt).None?
  {
    hide EffectAt, Actions, WaitAt, IsPoint, LettingGo, WorkerDefined, IsWorker, CreatesCondvar, CallsWork;
    LettingGoEffects();
    forall pt: Point | IsPoint(LettingGoProgram(), pt)
      ensures !CreatesCondvar(LettingGoProgram(), pt) && WaitAt(LettingGoProgram(), pt).None?
      ensures forall i :: 0 <= i < |Actions(LettingGoProgram(), pt)| ==>
        Simple(Actions(LettingGoProgram(), pt)[i]) || Actions(LettingGoProgram(), pt)[i].SpawnThread?
    {
      ThreadedActs(LettingGo(), pt);
    }
  }

  lemma LettingGoNoWaits(net: ProgramNet, ctx: Context)
    requires IsNetOf(LettingGoProgram(), net, ctx)
    ensures ctx.waits == map[]
  {
    hide IsPoint, WaitAt, Actions, EdgeOf, Tokens, IsPlaceOf, IsThread, IsConditionPair, LettingGoProgram, Supported, NeverDiverges;
    LettingGoSupported();
  }

  /** A spawned thread, a call and unwinding: the program is covered, so the verdict on it is correct. */
  lemma CoveredWithThreads(net: ProgramNet, ctx: Context)
    requires IsNetOf(LettingGoProgram(), net, ctx)
    ensures Covered(LettingGoProgram(), net, ctx, LettingGoNotes())
    ensures DeadlockReported(net, ProgramEnd, ProgramPanic) <==> CanDeadlock(LettingGoProgram())
  {
    hide LettingGoProgram, IsNetOf, Translatable, Supported, Aligned, CleansUp, Disciplined, IsMutex, NeverDiverges, DeadlockReported, CanDeadlock;
    LettingGoAccepted();
    LettingGoSupported();
    LettingGoAligned(LettingGoNotes());
    LettingGoCleansUp(LettingGoNotes());
    LettingGoNoWaits(net, ctx);
    LettingGoDisciplined(ctx);
    forall m: Point | IsMutex(LettingGoProgram(), m) ensures m == THE_MUTEX {
      LettingGoMutex(m);
    }
    VerdictIsCorrect(LettingGoProgram(), net, ctx, LettingGoNotes());
  }
}
