/** Verdicts on small programs of one thread: one that deadlocks and one that does not, a deadlock that is missed because a
    place holds different mutexes on different paths, and an alarm about a call that never returns. */
module Verdicts {
  import opened Wrappers
  import opened PetriNets
  import opened Mir
  import opened ControlPoints
  import opened AliasMemory
  import opened Blueprint
  import opened CallEffects
  import opened Worlds
  import opened Frames
  import opened Progress
  import opened Points
  import opened NetLaws
  import opened Condvars
  import opened Control
  import opened Mutexes
  import opened SequentialCode
  import opened Links
  import opened Machine
  import opened Paths
  import opened Simulation
  import opened Verdict
  import opened Witnesses

  // ---------------------------------------------------------------------------------------------
  // Executions of a main thread without calls

  function Main(b: nat, cells: Cells, held: set<Point>, made: multiset<Point>): State {
    State(multiset{At(MainAt(b), [], cells, false)}, held, made)
  }

  lemma MainLocated(blocks: seq<Block>, b: nat, sync: set<Place> := {})
    requires b < |blocks|
    ensures Located(Only(blocks, sync), MainAt(b)) && EndOf(Only(blocks, sync), MainAt(b)) == blocks[b].terminator
    ensures FunctionAt(Only(blocks, sync), MainAt(b)) == Only(blocks, sync).functions[0]
    ensures BlockLinks(Only(blocks, sync), MainAt(b)) == StatementsLinks(Only(blocks, sync).functions[0], blocks[b].statements)
  {
  }

  /** The main thread moves from block `b` to block `c`, and locks the mutexes it did not have before. */
  lemma MainStep(blocks: seq<Block>, b: nat, s: State, cells: Cells, i: nat, c: nat, cells': Cells, s': State, sync: set<Place> := {})
    requires b < |blocks| && s == Main(b, cells, s.held, s.made) && s' == Main(c, cells', s'.held, s'.made)
    requires var prog := Only(blocks, sync);
      && Located(prog, MainAt(b)) && i < |MovesAt(prog, MainAt(b), cells)|
      && Passed(prog, MainAt(b), cells, Returned(EndOf(prog, MainAt(b)), i)) == cells'
      && s'.made == Made(prog, s, MainAt(b), Returned(EndOf(prog, MainAt(b)), i))
      && match MovesAt(prog, MainAt(b), cells)[i]
         case Flow(d) => d == ToBlock(c) && s'.held == s.held
         case Acquire(m, d) => d == ToBlock(c) && m !in s.held && s'.held == s.held + {m}
         case _ => false
    ensures Step(Only(blocks, sync), s, s')
  {
    hide MovesAt, Passed, Returned, Only, Made;
    var prog, who := Only(blocks, sync), At(MainAt(b), [], cells, false);
    assert CanAct(prog, s, who, i);
    assert MainAt(b).stack[..0] == [] && [] + [Site(0, c)] == [Site(0, c)];
    assert Arrives(prog, who, ToBlock(c), cells') == At(MainAt(c), [], cells', false);
    assert s.running - multiset{who} + multiset{At(MainAt(c), [], cells', false)} == multiset{At(MainAt(c), [], cells', false)};
    assert Taken(prog, s, who, i) == s';
  }

  /** The main thread is stuck at a lock of a mutex it holds. */
  lemma MainStuck(blocks: seq<Block>, b: nat, s: State, cells: Cells, m: Point, d: Dest, sync: set<Place> := {})
    requires Plain(blocks) && b < |blocks| && Located(Only(blocks, sync), MainAt(b)) && s == Main(b, cells, s.held, s.made)
    requires MovesAt(Only(blocks, sync), MainAt(b), cells) == [Acquire(m, d)] && m in s.held
    ensures Deadlocked(Only(blocks, sync), s)
  {
    hide MovesAt, Enters, Taken;
    var prog, who := Only(blocks, sync), At(MainAt(b), [], cells, false);
    forall s': State ensures !Step(prog, s, s') {
      forall x: Activity | x in s.running ensures x == who {
      }
      assert Calls(prog, Site(0, b)).None?;
    }
  }

  lemma NewStep(blocks: seq<Block>, b: nat, cells: Cells, held: set<Point>, made: multiset<Point>, dest: nat, c: nat, sync: set<Place> := {})
    requires b < |blocks| && blocks[b] == CallTo(MutexNew, [], dest, c)
    ensures Step(Only(blocks, sync), Main(b, cells, held, made), Main(c, cells[Local(dest) := Mutex(MainAt(b))], held, made + multiset{MainAt(b)}))
  {
    hide Step;
    MainLocated(blocks, b, sync);
    AfterOne(cells, NewObject(Local(dest), Mutex(MainAt(b))));
    var cells' := cells[Local(dest) := Mutex(MainAt(b))];
    MainStep(blocks, b, Main(b, cells, held, made), cells, 0, c, cells', Main(c, cells', held, made + multiset{MainAt(b)}), sync);
  }

  lemma LockMoves(blocks: seq<Block>, b: nat, cells: Cells, arg: nat, dest: nat, c: nat, m: Point, sync: set<Place> := {})
    requires b < |blocks| && blocks[b] == CallTo(MutexLock, [Copy(Local(arg))], dest, c) && GetMutex(cells, Local(arg)) == Some(m)
    ensures Located(Only(blocks, sync), MainAt(b)) && MovesAt(Only(blocks, sync), MainAt(b), cells) == [Acquire(m, ToBlock(c))]
    ensures Passed(Only(blocks, sync), MainAt(b), cells, true) == cells[Local(dest) := MutexGuard(m)]
    ensures Returned(EndOf(Only(blocks, sync), MainAt(b)), 0) && !Creates(EndOf(Only(blocks, sync), MainAt(b)))
  {
    MainLocated(blocks, b, sync);
    AfterOne(cells, GuardOf(Local(dest), Local(arg)));
  }

  lemma LockStep(blocks: seq<Block>, b: nat, cells: Cells, held: set<Point>, made: multiset<Point>, arg: nat, dest: nat, c: nat, m: Point, sync: set<Place> := {})
    requires b < |blocks| && blocks[b] == CallTo(MutexLock, [Copy(Local(arg))], dest, c) && GetMutex(cells, Local(arg)) == Some(m) && m !in held
    ensures Step(Only(blocks, sync), Main(b, cells, held, made), Main(c, cells[Local(dest) := MutexGuard(m)], held + {m}, made))
  {
    hide Step, MovesAt, Passed, Returned, EndOf, Creates;
    LockMoves(blocks, b, cells, arg, dest, c, m, sync);
    var cells' := cells[Local(dest) := MutexGuard(m)];
    MainStep(blocks, b, Main(b, cells, held, made), cells, 0, c, cells', Main(c, cells', held + {m}, made), sync);
  }

  // ---------------------------------------------------------------------------------------------
  // Held-counts of a main thread without calls

  function MainDest(d: Dest): PlaceRef {
    match d
    case ToBlock(c) => MainPlace(c)
    case ToPanic => ProgramPanic
    case _ => ProgramEnd
  }

  lemma MainDestIs(blocks: seq<Block>, b: nat, d: Dest, sync: set<Place> := {})
    ensures DestPlace(Only(blocks, sync), MainAt(b), d) == MainDest(d)
  {
    if d.ToBlock? {
      ToBlockPlace(blocks, b, d.b, sync);
    } else {
      assert MainAt(b).stack[..0] == [];
    }
  }

  /** The held-count over one action of block `b`. */
  ghost predicate MainBalanced(m: Point, h: Weighing, b: nat, a: Action) {
    match a
    case Flow(d) => Fits(h, MainDest(d), h(MainPlace(b)))
    case Acquire(m', d) => Fits(h, MainDest(d), h(MainPlace(b)) + One(m' == m))
    case _ => false
  }

  lemma MainSequential(blocks: seq<Block>, sync: set<Place> := {})
    requires Plain(blocks)
    requires forall b: nat :: b < |blocks| ==> WaitAt(Only(blocks, sync), MainAt(b)).None?
    requires forall b: nat, i: nat :: b < |blocks| && i < |Actions(Only(blocks, sync), MainAt(b))| ==>
      Actions(Only(blocks, sync), MainAt(b))[i].Flow? || Actions(Only(blocks, sync), MainAt(b))[i].Acquire?
    ensures Sequential(Only(blocks, sync))
  {
    hide IsPoint, Actions, WaitAt, Only;
    forall pt | IsPoint(Only(blocks, sync), pt) ensures pt.stack != [] && pt == MainAt(pt.stack[0].b) && pt.stack[0].b < |blocks| {
      OnlyMain(blocks, pt, sync);
    }
  }

  lemma MainDisciplined(blocks: seq<Block>, ctx: Context, m: Point, h: Weighing, sync: set<Place> := {})
    requires Plain(blocks) && ctx.waits == map[] && h(MainPlace(0)) == 0
    requires (forall p: PlaceRef :: h(p) >= 0) && (forall p: PlaceRef :: !IsControl(p) ==> h(p) == 0)
    requires forall b: nat, i: nat :: b < |blocks| && i < |Actions(Only(blocks, sync), MainAt(b))| ==>
      MainBalanced(m, h, b, Actions(Only(blocks, sync), MainAt(b))[i])
    ensures Disciplined(Only(blocks, sync), ctx, m, h)
  {
    hide IsPoint, Actions, DestPlace, Fits, Plain;
    var prog := Only(blocks, sync);
    forall pt: Point, i: nat | IsPoint(prog, pt) && pt.stack != [] && i < |Actions(prog, pt)|
      ensures Balanced(prog, ctx, m, h, pt, Actions(prog, pt)[i])
    {
      OnlyMain(blocks, pt, sync);
      var b, a := pt.stack[0].b, Actions(prog, pt)[i];
      assert MainBalanced(m, h, b, a);
      MainPoints(blocks, b, sync);
      MainDestIs(blocks, b, a.dest, sync);
    }
  }

  lemma MainMutex(blocks: seq<Block>, m: Point, sync: set<Place> := {})
    requires Plain(blocks) && IsMutex(Only(blocks, sync), m)
    ensures exists b: nat :: b < |blocks| && m == MainAt(b) && blocks[b].terminator.Call? && blocks[b].terminator.callee.MutexNew?
  {
    hide IsPoint;
    OnlyMain(blocks, m, sync);
    assert m == MainAt(m.stack[0].b);
  }

  // ---------------------------------------------------------------------------------------------
  // A missed deadlock

  /** Takes a reference to the first mutex, or creates another one; then locks the first and what the place holds. */
  function OneOrOther(): seq<Block> {
    [CallTo(MutexNew, [], 5, 1),
     Block0(SwitchInt([2, 3])),
     Block([Assign(Local(1), Ref(Local(5)))], Goto(4)),
     CallTo(MutexNew, [], 1, 4),
     CallTo(MutexLock, [Copy(Local(5))], 6, 5),
     CallTo(MutexLock, [Copy(Local(1))], 7, 6),
     Block0(Return)]
  }

  const SHARED: set<Place> := {Local(1)}

  function OneOrOtherProgram(): Program {
    Only(OneOrOther(), SHARED)
  }

  lemma RefIsLinked(cells: Cells)
    requires Local(5) in cells
    ensures StatementsCells(OneOrOtherProgram().functions[0], cells, OneOrOther()[2].statements) == Some(cells[Local(1) := cells[Local(5)]])
    ensures AfterLinks(cells, StatementsLinks(OneOrOtherProgram().functions[0], OneOrOther()[2].statements)) == cells[Local(1) := cells[Local(5)]]
  {
    var statement := OneOrOther()[2].statements[0];
    OneStatement(OneOrOtherProgram().functions[0], cells, statement);
    AfterOne(cells, CopyOf(Local(1), Local(5)));
  }

  lemma OneOrOtherBegins()
    ensures var prog, m := OneOrOtherProgram(), MainAt(0);
      && EffectAt(prog, MainThread, MainAt(0).stack).Some? && Actions(prog, MainAt(0)) == [Flow(ToBlock(1))]
      && EffectAt(prog, MainThread, MainAt(1).stack).Some? && Actions(prog, MainAt(1)) == [Flow(ToBlock(2)), Flow(ToBlock(3))]
      && EffectAt(prog, MainThread, MainAt(2).stack).Some? && Actions(prog, MainAt(2)) == [Flow(ToBlock(4))]
      && EffectAt(prog, MainThread, MainAt(3).stack).Some? && Actions(prog, MainAt(3)) == [Flow(ToBlock(4))]
      && CellsBefore(prog, MainThread, [], 0, 4) == Some(map[Local(5) := Mutex(m), Local(1) := Mutex(MainAt(3))])
  {
    hide EffectAt, CellsBefore, Actions, CallEffect;
    var blocks, m := OneOrOther(), MainAt(0);
    var fn := OneOrOtherProgram().functions[0];
    var one: Cells := map[Local(5) := Mutex(m)];
    var two := one[Local(1) := Mutex(m)];
    var three := one[Local(1) := Mutex(MainAt(3))];
    StartCells(blocks, SHARED);
    MutexNewIs(fn, m, map[], blocks[0].terminator);
    MutexNewIs(fn, MainAt(3), two, blocks[3].terminator);
    RefIsLinked(one);
    assert ShortCall(Ends(ToBlock(1), None)) == [Flow(ToBlock(1))] && ShortCall(Ends(ToBlock(4), None)) == [Flow(ToBlock(4))];
    assert two[Local(1) := Mutex(MainAt(3))] == three;
    assert TerminatorEffect(fn, MainAt(1), one, blocks[1].terminator).value.actions == [Flow(ToBlock(2)), Flow(ToBlock(3))];
    EffectFrom(blocks, 0, map[], Effect([Flow(ToBlock(1))], one, None), SHARED);
    EffectFrom(blocks, 1, one, Effect([Flow(ToBlock(2)), Flow(ToBlock(3))], one, None), SHARED);
    EffectAfter(blocks, 2, one, two, Effect([Flow(ToBlock(4))], two, None), SHARED);
    EffectFrom(blocks, 3, two, Effect([Flow(ToBlock(4))], three, None), SHARED);
  }

  /** What the translator makes of it: the second lock is of the mutex created in block 3. */
  lemma OneOrOtherEffects()
    ensures var prog := OneOrOtherProgram();
      && Actions(prog, MainAt(0)) == [Flow(ToBlock(1))]
      && Actions(prog, MainAt(1)) == [Flow(ToBlock(2)), Flow(ToBlock(3))]
      && Actions(prog, MainAt(2)) == [Flow(ToBlock(4))]
      && Actions(prog, MainAt(3)) == [Flow(ToBlock(4))]
      && Actions(prog, MainAt(4)) == [Acquire(MainAt(0), ToBlock(5))]
      && Actions(prog, MainAt(5)) == [Acquire(MainAt(3), ToBlock(6))]
      && Actions(prog, MainAt(6)) == [Flow(ToReturn)]
    ensures Plain(OneOrOther()) && |OneOrOther()| == 7 && AllDefined(OneOrOther(), SHARED)
  {
    hide EffectAt, CellsBefore, Actions, CallEffect;
    var blocks, m, other := OneOrOther(), MainAt(0), MainAt(3);
    var fn := OneOrOtherProgram().functions[0];
    var three: Cells := map[Local(5) := Mutex(m), Local(1) := Mutex(other)];
    var four := three[Local(6) := MutexGuard(m)];
    var five := four[Local(7) := MutexGuard(other)];
    OneOrOtherBegins();
    LockIs(fn, MainAt(4), three, blocks[4].terminator);
    LockIs(fn, MainAt(5), four, blocks[5].terminator);
    EffectFrom(blocks, 4, three, Effect([Acquire(m, ToBlock(5))], four, None), SHARED);
    EffectFrom(blocks, 5, four, Effect([Acquire(other, ToBlock(6))], five, None), SHARED);
    EffectFrom(blocks, 6, five, Effect([Flow(ToReturn)], five, None), SHARED);
  }

  lemma OneOrOtherAccepted()
    ensures Translatable(OneOrOtherProgram())
  {
    hide EffectAt;
    OneOrOtherEffects();
    assert FunctionOk(OneOrOtherProgram(), 0);
    forall b: nat | b < 7 ensures WaitAt(OneOrOtherProgram(), MainAt(b)).None? {
      NoWait(OneOrOther(), b, SHARED);
    }
    PlainAccepted(OneOrOther(), 0, SHARED);
  }

  /** In the program, the path through block 2 locks the first mutex twice. */
  lemma OneOrOtherDeadlocks()
    ensures CanDeadlock(OneOrOtherProgram())
  {
    hide Step, Deadlocked, CanReach;
    var prog, m, made := OneOrOtherProgram(), MainAt(0), multiset{MainAt(0)};
    var one: Cells := map[Local(5) := Mutex(m)];
    var two := one[Local(1) := Mutex(m)];
    StartReached(prog);
    FirstSteps();
    StepReached(prog, Initial(prog), Main(1, one, {}, made));
    StepReached(prog, Main(1, one, {}, made), Main(2, one, {}, made));
    RefStep();
    StepReached(prog, Main(2, one, {}, made), Main(4, two, {}, made));
    LastSteps();
    StepReached(prog, Main(4, two, {}, made), Main(5, two[Local(6) := MutexGuard(m)], {m}, made));
  }

  lemma FirstSteps()
    ensures var prog, one: Cells, made := OneOrOtherProgram(), map[Local(5) := Mutex(MainAt(0))], multiset{MainAt(0)};
      && Step(prog, Initial(prog), Main(1, one, {}, made)) && Step(prog, Main(1, one, {}, made), Main(2, one, {}, made))
  {
    hide Step;
    var blocks, one: Cells, made := OneOrOther(), map[Local(5) := Mutex(MainAt(0))], multiset{MainAt(0)};
    NewStep(blocks, 0, map[], {}, multiset{}, 5, 1, SHARED);
    assert multiset{} + made == made;
    MainLocated(blocks, 1, SHARED);
    MainStep(blocks, 1, Main(1, one, {}, made), one, 0, 2, one, Main(2, one, {}, made), SHARED);
  }

  lemma RefStep()
    ensures var one: Cells, made := map[Local(5) := Mutex(MainAt(0))], multiset{MainAt(0)};
      Step(OneOrOtherProgram(), Main(2, one, {}, made), Main(4, one[Local(1) := Mutex(MainAt(0))], {}, made))
  {
    hide Step;
    var blocks, one: Cells, made := OneOrOther(), map[Local(5) := Mutex(MainAt(0))], multiset{MainAt(0)};
    var two := one[Local(1) := Mutex(MainAt(0))];
    MainLocated(blocks, 2, SHARED);
    RefIsLinked(one);
    MainStep(blocks, 2, Main(2, one, {}, made), one, 0, 4, two, Main(4, two, {}, made), SHARED);
  }

  lemma LastSteps()
    ensures var prog, m, made := OneOrOtherProgram(), MainAt(0), multiset{MainAt(0)};
      var two: Cells := map[Local(5) := Mutex(m), Local(1) := Mutex(m)];
      var three := two[Local(6) := MutexGuard(m)];
      Step(prog, Main(4, two, {}, made), Main(5, three, {m}, made)) && Deadlocked(prog, Main(5, three, {m}, made))
  {
    hide Step, Deadlocked, MovesAt, Passed, Returned;
    var blocks, m, made := OneOrOther(), MainAt(0), multiset{MainAt(0)};
    var two: Cells := map[Local(5) := Mutex(m), Local(1) := Mutex(m)];
    var three := two[Local(6) := MutexGuard(m)];
    LockStep(blocks, 4, two, {}, made, 5, 6, 5, m, SHARED);
    assert {} + {m} == {m};
    LockMoves(blocks, 5, three, 1, 7, 6, m, SHARED);
    MainStuck(blocks, 5, Main(5, three, {m}, made), three, m, ToBlock(6), SHARED);
  }

  function OneOrOtherHeld(m: Point): Weighing {
    (p: PlaceRef) => One((m == MainAt(0) && (p == MainPlace(5) || p == MainPlace(6))) || (m == MainAt(3) && p == MainPlace(6)))
  }

  lemma OneOrOtherBalanced(m: Point, b: nat, i: nat)
    requires (m == MainAt(0) || m == MainAt(3)) && b < 7 && i < |Actions(OneOrOtherProgram(), MainAt(b))|
    ensures MainBalanced(m, OneOrOtherHeld(m), b, Actions(OneOrOtherProgram(), MainAt(b))[i])
    ensures var a := Actions(OneOrOtherProgram(), MainAt(b))[i];
      (a.Flow? || a.Acquire?) && (a.Acquire? ==> OneOrOtherHeld(a.mutex)(MainPlace(b)) == 0)
  {
    hide Actions, OneOrOther, Only, Plain, AllDefined;
    OneOrOtherEffects();
  }

  lemma OneOrOtherSequential()
    ensures Sequential(OneOrOtherProgram())
  {
    hide IsPoint, Actions, WaitAt, Only, OneOrOther;
    OneOrOtherEffects();
    forall b: nat | b < 7 ensures WaitAt(OneOrOtherProgram(), MainAt(b)).None? {
      OneOrOtherNeverWaits(b);
    }
    forall b: nat, i: nat | b < 7 && i < |Actions(OneOrOtherProgram(), MainAt(b))|
      ensures Actions(OneOrOtherProgram(), MainAt(b))[i].Flow? || Actions(OneOrOtherProgram(), MainAt(b))[i].Acquire?
    {
      OneOrOtherBalanced(MainAt(0), b, i);
    }
    MainSequential(OneOrOther(), SHARED);
  }

  lemma OneOrOtherInOrder(net: ProgramNet, ctx: Context)
    requires IsNetOf(OneOrOtherProgram(), net, ctx)
    ensures LocksInOrder(OneOrOtherProgram(), ctx, OneOrOtherHeld)
  {
    hide IsNetOf, IsPoint, Actions, WaitAt, Disciplined, OneOrOther, Only, Sequential, MainBalanced, IsMutex;
    var blocks, prog := OneOrOther(), OneOrOtherProgram();
    assert Plain(blocks) && |blocks| == 7 by { OneOrOtherEffects(); }
    OneOrOtherSequential();
    NoWaits(prog, net, ctx);
    forall m: Point | IsMutex(prog, m) ensures Disciplined(prog, ctx, m, OneOrOtherHeld(m)) {
      OneOrOtherMutexes(m);
      forall b: nat, i: nat | b < 7 && i < |Actions(prog, MainAt(b))| ensures MainBalanced(m, OneOrOtherHeld(m), b, Actions(prog, MainAt(b))[i]) {
        OneOrOtherBalanced(m, b, i);
      }
      MainDisciplined(blocks, ctx, m, OneOrOtherHeld(m), SHARED);
    }
    forall pt: Point, i: nat | IsPoint(prog, pt) && i < |Actions(prog, pt)| && Actions(prog, pt)[i].Acquire?
      ensures OneOrOtherHeld(Actions(prog, pt)[i].mutex)(PlaceOf(pt.thread, pt.stack)) == 0
    {
      OnlyMain(blocks, pt, SHARED);
      MainPoints(blocks, pt.stack[0].b, SHARED);
      OneOrOtherBalanced(MainAt(0), pt.stack[0].b, i);
    }
  }

  lemma OneOrOtherNeverWaits(b: nat)
    requires b < 7
    ensures WaitAt(OneOrOtherProgram(), MainAt(b)).None?
  {
    NoWait(OneOrOther(), b, SHARED);
  }

  lemma OneOrOtherMutexes(m: Point)
    requires IsMutex(OneOrOtherProgram(), m)
    ensures m == MainAt(0) || m == MainAt(3)
  {
    hide IsPoint;
    MainMutex(OneOrOther(), m, SHARED);
  }

  /** A deadlock the translator misses: the memory it looks the second lock up in is that of another path. The program is
      accepted and disciplined, but not aligned, whatever places are taken to be needed. */
  lemma MissedDeadlock(net: ProgramNet, ctx: Context)
    requires IsNetOf(OneOrOtherProgram(), net, ctx)
    ensures Translatable(OneOrOtherProgram())
    ensures CanDeadlock(OneOrOtherProgram()) && !DeadlockReported(net, ProgramEnd, ProgramPanic)
    ensures forall notes: Notes :: !Covered(OneOrOtherProgram(), net, ctx, notes)
  {
    hide IsNetOf, Translatable, DeadlockReported, LocksInOrder, Sequential, OneOrOtherProgram, Covered, CanReach, Stalled;
    OneOrOtherAccepted();
    OneOrOtherDeadlocks();
    OneOrOtherSequential();
    OneOrOtherInOrder(net, ctx);
    NeverReported(OneOrOtherProgram(), net, ctx, OneOrOtherHeld);
    forall notes: Notes ensures !Covered(OneOrOtherProgram(), net, ctx, notes) {
      if Covered(OneOrOtherProgram(), net, ctx, notes) {
        ReportedIffStalled(OneOrOtherProgram(), net, ctx, notes);
      }
    }
  }

  // ---------------------------------------------------------------------------------------------
  // Straight code

  ghost const EVERYTHING: iset<Place> := iset p: Place | true

  /** Every block goes on to the next one, or ends the program. */
  ghost predicate Straight(blocks: seq<Block>) {
    forall b: nat :: b < |blocks| ==>
      && blocks[b].statements == [] && PlainTerminator(Only(blocks).functions[0], blocks[b].terminator)
      && forall e :: e in Exits(blocks[b].terminator) ==> e == Exit(b + 1, true)
  }

  /** The translator follows straight code exactly. */
  lemma StraightAligned(blocks: seq<Block>, notes: Notes)
    requires Plain(blocks) && Straight(blocks) && Translatable(Only(blocks)) && forall pt: Point :: notes.need(pt) == EVERYTHING
    ensures Aligned(Only(blocks), notes)
  {
    hide IsPoint, EffectAt, Translatable, Exits, Passed, TranslatorBefore, PlainTerminator, NeededFor, NeededAtEnd;
    var prog := Only(blocks);
    forall pt: Point | IsPoint(prog, pt) && Located(prog, pt) ensures Closed(prog, pt, notes.need) && EdgesAgree(prog, pt, notes.need) {
      OnlyMain(blocks, pt);
      EffectDefined(prog, pt);
      NextBlock(prog, pt);
      assert ResolvesAlike(prog, pt, TranslatorBefore(prog, pt));
    }
  }

  // ---------------------------------------------------------------------------------------------
  // A deadlock that is found, and a program without one

  /** Creates a mutex and locks it, once or twice. */
  function LockTwice(): seq<Block> {
    [CallTo(MutexNew, [], 1, 1), CallTo(MutexLock, [Copy(Local(1))], 2, 2), CallTo(MutexLock, [Copy(Local(1))], 3, 3), Block0(Return)]
  }

  function LockOnce(): seq<Block> {
    [CallTo(MutexNew, [], 1, 1), CallTo(MutexLock, [Copy(Local(1))], 2, 2), Block0(Return)]
  }

  lemma LockTwiceEffects()
    ensures var prog := Only(LockTwice());
      && Actions(prog, MainAt(0)) == [Flow(ToBlock(1))]
      && Actions(prog, MainAt(1)) == [Acquire(MainAt(0), ToBlock(2))]
      && Actions(prog, MainAt(2)) == [Acquire(MainAt(0), ToBlock(3))]
      && Actions(prog, MainAt(3)) == [Flow(ToReturn)]
    ensures Plain(LockTwice()) && |LockTwice()| == 4 && AllDefined(LockTwice())
  {
    hide EffectAt, CellsBefore, Actions, CallEffect;
    var blocks, m := LockTwice(), MainAt(0);
    var fn := Only(blocks).functions[0];
    var one: Cells := map[Local(1) := Mutex(m)];
    var two := one[Local(2) := MutexGuard(m)];
    var three := two[Local(3) := MutexGuard(m)];
    StartCells(blocks);
    MutexNewIs(fn, m, map[], blocks[0].terminator);
    LockIs(fn, MainAt(1), one, blocks[1].terminator);
    LockIs(fn, MainAt(2), two, blocks[2].terminator);
    assert ShortCall(Ends(ToBlock(1), None)) == [Flow(ToBlock(1))];
    EffectFrom(blocks, 0, map[], Effect([Flow(ToBlock(1))], one, None));
    EffectFrom(blocks, 1, one, Effect([Acquire(m, ToBlock(2))], two, None));
    EffectFrom(blocks, 2, two, Effect([Acquire(m, ToBlock(3))], three, None));
    EffectFrom(blocks, 3, three, Effect([Flow(ToReturn)], three, None));
  }

  lemma LockOnceEffects()
    ensures var prog := Only(LockOnce());
      && Actions(prog, MainAt(0)) == [Flow(ToBlock(1))]
      && Actions(prog, MainAt(1)) == [Acquire(MainAt(0), ToBlock(2))]
      && Actions(prog, MainAt(2)) == [Flow(ToReturn)]
    ensures Plain(LockOnce()) && |LockOnce()| == 3 && AllDefined(LockOnce())
  {
    hide EffectAt, CellsBefore, Actions, CallEffect;
    var blocks, m := LockOnce(), MainAt(0);
    var fn := Only(blocks).functions[0];
    var one: Cells := map[Local(1) := Mutex(m)];
    var two := one[Local(2) := MutexGuard(m)];
    StartCells(blocks);
    MutexNewIs(fn, m, map[], blocks[0].terminator);
    LockIs(fn, MainAt(1), one, blocks[1].terminator);
    assert ShortCall(Ends(ToBlock(1), None)) == [Flow(ToBlock(1))];
    EffectFrom(blocks, 0, map[], Effect([Flow(ToBlock(1))], one, None));
    EffectFrom(blocks, 1, one, Effect([Acquire(m, ToBlock(2))], two, None));
    EffectFrom(blocks, 2, two, Effect([Flow(ToReturn)], two, None));
  }

  /** Programs of a main thread that only creates and locks mutexes. */
  ghost predicate OnlyLocks(blocks: seq<Block>) {
    && Plain(blocks) && WellFormed(Only(blocks)) && AllDefined(blocks)
    && (forall b: nat, i: nat :: b < |blocks| && i < |Actions(Only(blocks), MainAt(b))| ==>
          Actions(Only(blocks), MainAt(b))[i].Flow? || Actions(Only(blocks), MainAt(b))[i].Acquire?)
    && forall b: nat :: b < |blocks| && blocks[b].terminator.Call? ==> blocks[b].terminator.callee.MutexNew? || blocks[b].terminator.callee.MutexLock?
  }

  lemma OnlyLocksAccepted(blocks: seq<Block>)
    requires OnlyLocks(blocks)
    ensures Translatable(Only(blocks)) && Sequential(Only(blocks))
  {
    hide EffectAt, WellFormed, Only, Actions;
    forall b: nat | b < |blocks| ensures WaitAt(Only(blocks), MainAt(b)).None? {
      NoWait(blocks, b);
    }
    PlainAccepted(blocks, 0);
    MainSequential(blocks);
  }

  /** A main thread without calls has nobody to clean up for. */
  lemma MainCleansUp(blocks: seq<Block>, notes: Notes)
    requires Plain(blocks) && forall pt: Point :: notes.cleanup(pt).None?
    ensures CleansUp(Only(blocks), notes)
  {
    hide IsPoint, Only, Plain;
    forall pt: Point | IsPoint(Only(blocks), pt) && Located(Only(blocks), pt) ensures UnwindsWell(Only(blocks), pt, notes.cleanup) {
      OnlyMain(blocks, pt);
      assert pt.stack[..|pt.stack| - 1] == [];
    }
  }

  /** Such a program is covered if its code is straight and its mutexes have held-counts. */
  lemma OnlyLocksCovered(blocks: seq<Block>, net: ProgramNet, ctx: Context, notes: Notes)
    requires OnlyLocks(blocks) && Straight(blocks) && IsNetOf(Only(blocks), net, ctx)
    requires forall pt: Point :: notes.need(pt) == EVERYTHING && notes.cleanup(pt).None?
    requires forall m: Point :: IsMutex(Only(blocks), m) ==>
      && notes.held(m)(MainPlace(0)) == 0
      && (forall p: PlaceRef :: notes.held(m)(p) >= 0) && (forall p: PlaceRef :: !IsControl(p) ==> notes.held(m)(p) == 0)
      && forall b: nat, i: nat :: b < |blocks| && i < |Actions(Only(blocks), MainAt(b))| ==> MainBalanced(m, notes.held(m), b, Actions(Only(blocks), MainAt(b))[i])
    ensures Covered(Only(blocks), net, ctx, notes) && GuardDisciplined(Only(blocks), ctx, notes) && NeverDiverges(Only(blocks))
  {
    hide IsNetOf, Straight, Translatable, Sequential, Aligned, Disciplined, EffectAt, IsMutex, MainBalanced, Actions;
    var prog := Only(blocks);
    OnlyLocksAccepted(blocks);
    NoWaits(prog, net, ctx);
    StraightAligned(blocks, notes);
    MainCleansUp(blocks, notes);
    SequentialNeverDiverges(prog);
    forall m: Point | IsMutex(prog, m) ensures Disciplined(prog, ctx, m, notes.held(m)) {
      MainDisciplined(blocks, ctx, m, notes.held(m));
    }
    OnlyLocksSupported(blocks);
  }

  lemma SequentialNeverDiverges(prog: Program)
    requires Sequential(prog)
    ensures NeverDiverges(prog)
  {
    hide IsPoint, Actions, WaitAt;
  }

  lemma OnlyLocksSupported(blocks: seq<Block>)
    requires OnlyLocks(blocks) && Sequential(Only(blocks))
    ensures Supported(Only(blocks))
  {
    hide EffectAt, Actions, WaitAt, WellFormed;
    forall pt: Point | IsPoint(Only(blocks), pt)
      ensures !CreatesCondvar(Only(blocks), pt) && forall i :: 0 <= i < |Actions(Only(blocks), pt)| ==> SupportedAction(pt, Actions(Only(blocks), pt)[i])
    {
      OnlyMain(blocks, pt);
    }
  }

  function LocksHeld(m: Point): Weighing {
    (p: PlaceRef) => if p == MainPlace(2) then 1 else if p == MainPlace(3) then 2 else 0
  }

  ghost function LocksNotes(): Notes {
    Notes(LocksHeld, (pt: Point) => EVERYTHING, (pt: Point) => None)
  }

  lemma LockTwiceIsPlain()
    ensures OnlyLocks(LockTwice()) && Straight(LockTwice())
  {
    hide EffectAt, Actions;
    LockTwiceEffects();
    assert FunctionOk(Only(LockTwice()), 0);
  }

  lemma LockTwiceCovered(net: ProgramNet, ctx: Context)
    requires IsNetOf(Only(LockTwice()), net, ctx)
    ensures Covered(Only(LockTwice()), net, ctx, LocksNotes()) && NeverDiverges(Only(LockTwice()))
  {
    hide IsNetOf, Actions, LockTwice, Only, OnlyLocks, Straight, IsMutex, Covered, Plain, AllDefined, NeverDiverges;
    var blocks := LockTwice();
    LockTwiceEffects();
    LockTwiceIsPlain();
    forall m: Point | IsMutex(Only(blocks), m) ensures m == MainAt(0) {
      LockTwiceMutex(m);
    }
    OnlyLocksCovered(blocks, net, ctx, LocksNotes());
  }

  lemma LockTwiceMutex(m: Point)
    requires IsMutex(Only(LockTwice()), m)
    ensures m == MainAt(0)
  {
    hide IsPoint;
    MainMutex(LockTwice(), m);
  }

  lemma LockTwiceSteps()
    ensures var prog, m, made := Only(LockTwice()), MainAt(0), multiset{MainAt(0)};
      var one: Cells, two: Cells := map[Local(1) := Mutex(m)], map[Local(1) := Mutex(m), Local(2) := MutexGuard(m)];
      && Step(prog, Initial(prog), Main(1, one, {}, made)) && Step(prog, Main(1, one, {}, made), Main(2, two, {m}, made))
  {
    hide Step;
    var blocks, m, made := LockTwice(), MainAt(0), multiset{MainAt(0)};
    NewStep(blocks, 0, map[], {}, multiset{}, 1, 1);
    assert multiset{} + made == made;
    LockStep(blocks, 1, map[Local(1) := Mutex(m)], {}, made, 1, 2, 2, m);
    assert {} + {m} == {m};
  }

  lemma LockTwiceDeadlocks()
    ensures CanDeadlock(Only(LockTwice()))
  {
    hide Step, Deadlocked, CanReach;
    var blocks, m, made := LockTwice(), MainAt(0), multiset{MainAt(0)};
    var prog, one: Cells := Only(blocks), map[Local(1) := Mutex(m)];
    var two := one[Local(2) := MutexGuard(m)];
    LockTwiceSteps();
    LockMoves(blocks, 2, two, 1, 3, 3, m);
    MainStuck(blocks, 2, Main(2, two, {m}, made), two, m, ToBlock(3));
    StartReached(prog);
    StepReached(prog, Initial(prog), Main(1, one, {}, made));
    StepReached(prog, Main(1, one, {}, made), Main(2, two, {m}, made));
  }

  /** A program that locks its mutex twice is covered, gets stuck, and is reported. */
  lemma FoundDeadlock(net: ProgramNet, ctx: Context)
    requires IsNetOf(Only(LockTwice()), net, ctx)
    ensures Covered(Only(LockTwice()), net, ctx, LocksNotes())
    ensures CanDeadlock(Only(LockTwice())) && DeadlockReported(net, ProgramEnd, ProgramPanic)
  {
    hide IsNetOf, Covered, CanDeadlock, DeadlockReported, LockTwice, Only;
    LockTwiceCovered(net, ctx);
    LockTwiceDeadlocks();
    VerdictIsCorrect(Only(LockTwice()), net, ctx, LocksNotes());
  }

  lemma LockOnceIsPlain()
    ensures OnlyLocks(LockOnce()) && Straight(LockOnce())
  {
    hide EffectAt, Actions;
    LockOnceEffects();
    assert FunctionOk(Only(LockOnce()), 0);
  }

  lemma LockOnceMutex(m: Point)
    requires IsMutex(Only(LockOnce()), m)
    ensures m == MainAt(0)
  {
    hide IsPoint;
    MainMutex(LockOnce(), m);
  }

  lemma LockOnceCovered(net: ProgramNet, ctx: Context)
    requires IsNetOf(Only(LockOnce()), net, ctx)
    ensures Covered(Only(LockOnce()), net, ctx, LocksNotes()) && NeverDiverges(Only(LockOnce()))
    ensures Sequential(Only(LockOnce())) && LocksInOrder(Only(LockOnce()), ctx, LocksHeld)
  {
    hide IsNetOf, Actions, LockOnce, Only, OnlyLocks, Straight, IsMutex, Plain, AllDefined, Supported, Aligned, Disciplined, Sequential, Translatable, IsPoint;
    var blocks := LockOnce();
    LockOnceEffects();
    LockOnceIsPlain();
    forall m: Point | IsMutex(Only(blocks), m) ensures m == MainAt(0) {
      LockOnceMutex(m);
    }
    OnlyLocksCovered(blocks, net, ctx, LocksNotes());
    OnlyLocksAccepted(blocks);
    forall pt: Point, i: nat | IsPoint(Only(blocks), pt) && i < |Actions(Only(blocks), pt)| && Actions(Only(blocks), pt)[i].Acquire?
      ensures LocksHeld(Actions(Only(blocks), pt)[i].mutex)(PlaceOf(pt.thread, pt.stack)) == 0
    {
      OnlyMain(blocks, pt);
      MainPoints(blocks, pt.stack[0].b);
    }
  }

  /** A program that locks its mutex once is covered, never gets stuck, and is not reported. */
  lemma NoDeadlock(net: ProgramNet, ctx: Context)
    requires IsNetOf(Only(LockOnce()), net, ctx)
    ensures Covered(Only(LockOnce()), net, ctx, LocksNotes())
    ensures !CanDeadlock(Only(LockOnce())) && !DeadlockReported(net, ProgramEnd, ProgramPanic)
  {
    hide IsNetOf, Translatable, Supported, GuardDisciplined, Aligned, CanDeadlock, DeadlockReported, LockOnce, Only, Sequential, LocksInOrder;
    LockOnceCovered(net, ctx);
    NeverReported(Only(LockOnce()), net, ctx, LocksHeld);
    VerdictIsCorrect(Only(LockOnce()), net, ctx, LocksNotes());
  }

  // ---------------------------------------------------------------------------------------------
  // A call that never returns

  function Spin(): seq<Block> {
    [Block0(Call(Foreign("spin"), [], Local(1), None, Continue))]
  }

  lemma SpinEffects()
    ensures Actions(Only(Spin()), MainAt(0)) == [Vanish] && Plain(Spin()) && AllDefined(Spin())
    ensures WaitAt(Only(Spin()), MainAt(0)).None?
  {
    hide EffectAt, CellsBefore, CallEffect;
    StartCells(Spin());
    NoReturnIs(Only(Spin()).functions[0], MainAt(0), map[], Spin()[0].terminator);
    EffectFrom(Spin(), 0, map[], Effect([Vanish], map[], None));
  }

  lemma SpinAccepted()
    ensures Translatable(Only(Spin()))
  {
    hide EffectAt;
    SpinEffects();
    assert FunctionOk(Only(Spin()), 0);
    PlainAccepted(Spin(), 0);
  }

  /** Nothing is left in the net once the token has vanished. */
  lemma SpinIsReported(net: ProgramNet, ctx: Context)
    requires IsNetOf(Only(Spin()), net, ctx)
    ensures DeadlockReported(net, ProgramEnd, ProgramPanic)
  {
    hide Actions, IsPoint, EffectAt, Tokens, IsContext;
    var prog := Only(Spin());
    SpinEffects();
    MainPoints(Spin(), 0);
    var m0 := InitialExists(net);
    assert After(net, m0, []) == Some(m0);
    SpinStart(net, ctx, m0);
    var ref := TransRef(MainAt(0), 0);
    assert net.transitions[ref] == Transition(multiset{MainPlace(0)}, multiset{});
    ReachableStep(net, m0, ref);
    var m := Fire(net, m0, ref);
    assert m == multiset{};
    forall t ensures !Enabled(net, m, t) {
      if t in net.transitions {
        SpinNeedsToken(net, ctx, t);
      }
    }
  }

  lemma SpinStart(net: ProgramNet, ctx: Context, m0: multiset<PlaceRef>)
    requires IsNetOf(Only(Spin()), net, ctx) && IsInitial(net, m0)
    ensures m0 == multiset{MainPlace(0)}
  {
    hide IsNetOf;
    var prog := Only(Spin());
    SpinNoObjects(net, ctx);
    MainPoints(Spin(), 0);
    forall p ensures m0[p] == One(p == MainPlace(0)) {
      StartTokens(prog, net, ctx, m0, p);
    }
    assert forall p :: m0[p] == multiset{MainPlace(0)}[p];
  }

  lemma SpinNoObjects(net: ProgramNet, ctx: Context)
    requires IsNetOf(Only(Spin()), net, ctx)
    ensures forall c: Point :: IsPoint(Only(Spin()), c) ==> !CreatesMutex(Only(Spin()), c) && !CreatesCondvar(Only(Spin()), c) && WaitAt(Only(Spin()), c).None?
    ensures ctx.conditions == {}
  {
    hide EffectAt, EdgeOf, Tokens, IsPlaceOf;
    SpinEffects();
    forall c: Point | IsPoint(Only(Spin()), c) ensures c == MainAt(0) {
      OnlyMain(Spin(), c);
    }
    assert forall c :: c in ctx.conditions ==> (c.0, c.1) in ctx.conditions && IsConditionPair(Only(Spin()), c.0, c.1);
  }

  lemma SpinNeedsToken(net: ProgramNet, ctx: Context, t: TransRef)
    requires IsNetOf(Only(Spin()), net, ctx) && t in net.transitions
    ensures net.transitions[t].pre != multiset{}
  {
    hide EffectAt, Actions, Tokens, IsPlaceOf, IsThread;
    SpinNoObjects(net, ctx);
    assert t.TransRef?;
    EdgeOfPoint(Only(Spin()), net, ctx, t);
    ControlCounts(Only(Spin()), ctx, t.pt, Actions(Only(Spin()), t.pt)[t.i], PlaceOf(t.pt.thread, t.pt.stack));
  }

  function Spinning(): State {
    State(multiset{Busy(MainThread)}, {}, multiset{})
  }

  /** In the program the thread is busy for ever, and never stuck. */
  lemma {:induction false} SpinsForEver(states: seq<State>)
    requires Execution(Only(Spin()), states)
    ensures states[|states| - 1] == Initial(Only(Spin())) || states[|states| - 1] == Spinning()
    decreases |states|
  {
    hide Step, Initial, Only, Spin;
    if |states| > 1 {
      SpinsForEver(states[..|states| - 1]);
      assert Step(Only(Spin()), states[|states| - 2], states[|states| - 1]);
      SpinSteps(states[|states| - 2], states[|states| - 1]);
    }
  }

  lemma SpinMoves()
    ensures Located(Only(Spin()), MainAt(0)) && Calls(Only(Spin()), Site(0, 0)).None? && MovesAt(Only(Spin()), MainAt(0), map[]) == [Vanish]
  {
  }

  lemma SpinBegins()
    ensures Step(Only(Spin()), Initial(Only(Spin())), Spinning())
  {
    var prog, start := Only(Spin()), At(MainAt(0), [], map[], false);
    SpinMoves();
    assert CanAct(prog, Initial(prog), start, 0);
    assert multiset{start} - multiset{start} + multiset{Busy(MainThread)} == multiset{Busy(MainThread)};
    assert Taken(prog, Initial(prog), start, 0) == Spinning();
  }

  lemma SpinSteps(s: State, s': State)
    requires Step(Only(Spin()), s, s') && (s == Initial(Only(Spin())) || s == Spinning())
    ensures s == Initial(Only(Spin())) && s' == Spinning()
  {
    var prog, start := Only(Spin()), At(MainAt(0), [], map[], false);
    assert Calls(prog, Site(0, 0)).None? && MovesAt(prog, MainAt(0), map[]) == [Vanish] by { SpinMoves(); }
    hide Calls, MovesAt, Only, Spin, Enters;
    forall x: Activity | x in s.running ensures x == start || x == Busy(MainThread) {
    }
    assert multiset{start} - multiset{start} + multiset{Busy(MainThread)} == multiset{Busy(MainThread)};
  }

  /** A false alarm: a call that never returns takes the token out of the net, and is reported although no thread waits. */
  lemma FalseAlarm(net: ProgramNet, ctx: Context)
    requires IsNetOf(Only(Spin()), net, ctx)
    ensures Translatable(Only(Spin())) && DeadlockReported(net, ProgramEnd, ProgramPanic)
    ensures CanStall(Only(Spin())) && !CanDeadlock(Only(Spin()))
  {
    hide IsNetOf, Translatable, DeadlockReported, Spin, Only, Step, Initial;
    SpinAccepted();
    SpinIsReported(net, ctx);
    SpinBegins();
    StartReached(Only(Spin()));
    StepReached(Only(Spin()), Initial(Only(Spin())), Spinning());
    forall s' ensures !Step(Only(Spin()), Spinning(), s') {
      if Step(Only(Spin()), Spinning(), s') {
        SpinSteps(Spinning(), s');
        SpinIsAtStart();
      }
    }
    assert Stalled(Only(Spin()), Spinning());
    if s: State :| CanReach(Only(Spin()), s) && Deadlocked(Only(Spin()), s) {
      var states: seq<State> :| Execution(Only(Spin()), states) && states[|states| - 1] == s;
      SpinsForEver(states);
    }
  }

  lemma SpinIsAtStart()
    ensures Initial(Only(Spin())) != Spinning()
  {
    assert Busy(MainThread) in Spinning().running;
    assert Busy(MainThread) !in Initial(Only(Spin())).running;
  }
}
