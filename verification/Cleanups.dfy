/** Programs that unwind out of a called function: one in which the translator loses the cleanup of the caller and reports a
    deadlock that is none, and one for which the verdict is correct. */
module Cleanups {
  import opened Wrappers
  import opened PetriNets
  import opened Mir
  import opened ControlPoints
  import opened AliasMemory
  import opened Blueprint
  import opened CallEffects
  import opened Worlds
  import opened Frames
  import opened Progress
  import opened Points
  import opened NetLaws
  import opened Condvars
  import opened Control
  import opened Mutexes
  import opened Links
  import opened Machine
  import opened Paths
  import opened Simulation
  import opened Verdict
  import opened Witnesses

  // ---------------------------------------------------------------------------------------------
  // A main thread, a worker, and a function the worker calls

  const FIELD := Place(1, [Field(0)])

  /** Does something that may unwind. */
  function Work(): Function {
    Function("work", [Block0(Call(Foreign("work"), [], Local(1), Some(1), Cleanup(2))), Block0(Return), Block0(UnwindResume)], {}, {}, [])
  }

  /** Creates a mutex, spawns the worker with it, and locks it. */
  function Spawner(): Function {
    Function("main",
      [CallTo(MutexNew, [], 1, 1),
       Block([Assign(Local(2), Aggregate([Move(Local(1))]))], Call(ThreadSpawn(1), [Move(Local(2))], Local(3), Some(2), Continue)),
       CallTo(MutexLock, [Copy(Local(1))], 4, 3),
       Block0(Return)],
      {Local(1)}, {}, [])
  }

  function Threaded(worker: seq<Block>): Program {
    Program([Work(), Function("worker", worker, {}, {}, [FIELD]), Spawner()], 2)
  }

  /** Holds the guard while it calls the function. */
  function Holding(): seq<Block> {
    [Block0(Call(MutexLock, [Copy(FIELD)], Local(2), Some(1), Continue)),
     Block0(Call(User(0), [], Local(5), Some(2), Cleanup(3))),
     Block0(Drop(Local(2), 4, Continue)),
     Block0(Drop(Local(2), 5, Continue)),
     Block0(Return),
     Block0(UnwindResume)]
  }

  const WORKER := Spawned(MainThread, [Site(2, 1)])
  const THE_MUTEX := MainPoint(0)

  function MainPoint(b: nat): Point {
    Point(MainThread, [Site(2, b)])
  }

  function WorkerPoint(b: nat): Point {
    Point(WORKER, [Site(1, b)])
  }

  function WorkPoint(b: nat, c: nat): Point {
    Point(WORKER, [Site(1, b), Site(0, c)])
  }

  // ---------------------------------------------------------------------------------------------
  // What the translator makes of the main thread and of the called function

  const CREATED: Cells := map[Local(1) := Mutex(THE_MUTEX)]
  const BUNDLED: Cells := map[Local(1) := Mutex(THE_MUTEX), Local(2) := Bundle([Mutex(THE_MUTEX)])]
  const SPAWNED: Cells := BUNDLED[Local(3) := JoinHandle(WORKER)]
  const LOCKED: Cells := SPAWNED[Local(4) := MutexGuard(THE_MUTEX)]
  const CAPTURED: Cells := map[CLOSURE := Bundle([Mutex(THE_MUTEX)]), FIELD := Mutex(THE_MUTEX)]
  const GUARDED: Cells := CAPTURED[Local(2) := MutexGuard(THE_MUTEX)]

  /** The effect of a block that is reached with the memory `before`. */
  lemma EffectOf(prog: Program, fr: Frame, b: nat, before: Cells, cells: Cells, e: Effect)
    requires InRange(prog, Site(fr.f, b)) && CellsBefore(prog, fr.t, fr.callers, fr.f, b) == Some(before)
    requires StatementsCells(prog.functions[fr.f], before, prog.functions[fr.f].blocks[b].statements) == Some(cells)
    requires TerminatorEffect(prog.functions[fr.f], fr.At(b), cells, prog.functions[fr.f].blocks[b].terminator) == Some(e)
    ensures EffectAt(prog, fr.t, fr.At(b).stack) == Some(e) && Actions(prog, fr.At(b)) == e.actions
    ensures CellsBefore(prog, fr.t, fr.callers, fr.f, b + 1) == Some(e.cells)
  {
    hide TerminatorEffect, CellsBefore, StatementsCells, EffectAt;
    EffectIs(prog, fr, b, before);
    CellsNext(prog, fr, b);
  }

  lemma MutexIsBundled()
    ensures StatementsCells(Spawner(), CREATED, Spawner().blocks[1].statements) == Some(BUNDLED)
  {
    var operands := [Move(Local(1))];
    assert operands[..0] == [] && SyncOperands(Spawner(), operands) == [Local(1)];
    assert [Local(1)][..0] == [] && [] + [Mutex(THE_MUTEX)] == [Mutex(THE_MUTEX)];
    assert ValuesOf(CREATED, []) == Some([]);
    assert ValuesOf(CREATED, [Local(1)]) == Some([Mutex(THE_MUTEX)]);
    OneStatement(Spawner(), CREATED, Spawner().blocks[1].statements[0]);
  }

  lemma BundleIsPlain()
    ensures forall i :: 0 <= i < |Spawner().blocks[1].statements| ==> PlainStatement(Spawner(), Spawner().blocks[1].statements[i])
  {
    assert SyncLength(Spawner(), [Move(Local(1))]) == 1;
  }

  lemma MutexIsBundledByLinks()
    ensures AfterLinks(CREATED, StatementsLinks(Spawner(), Spawner().blocks[1].statements)) == BUNDLED
  {
    hide StatementsCells, PlainStatement, AfterLinks, StatementsLinks;
    MutexIsBundled();
    BundleIsPlain();
    StatementsMemory(Spawner(), CREATED, Spawner().blocks[1].statements);
  }

  lemma MainFrame(b: nat)
    ensures Frame(MainThread, [], 2).At(b) == MainPoint(b)
  {
  }

  lemma SpawnerBegins(worker: seq<Block>)
    ensures var prog := Threaded(worker);
      && EffectAt(prog, MainThread, MainPoint(0).stack).Some? && Actions(prog, MainPoint(0)) == [Flow(ToBlock(1))]
      && EffectAt(prog, MainThread, MainPoint(1).stack).Some? && Actions(prog, MainPoint(1)) == [SpawnThread(WORKER, 1, [Mutex(THE_MUTEX)], ToBlock(2))]
      && CellsBefore(prog, MainThread, [], 2, 2) == Some(SPAWNED)
  {
    hide EffectAt, CellsBefore, CallEffect, StatementsCells;
    var prog, fr, fn := Threaded(worker), Frame(MainThread, [], 2), Spawner();
    MainFrame(0);
    MainFrame(1);
    StartsEmpty(worker);
    MutexNewIs(fn, MainPoint(0), map[], fn.blocks[0].terminator);
    assert ShortCall(Ends(ToBlock(1), None)) == [Flow(ToBlock(1))];
    NoStatements(fn, map[]);
    EffectOf(prog, fr, 0, map[], map[], Effect([Flow(ToBlock(1))], CREATED, None));
    MutexIsBundled();
    SpawnIs(fn, MainPoint(1), BUNDLED, fn.blocks[1].terminator);
    var spawn := SpawnThread(WORKER, 1, [Mutex(THE_MUTEX)], ToBlock(2));
    assert [spawn] + CleanupActions(Ends(ToBlock(2), None)) == [spawn];
    EffectOf(prog, fr, 1, CREATED, BUNDLED, Effect([spawn], SPAWNED, None));
  }

  lemma StartsEmpty(worker: seq<Block>)
    ensures CellsBefore(Threaded(worker), MainThread, [], 2, 0) == Some(map[])
  {
  }

  lemma NoStatements(fn: Function, cells: Cells)
    ensures StatementsCells(fn, cells, []) == Some(cells)
  {
  }

  lemma SpawnerEnds(worker: seq<Block>)
    ensures var prog := Threaded(worker);
      && EffectAt(prog, MainThread, MainPoint(2).stack).Some? && Actions(prog, MainPoint(2)) == [Acquire(THE_MUTEX, ToBlock(3))]
      && EffectAt(prog, MainThread, MainPoint(3).stack).Some? && Actions(prog, MainPoint(3)) == [Flow(ToReturn)]
  {
    hide EffectAt, CellsBefore, CallEffect, StatementsCells;
    var prog, fr, fn := Threaded(worker), Frame(MainThread, [], 2), Spawner();
    MainFrame(2);
    MainFrame(3);
    SpawnerBegins(worker);
    LockIs(fn, MainPoint(2), SPAWNED, fn.blocks[2].terminator);
    NoStatements(fn, SPAWNED);
    NoStatements(fn, LOCKED);
    EffectOf(prog, fr, 2, SPAWNED, SPAWNED, Effect([Acquire(THE_MUTEX, ToBlock(3))], LOCKED, None));
    EffectOf(prog, fr, 3, LOCKED, LOCKED, Effect([Flow(ToReturn)], LOCKED, None));
  }

  lemma WorkerStarts(worker: seq<Block>)
    ensures CellsBefore(Threaded(worker), WORKER, [], 1, 0) == Some(CAPTURED)
  {
    hide EffectAt, ThreadCells;
    SpawnerBegins(worker);
    MutexIsCaptured(Threaded(worker).functions[1]);
  }

  lemma MutexIsCaptured(fn: Function)
    requires fn.debugPlaces == [FIELD]
    ensures ThreadCells(fn, [Mutex(THE_MUTEX)]) == Some(CAPTURED)
  {
    var cells: Cells := map[CLOSURE := Bundle([Mutex(THE_MUTEX)])];
    assert [FIELD][..0] == [];
    assert FieldNumber(FIELD) == Some(0);
    assert CapturesLinked(cells, []) == Some(cells);
    assert LinkedField(cells, FIELD, CLOSURE, 0) == Some(CAPTURED);
  }

  lemma WorkerStartsWith(worker: seq<Block>)
    ensures ThreadMemory(Threaded(worker), 1, [Mutex(THE_MUTEX)]) == CAPTURED
  {
    hide CapturesLinked, CaptureLinks, AfterLinks;
    var fn := Threaded(worker).functions[1];
    MutexIsCaptured(fn);
    CaptureMemory(map[CLOSURE := Bundle([Mutex(THE_MUTEX)])], fn.debugPlaces);
  }

  lemma WorkEffects(worker: seq<Block>, b: nat)
    ensures var prog := Threaded(worker);
      && EffectAt(prog, WORKER, WorkPoint(b, 0).stack).Some? && Actions(prog, WorkPoint(b, 0)) == [Flow(ToBlock(1)), Flow(ToBlock(2))]
      && EffectAt(prog, WORKER, WorkPoint(b, 1).stack).Some? && Actions(prog, WorkPoint(b, 1)) == [Flow(ToReturn)]
      && EffectAt(prog, WORKER, WorkPoint(b, 2).stack).Some? && Actions(prog, WorkPoint(b, 2)) == [Flow(ToPanic)]
      && forall c: nat :: c < 3 ==> CellsBefore(prog, WORKER, [Site(1, b)], 0, c) == Some(map[])
  {
    hide EffectAt, CellsBefore, CallEffect, StatementsCells;
    var prog, fr, fn := Threaded(worker), Frame(WORKER, [Site(1, b)], 0), Work();
    assert fr.At(0) == WorkPoint(b, 0) && fr.At(1) == WorkPoint(b, 1) && fr.At(2) == WorkPoint(b, 2);
    CalledEmpty(worker, b);
    NoStatements(fn, map[]);
    ShortIs(fn, WorkPoint(b, 0), map[], fn.blocks[0].terminator);
    assert ShortCall(Ends(ToBlock(1), Some(ToBlock(2)))) == [Flow(ToBlock(1)), Flow(ToBlock(2))];
    EffectOf(prog, fr, 0, map[], map[], Effect([Flow(ToBlock(1)), Flow(ToBlock(2))], map[], None));
    EffectOf(prog, fr, 1, map[], map[], Effect([Flow(ToReturn)], map[], None));
    EffectOf(prog, fr, 2, map[], map[], Effect([Flow(ToPanic)], map[], None));
  }

  lemma CalledEmpty(worker: seq<Block>, b: nat)
    ensures CellsBefore(Threaded(worker), WORKER, [Site(1, b)], 0, 0) == Some(map[])
  {
  }

  // ---------------------------------------------------------------------------------------------
  // Its points

  /** Calls the function and locks mutexes, and no more. */
  ghost predicate IsWorker(worker: seq<Block>) {
    worker != [] && forall b :: 0 <= b < |worker| ==> worker[b].terminator.Call? ==> worker[b].terminator.callee == User(0) || worker[b].terminator.callee == MutexLock
  }

  /** The blocks at which the function is called. */
  predicate CallsWork(worker: seq<Block>, b: nat) {
    b < |worker| && Calls(Threaded(worker), Site(1, b)) == Some(0)
  }

  ghost predicate IsOneOf(worker: seq<Block>, pt: Point) {
    || (exists b: nat :: b < 4 && pt == MainPoint(b))
    || (exists b: nat :: b < |worker| && pt == WorkerPoint(b))
    || (exists b: nat, c: nat :: CallsWork(worker, b) && c < 3 && pt == WorkPoint(b, c))
  }

  lemma ThreadedSpawns(worker: seq<Block>, pt: Point)
    requires IsWorker(worker) && EffectAt(Threaded(worker), pt.thread, pt.stack).Some? && Actions(Threaded(worker), pt) != []
    requires Actions(Threaded(worker), pt)[0].SpawnThread?
    ensures pt.stack != [] && pt.stack[|pt.stack| - 1] == Site(2, 1)
  {
    hide EffectAt;
    EffectShape(Threaded(worker), pt);
  }

  lemma CallsAgain(prog: Program, pt: Point)
    requires IsPoint(prog, pt) && |pt.stack| > 2
    ensures Calls(prog, pt.stack[1]).Some?
  {
    hide IsThread, Root;
    assert Calls(prog, pt.stack[1]) == Some(pt.stack[1 + 1].f);
  }

  /** The stacks of a thread: only the worker calls a function. */
  lemma ThreadedStack(worker: seq<Block>, pt: Point)
    requires IsWorker(worker) && IsPoint(Threaded(worker), pt)
    ensures var f := Root(Threaded(worker), pt.thread);
      || (|pt.stack| == 1 && pt.stack[0].f == f && InRange(Threaded(worker), pt.stack[0]))
      || (|pt.stack| == 2 && f == 1 && CallsWork(worker, pt.stack[0].b) && pt.stack[0].f == 1 && pt.stack[1].f == 0 && pt.stack[1].b < 3)
  {
    hide EffectAt, Root;
    var prog := Threaded(worker);
    assert |pt.stack| > 1 ==> Calls(prog, pt.stack[0]) == Some(pt.stack[1].f);
    if |pt.stack| > 2 {
      CallsAgain(prog, pt);
    }
  }

  lemma {:induction false} ThreadedThreads(worker: seq<Block>, t: ThreadName)
    requires IsWorker(worker) && IsThread(Threaded(worker), t)
    ensures t == MainThread || t == WORKER
    ensures Root(Threaded(worker), t) == if t == MainThread then 2 else 1
    decreases t
  {
    hide EffectAt;
    SpawnerBegins(worker);
    if t.Spawned? {
      var spawner := Point(t.parent, t.stack);
      ThreadedSpawns(worker, spawner);
      ThreadedThreads(worker, t.parent);
      ThreadedStack(worker, spawner);
      assert t.stack == [Site(2, 1)];
    }
  }

  lemma ThreadedPoints(worker: seq<Block>, pt: Point)
    requires IsWorker(worker) && IsPoint(Threaded(worker), pt)
    ensures IsOneOf(worker, pt)
  {
    hide EffectAt, IsPoint, Root;
    IsPointOf(Threaded(worker), pt);
    ThreadedThreads(worker, pt.thread);
    ThreadedStack(worker, pt);
    if |pt.stack| == 1 {
      assert pt.stack == [pt.stack[0]];
      assert pt == if pt.thread == MainThread then MainPoint(pt.stack[0].b) else WorkerPoint(pt.stack[0].b);
    } else {
      assert pt.stack == [pt.stack[0], pt.stack[1]];
      assert pt == WorkPoint(pt.stack[0].b, pt.stack[1].b);
    }
  }

  lemma IsPointOf(prog: Program, pt: Point)
    requires IsPoint(prog, pt)
    ensures IsThread(prog, pt.thread)
  {
  }

  lemma ThreadedIsThere(worker: seq<Block>)
    requires IsWorker(worker)
    ensures forall b: nat :: b < 4 ==> IsPoint(Threaded(worker), MainPoint(b))
    ensures IsThread(Threaded(worker), WORKER)
    ensures forall b: nat :: b < |worker| ==> IsPoint(Threaded(worker), WorkerPoint(b))
    ensures forall b: nat, c: nat :: CallsWork(worker, b) && c < 3 ==> IsPoint(Threaded(worker), WorkPoint(b, c))
  {
    hide EffectAt;
    SpawnerBegins(worker);
  }

  // ---------------------------------------------------------------------------------------------
  // Acceptance

  /** The blocks of the worker are translated, and do no more than to lock, to unlock and to go on. */
  ghost predicate WorkerDefined(worker: seq<Block>) {
    forall b: nat :: b < |worker| ==>
      && EffectAt(Threaded(worker), WORKER, WorkerPoint(b).stack).Some?
      && forall i :: 0 <= i < |Actions(Threaded(worker), WorkerPoint(b))| ==> Simple(Actions(Threaded(worker), WorkerPoint(b))[i])
  }

  predicate Simple(a: Action) {
    a.Flow? || a.Acquire? || a.Release?
  }

  /** What the points do. */
  lemma ThreadedActs(worker: seq<Block>, pt: Point)
    requires IsWorker(worker) && WorkerDefined(worker) && IsPoint(Threaded(worker), pt)
    ensures EffectAt(Threaded(worker), pt.thread, pt.stack).Some? && WaitAt(Threaded(worker), pt).None? && !CreatesCondvar(Threaded(worker), pt)
    ensures forall i :: 0 <= i < |Actions(Threaded(worker), pt)| ==> Simple(Actions(Threaded(worker), pt)[i]) || Actions(Threaded(worker), pt)[i].SpawnThread?
  {
    hide EffectAt, IsPoint, Simple;
    ThreadedPoints(worker, pt);
    SpawnerBegins(worker);
    SpawnerEnds(worker);
    if b: nat, c: nat :| CallsWork(worker, b) && c < 3 && pt == WorkPoint(b, c) {
      WorkEffects(worker, b);
    }
    ThreadedNeverWaits(worker, pt);
    assert forall a: Action :: a.Flow? || a.Acquire? ==> Simple(a) by { IsSimple(); }
  }

  lemma IsSimple()
    ensures forall a: Action :: a.Flow? || a.Acquire? ==> Simple(a)
  {
  }

  lemma ThreadedNeverWaits(worker: seq<Block>, pt: Point)
    requires IsWorker(worker) && IsOneOf(worker, pt)
    ensures WaitAt(Threaded(worker), pt).None? && !CreatesCondvar(Threaded(worker), pt)
  {
    hide EffectAt;
    if WaitAt(Threaded(worker), pt).Some? {
      WaitShape(Threaded(worker), pt);
    }
  }

  lemma ThreadedIsWellFormed(worker: seq<Block>)
    requires worker != [] && forall b :: 0 <= b < |worker| ==> TerminatorOk(Threaded(worker), 1, worker[b].terminator)
    ensures WellFormed(Threaded(worker))
  {
    hide TerminatorOk;
    var prog := Threaded(worker);
    WorkIsOk(worker);
    SpawnerIsOk(worker);
    assert FunctionOk(prog, 0) && FunctionOk(prog, 1) && FunctionOk(prog, 2);
  }

  lemma WorkIsOk(worker: seq<Block>)
    ensures forall b :: 0 <= b < |Work().blocks| ==> TerminatorOk(Threaded(worker), 0, Work().blocks[b].terminator)
  {
  }

  lemma SpawnerIsOk(worker: seq<Block>)
    ensures forall b :: 0 <= b < |Spawner().blocks| ==> TerminatorOk(Threaded(worker), 2, Spawner().blocks[b].terminator)
  {
  }

  lemma ThreadedAccepted(worker: seq<Block>)
    requires IsWorker(worker) && WorkerDefined(worker) && WellFormed(Threaded(worker))
    ensures Translatable(Threaded(worker))
  {
    hide EffectAt, IsPoint, WaitAt, WellFormed;
    var prog := Threaded(worker);
    forall pt | IsPoint(prog, pt)
      ensures EffectAt(prog, pt.thread, pt.stack).Some? && WaitAt(prog, pt).None? && forall t: ThreadName :: !JoinsAt(prog, pt, t)
    {
      ThreadedActs(worker, pt);
    }
  }

  // ---------------------------------------------------------------------------------------------
  // A worker that holds the guard while it calls the function

  function HoldingProgram(): Program {
    Threaded(Holding())
  }

  lemma HoldingEffects()
    ensures var prog := HoldingProgram();
      && Actions(prog, WorkerPoint(0)) == [Acquire(THE_MUTEX, ToBlock(1))]
      && Actions(prog, WorkerPoint(1)) == [Flow(ToBlock(3))]
      && Actions(prog, WorkerPoint(2)) == [Release(THE_MUTEX, ToBlock(4))]
      && Actions(prog, WorkerPoint(3)) == [Release(THE_MUTEX, ToBlock(5))]
      && Actions(prog, WorkerPoint(4)) == [Flow(ToReturn)]
      && Actions(prog, WorkerPoint(5)) == [Flow(ToPanic)]
    ensures IsWorker(Holding()) && WorkerDefined(Holding()) && |Holding()| == 6
    ensures forall b: nat :: CallsWork(Holding(), b) <==> b == 1
  {
    hide EffectAt, CellsBefore, CallEffect, StatementsCells;
    var prog, fr := HoldingProgram(), Frame(WORKER, [], 1);
    var fn := prog.functions[1];
    forall b: nat ensures fr.At(b) == WorkerPoint(b) {
    }
    WorkerStarts(Holding());
    NoStatements(fn, CAPTURED);
    NoStatements(fn, GUARDED);
    LockIs(fn, WorkerPoint(0), CAPTURED, fn.blocks[0].terminator);
    UserIs(fn, WorkerPoint(1), GUARDED, fn.blocks[1].terminator);
    EffectOf(prog, fr, 0, CAPTURED, CAPTURED, Effect([Acquire(THE_MUTEX, ToBlock(1))], GUARDED, None));
    EffectOf(prog, fr, 1, GUARDED, GUARDED, Effect([Flow(ToBlock(3))], GUARDED, None));
    EffectOf(prog, fr, 2, GUARDED, GUARDED, Effect([Release(THE_MUTEX, ToBlock(4))], GUARDED, None));
    EffectOf(prog, fr, 3, GUARDED, GUARDED, Effect([Release(THE_MUTEX, ToBlock(5))], GUARDED, None));
    EffectOf(prog, fr, 4, GUARDED, GUARDED, Effect([Flow(ToReturn)], GUARDED, None));
    EffectOf(prog, fr, 5, GUARDED, GUARDED, Effect([Flow(ToPanic)], GUARDED, None));
  }

  lemma HoldingAccepted()
    ensures Translatable(HoldingProgram())
  {
    hide EffectAt, Actions, WorkerDefined, WellFormed, IsWorker, CallsWork, Holding;
    HoldingEffects();
    HoldingIsWellFormed();
    ThreadedAccepted(Holding());
  }

  lemma HoldingIsWellFormed()
    ensures WellFormed(HoldingProgram())
  {
    hide WellFormed;
    ThreadedIsWellFormed(Holding());
  }

  // ---------------------------------------------------------------------------------------------
  // The alarm

  lemma ThreadedPlaces(worker: seq<Block>, b: nat, c: nat, d: nat)
    ensures PlaceOf(MainThread, MainPoint(b).stack) == Control(MainThread, [Site(2, b)]) && PlaceOf(WORKER, WorkerPoint(b).stack) == Control(WORKER, [Site(1, b)])
    ensures PlaceOf(WORKER, WorkPoint(b, c).stack) == Control(WORKER, if c == 0 then [Site(1, b)] else [Site(1, b), Site(0, c)])
    ensures DestPlace(Threaded(worker), MainPoint(b), ToBlock(d)) == Control(MainThread, [Site(2, d)])
    ensures DestPlace(Threaded(worker), WorkerPoint(b), ToBlock(d)) == Control(WORKER, [Site(1, d)])
    ensures d > 0 ==> DestPlace(Threaded(worker), WorkPoint(b, c), ToBlock(d)) == Control(WORKER, [Site(1, b), Site(0, d)])
    ensures DestPlace(Threaded(worker), WorkPoint(b, c), ToPanic) == ThreadEnd(WORKER)
  {
    assert MainPoint(b).stack[..0] == [] && WorkerPoint(b).stack[..0] == [] && WorkPoint(b, c).stack[..1] == [Site(1, b)];
    assert [] + [Site(2, d)] == [Site(2, d)] && [] + [Site(1, d)] == [Site(1, d)] && [Site(1, b)] + [Site(0, d)] == [Site(1, b), Site(0, d)];
    assert Home([Site(1, b)]) == [Site(1, b)];
  }

  lemma HoldingMainEdges(net: ProgramNet, ctx: Context)
    requires IsNetOf(HoldingProgram(), net, ctx)
    ensures var create, spawn := TransRef(MainPoint(0), 0), TransRef(MainPoint(1), 0);
      && create in net.transitions && net.transitions[create] == Transition(multiset{Control(MainThread, [Site(2, 0)])}, multiset{Control(MainThread, [Site(2, 1)])})
      && spawn in net.transitions && net.transitions[spawn]
           == Transition(multiset{Control(MainThread, [Site(2, 1)])}, multiset{Control(MainThread, [Site(2, 2)])} + multiset{Control(WORKER, [Site(1, 0)])})
  {
    hide Actions, IsPoint, IsThread, Holding, Threaded, Tokens, IsPlaceOf, IsConditionPair, DestPlace, PlaceOf, EffectAt, WorkerDefined, IsWorker, CallsWork;
    HoldingEffects();
    SpawnerBegins(Holding());
    ThreadedIsThere(Holding());
    ThreadedPlaces(Holding(), 0, 0, 1);
    ThreadedPlaces(Holding(), 1, 0, 2);
  }

  lemma HoldingWorkerEdges(net: ProgramNet, ctx: Context)
    requires IsNetOf(HoldingProgram(), net, ctx)
    ensures var lock, unwind, resume := TransRef(WorkerPoint(0), 0), TransRef(WorkPoint(1, 0), 1), TransRef(WorkPoint(1, 2), 0);
      && lock in net.transitions && net.transitions[lock]
           == Transition(multiset{Control(WORKER, [Site(1, 0)])} + multiset{MutexPlace(THE_MUTEX)}, multiset{Control(WORKER, [Site(1, 1)])})
      && unwind in net.transitions && net.transitions[unwind]
           == Transition(multiset{Control(WORKER, [Site(1, 1)])}, multiset{Control(WORKER, [Site(1, 1), Site(0, 2)])})
      && resume in net.transitions && net.transitions[resume] == Transition(multiset{Control(WORKER, [Site(1, 1), Site(0, 2)])}, multiset{ThreadEnd(WORKER)})
  {
    hide Actions, IsPoint, IsThread, Holding, Threaded, Tokens, IsPlaceOf, IsContext, DestPlace, PlaceOf, EffectAt, WorkerDefined, IsWorker, CallsWork;
    HoldingEffects();
    WorkEffects(Holding(), 1);
    ThreadedIsThere(Holding());
    ThreadedPlaces(Holding(), 0, 0, 1);
    ThreadedPlaces(Holding(), 1, 0, 2);
    ThreadedPlaces(Holding(), 1, 2, 2);
  }

  lemma HoldingStart(net: ProgramNet, ctx: Context, m0: multiset<PlaceRef>)
    requires IsNetOf(HoldingProgram(), net, ctx) && IsInitial(net, m0)
    ensures m0 == multiset{Control(MainThread, [Site(2, 0)])} + multiset{MutexPlace(THE_MUTEX)}
  {
    hide IsNetOf, IsPoint, HoldingProgram;
    HoldingObjects(net, ctx);
    HoldingMain();
    forall p ensures m0[p] == One(p == Control(MainThread, [Site(2, 0)])) + One(p == MutexPlace(THE_MUTEX)) {
      StartTokens(HoldingProgram(), net, ctx, m0, p);
    }
    assert forall p :: m0[p] == (multiset{Control(MainThread, [Site(2, 0)])} + multiset{MutexPlace(THE_MUTEX)})[p];
  }

  lemma HoldingMain()
    ensures HoldingProgram().main == 2 && IsPoint(HoldingProgram(), MainPoint(0)) && CreatesMutex(HoldingProgram(), THE_MUTEX)
  {
    hide IsPoint, EffectAt, Actions, WorkerDefined;
    HoldingEffects();
    ThreadedIsThere(Holding());
  }

  lemma HoldingObjects(net: ProgramNet, ctx: Context)
    requires IsNetOf(HoldingProgram(), net, ctx)
    ensures forall c: Point :: IsPoint(HoldingProgram(), c) ==> !CreatesCondvar(HoldingProgram(), c) && (CreatesMutex(HoldingProgram(), c) <==> c == THE_MUTEX)
    ensures ctx.conditions == {} && forall ref :: ref in net.transitions ==> ref.TransRef?
  {
    hide EffectAt, EdgeOf, Tokens, IsPlaceOf, IsPoint, WaitAt, WorkerDefined;
    var prog := HoldingProgram();
    HoldingEffects();
    forall c: Point | IsPoint(prog, c) ensures WaitAt(prog, c).None? && !CreatesCondvar(prog, c) && (CreatesMutex(prog, c) <==> c == THE_MUTEX) {
      ThreadedPoints(Holding(), c);
      ThreadedNeverWaits(Holding(), c);
    }
    assert forall c :: c in ctx.conditions ==> (c.0, c.1) in ctx.conditions && IsConditionPair(prog, c.0, c.1);
    forall ref | ref in net.transitions ensures ref.TransRef? {
      match ref
      case TransRef(_, _) =>
      case CondvarRef(_, _) =>
      case SkipRef(_, _) =>
    }
  }

  lemma HoldingBegins(net: ProgramNet, ctx: Context) returns (m: multiset<PlaceRef>)
    requires IsNetOf(HoldingProgram(), net, ctx)
    ensures Reachable(net, m) && m == multiset{Control(MainThread, [Site(2, 2)]), Control(WORKER, [Site(1, 0)]), MutexPlace(THE_MUTEX)}
  {
    hide IsNetOf, HoldingProgram, Reachable;
    HoldingMainEdges(net, ctx);
    var m0 := InitialExists(net);
    StartIsReachable(net, m0);
    HoldingStart(net, ctx, m0);
    var create, spawn := TransRef(MainPoint(0), 0), TransRef(MainPoint(1), 0);
    ReachableStep(net, m0, create);
    var m1 := Fire(net, m0, create);
    ReachableStep(net, m1, spawn);
    m := Fire(net, m1, spawn);
  }

  /** The worker unwinds out of the function, and its token is at the end of the thread with the mutex still taken. */
  lemma HoldingRun(net: ProgramNet, ctx: Context) returns (m: multiset<PlaceRef>)
    requires IsNetOf(HoldingProgram(), net, ctx)
    ensures Reachable(net, m) && m == multiset{Control(MainThread, [Site(2, 2)]), ThreadEnd(WORKER)}
  {
    hide IsNetOf, HoldingProgram, Reachable;
    HoldingWorkerEdges(net, ctx);
    var m2 := HoldingBegins(net, ctx);
    var lock, unwind, resume := TransRef(WorkerPoint(0), 0), TransRef(WorkPoint(1, 0), 1), TransRef(WorkPoint(1, 2), 0);
    ReachableStep(net, m2, lock);
    var m3 := Fire(net, m2, lock);
    ReachableStep(net, m3, unwind);
    var m4 := Fire(net, m3, unwind);
    ReachableStep(net, m4, resume);
    m := Fire(net, m4, resume);
  }

  lemma HoldingIsReported(net: ProgramNet, ctx: Context)
    requires IsNetOf(HoldingProgram(), net, ctx)
    ensures DeadlockReported(net, ProgramEnd, ProgramPanic)
  {
    hide IsNetOf, HoldingProgram, Reachable, Enabled;
    var m := HoldingRun(net, ctx);
    forall ref ensures !Enabled(net, m, ref) {
      if Enabled(net, m, ref) {
        HoldingIsDead(net, ctx, m, ref);
      }
    }
  }

  lemma HoldingIsDead(net: ProgramNet, ctx: Context, m: multiset<PlaceRef>, ref: TransRef)
    requires IsNetOf(HoldingProgram(), net, ctx) && m == multiset{Control(MainThread, [Site(2, 2)]), ThreadEnd(WORKER)}
    ensures !Enabled(net, m, ref)
  {
    hide IsNetOf, IsPoint, Actions, EdgeOfAction, EffectAt, Home, Holding, Threaded, WorkerDefined, IsWorker, CallsWork, IsOneOf;
    HoldingEffects();
    HoldingObjects(net, ctx);
    if Enabled(net, m, ref) {
      EdgeOfPoint(HoldingProgram(), net, ctx, ref);
      var a := Actions(HoldingProgram(), ref.pt)[ref.i];
      ControlCounts(HoldingProgram(), ctx, ref.pt, a, PlaceOf(ref.pt.thread, ref.pt.stack));
      ThreadedPoints(Holding(), ref.pt);
      OnlyMainThere(Holding(), ref.pt);
      SpawnerEnds(Holding());
      SharedCounts(HoldingProgram(), ctx, ref.pt, a, MutexPlace(THE_MUTEX));
    }
  }

  lemma OnlyMainThere(worker: seq<Block>, pt: Point)
    requires IsOneOf(worker, pt) && PlaceOf(pt.thread, pt.stack) in multiset{Control(MainThread, [Site(2, 2)]), ThreadEnd(WORKER)}
    ensures pt == MainPoint(2)
  {
    hide CallsWork;
  }

  // ---------------------------------------------------------------------------------------------
  // What the program does

  /** Where the main thread is, by the number of its steps. */
  function MainIs(j: nat): Activity {
    if j == 0 then At(MainPoint(0), [], map[], false)
    else if j == 1 then At(MainPoint(1), [], CREATED, false)
    else if j == 2 then At(MainPoint(2), [], SPAWNED, false)
    else if j == 3 then At(MainPoint(3), [], LOCKED, false)
    else Ended
  }

  /** Where the worker is. */
  datatype Where =
    | Locking
    | Calling
    | Working
    | Worked
    | Unwinding
    | Dropping
    | CleaningUpAfterCall
    | Returning
    | Resumed(unwound: bool)
    | CleaningUpAfterUnwinding
    | Done

  function WorkerIs(w: Where): Activity {
    match w
    case Locking => At(WorkerPoint(0), [], CAPTURED, false)
    case Calling => At(WorkerPoint(1), [], GUARDED, false)
    case Working => At(WorkPoint(1, 0), [GUARDED], map[], false)
    case Worked => At(WorkPoint(1, 1), [GUARDED], map[], false)
    case Unwinding => At(WorkPoint(1, 2), [GUARDED], map[], false)
    case Dropping => At(WorkerPoint(2), [], GUARDED, false)
    case CleaningUpAfterCall => At(WorkerPoint(3), [], GUARDED, false)
    case Returning => At(WorkerPoint(4), [], GUARDED, false)
    case Resumed(unwound) => At(WorkerPoint(5), [], GUARDED, unwound)
    case CleaningUpAfterUnwinding => At(WorkerPoint(3), [], GUARDED, true)
    case Done => Finished(WORKER)
  }

  /** What the worker can do, and where it is afterwards. */
  function WorkerMoves(w: Where): seq<Action> {
    match w
    case Locking => [Acquire(THE_MUTEX, ToBlock(1))]
    case Calling => [Flow(ToBlock(3))]
    case Working => [Flow(ToBlock(1)), Flow(ToBlock(2))]
    case Worked => [Flow(ToReturn)]
    case Unwinding => [Flow(ToPanic)]
    case Dropping => [Release(THE_MUTEX, ToBlock(4))]
    case CleaningUpAfterCall => [Release(THE_MUTEX, ToBlock(5))]
    case Returning => [Flow(ToReturn)]
    case Resumed(_) => [Flow(ToPanic)]
    case CleaningUpAfterUnwinding => [Release(THE_MUTEX, ToBlock(5))]
    case Done => []
  }

  function WorkerNext(w: Where, i: nat): Where {
    match w
    case Locking => Calling
    case Calling => CleaningUpAfterCall
    case Working => if i == 0 then Worked else Unwinding
    case Worked => Dropping
    case Unwinding => CleaningUpAfterUnwinding
    case Dropping => Returning
    case CleaningUpAfterCall => Resumed(false)
    case CleaningUpAfterUnwinding => Resumed(true)
    case _ => Done
  }

  function WorkerNexts(w: Where): seq<Activity> {
    if w.Done? then [] else if w.Working? then [WorkerIs(Worked), WorkerIs(Unwinding)] else [WorkerIs(WorkerNext(w, 0))]
  }

  predicate HoldsGuard(w: Where) {
    !(w.Locking? || w.Returning? || w.Resumed? || w.Done?)
  }

  /** A thread that has the moves `moves`, each of which leads to an activity. */
  ghost predicate Goes(who: Activity, moves: seq<Action>, nexts: seq<Activity>) {
    && who.At? && Located(HoldingProgram(), who.pt) && |who.pt.stack| == |who.below| + 1 && |moves| == |nexts|
    && MovesAt(HoldingProgram(), who.pt, who.cells) == moves
    && forall i: nat :: i < |moves| ==> GoesAt(who, moves[i], i, nexts[i])
  }

  ghost predicate GoesAt(who: Activity, a: Action, i: nat, next: Activity)
    requires who.At? && Located(HoldingProgram(), who.pt) && |who.pt.stack| == |who.below| + 1
  {
    && !a.Vanish?
    && Arrives(HoldingProgram(), who, a.dest, Passed(HoldingProgram(), who.pt, who.cells, Returned(EndOf(HoldingProgram(), who.pt), i))) == next
  }

  function MainMove(j: nat): Action {
    if j == 0 then Flow(ToBlock(1))
    else if j == 1 then SpawnThread(WORKER, 1, [Mutex(THE_MUTEX)], ToBlock(2))
    else if j == 2 then Acquire(THE_MUTEX, ToBlock(3))
    else Flow(ToReturn)
  }

  /** The blocks of the program, none of which but the spawning one has statements. */
  lemma MainBlock(b: nat)
    requires b < 4
    ensures var prog, pt := HoldingProgram(), MainPoint(b);
      Located(prog, pt) && EndOf(prog, pt) == Spawner().blocks[b].terminator && FunctionAt(prog, pt) == Spawner() && (b != 1 ==> BlockLinks(prog, pt) == [])
  {
  }

  lemma WorkerBlock(b: nat)
    requires b < 6
    ensures var prog, pt := HoldingProgram(), WorkerPoint(b);
      && Located(prog, pt) && EndOf(prog, pt) == Holding()[b].terminator && FunctionAt(prog, pt).syncPlaces == {} && BlockLinks(prog, pt) == []
      && InRange(prog, Site(1, b)) && TerminatorAt(prog, Site(1, b)) == Holding()[b].terminator
  {
  }

  lemma WorkBlock(c: nat)
    requires c < 3
    ensures var prog, pt := HoldingProgram(), WorkPoint(1, c);
      Located(prog, pt) && EndOf(prog, pt) == Work().blocks[c].terminator && FunctionAt(prog, pt) == Work() && BlockLinks(prog, pt) == []
  {
  }

  lemma MainCreates()
    ensures Goes(MainIs(0), [MainMove(0)], [MainIs(1)])
  {
    hide HoldingProgram, Located, EndOf, FunctionAt, BlockLinks;
    MainBlock(0);
    assert MainPoint(0).stack[..0] == [] && [] + [Site(2, 1)] == [Site(2, 1)];
    AfterOne(map[], NewObject(Local(1), Mutex(THE_MUTEX)));
  }

  lemma MainSpawns()
    ensures Goes(MainIs(1), [MainMove(1)], [MainIs(2)])
  {
    hide AfterLinks, StatementsLinks, ReturnLinks;
    assert MainPoint(1).stack[..0] == [] && [] + [Site(2, 2)] == [Site(2, 2)];
    MutexIsBundledByLinks();
    SpawnMemory(Spawner(), MainPoint(1), BUNDLED, EndOf(HoldingProgram(), MainPoint(1)));
    ReturnMemory(Spawner(), BUNDLED, EndOf(HoldingProgram(), MainPoint(1)));
  }

  lemma MainLocks()
    ensures Goes(MainIs(2), [MainMove(2)], [MainIs(3)])
  {
    hide HoldingProgram, Located, EndOf, FunctionAt, BlockLinks;
    MainBlock(2);
    assert MainPoint(2).stack[..0] == [] && [] + [Site(2, 3)] == [Site(2, 3)];
    AfterOne(SPAWNED, GuardOf(Local(4), Local(1)));
  }

  lemma MainReturns()
    ensures Goes(MainIs(3), [MainMove(3)], [MainIs(4)])
  {
    hide HoldingProgram, Located, EndOf, FunctionAt, BlockLinks;
    MainBlock(3);
    assert MainPoint(3).stack[..0] == [];
  }

  lemma MainGoes(j: nat)
    requires j < 4
    ensures Goes(MainIs(j), [MainMove(j)], [MainIs(j + 1)]) && Calls(HoldingProgram(), Site(2, j)).None?
  {
    hide Goes;
    if j == 0 {
      MainCreates();
    } else if j == 1 {
      MainSpawns();
    } else if j == 2 {
      MainLocks();
    } else {
      MainReturns();
    }
  }

  lemma WorkerLocks()
    ensures Goes(WorkerIs(Locking), [Acquire(THE_MUTEX, ToBlock(1))], [WorkerIs(Calling)])
  {
    hide HoldingProgram, Located, EndOf, FunctionAt, BlockLinks, InRange, TerminatorAt;
    WorkerBlock(0);
    assert WorkerPoint(0).stack[..0] == [] && [] + [Site(1, 1)] == [Site(1, 1)];
    AfterOne(CAPTURED, GuardOf(Local(2), FIELD));
  }

  lemma WorkerCalls()
    ensures Goes(WorkerIs(Calling), [Flow(ToBlock(3))], [WorkerIs(CleaningUpAfterCall)])
  {
    hide HoldingProgram, Located, EndOf, FunctionAt, BlockLinks, InRange, TerminatorAt;
    WorkerBlock(1);
    assert WorkerPoint(1).stack[..0] == [] && [] + [Site(1, 3)] == [Site(1, 3)];
  }

  lemma WorkerEnters()
    ensures Located(HoldingProgram(), WorkerPoint(1)) && Calls(HoldingProgram(), Site(1, 1)) == Some(0)
    ensures Enters(HoldingProgram(), WorkerIs(Calling)) == WorkerIs(Working)
  {
    hide HoldingProgram, Located, EndOf, FunctionAt, BlockLinks, InRange, TerminatorAt;
    WorkerBlock(1);
    assert Passing(GUARDED, []) == map[];
    assert [Site(1, 1)] + [Site(0, 0)] == [Site(1, 1), Site(0, 0)] && [] + [GUARDED] == [GUARDED];
  }

  lemma WorkerWorks()
    ensures Goes(WorkerIs(Working), [Flow(ToBlock(1)), Flow(ToBlock(2))], [WorkerIs(Worked), WorkerIs(Unwinding)])
  {
    hide HoldingProgram, Located, EndOf, FunctionAt, BlockLinks;
    WorkBlock(0);
    assert WorkPoint(1, 0).stack[..1] == [Site(1, 1)];
    assert [Site(1, 1)] + [Site(0, 1)] == [Site(1, 1), Site(0, 1)] && [Site(1, 1)] + [Site(0, 2)] == [Site(1, 1), Site(0, 2)];
  }

  lemma WorkReturns()
    ensures Goes(WorkerIs(Worked), [Flow(ToReturn)], [WorkerIs(Dropping)])
  {
    hide HoldingProgram, Located, EndOf, FunctionAt, BlockLinks, InRange, TerminatorAt;
    WorkBlock(1);
    WorkerBlock(1);
    assert WorkPoint(1, 1).stack[..1] == [Site(1, 1)] && [Site(1, 1)][..0] == [] && [GUARDED][..0] == [];
    assert [] + [Site(1, 2)] == [Site(1, 2)];
    assert GUARDED - {Local(5)} == GUARDED;
  }

  /** The function unwinds into the cleanup of its caller. */
  lemma WorkUnwinds()
    ensures Goes(WorkerIs(Unwinding), [Flow(ToPanic)], [WorkerIs(CleaningUpAfterUnwinding)])
  {
    hide HoldingProgram, Located, EndOf, FunctionAt, BlockLinks, InRange, TerminatorAt;
    WorkBlock(2);
    WorkerBlock(1);
    assert WorkPoint(1, 2).stack[..1] == [Site(1, 1)] && [Site(1, 1)][..0] == [] && [GUARDED][..0] == [];
    assert [] + [Site(1, 3)] == [Site(1, 3)];
  }

  lemma WorkerDrops(b: nat, unwinding: bool)
    requires b == 2 || b == 3
    ensures Goes(At(WorkerPoint(b), [], GUARDED, unwinding), [Release(THE_MUTEX, ToBlock(b + 2))], [At(WorkerPoint(b + 2), [], GUARDED, unwinding)])
  {
    hide HoldingProgram, Located, EndOf, FunctionAt, BlockLinks, InRange, TerminatorAt;
    WorkerBlock(b);
    assert WorkerPoint(b).stack[..0] == [] && [] + [Site(1, b + 2)] == [Site(1, b + 2)];
  }

  lemma WorkerEnds(b: nat, unwinding: bool)
    requires b == 4 || b == 5
    ensures Goes(At(WorkerPoint(b), [], GUARDED, unwinding), [Flow(if b == 4 then ToReturn else ToPanic)], [WorkerIs(Done)])
  {
    hide HoldingProgram, Located, EndOf, FunctionAt, BlockLinks, InRange, TerminatorAt;
    WorkerBlock(b);
    assert WorkerPoint(b).stack[..0] == [];
  }

  lemma WorkerGoes(w: Where)
    requires !w.Done?
    ensures Goes(WorkerIs(w), WorkerMoves(w), WorkerNexts(w))
  {
    hide Goes;
    match w
    case Locking => WorkerLocks();
    case Calling => WorkerCalls();
    case Working => WorkerWorks();
    case Worked => WorkReturns();
    case Unwinding => WorkUnwinds();
    case Dropping => WorkerDrops(2, false);
    case CleaningUpAfterCall => WorkerDrops(3, false);
    case Returning => WorkerEnds(4, false);
    case Resumed(unwound) => WorkerEnds(5, unwound);
    case CleaningUpAfterUnwinding => WorkerDrops(3, true);
  }

  // ---------------------------------------------------------------------------------------------
  // The program never gets stuck

  function Crew(j: nat, w: Option<Where>): multiset<Activity> {
    if w.Some? then multiset{MainIs(j), WorkerIs(w.value)} else multiset{MainIs(j)}
  }

  /** The worker holds the mutex, or the main thread once it locked it. */
  function HeldBy(j: nat, w: Option<Where>): set<Point> {
    if j >= 3 || (w.Some? && HoldsGuard(w.value)) then {THE_MUTEX} else {}
  }

  predicate Possible(j: nat, w: Option<Where>) {
    j <= 4 && (w.None? <==> j < 2) && (w.Some? && HoldsGuard(w.value) ==> j < 3)
  }

  ghost predicate Known(s: State, j: nat, w: Option<Where>) {
    Possible(j, w) && s.running == Crew(j, w) && s.held == HeldBy(j, w)
  }

  /** The state after a move of a thread. */
  lemma AfterGoes(s: State, who: Activity, moves: seq<Action>, nexts: seq<Activity>, i: nat)
    requires Goes(who, moves, nexts) && CanAct(HoldingProgram(), s, who, i)
    ensures i < |moves| && Unblocked(s, moves[i])
    ensures Simple(moves[i]) ==> Taken(HoldingProgram(), s, who, i).running == s.running - multiset{who} + multiset{nexts[i]}
    ensures moves[i].SpawnThread? ==>
      var start := Starts(moves[i].thread, moves[i].f, ThreadMemory(HoldingProgram(), moves[i].f, moves[i].aggregate));
      Taken(HoldingProgram(), s, who, i).running == s.running - multiset{who} + multiset{nexts[i]} + multiset{start}
    ensures Taken(HoldingProgram(), s, who, i).held
      == if moves[i].Acquire? then s.held + {moves[i].mutex} else if moves[i].Release? then s.held - {moves[i].mutex} else s.held
  {
    hide HoldingProgram, MovesAt, Arrives, Passed, ThreadMemory, Returned, Unblocked;
    assert GoesAt(who, moves[i], i, nexts[i]);
  }

  function AfterMain(j: nat, w: Option<Where>): Option<Where> {
    if j == 1 then Some(Locking) else w
  }

  lemma CrewAfterMain(j: nat, w: Option<Where>)
    requires Possible(j, w) && j < 4
    ensures Crew(j, w) - multiset{MainIs(j)} + multiset{MainIs(j + 1)} + (if j == 1 then multiset{WorkerIs(Locking)} else multiset{}) == Crew(j + 1, AfterMain(j, w))
  {
    hide MainIs, WorkerIs, HoldsGuard;
    MainReplaced(MainIs(j), MainIs(j + 1), if w.Some? then WorkerIs(w.value) else WorkerIs(Locking));
  }

  lemma MainReplaced(a: Activity, c: Activity, b: Activity)
    ensures multiset{a, b} - multiset{a} + multiset{c} + multiset{} == multiset{c, b}
    ensures multiset{a} - multiset{a} + multiset{c} + multiset{} == multiset{c}
    ensures multiset{a} - multiset{a} + multiset{c} + multiset{b} == multiset{c, b}
  {
    assert multiset{a, b} - multiset{a} == multiset{b};
    assert multiset{a} - multiset{a} == multiset{};
  }

  lemma HeldAfterMain(j: nat, w: Option<Where>)
    requires Possible(j, w) && j < 4 && (j == 2 ==> THE_MUTEX !in HeldBy(j, w))
    ensures Possible(j + 1, AfterMain(j, w)) && HeldBy(j + 1, AfterMain(j, w)) == if j == 2 then HeldBy(j, w) + {THE_MUTEX} else HeldBy(j, w)
  {
  }

  lemma MainSteps(s: State, j: nat, w: Option<Where>, i: nat)
    requires Known(s, j, w) && j < 4 && CanAct(HoldingProgram(), s, MainIs(j), i)
    ensures Known(Taken(HoldingProgram(), s, MainIs(j), i), j + 1, AfterMain(j, w))
  {
    hide HoldingProgram, Taken, CanAct, Goes, ThreadMemory, MainIs, WorkerIs, Possible, Crew, HeldBy, AfterMain;
    MainGoes(j);
    AfterGoes(s, MainIs(j), [MainMove(j)], [MainIs(j + 1)], i);
    WorkerBegins();
    HeldAfterMain(j, w);
    CrewAfterMain(j, w);
    var more := s.running - multiset{MainIs(j)} + multiset{MainIs(j + 1)};
    assert more + multiset{} == more;
  }

  lemma WorkerBegins()
    ensures Starts(WORKER, 1, ThreadMemory(HoldingProgram(), 1, [Mutex(THE_MUTEX)])) == WorkerIs(Locking)
  {
    hide ThreadMemory;
    WorkerStartsWith(Holding());
  }

  lemma CrewAfterWorker(j: nat, w: Where, next: Where)
    ensures Crew(j, Some(w)) - multiset{WorkerIs(w)} + multiset{WorkerIs(next)} == Crew(j, Some(next))
  {
    hide MainIs, WorkerIs;
    var a, b, c := MainIs(j), WorkerIs(w), WorkerIs(next);
    assert multiset{a, b} - multiset{b} == multiset{a} && multiset{a} + multiset{c} == multiset{a, c};
  }

  lemma HeldAfterWorker(j: nat, w: Where, i: nat)
    requires Possible(j, Some(w)) && i < |WorkerMoves(w)| && (w.Locking? ==> THE_MUTEX !in HeldBy(j, Some(w)))
    ensures var a, next, held := WorkerMoves(w)[i], Some(WorkerNext(w, i)), HeldBy(j, Some(w));
      && Possible(j, next) && Simple(a) && (a.Acquire? ==> w.Locking?)
      && HeldBy(j, next) == if a.Acquire? then held + {a.mutex} else if a.Release? then held - {a.mutex} else held
  {
  }

  lemma WorkerSteps(s: State, j: nat, w: Where, i: nat)
    requires Known(s, j, Some(w)) && CanAct(HoldingProgram(), s, WorkerIs(w), i)
    ensures Known(Taken(HoldingProgram(), s, WorkerIs(w), i), j, Some(WorkerNext(w, i)))
  {
    hide HoldingProgram, Taken, MovesAt, Goes, MainIs, WorkerIs, Located, Crew, HeldBy, Possible, WorkerMoves, WorkerNext, WorkerNexts;
    assert !w.Done? by { DoneIsNowhere(); }
    WorkerGoes(w);
    AfterGoes(s, WorkerIs(w), WorkerMoves(w), WorkerNexts(w), i);
    assert w.Locking? ==> THE_MUTEX !in s.held && WorkerMoves(w) == [Acquire(THE_MUTEX, ToBlock(1))] by { LockingLocks(); }
    HeldAfterWorker(j, w, i);
    CrewAfterWorker(j, w, WorkerNext(w, i));
    NextIs(w, i);
  }

  lemma LockingLocks()
    ensures WorkerMoves(Locking) == [Acquire(THE_MUTEX, ToBlock(1))]
  {
  }

  lemma NextIs(w: Where, i: nat)
    requires i < |WorkerMoves(w)|
    ensures |WorkerNexts(w)| == |WorkerMoves(w)| && WorkerNexts(w)[i] == WorkerIs(WorkerNext(w, i))
  {
  }

  lemma DoneIsNowhere()
    ensures !WorkerIs(Done).At?
  {
  }

  /** Only the worker, at its call, has a function to enter. */
  lemma WhoEnters(j: nat, w: Where, who: Activity)
    requires who.At? && Located(HoldingProgram(), who.pt) && Calls(HoldingProgram(), who.pt.stack[|who.pt.stack| - 1]).Some?
    ensures who != MainIs(j) && (who == WorkerIs(w) ==> w.Calling?)
  {
  }

  lemma EnterSteps(s: State, j: nat, w: Option<Where>, who: Activity)
    requires Known(s, j, w) && CanEnter(HoldingProgram(), s, who)
    ensures Known(Replaced(s, who, Enters(HoldingProgram(), who)), j, Some(Working))
  {
    hide HoldingProgram, MainIs, WorkerIs, Calls, Enters, Located, Possible, HeldBy;
    WhoEnters(j, if w.Some? then w.value else Done, who);
    assert w == Some(Calling) && who == WorkerIs(Calling);
    WorkerEnters();
    EntryIsPossible(j);
    CrewAfterWorker(j, Calling, Working);
  }

  lemma EntryIsPossible(j: nat)
    requires Possible(j, Some(Calling))
    ensures Possible(j, Some(Working)) && HeldBy(j, Some(Working)) == HeldBy(j, Some(Calling))
  {
  }

  ghost predicate Somewhere(s: State) {
    exists j: nat, w: Option<Where> :: Known(s, j, w)
  }

  lemma StepsSomewhere(s: State, s': State)
    requires Somewhere(s) && Step(HoldingProgram(), s, s')
    ensures Somewhere(s')
  {
    hide HoldingProgram, MainIs, WorkerIs, Taken, Enters, MovesAt, Calls, Unblocked, Possible, HeldBy;
    var j: nat, w: Option<Where> :| Known(s, j, w);
    if who: Activity :| CanEnter(HoldingProgram(), s, who) && s' == Replaced(s, who, Enters(HoldingProgram(), who)) {
      EnterSteps(s, j, w, who);
    } else {
      var who: Activity, i: nat :| CanAct(HoldingProgram(), s, who, i) && s' == Taken(HoldingProgram(), s, who, i);
      if who == MainIs(j) {
        assert j < 4 by { EndIsNowhere(j, w); }
        MainSteps(s, j, w, i);
      } else {
        WorkerSteps(s, j, w.value, i);
      }
    }
  }

  lemma EndIsNowhere(j: nat, w: Option<Where>)
    requires Possible(j, w)
    ensures MainIs(j).At? ==> j < 4
  {
  }

  lemma {:induction false} AlwaysSomewhere(states: seq<State>)
    requires Execution(HoldingProgram(), states)
    ensures Somewhere(states[|states| - 1])
    decreases |states|
  {
    hide HoldingProgram, Step, Somewhere;
    if |states| == 1 {
      assert Somewhere(states[0]) by { StartsSomewhere(); }
    } else {
      AlwaysSomewhere(states[..|states| - 1]);
      assert Step(HoldingProgram(), states[|states| - 2], states[|states| - 1]);
      StepsSomewhere(states[|states| - 2], states[|states| - 1]);
    }
  }

  lemma StartsSomewhere()
    ensures Somewhere(Initial(HoldingProgram()))
  {
    assert Known(Initial(HoldingProgram()), 0, None);
  }

  lemma CanGo(s: State, who: Activity, moves: seq<Action>, nexts: seq<Activity>)
    requires Goes(who, moves, nexts) && who in s.running && moves != [] && Unblocked(s, moves[0])
    ensures exists s': State :: Step(HoldingProgram(), s, s')
  {
    hide HoldingProgram, MovesAt, Taken, Unblocked;
    assert CanAct(HoldingProgram(), s, who, 0);
    assert Step(HoldingProgram(), s, Taken(HoldingProgram(), s, who, 0));
  }

  /** As long as the main thread has not ended, the main thread or the worker can go on. */
  lemma NeverStalled(s: State, j: nat, w: Option<Where>)
    requires Known(s, j, w)
    ensures !Stalled(HoldingProgram(), s)
  {
    hide HoldingProgram, Step, Goes;
    if j == 4 {
      assert MainIs(4) in s.running;
    } else if j == 2 && THE_MUTEX in s.held {
      WorkerGoes(w.value);
      CanGo(s, WorkerIs(w.value), WorkerMoves(w.value), WorkerNexts(w.value));
    } else {
      MainGoes(j);
      CanGo(s, MainIs(j), [MainMove(j)], [MainIs(j + 1)]);
    }
  }

  /** A false alarm: the worker unwinds out of the function it called while it holds a guard. In the program its cleanup
      drops the guard, in the net the thread is over and the mutex stays locked. No notes cover the program. */
  lemma LostCleanup(net: ProgramNet, ctx: Context)
    requires IsNetOf(HoldingProgram(), net, ctx)
    ensures Translatable(HoldingProgram())
    ensures DeadlockReported(net, ProgramEnd, ProgramPanic) && !CanStall(HoldingProgram()) && !CanDeadlock(HoldingProgram())
    ensures forall notes: Notes :: !Covered(HoldingProgram(), net, ctx, notes)
  {
    hide HoldingProgram, IsNetOf, Translatable, DeadlockReported, Covered, Stalled, Step;
    HoldingAccepted();
    HoldingIsReported(net, ctx);
    if s: State :| CanReach(HoldingProgram(), s) && Stalled(HoldingProgram(), s) {
      var states: seq<State> :| Execution(HoldingProgram(), states) && states[|states| - 1] == s;
      AlwaysSomewhere(states);
      var j: nat, w: Option<Where> :| Known(s, j, w);
      NeverStalled(s, j, w);
    }
    forall notes: Notes ensures !Covered(HoldingProgram(), net, ctx, notes) {
      if Covered(HoldingProgram(), net, ctx, notes) {
        ReportedIffStalled(HoldingProgram(), net, ctx, notes);
      }
    }
  }
}
