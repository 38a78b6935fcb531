/** The usual use of a condvar: the main thread locks a mutex, spawns a thread and waits; the thread signals while it holds
    the mutex. Permits show that the signal never comes before the wait. */
module Signals {
  import opened Wrappers
  import opened PetriNets
  import opened Mir
  import opened ControlPoints
  import opened AliasMemory
  import opened Blueprint
  import opened CallEffects
  import opened Worlds
  import opened Frames
  import opened Progress
  import opened Points
  import opened NetLaws
  import opened Condvars
  import opened Links
  import opened Witnesses
  import opened Joins
  import opened Permits

  function Captured0(): Place {
    Place(1, [Field(0)])
  }

  function Captured1(): Place {
    Place(1, [Field(1)])
  }

  function SignalUnderLock(): Program {
    var notifier := Function("notifier",
      [CallTo(MutexLock, [Copy(Captured0())], 2, 1),
       CallTo(CondvarNotifyOne, [Copy(Captured1())], 3, 2),
       Block0(Drop(Local(2), 3, Continue)),
       Block0(Return)],
      {}, {}, [Captured0(), Captured1()]);
    var main := Function("main",
      [CallTo(MutexNew, [], 1, 1),
       CallTo(CondvarNew, [], 2, 2),
       CallTo(MutexLock, [Copy(Local(1))], 3, 3),
       Block([Assign(Local(4), Aggregate([Copy(Local(1)), Copy(Local(2))]))], Call(ThreadSpawn(0), [Move(Local(4))], Local(5), Some(4), Continue)),
       CallTo(CondvarWait, [Copy(Local(2)), Move(Local(3))], 6, 5),
       Block0(Drop(Local(6), 6, Continue)),
       Block0(Return)],
      {Local(1), Local(2)}, {}, []);
    Program([notifier, main], 1)
  }

  function Here(b: nat): Point {
    Point(MainThread, [Site(1, b)])
  }

  const NOTIFIER := Spawned(MainThread, [Site(1, 3)])

  function There(b: nat): Point {
    Point(NOTIFIER, [Site(0, b)])
  }

  /** The memory of the main thread before block `b`. */
  function MainCells(b: nat): Cells {
    var m, c := Here(0), Here(1);
    var two: Cells := map[Local(1) := Mutex(m), Local(2) := Condvar(c)];
    var three := two[Local(3) := MutexGuard(m)];
    var four := three[Local(4) := Bundle([Mutex(m), Condvar(c)])][Local(5) := JoinHandle(NOTIFIER)];
    if b == 0 then map[]
    else if b == 1 then map[Local(1) := Mutex(m)]
    else if b == 2 then two
    else if b == 3 then three
    else if b == 4 then four
    else four[Local(6) := MutexGuard(m)]
  }

  /** One block of a body without calls. */
  lemma BlockEffect(prog: Program, fr: Frame, b: nat, before: Cells, cells: Cells, e: Effect)
    requires InRange(prog, Site(fr.f, b)) && CellsBefore(prog, fr.t, fr.callers, fr.f, b) == Some(before)
    requires StatementsCells(prog.functions[fr.f], before, prog.functions[fr.f].blocks[b].statements) == Some(cells)
    requires TerminatorEffect(prog.functions[fr.f], fr.At(b), cells, prog.functions[fr.f].blocks[b].terminator) == Some(e)
    ensures EffectAt(prog, fr.t, fr.At(b).stack) == Some(e)
    ensures Actions(prog, fr.At(b)) == e.actions && WaitAt(prog, fr.At(b)) == e.wait
    ensures CellsBefore(prog, fr.t, fr.callers, fr.f, b + 1) == Some(e.cells)
  {
    hide TerminatorEffect, CellsBefore, StatementsCells;
    EffectIs(prog, fr, b, before);
    CellsNext(prog, fr, b);
  }

  function MainFrame(): Frame {
    Frame(MainThread, [], 1)
  }

  function NotifierFrame(): Frame {
    Frame(NOTIFIER, [], 0)
  }

  lemma FramePoint(b: nat)
    ensures MainFrame().At(b) == Here(b) && NotifierFrame().At(b) == There(b)
  {
  }

  lemma MainBegins()
    ensures var prog := SignalUnderLock();
      && EffectAt(prog, MainThread, [Site(1, 0)]) == Some(Effect([Flow(ToBlock(1))], MainCells(1), None))
      && EffectAt(prog, MainThread, [Site(1, 1)]) == Some(Effect([Flow(ToBlock(2))], MainCells(2), None))
      && EffectAt(prog, MainThread, [Site(1, 2)]) == Some(Effect([Acquire(Here(0), ToBlock(3))], MainCells(3), None))
      && CellsBefore(prog, MainThread, [], 1, 3) == Some(MainCells(3))
  {
    hide EffectAt, CellsBefore, CallEffect;
    var prog, fr := SignalUnderLock(), MainFrame();
    var fn := prog.functions[1];
    FramePoint(0);
    FramePoint(1);
    FramePoint(2);
    MainIsEmpty();
    MutexNewIs(fn, Here(0), MainCells(0), fn.blocks[0].terminator);
    CondvarNewIs(fn, Here(1), MainCells(1), fn.blocks[1].terminator);
    LockIs(fn, Here(2), MainCells(2), fn.blocks[2].terminator);
    assert ShortCall(Ends(ToBlock(1), None)) == [Flow(ToBlock(1))] && ShortCall(Ends(ToBlock(2), None)) == [Flow(ToBlock(2))];
    BlockEffect(prog, fr, 0, MainCells(0), MainCells(0), Effect([Flow(ToBlock(1))], MainCells(1), None));
    BlockEffect(prog, fr, 1, MainCells(1), MainCells(1), Effect([Flow(ToBlock(2))], MainCells(2), None));
    BlockEffect(prog, fr, 2, MainCells(2), MainCells(2), Effect([Acquire(Here(0), ToBlock(3))], MainCells(3), None));
  }

  lemma MainIsEmpty()
    ensures CellsBefore(SignalUnderLock(), MainThread, [], 1, 0) == Some(map[])
  {
  }

  lemma BothAreBundled()
    ensures var fn, cells := SignalUnderLock().functions[1], MainCells(3);
      StatementsCells(fn, cells, fn.blocks[3].statements) == Some(cells[Local(4) := Bundle([Mutex(Here(0)), Condvar(Here(1))])])
  {
    hide ValuesOf, SyncOperands, StatementsCells;
    var fn, cells, operands := SignalUnderLock().functions[1], MainCells(3), [Copy(Local(1)), Copy(Local(2))];
    OneStatement(fn, cells, Assign(Local(4), Aggregate(operands)));
    BothAreSync();
    TwoValues(cells, Local(1), Local(2));
  }

  lemma BothAreSync()
    ensures SyncOperands(SignalUnderLock().functions[1], [Copy(Local(1)), Copy(Local(2))]) == [Local(1), Local(2)]
  {
    var operands := [Copy(Local(1)), Copy(Local(2))];
    assert operands[..1] == [Copy(Local(1))] && operands[..1][..0] == [];
  }

  lemma TwoValues(cells: Cells, p: Place, q: Place)
    requires p in cells && q in cells
    ensures ValuesOf(cells, [p, q]) == Some([cells[p], cells[q]])
  {
    assert [p, q][..1] == [p] && [p][..0] == [] && ValuesOf(cells, []) == Some([]);
    assert [] + [cells[p]] == [cells[p]] && ValuesOf(cells, [p]) == Some([cells[p]]) && [cells[p]] + [cells[q]] == [cells[p], cells[q]];
  }

  lemma MainEnds()
    ensures var prog, values := SignalUnderLock(), [Mutex(Here(0)), Condvar(Here(1))];
      && EffectAt(prog, MainThread, [Site(1, 3)]) == Some(Effect([SpawnThread(NOTIFIER, 0, values, ToBlock(4))], MainCells(4), None))
      && EffectAt(prog, MainThread, [Site(1, 4)]) == Some(Effect([], MainCells(5), Some(Wait(Here(1), Here(0), ToBlock(5)))))
      && EffectAt(prog, MainThread, [Site(1, 5)]) == Some(Effect([Release(Here(0), ToBlock(6))], MainCells(6), None))
      && EffectAt(prog, MainThread, [Site(1, 6)]) == Some(Effect([Flow(ToReturn)], MainCells(6), None))
  {
    hide EffectAt, CellsBefore, CallEffect, StatementsCells;
    var prog, fr := SignalUnderLock(), MainFrame();
    var fn, values := prog.functions[1], [Mutex(Here(0)), Condvar(Here(1))];
    var bundled := MainCells(3)[Local(4) := Bundle(values)];
    FramePoint(3);
    FramePoint(4);
    FramePoint(5);
    FramePoint(6);
    MainBegins();
    BothAreBundled();
    SpawnIs(fn, Here(3), bundled, fn.blocks[3].terminator);
    var spawn := SpawnThread(NOTIFIER, 0, values, ToBlock(4));
    assert [spawn] + CleanupActions(Ends(ToBlock(4), None)) == [spawn];
    BlockEffect(prog, fr, 3, MainCells(3), bundled, Effect([spawn], MainCells(4), None));
    NothingStated(fn, MainCells(4));
    NothingStated(fn, MainCells(5));
    WaitIs(fn, Here(4), MainCells(4), fn.blocks[4].terminator);
    BlockEffect(prog, fr, 4, MainCells(4), MainCells(4), Effect([], MainCells(5), Some(Wait(Here(1), Here(0), ToBlock(5)))));
    BlockEffect(prog, fr, 5, MainCells(5), MainCells(5), Effect([Release(Here(0), ToBlock(6))], MainCells(6), None));
    BlockEffect(prog, fr, 6, MainCells(6), MainCells(6), Effect([Flow(ToReturn)], MainCells(6), None));
  }

  lemma NothingStated(fn: Function, cells: Cells)
    ensures StatementsCells(fn, cells, []) == Some(cells)
  {
  }

  /** The memory of the notifier before block `b`. */
  function NotifierCells(b: nat): Cells {
    var m, c := Here(0), Here(1);
    var one: Cells := map[CLOSURE := Bundle([Mutex(m), Condvar(c)]), Captured0() := Mutex(m), Captured1() := Condvar(c)];
    if b == 0 then one else one[Local(2) := MutexGuard(m)]
  }

  lemma NotifierStarts()
    ensures CellsBefore(SignalUnderLock(), NOTIFIER, [], 0, 0) == Some(NotifierCells(0))
  {
    hide EffectAt;
    var values := [Mutex(Here(0)), Condvar(Here(1))];
    MainEnds();
    BothAreCaptured(values);
    assert ThreadCells(SignalUnderLock().functions[0], values) == Some(NotifierCells(0));
  }

  lemma BothAreCaptured(values: seq<Value>)
    requires |values| == 2
    ensures var closure: Cells := map[CLOSURE := Bundle(values)];
      CapturesLinked(closure, [Captured0(), Captured1()]) == Some(closure[Captured0() := values[0]][Captured1() := values[1]])
  {
    var closure: Cells := map[CLOSURE := Bundle(values)];
    assert [Captured0(), Captured1()][..1] == [Captured0()] && [Captured0()][..0] == [];
    assert FieldNumber(Captured0()) == Some(0) && FieldNumber(Captured1()) == Some(1);
    assert CapturesLinked(closure, []) == Some(closure) && CapturesLinked(closure, [Captured0()]) == Some(closure[Captured0() := values[0]]);
  }

  lemma NotifierEffects()
    ensures var prog := SignalUnderLock();
      && EffectAt(prog, NOTIFIER, [Site(0, 0)]) == Some(Effect([Acquire(Here(0), ToBlock(1))], NotifierCells(1), None))
      && EffectAt(prog, NOTIFIER, [Site(0, 1)]) == Some(Effect([NotifyOne(Here(1), ToBlock(2))], NotifierCells(1), None))
      && EffectAt(prog, NOTIFIER, [Site(0, 2)]) == Some(Effect([Release(Here(0), ToBlock(3))], NotifierCells(1), None))
      && EffectAt(prog, NOTIFIER, [Site(0, 3)]) == Some(Effect([Flow(ToReturn)], NotifierCells(1), None))
  {
    hide EffectAt, CellsBefore, CallEffect;
    var prog, fr := SignalUnderLock(), NotifierFrame();
    var fn, cells := prog.functions[0], NotifierCells(1);
    FramePoint(0);
    FramePoint(1);
    FramePoint(2);
    FramePoint(3);
    NotifierStarts();
    LockIs(fn, There(0), NotifierCells(0), fn.blocks[0].terminator);
    NotifyOneIs(fn, There(1), cells, fn.blocks[1].terminator);
    BlockEffect(prog, fr, 0, NotifierCells(0), NotifierCells(0), Effect([Acquire(Here(0), ToBlock(1))], cells, None));
    BlockEffect(prog, fr, 1, cells, cells, Effect([NotifyOne(Here(1), ToBlock(2))], cells, None));
    BlockEffect(prog, fr, 2, cells, cells, Effect([Release(Here(0), ToBlock(3))], cells, None));
    BlockEffect(prog, fr, 3, cells, cells, Effect([Flow(ToReturn)], cells, None));
  }

  // ---------------------------------------------------------------------------------------------
  // Its points

  lemma {:induction false} SignalThreads(t: ThreadName)
    requires IsThread(SignalUnderLock(), t)
    ensures (t == MainThread || t == NOTIFIER) && Root(SignalUnderLock(), t) == if t == MainThread then 1 else 0
    decreases t
  {
    hide EffectAt, SignalUnderLock, Flat;
    MainEnds();
    SignalIsFlat();
    if t.Spawned? {
      FlatThread(SignalUnderLock(), t);
      SignalThreads(t.parent);
      OnlySpawn(t.stack[0]);
      assert t.stack == [Site(1, 3)];
    }
  }

  lemma SignalIsFlat()
    ensures Flat(SignalUnderLock()) && SignalUnderLock().main == 1
  {
  }

  lemma OnlySpawn(site: Site)
    requires InRange(SignalUnderLock(), site) && SpawnsAt(SignalUnderLock(), site).Some?
    ensures site == Site(1, 3)
  {
  }

  lemma SignalPoints(pt: Point)
    requires IsPoint(SignalUnderLock(), pt)
    ensures (exists b: nat :: b < 7 && pt == Here(b)) || (exists b: nat :: b < 4 && pt == There(b))
  {
    hide EffectAt, Root;
    assert Flat(SignalUnderLock());
    FlatPoint(SignalUnderLock(), pt);
    SignalThreads(pt.thread);
    assert pt.thread == MainThread ==> pt == Here(pt.stack[0].b);
    assert pt.thread == NOTIFIER ==> pt == There(pt.stack[0].b);
  }

  /** How many permits a thread has at a place. */
  function SignalPermits(p: PlaceRef): int {
    if p == ThreadPlace(MainThread, 1, 3) || p == ThreadPlace(MainThread, 1, 5) then 1
    else if p == ThreadPlace(NOTIFIER, 0, 0) || p == ThreadPlace(NOTIFIER, 0, 2) then 1
    else if p == ThreadPlace(NOTIFIER, 0, 1) then 2
    else 0
  }

  lemma MainPays(ctx: Context, b: nat, i: nat)
    requires b < 7 && i < |Actions(SignalUnderLock(), Here(b))| && MutexOf(ctx, Here(1)) == Some(Here(0))
    ensures Pays(SignalUnderLock(), ctx, Here(1), SignalPermits, Here(b), Actions(SignalUnderLock(), Here(b))[i])
  {
    hide EffectAt, SignalUnderLock, DestPlace, PlaceOf;
    MainBegins();
    MainEnds();
    var a := Actions(SignalUnderLock(), Here(b))[i];
    FlatPlaces(SignalUnderLock(), MainThread, 1, b, if a.dest.ToBlock? then a.dest.b else 0);
    if a.dest.ToReturn? {
      ReturnsHome(MainThread, 1, b);
    }
  }

  lemma ReturnsHome(t: ThreadName, f: nat, b: nat)
    ensures DestPlace(SignalUnderLock(), Point(t, [Site(f, b)]), ToReturn) == ThreadEndPlace(t)
  {
    assert [Site(f, b)][..0] == [];
  }

  lemma NotifierPays(ctx: Context, b: nat, i: nat)
    requires b < 4 && i < |Actions(SignalUnderLock(), There(b))| && MutexOf(ctx, Here(1)) == Some(Here(0))
    ensures Pays(SignalUnderLock(), ctx, Here(1), SignalPermits, There(b), Actions(SignalUnderLock(), There(b))[i])
  {
    hide EffectAt, SignalUnderLock, DestPlace, PlaceOf;
    NotifierEffects();
    var a := Actions(SignalUnderLock(), There(b))[i];
    FlatPlaces(SignalUnderLock(), NOTIFIER, 0, b, if a.dest.ToBlock? then a.dest.b else 0);
    if a.dest.ToReturn? {
      ReturnsHome(NOTIFIER, 0, b);
    }
  }

  lemma SignalActs(pt: Point)
    requires IsPoint(SignalUnderLock(), pt)
    ensures EffectAt(SignalUnderLock(), pt.thread, pt.stack).Some? && forall t: ThreadName :: !JoinsAt(SignalUnderLock(), pt, t)
    ensures WaitAt(SignalUnderLock(), pt) == if pt == Here(4) then Some(Wait(Here(1), Here(0), ToBlock(5))) else None
    ensures forall m: Point, i: nat :: !Sets(SignalUnderLock(), m, pt, i)
  {
    hide EffectAt, IsPoint, SignalUnderLock, MainCells, NotifierCells;
    SignalPoints(pt);
    MainBegins();
    MainEnds();
    NotifierEffects();
  }

  lemma SignalAccepted()
    ensures Translatable(SignalUnderLock())
  {
    hide EffectAt, IsPoint, JoinsAt, WaitAt;
    var prog := SignalUnderLock();
    assert FunctionOk(prog, 0) && FunctionOk(prog, 1);
    forall pt | IsPoint(prog, pt)
      ensures EffectAt(prog, pt.thread, pt.stack).Some? && (pt != Here(4) ==> WaitAt(prog, pt).None?) && forall t: ThreadName :: !JoinsAt(prog, pt, t)
    {
      SignalActs(pt);
    }
  }

  /** The only wait is that of the main thread, and no mutex is ever set. */
  lemma SignalContext(net: ProgramNet, ctx: Context)
    requires IsNetOf(SignalUnderLock(), net, ctx)
    ensures ctx.waits == map[Here(1) := WaitLink(Here(4), Wait(Here(1), Here(0), ToBlock(5)))] && ctx.conditions == {}
  {
    hide EffectAt, EdgeOf, Tokens, IsPlaceOf, IsThread, CreatesMutex, IsPoint, WaitAt, Sets, SignalUnderLock;
    var prog := SignalUnderLock();
    forall pt: Point | IsPoint(prog, pt)
      ensures WaitAt(prog, pt) == if pt == Here(4) then Some(Wait(Here(1), Here(0), ToBlock(5))) else None
      ensures forall m: Point, i: nat :: !Sets(prog, m, pt, i)
    {
      SignalActs(pt);
    }
    WaitIsThere();
    assert forall c :: c in ctx.conditions ==> (c.0, c.1) in ctx.conditions && IsConditionPair(prog, c.0, c.1);
  }

  lemma WaitIsThere()
    ensures IsPoint(SignalUnderLock(), Here(4)) && IsPoint(SignalUnderLock(), Here(1))
  {
  }

  /** wait_enabled <= 1 in every marking: the signal is only received by a waiting thread. */
  lemma SignalIsInTime(net: ProgramNet, ctx: Context)
    requires IsNetOf(SignalUnderLock(), net, ctx)
    ensures Translatable(SignalUnderLock())
    ensures Permitted(SignalUnderLock(), ctx, Here(1), SignalPermits) && Bounded(net, WaitEnabled(Here(1)))
  {
    hide IsNetOf, Actions, Bounded, Pays, WaitPays, EffectAt, Translatable;
    var prog := SignalUnderLock();
    SignalAccepted();
    SignalContext(net, ctx);
    forall pt: Point, i: nat | IsPoint(prog, pt) && pt.stack != [] && i < |Actions(prog, pt)|
      ensures Pays(prog, ctx, Here(1), SignalPermits, pt, Actions(prog, pt)[i])
    {
      SignalPoints(pt);
      if b: nat :| b < 7 && pt == Here(b) {
        MainPays(ctx, b, i);
      } else {
        var b: nat :| b < 4 && pt == There(b);
        NotifierPays(ctx, b, i);
      }
    }
    WaiterPays(ctx);
    WaitIsThere();
    PermittedIsBounded(prog, net, ctx, Here(1), SignalPermits);
  }

  lemma WaiterPays(ctx: Context)
    requires ctx.waits == map[Here(1) := WaitLink(Here(4), Wait(Here(1), Here(0), ToBlock(5)))] && ctx.conditions == {}
    ensures WaitPays(SignalUnderLock(), ctx, Here(1), SignalPermits, Here(1))
  {
    hide DestPlace, PlaceOf, SignalUnderLock;
    FlatPlaces(SignalUnderLock(), MainThread, 1, 4, 5);
  }
}
