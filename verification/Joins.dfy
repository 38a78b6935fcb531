/** Which joins wait: the arc from the end of a thread to its join exists exactly if the join is in the thread that
    spawned it. A join in any other thread goes on at once. */
module Joins {
  import opened Wrappers
  import opened PetriNets
  import opened Mir
  import opened ControlPoints
  import opened AliasMemory
  import opened Blueprint
  import opened CallEffects
  import opened Worlds
  import opened Frames
  import opened Progress
  import opened Points
  import opened Aliases
  import opened NetLaws
  import opened Condvars
  import opened Witnesses

  /** A join waits for its thread exactly if it is in the thread that spawned it. */
  lemma JoinWaitsIffLocal(prog: Program, net: ProgramNet, ctx: Context, pt: Point, i: nat)
    requires Translatable(prog) && IsNetOf(prog, net, ctx) && IsPoint(prog, pt) && i < |Actions(prog, pt)| && Actions(prog, pt)[i].JoinThread?
    ensures TransRef(pt, i) in net.transitions && Actions(prog, pt)[i].thread.Spawned?
    ensures ThreadEnd(Actions(prog, pt)[i].thread) in net.transitions[TransRef(pt, i)].pre <==> Actions(prog, pt)[i].thread.parent == pt.thread
  {
    hide EffectAt, IsPoint, IsThread, EdgeOf, EdgeOfAction, Tokens, IsPlaceOf, Home, Faulty, WellFormed, IsConditionPair;
    EffectDefined(prog, pt);
    AliasSoundness(prog, net, ctx, pt);
    var t := Actions(prog, pt)[i].thread;
    assert SoundAction(prog, Actions(prog, pt)[i]);
    EdgeOfPoint(prog, net, ctx, TransRef(pt, i));
    ControlCounts(prog, ctx, pt, Actions(prog, pt)[i], ThreadEnd(t));
  }

  // ---------------------------------------------------------------------------------------------
  // A join that does not wait

  /** The main thread spawns a worker and hands its join handle to a second thread, which joins the worker. */
  function Handover(): Program {
    var worker := Function("worker", [Block([], Return)], {}, {}, []);
    var joiner := Function("joiner",
      [Block([], Call(ThreadJoin, [Move(Place(1, [Field(0)]))], Place(2, []), Some(1), Continue)), Block([], Return)],
      {Place(1, [Field(0)])}, {}, [Place(1, [Field(0)])]);
    var main := Function("main",
      [Block([], Call(ThreadSpawn(0), [Constant], Place(1, []), Some(1), Continue)),
       Block([Assign(Place(2, []), Aggregate([Move(Place(1, []))]))],
             Call(ThreadSpawn(1), [Move(Place(2, []))], Place(3, []), Some(2), Continue)),
       Block([], Return)],
      {Place(1, []), Place(3, [])}, {}, []);
    Program([worker, joiner, main], 2)
  }

  const WORKER := Spawned(MainThread, [Site(2, 0)])
  const JOINER := Spawned(MainThread, [Site(2, 1)])

  lemma SpawnsWorker()
    ensures var handle: Cells := map[Place(1, []) := JoinHandle(WORKER)];
      EffectAt(Handover(), MainThread, [Site(2, 0)]) == Some(Effect([SpawnThread(WORKER, 0, [], ToBlock(1))], handle, None))
  {
    hide EffectAt, CellsBefore, CallEffect;
    var prog, fr := Handover(), Frame(MainThread, [], 2);
    var fn := prog.functions[2];
    assert fr.At(0).stack == [Site(2, 0)];
    MainStartsEmpty();
    EffectIs(prog, fr, 0, map[]);
    SpawnIs(fn, fr.At(0), map[], fn.blocks[0].terminator);
    assert [SpawnThread(WORKER, 0, [], ToBlock(1))] + CleanupActions(Ends(ToBlock(1), None)) == [SpawnThread(WORKER, 0, [], ToBlock(1))];
  }

  lemma MainStartsEmpty()
    ensures CellsBefore(Handover(), MainThread, [], 2, 0) == Some(map[])
  {
  }

  lemma HandleIsBundled()
    ensures var handle: Cells := map[Place(1, []) := JoinHandle(WORKER)];
      StatementsCells(Handover().functions[2], handle, Handover().functions[2].blocks[1].statements)
      == Some(handle[Place(2, []) := Bundle([JoinHandle(WORKER)])])
  {
    var fn := Handover().functions[2];
    var handle: Cells := map[Place(1, []) := JoinHandle(WORKER)];
    var operands := [Move(Place(1, []))];
    assert operands[..0] == [] && SyncOperands(fn, operands) == [Place(1, [])];
    assert [Place(1, [])][..0] == [] && [] + [JoinHandle(WORKER)] == [JoinHandle(WORKER)];
    assert ValuesOf(handle, []) == Some([]);
    assert ValuesOf(handle, [Place(1, [])]) == Some([JoinHandle(WORKER)]);
    assert fn.blocks[1].statements[..0] == [];
  }

  lemma SpawnsJoiner()
    ensures EffectAt(Handover(), MainThread, [Site(2, 1)]).Some?
    ensures EffectAt(Handover(), MainThread, [Site(2, 1)]).value.actions == [SpawnThread(JOINER, 1, [JoinHandle(WORKER)], ToBlock(2))]
  {
    hide EffectAt, CellsBefore, CallEffect, StatementsCells;
    var prog, fr := Handover(), Frame(MainThread, [], 2);
    var fn := prog.functions[2];
    var handle: Cells := map[Place(1, []) := JoinHandle(WORKER)];
    var bundled := handle[Place(2, []) := Bundle([JoinHandle(WORKER)])];
    assert fr.At(0).stack == [Site(2, 0)] && fr.At(1).stack == [Site(2, 1)];
    SpawnsWorker();
    CellsNext(prog, fr, 0);
    EffectIs(prog, fr, 1, handle);
    HandleIsBundled();
    SpawnIs(fn, fr.At(1), bundled, fn.blocks[1].terminator);
    var spawn := SpawnThread(JOINER, 1, [JoinHandle(WORKER)], ToBlock(2));
    assert [spawn] + CleanupActions(Ends(ToBlock(2), None)) == [spawn];
  }

  lemma JoinerJoins()
    ensures EffectAt(Handover(), JOINER, [Site(1, 0)]).Some?
    ensures EffectAt(Handover(), JOINER, [Site(1, 0)]).value.actions == [JoinThread(WORKER, ToBlock(1))]
  {
    hide EffectAt, CallEffect;
    var prog, fr := Handover(), Frame(JOINER, [], 1);
    var fn, field := prog.functions[1], Place(1, [Field(0)]);
    var cells: Cells := map[CLOSURE := Bundle([JoinHandle(WORKER)])];
    assert fr.At(0).stack == [Site(1, 0)];
    SpawnsJoiner();
    assert [field][..0] == [] && fn.debugPlaces == [field];
    assert FieldNumber(field) == Some(0);
    assert CapturesLinked(cells, []) == Some(cells);
    assert LinkedField(cells, field, CLOSURE, 0) == Some(cells[field := JoinHandle(WORKER)]);
    assert ThreadCells(fn, [JoinHandle(WORKER)]) == Some(cells[field := JoinHandle(WORKER)]);
    assert CellsBefore(prog, JOINER, [], 1, 0) == Some(cells[field := JoinHandle(WORKER)]);
    EffectIs(prog, fr, 0, cells[field := JoinHandle(WORKER)]);
    JoinIs(fn, fr.At(0), cells[field := JoinHandle(WORKER)], fn.blocks[0].terminator);
  }

  lemma LastBlocksReturn()
    ensures EffectAt(Handover(), MainThread, [Site(2, 2)]).Some? && Actions(Handover(), Point(MainThread, [Site(2, 2)])) == [Flow(ToReturn)]
    ensures EffectAt(Handover(), JOINER, [Site(1, 1)]).Some? && Actions(Handover(), Point(JOINER, [Site(1, 1)])) == [Flow(ToReturn)]
    ensures WaitAt(Handover(), Point(MainThread, [Site(2, 2)])).None? && WaitAt(Handover(), Point(JOINER, [Site(1, 1)])).None?
  {
    hide EffectAt, CellsBefore;
    var prog, main, joiner := Handover(), Frame(MainThread, [], 2), Frame(JOINER, [], 1);
    assert main.At(1).stack == [Site(2, 1)] && main.At(2).stack == [Site(2, 2)];
    assert joiner.At(0).stack == [Site(1, 0)] && joiner.At(1).stack == [Site(1, 1)];
    SpawnsJoiner();
    CellsNext(prog, main, 1);
    EffectIs(prog, main, 2, CellsBefore(prog, MainThread, [], 2, 2).value);
    JoinerJoins();
    CellsNext(prog, joiner, 0);
    EffectIs(prog, joiner, 1, CellsBefore(prog, JOINER, [], 1, 1).value);
  }

  lemma WorkerReturns()
    ensures EffectAt(Handover(), WORKER, [Site(0, 0)]).Some? && Actions(Handover(), Point(WORKER, [Site(0, 0)])) == [Flow(ToReturn)]
    ensures WaitAt(Handover(), Point(WORKER, [Site(0, 0)])).None?
  {
    hide EffectAt;
    var prog, worker := Handover(), Frame(WORKER, [], 0);
    assert worker.At(0).stack == [Site(0, 0)];
    SpawnsWorker();
    assert ThreadCells(prog.functions[0], []) == Some(map[CLOSURE := Bundle([])]);
    assert CellsBefore(prog, WORKER, [], 0, 0) == Some(map[CLOSURE := Bundle([])]);
    EffectIs(prog, worker, 0, map[CLOSURE := Bundle([])]);
  }

  /** The threads of the program. */
  lemma {:induction false} HandoverThreads(t: ThreadName)
    requires IsThread(Handover(), t)
    ensures t == MainThread || t == WORKER || t == JOINER
    ensures Root(Handover(), t) == if t == MainThread then 2 else if t == WORKER then 0 else 1
    decreases t
  {
    hide EffectAt;
    SpawnsWorker();
    SpawnsJoiner();
    if t.Spawned? {
      assert Flat(Handover());
      FlatThread(Handover(), t);
      HandoverThreads(t.parent);
    }
  }

  /** The points of the program, and what they do. */
  lemma HandoverPoints(pt: Point)
    requires IsPoint(Handover(), pt)
    ensures pt in {Point(MainThread, [Site(2, 0)]), Point(MainThread, [Site(2, 1)]), Point(MainThread, [Site(2, 2)]), Point(WORKER, [Site(0, 0)]),
                   Point(JOINER, [Site(1, 0)]), Point(JOINER, [Site(1, 1)])}
  {
    hide EffectAt, Root;
    assert Flat(Handover());
    FlatPoint(Handover(), pt);
    HandoverThreads(pt.thread);
  }

  lemma HandoverActs(pt: Point)
    requires IsPoint(Handover(), pt)
    ensures EffectAt(Handover(), pt.thread, pt.stack).Some? && WaitAt(Handover(), pt).None?
    ensures pt != Point(JOINER, [Site(1, 0)]) ==> forall t: ThreadName :: !JoinsAt(Handover(), pt, t)
  {
    hide EffectAt, IsPoint;
    HandoverPoints(pt);
    SpawnsWorker();
    SpawnsJoiner();
    JoinerJoins();
    WorkerReturns();
    LastBlocksReturn();
    HandoverWaits();
  }

  lemma HandoverWaits()
    ensures WaitAt(Handover(), Point(MainThread, [Site(2, 1)])).None? && WaitAt(Handover(), Point(JOINER, [Site(1, 0)])).None?
  {
    hide EffectAt;
    if WaitAt(Handover(), Point(MainThread, [Site(2, 1)])).Some? {
      WaitShape(Handover(), Point(MainThread, [Site(2, 1)]));
    }
    if WaitAt(Handover(), Point(JOINER, [Site(1, 0)])).Some? {
      WaitShape(Handover(), Point(JOINER, [Site(1, 0)]));
    }
  }

  lemma HandoverAccepted()
    ensures Translatable(Handover())
  {
    hide EffectAt, IsPoint, JoinsAt, WaitAt;
    var prog := Handover();
    assert FunctionOk(prog, 0) && FunctionOk(prog, 1) && FunctionOk(prog, 2);
    forall pt | IsPoint(prog, pt)
      ensures EffectAt(prog, pt.thread, pt.stack).Some? && WaitAt(prog, pt).None?
      ensures pt != Point(JOINER, [Site(1, 0)]) ==> forall t: ThreadName :: !JoinsAt(prog, pt, t)
    {
      HandoverActs(pt);
    }
  }

  // ---------------------------------------------------------------------------------------------
  // A run in which the join does not wait

  function ThreadPlace(t: ThreadName, f: nat, b: nat): PlaceRef {
    Control(t, [Site(f, b)])
  }

  lemma HandoverIsThere()
    ensures IsPoint(Handover(), Point(MainThread, [Site(2, 0)])) && IsPoint(Handover(), Point(MainThread, [Site(2, 1)]))
    ensures IsThread(Handover(), WORKER) && IsThread(Handover(), JOINER) && IsPoint(Handover(), Point(JOINER, [Site(1, 0)]))
  {
    hide EffectAt;
    SpawnsWorker();
    SpawnsJoiner();
  }

  /** The transitions of the two spawns and of the join: the join has no arc from the end of the worker. */
  lemma HandoverEdges(net: ProgramNet, ctx: Context)
    requires IsNetOf(Handover(), net, ctx)
    ensures var spawn, second, join := TransRef(Point(MainThread, [Site(2, 0)]), 0), TransRef(Point(MainThread, [Site(2, 1)]), 0), TransRef(Point(JOINER, [Site(1, 0)]), 0);
      && spawn in net.transitions && net.transitions[spawn]
           == Transition(multiset{ThreadPlace(MainThread, 2, 0)}, multiset{ThreadPlace(MainThread, 2, 1)} + multiset{ThreadPlace(WORKER, 0, 0)})
      && second in net.transitions && net.transitions[second]
           == Transition(multiset{ThreadPlace(MainThread, 2, 1)}, multiset{ThreadPlace(MainThread, 2, 2)} + multiset{ThreadPlace(JOINER, 1, 0)})
      && join in net.transitions && net.transitions[join] == Transition(multiset{ThreadPlace(JOINER, 1, 0)}, multiset{ThreadPlace(JOINER, 1, 1)})
  {
    hide EffectAt, IsPoint, IsThread, IsNetOf, Handover;
    HandoverIsThere();
    SpawnsWorker();
    SpawnsJoiner();
    JoinerJoins();
    SpawnEdge(Handover(), net, ctx, MainThread, 2, 0, WORKER, 0, [], 1);
    SpawnEdge(Handover(), net, ctx, MainThread, 2, 1, JOINER, 1, [JoinHandle(WORKER)], 2);
    JoinEdge(Handover(), net, ctx, JOINER, 1, 0, WORKER, 1);
  }

  lemma FlatPlaces(prog: Program, t: ThreadName, f: nat, b: nat, c: nat)
    ensures PlaceOf(t, [Site(f, b)]) == ThreadPlace(t, f, b) && DestPlace(prog, Point(t, [Site(f, b)]), ToBlock(c)) == ThreadPlace(t, f, c)
  {
    assert [Site(f, b)][..0] == [] && [] + [Site(f, c)] == [Site(f, c)];
  }

  lemma SpawnEdge(prog: Program, net: ProgramNet, ctx: Context, t: ThreadName, f: nat, b: nat, spawned: ThreadName, g: nat, values: seq<Value>, c: nat)
    requires IsNetOf(prog, net, ctx) && IsPoint(prog, Point(t, [Site(f, b)])) && spawned.Spawned? && IsThread(prog, spawned)
    requires Actions(prog, Point(t, [Site(f, b)])) == [SpawnThread(spawned, g, values, ToBlock(c))]
    ensures TransRef(Point(t, [Site(f, b)]), 0) in net.transitions
    ensures net.transitions[TransRef(Point(t, [Site(f, b)]), 0)]
         == Transition(multiset{ThreadPlace(t, f, b)}, multiset{ThreadPlace(t, f, c)} + multiset{ThreadPlace(spawned, g, 0)})
  {
    hide IsPoint, IsThread, EdgeOf, Tokens, IsPlaceOf, IsConditionPair, WaitAt, Actions, DestPlace, PlaceOf;
    FlatPlaces(prog, t, f, b, c);
    EdgeOfPoint(prog, net, ctx, TransRef(Point(t, [Site(f, b)]), 0));
  }

  lemma JoinEdge(prog: Program, net: ProgramNet, ctx: Context, t: ThreadName, f: nat, b: nat, joined: ThreadName, c: nat)
    requires IsNetOf(prog, net, ctx) && IsPoint(prog, Point(t, [Site(f, b)])) && joined.Spawned? && joined.parent != t
    requires Actions(prog, Point(t, [Site(f, b)])) == [JoinThread(joined, ToBlock(c))]
    ensures TransRef(Point(t, [Site(f, b)]), 0) in net.transitions
    ensures net.transitions[TransRef(Point(t, [Site(f, b)]), 0)] == Transition(multiset{ThreadPlace(t, f, b)}, multiset{ThreadPlace(t, f, c)})
  {
    hide IsPoint, IsThread, EdgeOf, Tokens, IsPlaceOf, IsConditionPair, WaitAt, Actions, DestPlace, PlaceOf, IsContext;
    FlatPlaces(prog, t, f, b, c);
    EdgeOfPoint(prog, net, ctx, TransRef(Point(t, [Site(f, b)]), 0));
    assert multiset{ThreadPlace(t, f, b)} + multiset{} == multiset{ThreadPlace(t, f, b)};
  }

  /** The join of the worker goes on while the worker has not even started to run. */
  lemma JoinElsewhere(net: ProgramNet, ctx: Context, m0: multiset<PlaceRef>) returns (m: multiset<PlaceRef>)
    requires IsNetOf(Handover(), net, ctx) && IsInitial(net, m0)
    ensures Translatable(Handover())
    ensures IsPoint(Handover(), Point(JOINER, [Site(1, 0)])) && Actions(Handover(), Point(JOINER, [Site(1, 0)])) == [JoinThread(WORKER, ToBlock(1))]
    ensures Reachable(net, m) && ThreadPlace(JOINER, 1, 1) in m && ThreadPlace(WORKER, 0, 0) in m && ThreadEnd(WORKER) !in m
  {
    hide IsNetOf, EffectAt, IsPoint, Translatable, Reachable, IsThread;
    HandoverAccepted();
    HandoverIsThere();
    JoinerJoins();
    HandoverEdges(net, ctx);
    StartIsReachable(net, m0);
    HandoverStart(net, ctx, m0);
    var spawn, second, join := TransRef(Point(MainThread, [Site(2, 0)]), 0), TransRef(Point(MainThread, [Site(2, 1)]), 0), TransRef(Point(JOINER, [Site(1, 0)]), 0);
    ReachableStep(net, m0, spawn);
    var m1 := Fire(net, m0, spawn);
    ReachableStep(net, m1, second);
    var m2 := Fire(net, m1, second);
    ReachableStep(net, m2, join);
    m := Fire(net, m2, join);
  }

  lemma HandoverStart(net: ProgramNet, ctx: Context, m0: multiset<PlaceRef>)
    requires IsNetOf(Handover(), net, ctx) && IsInitial(net, m0)
    ensures ThreadPlace(MainThread, 2, 0) in m0 && ThreadEnd(WORKER) !in m0
  {
    hide IsNetOf, IsPoint;
    HandoverIsThere();
    StartTokens(Handover(), net, ctx, m0, ThreadPlace(MainThread, 2, 0));
    StartTokens(Handover(), net, ctx, m0, ThreadEnd(WORKER));
  }
}
