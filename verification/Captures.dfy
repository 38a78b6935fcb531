/** Objects carried into a thread: an aggregate is built from the captured variables, copied at the spawn, relinked as
    the closure `_1` of the thread, and its fields `_1.k` are resolved there. */
module Captures {
  import opened Wrappers
  import opened Mir
  import opened ControlPoints
  import opened AliasMemory
  import opened Blueprint
  import opened SyncVariables
  import opened CallEffects
  import opened Worlds
  import opened Frames
  import opened Progress
  import opened Points
  import opened Links
  import opened Machine
  import opened Paths
  import opened Witnesses

  /** How many of the operands hold synchronisation objects. */
  function SyncCount(fn: Function, operands: seq<Operand>): nat {
    if operands == [] then 0
    else SyncCount(fn, operands[..|operands| - 1]) + if IsSyncOperand(fn, operands[|operands| - 1]) then 1 else 0
  }

  lemma {:induction false} SyncOperandCount(fn: Function, operands: seq<Operand>)
    ensures |SyncOperands(fn, operands)| == SyncCount(fn, operands)
  {
    if operands != [] {
      SyncOperandCount(fn, operands[..|operands| - 1]);
    }
  }

  /** The aggregate keeps the synchronisation operands only, in order: the position of the `k`-th of them. */
  function SyncPosition(fn: Function, operands: seq<Operand>, k: nat): (p: nat)
    requires k < SyncCount(fn, operands)
    ensures p < |operands| && IsSyncOperand(fn, operands[p]) && SyncCount(fn, operands[..p]) == k
  {
    var init := operands[..|operands| - 1];
    if k < SyncCount(fn, init) then
      var p := SyncPosition(fn, init, k);
      assert init[..p] == operands[..p];
      p
    else |operands| - 1
  }

  lemma {:induction false} SyncOperandAt(fn: Function, operands: seq<Operand>, k: nat)
    requires k < SyncCount(fn, operands)
    ensures k < |SyncOperands(fn, operands)| && SyncOperands(fn, operands)[k] == operands[SyncPosition(fn, operands, k)].place
  {
    var init := operands[..|operands| - 1];
    SyncOperandCount(fn, init);
    SyncOperandCount(fn, operands);
    if k < SyncCount(fn, init) {
      SyncOperandAt(fn, init, k);
    }
  }

  lemma {:induction false} NothingFiltered(fn: Function, operands: seq<Operand>)
    ensures SyncCount(fn, operands) <= |operands|
    ensures SyncCount(fn, operands) == |operands| <==> forall i :: 0 <= i < |operands| ==> IsSyncOperand(fn, operands[i])
  {
    if operands != [] {
      var before := operands[..|operands| - 1];
      NothingFiltered(fn, before);
      assert (forall i :: 0 <= i < |operands| ==> IsSyncOperand(fn, operands[i])) <==>
        (forall i :: 0 <= i < |before| ==> IsSyncOperand(fn, before[i])) && IsSyncOperand(fn, operands[|operands| - 1]);
    }
  }

  /** The memory of a thread resolves every captured field `_1.k` to element `k` of the aggregate. */
  lemma {:induction false} CapturesAre(aggregate: seq<Value>, places: seq<Place>)
    requires CapturesLinked(map[CLOSURE := Bundle(aggregate)], places).Some?
    ensures var cells := CapturesLinked(map[CLOSURE := Bundle(aggregate)], places).value;
      && CLOSURE in cells && cells[CLOSURE] == Bundle(aggregate)
      && forall place :: place in places && place.local == 1 ==>
           && FieldNumber(place).Some? && FieldNumber(place).value < |aggregate|
           && place in cells && cells[place] == aggregate[FieldNumber(place).value]
  {
    if places != [] {
      var before, last := places[..|places| - 1], places[|places| - 1];
      CapturesAre(aggregate, before);
      assert forall place :: place in places <==> place in before || place == last;
    }
  }

  /** The `k`-th synchronisation operand is operand `k` exactly if all operands up to `k` are of that kind. */
  lemma PositionIsKept(fn: Function, operands: seq<Operand>, k: nat)
    requires k < SyncCount(fn, operands)
    ensures k <= SyncPosition(fn, operands, k)
    ensures SyncPosition(fn, operands, k) == k <==> forall i :: 0 <= i <= k && i < |operands| ==> IsSyncOperand(fn, operands[i])
  {
    var p := SyncPosition(fn, operands, k);
    NothingFiltered(fn, operands[..p]);
    assert forall i :: 0 <= i < p ==> operands[..p][i] == operands[i];
    if k < p && forall i :: 0 <= i <= k && i < |operands| ==> IsSyncOperand(fn, operands[i]) {
      NothingFiltered(fn, operands[..k + 1]);
      assert forall i :: 0 <= i <= k ==> operands[..k + 1][i] == operands[i];
      CountGrows(fn, operands[..p], k + 1);
      assert operands[..p][..k + 1] == operands[..k + 1];
    }
  }

  lemma {:induction false} CountGrows(fn: Function, operands: seq<Operand>, n: nat)
    requires n <= |operands|
    ensures SyncCount(fn, operands[..n]) <= SyncCount(fn, operands)
    decreases |operands| - n
  {
    if n == |operands| {
      assert operands[..n] == operands;
    } else {
      CountGrows(fn, operands, n + 1);
      assert operands[..n + 1][..n] == operands[..n];
    }
  }

  // ---------------------------------------------------------------------------------------------
  // From the aggregate through the spawn to the thread

  /** A block that ends by building the closure from `operands` and passing it to a new thread. */
  ghost predicate SpawnsClosure(prog: Program, pt: Point, statements: seq<Statement>, dest: Place, operands: seq<Operand>)
    requires Located(prog, pt)
  {
    var block, end := FunctionAt(prog, pt).blocks[pt.stack[|pt.stack| - 1].b], EndOf(prog, pt);
    && block.statements == statements + [Assign(dest, Aggregate(operands))]
    && end.Call? && end.callee.ThreadSpawn? && CallEnds(end.returnTo, end.unwind).Ends? && NthArgument(end.args, 0) == Some(dest)
  }

  lemma ResultKeepsClosure(fn: Function, cells: Cells, args: seq<Operand>, destination: Place, dest: Place)
    requires NthArgument(args, 0) == Some(dest) && dest in cells && LinkedReturn(fn, cells, args, destination).Some?
    ensures var after := LinkedReturn(fn, cells, args, destination).value; dest in after && after[dest] == cells[dest]
  {
  }

  /** The values of the aggregate are those the thread is spawned with. */
  lemma SpawnedWith(prog: Program, pt: Point, statements: seq<Statement>, dest: Place, operands: seq<Operand>)
    requires Located(prog, pt) && EffectAt(prog, pt.thread, pt.stack).Some? && SpawnsClosure(prog, pt, statements, dest, operands)
    requires SyncOperands(FunctionAt(prog, pt), operands) != []
    ensures StatementsCells(FunctionAt(prog, pt), TranslatorBefore(prog, pt), statements).Some?
    ensures var cells := StatementsCells(FunctionAt(prog, pt), TranslatorBefore(prog, pt), statements).value;
      var values := ValuesOf(cells, SyncOperands(FunctionAt(prog, pt), operands));
      values.Some? && Actions(prog, pt) != [] && Actions(prog, pt)[0]
        == SpawnThread(Spawned(pt.thread, pt.stack), EndOf(prog, pt).callee.f, values.value, CallEnds(EndOf(prog, pt).returnTo, EndOf(prog, pt).unwind).end)
  {
    hide CellsBefore, LinkedReturn, SyncOperands, ValuesOf, CallEffect;
    var fn, end := FunctionAt(prog, pt), EndOf(prog, pt);
    var all := fn.blocks[pt.stack[|pt.stack| - 1].b].statements;
    assert all[..|all| - 1] == statements && all[|all| - 1] == Assign(dest, Aggregate(operands));
    var cells := TranslatorAtEnd(prog, pt);
    SpawnIs(fn, pt, cells, end);
    ResultKeepsClosure(fn, cells, end.args, end.destination, dest);
  }

  /** From the operands of the aggregate to the memory of the thread: the captured field `_1.k` is the object of the `k`-th
      operand that holds a synchronisation object; that is operand `k` exactly if all operands up to `k` hold one. */
  lemma AggregateTransfer(prog: Program, pt: Point, statements: seq<Statement>, dest: Place, operands: seq<Operand>, field: Place)
    requires Translatable(prog) && IsPoint(prog, pt) && Located(prog, pt) && SpawnsClosure(prog, pt, statements, dest, operands)
    requires SyncOperands(FunctionAt(prog, pt), operands) != []
    requires EndOf(prog, pt).callee.f < |prog.functions| && field in prog.functions[EndOf(prog, pt).callee.f].debugPlaces && field.local == 1
    ensures StatementsCells(FunctionAt(prog, pt), TranslatorBefore(prog, pt), statements).Some?
    ensures var fn, start := FunctionAt(prog, pt), Point(Spawned(pt.thread, pt.stack), [Site(EndOf(prog, pt).callee.f, 0)]);
      var cells, memory := StatementsCells(fn, TranslatorBefore(prog, pt), statements).value, TranslatorBefore(prog, start);
      && IsPoint(prog, start) && FieldNumber(field).Some?
      && var k := FieldNumber(field).value;
         && k < SyncCount(fn, operands) && field in memory
         && var p := SyncPosition(fn, operands, k);
            && operands[p].place in cells && memory[field] == cells[operands[p].place]
            && (p == k <==> forall i :: 0 <= i <= k && i < |operands| ==> IsSyncOperand(fn, operands[i]))
  {
    hide Translatable, IsPoint, EffectAt, CellsBefore, SyncOperands, ValuesOf, CapturesLinked, StatementsCells, SyncPosition, SyncCount;
    var fn, end := FunctionAt(prog, pt), EndOf(prog, pt);
    var places, t := SyncOperands(fn, operands), Spawned(pt.thread, pt.stack);
    EffectDefined(prog, pt);
    SpawnedWith(prog, pt, statements, dest, operands);
    var cells := StatementsCells(fn, TranslatorBefore(prog, pt), statements).value;
    var values := ValuesOf(cells, places).value;
    ClosureMemory(prog, pt, end.callee.f, values);
    ValuesAre(cells, places);
    CapturesAre(values, prog.functions[end.callee.f].debugPlaces);
    var k := FieldNumber(field).value;
    SyncOperandCount(fn, operands);
    SyncOperandAt(fn, operands, k);
    PositionIsKept(fn, operands, k);
  }

  /** The memory of a spawned thread at its start. */
  lemma ClosureMemory(prog: Program, pt: Point, f: nat, values: seq<Value>)
    requires Translatable(prog) && IsPoint(prog, pt) && f < |prog.functions|
    requires Actions(prog, pt) != [] && Actions(prog, pt)[0].SpawnThread? && Actions(prog, pt)[0].f == f && Actions(prog, pt)[0].aggregate == values
    ensures var start := Point(Spawned(pt.thread, pt.stack), [Site(f, 0)]);
      && IsPoint(prog, start) && ThreadCells(prog.functions[f], values).Some?
      && TranslatorBefore(prog, start) == ThreadCells(prog.functions[f], values).value
  {
    hide IsPoint, CapturesLinked, StatementsCells, TerminatorEffect;
    var t := Spawned(pt.thread, pt.stack);
    assert IsThread(prog, t) by { SpawnIsThread(prog, pt); }
    Accepted(prog);
    ThreadStart(prog, t);
    var start := Point(t, [Site(f, 0)]);
    EffectDefined(prog, start);
    assert start.stack[..0] == [];
  }

  /** What a spawned thread finds in its memory: the aggregate of the spawn at `_1`, and the captured fields that the debug
      information names, each of them the element of its field number. */
  lemma ThreadFindsClosure(prog: Program, pt: Point)
    requires Translatable(prog) && IsPoint(prog, pt) && Actions(prog, pt) != [] && Actions(prog, pt)[0].SpawnThread?
    ensures var spawn := Actions(prog, pt)[0];
      var start := Point(Spawned(pt.thread, pt.stack), [Site(spawn.f, 0)]);
      var memory := TranslatorBefore(prog, start);
      && spawn.f < |prog.functions| && IsPoint(prog, start)
      && Place(1, []) in memory && memory[Place(1, [])] == Bundle(spawn.aggregate)
      && (forall p :: p in memory <==> p == Place(1, []) || (p in prog.functions[spawn.f].debugPlaces && p.local == 1))
      && (forall p :: p in prog.functions[spawn.f].debugPlaces && p.local == 1 ==> !NoField(p.projection))
      && (forall p, i: nat, n: nat :: p in prog.functions[spawn.f].debugPlaces && p.local == 1 && IsFirstField(p.projection, i, n) ==>
            n < |spawn.aggregate| && p in memory && memory[p] == spawn.aggregate[n])
  {
    hide Translatable, IsPoint, EffectAt, CellsBefore, CapturesLinked, TranslatorBefore, NoField, IsFirstField, FirstField;
    var spawn := Actions(prog, pt)[0];
    Accepted(prog);
    SpawnedFunction(prog, pt);
    ClosureMemory(prog, pt, spawn.f, spawn.aggregate);
    CapturesFound(spawn.aggregate, prog.functions[spawn.f].debugPlaces);
  }

  lemma SpawnedFunction(prog: Program, pt: Point)
    requires Translatable(prog) && IsPoint(prog, pt) && Actions(prog, pt) != [] && Actions(prog, pt)[0].SpawnThread?
    ensures Actions(prog, pt)[0].f < |prog.functions|
  {
    hide EffectAt, IsPoint, Faulty, WellFormed;
    EffectDefined(prog, pt);
    EffectShape(prog, pt);
    var site := pt.stack[|pt.stack| - 1];
    LastSite(prog, pt);
    CalleeSmaller(prog, site.f, site.b);
  }

  lemma {:induction false} CapturesFound(aggregate: seq<Value>, places: seq<Place>)
    requires CapturesLinked(map[CLOSURE := Bundle(aggregate)], places).Some?
    ensures var cells := CapturesLinked(map[CLOSURE := Bundle(aggregate)], places).value;
      && Place(1, []) in cells && cells[Place(1, [])] == Bundle(aggregate)
      && (forall p :: p in cells <==> p == Place(1, []) || (p in places && p.local == 1))
      && (forall p :: p in places && p.local == 1 ==> !NoField(p.projection))
      && (forall p, i: nat, n: nat :: p in places && p.local == 1 && IsFirstField(p.projection, i, n) ==> n < |aggregate| && p in cells && cells[p] == aggregate[n])
  {
    hide FirstField, NoField, IsFirstField;
    if places != [] {
      var before, last := places[..|places| - 1], places[|places| - 1];
      CapturesFound(aggregate, before);
      assert forall p :: p in places <==> p in before || p == last;
      if NoField(last.projection) {
        NoFirstField(last.projection);
      }
      forall i: nat, n: nat | IsFirstField(last.projection, i, n) ensures FirstField(last.projection) == Some(n) {
        FirstFieldIs(last.projection, i, n);
      }
    }
  }

  /** Reading a field of the closure behind a dereference, as in `&(*(_1.k))`, gives the thread element `k` of the aggregate. */
  lemma ReadInThread(prog: Program, pt: Point, place: Place, from: Place, rvalue: Rvalue, i: nat, k: nat)
    requires Translatable(prog) && IsPoint(prog, pt) && Actions(prog, pt) != [] && Actions(prog, pt)[0].SpawnThread?
    requires Actions(prog, pt)[0].f < |prog.functions| && place in prog.functions[Actions(prog, pt)[0].f].syncPlaces
    requires from.local == 1 && Deref in from.projection && IsFirstField(from.projection, i, k) && ReadsPlace(rvalue, from)
    ensures var spawn := Actions(prog, pt)[0];
      var memory := TranslatorBefore(prog, Point(Spawned(pt.thread, pt.stack), [Site(spawn.f, 0)]));
      StatementCells(prog.functions[spawn.f], memory, Assign(place, rvalue))
      == if k < |spawn.aggregate| && place !in memory then Some(memory[place := spawn.aggregate[k]]) else None
  {
    hide Translatable, IsPoint, EffectAt, TranslatorBefore, NoField, IsFirstField, StatementCells, ReadsPlace;
    var spawn := Actions(prog, pt)[0];
    ThreadFindsClosure(prog, pt);
    var memory := TranslatorBefore(prog, Point(Spawned(pt.thread, pt.stack), [Site(spawn.f, 0)]));
    FieldAssigned(prog.functions[spawn.f], memory, place, from, rvalue, i, k);
  }

  /** If the debug information names every captured field, an accepted program captures synchronisation objects only, and
      every field is the operand of its position. */
  lemma CapturedInPlace(prog: Program, pt: Point, statements: seq<Statement>, dest: Place, operands: seq<Operand>, j: nat)
    requires Translatable(prog) && IsPoint(prog, pt) && Located(prog, pt) && SpawnsClosure(prog, pt, statements, dest, operands)
    requires SyncOperands(FunctionAt(prog, pt), operands) != []
    requires EndOf(prog, pt).callee.f < |prog.functions|
    requires forall k: nat :: k < |operands| ==> Place(1, [Field(k)]) in prog.functions[EndOf(prog, pt).callee.f].debugPlaces
    requires j < |operands|
    ensures StatementsCells(FunctionAt(prog, pt), TranslatorBefore(prog, pt), statements).Some?
    ensures var fn, start := FunctionAt(prog, pt), Point(Spawned(pt.thread, pt.stack), [Site(EndOf(prog, pt).callee.f, 0)]);
      var cells, memory := StatementsCells(fn, TranslatorBefore(prog, pt), statements).value, TranslatorBefore(prog, start);
      && IsSyncOperand(fn, operands[j]) && Place(1, [Field(j)]) in memory
      && operands[j].place in cells && memory[Place(1, [Field(j)])] == cells[operands[j].place]
  {
    hide Translatable, IsPoint, EffectAt, CellsBefore, SyncOperands, ValuesOf, CapturesLinked, StatementsCells, SyncPosition, SyncCount, TranslatorBefore;
    var fn, last := FunctionAt(prog, pt), |operands| - 1;
    AggregateTransfer(prog, pt, statements, dest, operands, Place(1, [Field(last)]));
    NothingFiltered(fn, operands);
    AggregateTransfer(prog, pt, statements, dest, operands, Place(1, [Field(j)]));
  }

  // ---------------------------------------------------------------------------------------------
  // A field that is not the operand of its position

  /** The main thread spawns a closure of a number and a mutex; the debug information of the thread names the number only. */
  function Shifted(): Program {
    var thread := Function("thread", [Block0(Return)], {}, {}, [Place(1, [Field(0)])]);
    var main := Function("main",
      [CallTo(MutexNew, [], 1, 1),
       Block([Assign(Local(2), Aggregate(NumberAndMutex()))], Call(ThreadSpawn(0), [Move(Local(2))], Local(3), Some(2), Continue)),
       Block0(Return)],
      {Local(1)}, {}, []);
    Program([thread, main], 1)
  }

  function NumberAndMutex(): seq<Operand> {
    [Copy(Local(5)), Move(Local(1))]
  }

  const HERE := Point(MainThread, [Site(1, 0)])
  const THREAD := Spawned(MainThread, [Site(1, 1)])

  lemma MutexIsBundled()
    ensures var one: Cells := map[Local(1) := Mutex(HERE)];
      StatementsCells(Shifted().functions[1], one, [Assign(Local(2), Aggregate(NumberAndMutex()))]) == Some(one[Local(2) := Bundle([Mutex(HERE)])])
  {
    hide ValuesOf, SyncOperands, StatementsCells;
    var fn, one: Cells := Shifted().functions[1], map[Local(1) := Mutex(HERE)];
    OneStatement(fn, one, Assign(Local(2), Aggregate(NumberAndMutex())));
    NumberIsFiltered();
    OneValue(one, Local(1));
  }

  lemma NumberIsFiltered()
    ensures SyncOperands(Shifted().functions[1], NumberAndMutex()) == [Local(1)]
  {
    var operands := NumberAndMutex();
    assert operands[..1] == [Copy(Local(5))] && operands[..1][..0] == [];
  }

  lemma OneValue(cells: Cells, p: Place)
    requires p in cells
    ensures ValuesOf(cells, [p]) == Some([cells[p]])
  {
    assert [p][..0] == [] && ValuesOf(cells, []) == Some([]) && [] + [cells[p]] == [cells[p]];
  }

  lemma ShiftedMain()
    ensures var prog, one: Cells := Shifted(), map[Local(1) := Mutex(HERE)];
      && CellsBefore(prog, MainThread, [], 1, 1) == Some(one)
      && EffectAt(prog, MainThread, [Site(1, 0)]).Some? && Actions(prog, HERE) == [Flow(ToBlock(1))] && WaitAt(prog, HERE).None?
      && EffectAt(prog, MainThread, [Site(1, 1)])
         == Some(Effect([SpawnThread(THREAD, 0, [Mutex(HERE)], ToBlock(2))], one[Local(2) := Bundle([Mutex(HERE)])][Local(3) := JoinHandle(THREAD)], None))
      && EffectAt(prog, MainThread, [Site(1, 2)]).Some? && Actions(prog, Point(MainThread, [Site(1, 2)])) == [Flow(ToReturn)]
      && WaitAt(prog, Point(MainThread, [Site(1, 2)])).None?
  {
    hide EffectAt, CellsBefore, CallEffect, StatementsCells;
    var prog, fr := Shifted(), Frame(MainThread, [], 1);
    var fn, one: Cells := prog.functions[1], map[Local(1) := Mutex(HERE)];
    var two := one[Local(2) := Bundle([Mutex(HERE)])];
    assert fr.At(0) == HERE && fr.At(1).stack == [Site(1, 1)] && fr.At(2).stack == [Site(1, 2)];
    ShiftedStart();
    EffectIs(prog, fr, 0, map[]);
    NoStatements(fn, map[]);
    MutexNewIs(fn, HERE, map[], fn.blocks[0].terminator);
    assert ShortCall(Ends(ToBlock(1), None)) == [Flow(ToBlock(1))];
    CellsNext(prog, fr, 0);
    EffectIs(prog, fr, 1, one);
    MutexIsBundled();
    SpawnIs(fn, fr.At(1), two, fn.blocks[1].terminator);
    var spawn := SpawnThread(THREAD, 0, [Mutex(HERE)], ToBlock(2));
    assert [spawn] + CleanupActions(Ends(ToBlock(2), None)) == [spawn];
    CellsNext(prog, fr, 1);
    EffectIs(prog, fr, 2, two[Local(3) := JoinHandle(THREAD)]);
    NoStatements(fn, two[Local(3) := JoinHandle(THREAD)]);
  }

  lemma ShiftedStart()
    ensures CellsBefore(Shifted(), MainThread, [], 1, 0) == Some(map[])
  {
  }

  lemma NoStatements(fn: Function, cells: Cells)
    ensures StatementsCells(fn, cells, []) == Some(cells)
  {
  }

  /** The field of the number is taken for the mutex. */
  lemma ShiftedThread()
    ensures var cells: Cells := map[CLOSURE := Bundle([Mutex(HERE)]), Place(1, [Field(0)]) := Mutex(HERE)];
      && CellsBefore(Shifted(), THREAD, [], 0, 0) == Some(cells)
      && EffectAt(Shifted(), THREAD, [Site(0, 0)]).Some? && Actions(Shifted(), Point(THREAD, [Site(0, 0)])) == [Flow(ToReturn)]
      && WaitAt(Shifted(), Point(THREAD, [Site(0, 0)])).None?
  {
    hide EffectAt;
    var prog, fr, field := Shifted(), Frame(THREAD, [], 0), Place(1, [Field(0)]);
    var closure: Cells := map[CLOSURE := Bundle([Mutex(HERE)])];
    assert fr.At(0).stack == [Site(0, 0)];
    ShiftedMain();
    assert [field][..0] == [] && FieldNumber(field) == Some(0) && CapturesLinked(closure, []) == Some(closure);
    assert LinkedField(closure, field, CLOSURE, 0) == Some(closure[field := Mutex(HERE)]);
    assert ThreadCells(prog.functions[0], [Mutex(HERE)]) == Some(closure[field := Mutex(HERE)]);
    EffectIs(prog, fr, 0, closure[field := Mutex(HERE)]);
  }

  lemma {:induction false} ShiftedThreads(t: ThreadName)
    requires IsThread(Shifted(), t)
    ensures (t == MainThread || t == THREAD) && Root(Shifted(), t) == if t == MainThread then 1 else 0
    decreases t
  {
    hide EffectAt;
    ShiftedMain();
    if t.Spawned? {
      assert Flat(Shifted());
      FlatThread(Shifted(), t);
      ShiftedThreads(t.parent);
    }
  }

  lemma ShiftedActs(pt: Point)
    requires IsPoint(Shifted(), pt)
    ensures EffectAt(Shifted(), pt.thread, pt.stack).Some? && WaitAt(Shifted(), pt).None? && forall t: ThreadName :: !JoinsAt(Shifted(), pt, t)
  {
    hide EffectAt, Root;
    assert Flat(Shifted());
    FlatPoint(Shifted(), pt);
    ShiftedThreads(pt.thread);
    ShiftedMain();
    ShiftedThread();
  }

  /** An accepted program in which the captured field 0 is operand 1, because operand 0 holds no synchronisation object. */
  lemma FieldIsShifted()
    ensures Translatable(Shifted())
    ensures var cells := CellsBefore(Shifted(), THREAD, [], 0, 0);
      && cells.Some? && !IsSyncOperand(Shifted().functions[1], NumberAndMutex()[0])
      && Lookup(cells.value, Place(1, [Field(0)])) == Some(Mutex(HERE)) && Place(1, [Field(0)]) in Shifted().functions[0].debugPlaces
  {
    hide EffectAt, IsPoint, JoinsAt, WaitAt;
    var prog := Shifted();
    assert FunctionOk(prog, 0) && FunctionOk(prog, 1);
    forall pt | IsPoint(prog, pt) ensures EffectAt(prog, pt.thread, pt.stack).Some? && WaitAt(prog, pt).None? && forall t: ThreadName :: !JoinsAt(prog, pt, t) {
      ShiftedActs(pt);
    }
    ShiftedThread();
  }
}
