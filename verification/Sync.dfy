/** How assignments and calls move synchronisation objects through the memory of a frame. */
module SyncVariables {
  import opened Wrappers
  import opened Mir
  import opened ControlPoints
  import opened AliasMemory
  import opened Blueprint

  method LinkIfSyncVariable(fn: Function, memory: Memory, place: Place, linked: Place) returns (ok: bool)
    modifies memory
    ensures ok == LinkedIfSync(fn, old(memory.cells), place, linked).Some?
    ensures ok ==> Some(memory.cells) == LinkedIfSync(fn, old(memory.cells), place, linked)
  {
    if place !in fn.syncPlaces {
      return true;
    }
    if IsIndirect(linked) {
      var field := FieldNumber(linked);
      if field.None? {
        return false;
      }
      ok := memory.LinkFieldInAggregate(place, Place(linked.local, []), field.value);
    } else {
      ok := memory.LinkPlaceToSameValue(place, linked);
    }
  }

  /** The values an assignment from a place can have. */
  predicate ReadsPlace(rvalue: Rvalue, from: Place) {
    rvalue == Use(Copy(from)) || rvalue == Use(Move(from)) || rvalue == Ref(from)
  }

  /** An assignment to a place of a synchronisation type makes it an alias of the other place, if that has no dereference. */
  lemma AliasAssigned(fn: Function, cells: Cells, place: Place, from: Place, rvalue: Rvalue)
    requires place in fn.syncPlaces && ReadsPlace(rvalue, from) && forall i :: 0 <= i < |from.projection| ==> from.projection[i] != Deref
    ensures StatementCells(fn, cells, Assign(place, rvalue)) == if from in cells then Some(cells[place := cells[from]]) else None
  {
  }

  /** Behind a dereference it reads the first field of the projection from the aggregate of the local, whatever comes before
      the field; without a field it fails. */
  lemma FieldAssigned(fn: Function, cells: Cells, place: Place, from: Place, rvalue: Rvalue, i: nat, n: nat)
    requires place in fn.syncPlaces && ReadsPlace(rvalue, from) && Deref in from.projection && IsFirstField(from.projection, i, n)
    ensures var base := Place(from.local, []);
      StatementCells(fn, cells, Assign(place, rvalue))
      == if base in cells && cells[base].Bundle? && n < |cells[base].values| && place !in cells then Some(cells[place := cells[base].values[n]]) else None
  {
    hide FirstField;
    FirstFieldIs(from.projection, i, n);
  }

  lemma NoFieldAssigned(fn: Function, cells: Cells, place: Place, from: Place, rvalue: Rvalue)
    requires place in fn.syncPlaces && ReadsPlace(rvalue, from) && Deref in from.projection && NoField(from.projection)
    ensures StatementCells(fn, cells, Assign(place, rvalue)) == None
  {
    hide FirstField;
    NoFirstField(from.projection);
  }

  method LinkReturnValueIfSyncVariable(fn: Function, memory: Memory, args: seq<Operand>, destination: Place) returns (ok: bool)
    modifies memory
    ensures ok == LinkedReturn(fn, old(memory.cells), args, destination).Some?
    ensures ok ==> Some(memory.cells) == LinkedReturn(fn, old(memory.cells), args, destination)
  {
    var first := NthArgument(args, 0);
    if first.None? {
      return true;
    }
    ok := LinkIfSyncVariable(fn, memory, destination, first.value);
  }

  method HandleAggregateAssignment(fn: Function, memory: Memory, place: Place, operands: seq<Operand>) returns (ok: bool)
    modifies memory
    ensures ok == StatementCells(fn, old(memory.cells), Assign(place, Aggregate(operands))).Some?
    ensures ok ==> Some(memory.cells) == StatementCells(fn, old(memory.cells), Assign(place, Aggregate(operands)))
  {
    var places: seq<Place> := [];
    for i := 0 to |operands|
      invariant places == SyncOperands(fn, operands[..i])
      invariant memory.cells == old(memory.cells)
    {
      assert operands[..i + 1][..i] == operands[..i];
      if !operands[i].Constant? && operands[i].place in fn.syncPlaces {
        places := places + [operands[i].place];
      }
    }
    assert operands[..|operands|] == operands;
    ok := true;
    if places != [] {
      ok := memory.CreateAggregate(place, places);
    }
  }

  predicate HoldsSync(fn: Function, operand: Operand) {
    !operand.Constant? && operand.place in fn.syncPlaces
  }

  predicate AllLinked(fn: Function, cells: Cells, operands: seq<Operand>) {
    forall i :: 0 <= i < |operands| && HoldsSync(fn, operands[i]) ==> operands[i].place in cells
  }

  predicate NoneSync(fn: Function, operands: seq<Operand>) {
    forall i :: 0 <= i < |operands| ==> !HoldsSync(fn, operands[i])
  }

  /** The objects of the operands of a synchronisation type, in order. */
  function OperandValues(fn: Function, cells: Cells, operands: seq<Operand>): seq<Value>
    requires AllLinked(fn, cells, operands)
  {
    if operands == [] then []
    else if HoldsSync(fn, operands[0]) then [cells[operands[0].place]] + OperandValues(fn, cells, operands[1..])
    else OperandValues(fn, cells, operands[1..])
  }

  /** An aggregate without such operands is ignored. One with such operands is linked to their objects, in order, if all of
      them have one and the place is new; otherwise it fails. */
  lemma AggregateAssigned(fn: Function, cells: Cells, place: Place, operands: seq<Operand>)
    ensures StatementCells(fn, cells, Assign(place, Aggregate(operands))) ==
      if NoneSync(fn, operands) then Some(cells)
      else if place !in cells && AllLinked(fn, cells, operands) then Some(cells[place := Bundle(OperandValues(fn, cells, operands))])
      else None
  {
    hide SyncOperands, ValuesOf, OperandValues;
    AnyOperands(fn, operands);
    if AllLinked(fn, cells, operands) {
      OperandsFound(fn, cells, operands);
    } else {
      var i :| 0 <= i < |operands| && HoldsSync(fn, operands[i]) && operands[i].place !in cells;
      OperandMissing(fn, cells, operands, i);
    }
  }

  lemma OperandStep(fn: Function, operands: seq<Operand>, last: Operand)
    ensures SyncOperands(fn, operands + [last]) == SyncOperands(fn, operands) + if HoldsSync(fn, last) then [last.place] else []
  {
    assert (operands + [last])[..|operands|] == operands;
  }

  lemma ValuesStep(cells: Cells, places: seq<Place>, last: Place)
    ensures ValuesOf(cells, places + [last]) ==
      if ValuesOf(cells, places).Some? && last in cells then Some(ValuesOf(cells, places).value + [cells[last]]) else None
  {
    assert (places + [last])[..|places|] == places;
  }

  lemma {:induction false} AnyOperands(fn: Function, operands: seq<Operand>)
    ensures SyncOperands(fn, operands) == [] <==> NoneSync(fn, operands)
    decreases |operands|
  {
    hide HoldsSync;
    if operands != [] {
      var init, last := operands[..|operands| - 1], operands[|operands| - 1];
      assert operands == init + [last];
      OperandStep(fn, init, last);
      AnyOperands(fn, init);
    }
  }

  lemma {:induction false} OperandMissing(fn: Function, cells: Cells, operands: seq<Operand>, i: nat)
    requires i < |operands| && HoldsSync(fn, operands[i]) && operands[i].place !in cells
    ensures ValuesOf(cells, SyncOperands(fn, operands)).None?
    decreases |operands|
  {
    hide SyncOperands, ValuesOf;
    var init, last := operands[..|operands| - 1], operands[|operands| - 1];
    assert operands == init + [last];
    OperandStep(fn, init, last);
    if i < |init| {
      OperandMissing(fn, cells, init, i);
    }
    if HoldsSync(fn, last) {
      ValuesStep(cells, SyncOperands(fn, init), last.place);
    } else {
      assert SyncOperands(fn, init) + [] == SyncOperands(fn, init);
    }
  }

  lemma {:induction false} OperandsFound(fn: Function, cells: Cells, operands: seq<Operand>)
    requires AllLinked(fn, cells, operands)
    ensures ValuesOf(cells, SyncOperands(fn, operands)) == Some(OperandValues(fn, cells, operands))
    decreases |operands|
  {
    if operands != [] {
      var init, last := operands[..|operands| - 1], operands[|operands| - 1];
      assert operands == init + [last];
      OperandsFound(fn, cells, init);
      OperandStep(fn, init, last);
      ValuesOfLast(fn, cells, init, last);
      if HoldsSync(fn, last) {
        ValuesStep(cells, SyncOperands(fn, init), last.place);
      } else {
        assert SyncOperands(fn, init) + [] == SyncOperands(fn, init);
        assert OperandValues(fn, cells, init) + [] == OperandValues(fn, cells, init);
      }
    }
  }

  lemma {:induction false} ValuesOfLast(fn: Function, cells: Cells, operands: seq<Operand>, last: Operand)
    requires AllLinked(fn, cells, operands) && AllLinked(fn, cells, operands + [last]) && (HoldsSync(fn, last) ==> last.place in cells)
    ensures OperandValues(fn, cells, operands + [last]) == OperandValues(fn, cells, operands) + if HoldsSync(fn, last) then [cells[last.place]] else []
    decreases |operands|
  {
    if operands == [] {
      assert operands + [last] == [last] && [last][1..] == [];
    } else {
      assert (operands + [last])[1..] == operands[1..] + [last] && (operands + [last])[0] == operands[0];
      ValuesOfLast(fn, cells, operands[1..], last);
    }
  }

  method VisitAssign(fn: Function, memory: Memory, statement: Statement) returns (ok: bool)
    modifies memory
    ensures ok == StatementCells(fn, old(memory.cells), statement).Some?
    ensures ok ==> Some(memory.cells) == StatementCells(fn, old(memory.cells), statement)
  {
    match statement
    case Assign(place, Use(Copy(rhs))) => ok := LinkIfSyncVariable(fn, memory, place, rhs);
    case Assign(place, Use(Move(rhs))) => ok := LinkIfSyncVariable(fn, memory, place, rhs);
    case Assign(place, Ref(rhs)) => ok := LinkIfSyncVariable(fn, memory, place, rhs);
    case Assign(place, Aggregate(operands)) => ok := HandleAggregateAssignment(fn, memory, place, operands);
    case _ => ok := true;
  }

  method VisitStatements(fn: Function, memory: Memory, statements: seq<Statement>) returns (ok: bool)
    modifies memory
    ensures ok == StatementsCells(fn, old(memory.cells), statements).Some?
    ensures ok ==> Some(memory.cells) == StatementsCells(fn, old(memory.cells), statements)
  {
    for i := 0 to |statements|
      invariant StatementsCells(fn, old(memory.cells), statements[..i]) == Some(memory.cells)
    {
      assert statements[..i + 1][..i] == statements[..i];
      ok := VisitAssign(fn, memory, statements[i]);
      if !ok {
        FailedStatement(fn, old(memory.cells), statements, i + 1);
        return false;
      }
    }
    assert statements[..|statements|] == statements;
    ok := true;
  }

  lemma {:induction false} FailedStatement(fn: Function, cells: Cells, statements: seq<Statement>, n: nat)
    requires n <= |statements| && StatementsCells(fn, cells, statements[..n]).None?
    ensures StatementsCells(fn, cells, statements).None?
    decreases |statements|
  {
    if n == |statements| {
      assert statements[..n] == statements;
    } else {
      var before := statements[..|statements| - 1];
      assert before[..n] == statements[..n];
      FailedStatement(fn, cells, before, n);
    }
  }

  /** Moves the captured variables of a thread into the memory of the function it runs. */
  method MoveSyncVariables(fn: Function, memory: Memory, aggregate: seq<Value>) returns (ok: bool)
    requires memory.cells == map[]
    modifies memory
    ensures ok == ThreadCells(fn, aggregate).Some?
    ensures ok ==> Some(memory.cells) == ThreadCells(fn, aggregate)
  {
    ok := memory.LinkAggregate(CLOSURE, aggregate);
    var start := memory.cells;
    assert start == map[CLOSURE := Bundle(aggregate)];
    var places := fn.debugPlaces;
    for i := 0 to |places|
      invariant CapturesLinked(start, places[..i]) == Some(memory.cells)
    {
      assert places[..i + 1][..i] == places[..i];
      if places[i].local == 1 {
        var field := FieldNumber(places[i]);
        ok := false;
        if field.Some? {
          ok := memory.LinkFieldInAggregate(places[i], CLOSURE, field.value);
        }
        if !ok {
          FailedCapture(start, places, i + 1);
          return false;
        }
      }
    }
    assert places[..|places|] == places;
    ok := true;
  }

  lemma {:induction false} FailedCapture(cells: Cells, places: seq<Place>, n: nat)
    requires n <= |places| && CapturesLinked(cells, places[..n]).None?
    ensures CapturesLinked(cells, places).None?
    decreases |places|
  {
    if n == |places| {
      assert places[..n] == places;
    } else {
      var before := places[..|places| - 1];
      assert before[..n] == places[..n];
      FailedCapture(cells, before, n);
    }
  }
}
