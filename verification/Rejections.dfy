/** Which programs the translator gives up on: at every block, the operands for which there is no way to go on. */
module Rejections {
  import opened Wrappers
  import opened Mir
  import opened ControlPoints
  import opened AliasMemory
  import opened Blueprint
  import opened CallEffects
  import opened SyncVariables
  import opened Points
  import opened Links

  /** The object a place is linked to when it is assigned from another one; `None` if there is none. */
  ghost predicate HasObject(cells: Cells, place: Place, from: Place) {
    if Deref !in from.projection then from in cells
    else
      var base := Place(from.local, []);
      && place !in cells && base in cells && cells[base].Bundle?
      && exists i: nat, n: nat :: IsFirstField(from.projection, i, n) && n < |cells[base].values|
  }

  /** A place of a synchronisation type cannot be linked. */
  ghost predicate CannotLink(fn: Function, cells: Cells, place: Place, from: Place) {
    place in fn.syncPlaces && !HasObject(cells, place, from)
  }

  lemma LinkFails(fn: Function, cells: Cells, place: Place, from: Place)
    ensures LinkedIfSync(fn, cells, place, from).None? <==> CannotLink(fn, cells, place, from)
  {
    if place in fn.syncPlaces {
      if Deref !in from.projection {
        AliasAssigned(fn, cells, place, from, Ref(from));
      } else if NoField(from.projection) {
        NoFieldAssigned(fn, cells, place, from, Ref(from));
      } else {
        var i, n := FindField(from.projection);
        FieldAssigned(fn, cells, place, from, Ref(from), i, n);
        forall j: nat, k: nat | IsFirstField(from.projection, j, k) ensures k == n {
          FirstFieldIs(from.projection, i, n);
          FirstFieldIs(from.projection, j, k);
        }
      }
    }
  }

  /** An assignment the translator gives up on. */
  ghost predicate StatementRejected(fn: Function, cells: Cells, statement: Statement) {
    match statement
    case Assign(place, Use(Copy(from))) => CannotLink(fn, cells, place, from)
    case Assign(place, Use(Move(from))) => CannotLink(fn, cells, place, from)
    case Assign(place, Ref(from)) => CannotLink(fn, cells, place, from)
    case Assign(place, Aggregate(operands)) => !NoneSync(fn, operands) && (place in cells || !AllLinked(fn, cells, operands))
    case _ => false
  }

  lemma StatementRejectedIff(fn: Function, cells: Cells, statement: Statement)
    ensures StatementCells(fn, cells, statement).None? <==> StatementRejected(fn, cells, statement)
  {
    hide CannotLink, LinkedIfSync, SyncOperands, OperandValues, NoneSync, AllLinked;
    match statement
    case Assign(place, Use(Copy(from))) => LinkFails(fn, cells, place, from);
    case Assign(place, Use(Move(from))) => LinkFails(fn, cells, place, from);
    case Assign(place, Ref(from)) => LinkFails(fn, cells, place, from);
    case Assign(place, Aggregate(operands)) => AggregateAssigned(fn, cells, place, operands);
    case _ =>
  }

  /** The first operand of a call, if it has a place. */
  function Operand0(args: seq<Operand>): Option<Place> {
    if |args| > 0 && !args[0].Constant? then Some(args[0].place) else None
  }

  function Operand1(args: seq<Operand>): Option<Place> {
    if |args| > 1 && !args[1].Constant? then Some(args[1].place) else None
  }

  ghost predicate ResultCannotLink(fn: Function, cells: Cells, term: Terminator)
    requires term.Call?
  {
    Operand0(term.args).Some? && CannotLink(fn, cells, term.destination, Operand0(term.args).value)
  }

  predicate Holds(cells: Cells, place: Option<Place>, kind: Value -> bool) {
    place.Some? && place.value in cells && kind(cells[place.value])
  }

  /** A call the translator gives up on: a lock, wait, signal or join of something else, a mutable dereference of something
      that is not a guard, a thread without its closure, a missing operand, or a result that cannot be linked. */
  ghost predicate CallRejected(fn: Function, cells: Cells, term: Terminator)
    requires term.Call?
  {
    var self, linked := Operand0(term.args), AfterLinks(cells, ReturnLinks(fn, term));
    if term.returnTo.None? && term.unwind.Continue? then false
    else
      match term.callee
      case MemDrop => self.None? || ResultCannotLink(fn, cells, term)
      case DerefFn => self.None? || ResultCannotLink(fn, cells, term)
      case ResultUnwrap => self.None? || ResultCannotLink(fn, cells, term)
      case DerefMutFn =>
        self.None? || ResultCannotLink(fn, cells, term) || (self.value in fn.mutexPlaces && !Holds(linked, self, (v: Value) => v.MutexGuard?))
      case ThreadSpawn(_) =>
        term.args == [] || ResultCannotLink(fn, cells, term) || (self.Some? && !Holds(linked, self, (v: Value) => v.Bundle?))
      case CondvarNew => false
      case MutexNew => false
      case CondvarNotifyOne => !Holds(cells, self, (v: Value) => v.Condvar?)
      case CondvarWait => !Holds(cells, self, (v: Value) => v.Condvar?) || !Holds(cells, Operand1(term.args), (v: Value) => v.MutexGuard?)
      case CondvarWaitWhile => !Holds(cells, self, (v: Value) => v.Condvar?) || !Holds(cells, Operand1(term.args), (v: Value) => v.MutexGuard?)
      case MutexLock => !Holds(cells, self, (v: Value) => v.Mutex?)
      case ThreadJoin => !Holds(cells, self, (v: Value) => v.JoinHandle?)
      case PanicFunction(_) => ResultCannotLink(fn, cells, term)
      case Foreign(_) => ResultCannotLink(fn, cells, term)
      case User(_) => false
  }

  lemma ReturnFails(fn: Function, cells: Cells, term: Terminator)
    requires term.Call?
    ensures LinkedReturn(fn, cells, term.args, term.destination).None? <==> ResultCannotLink(fn, cells, term)
    ensures LinkedReturn(fn, cells, term.args, term.destination).Some? && Operand0(term.args).Some? ==>
      LinkedReturn(fn, cells, term.args, term.destination).value == AfterLinks(cells, ReturnLinks(fn, term))
  {
    hide CannotLink, LinkedIfSync, AfterLinks, ReturnLinks;
    if Operand0(term.args).Some? {
      LinkFails(fn, cells, term.destination, Operand0(term.args).value);
      if LinkedReturn(fn, cells, term.args, term.destination).Some? {
        ReturnMemory(fn, cells, term);
      }
    }
  }

  lemma CallRejectedIff(fn: Function, pt: Point, cells: Cells, term: Terminator)
    requires term.Call?
    ensures CallEffect(fn, pt, cells, term).None? <==> CallRejected(fn, cells, term)
  {
    hide LinkedReturn, ResultCannotLink, AfterLinks, ReturnLinks;
    ReturnFails(fn, cells, term);
  }

  /** A block the translator gives up on, given the memory before its terminator. */
  lemma TerminatorRejectedIff(fn: Function, pt: Point, cells: Cells, term: Terminator)
    ensures TerminatorEffect(fn, pt, cells, term).None? <==> term.Call? && CallRejected(fn, cells, term)
  {
    hide CallEffect, CallRejected;
    if term.Call? {
      CallRejectedIff(fn, pt, cells, term);
    }
  }

  /** Some statement is rejected in the memory after those before it. */
  ghost predicate SomeRejected(fn: Function, before: Cells, statements: seq<Statement>) {
    exists k :: 0 <= k < |statements| && RejectedAt(fn, before, statements, k)
  }

  ghost predicate RejectedAt(fn: Function, before: Cells, statements: seq<Statement>, k: nat)
    requires k < |statements|
  {
    StatementsCells(fn, before, statements[..k]).Some? && StatementRejected(fn, StatementsCells(fn, before, statements[..k]).value, statements[k])
  }

  lemma {:induction false} StatementsRejectedIff(fn: Function, before: Cells, statements: seq<Statement>)
    ensures StatementsCells(fn, before, statements).None? <==> SomeRejected(fn, before, statements)
    decreases |statements|
  {
    hide StatementCells, StatementRejected;
    if statements != [] {
      var last := |statements| - 1;
      var init := statements[..last];
      StatementsRejectedIff(fn, before, init);
      assert forall k :: 0 <= k < last ==> init[..k] == statements[..k];
      if StatementsCells(fn, before, init).Some? {
        StatementRejectedIff(fn, StatementsCells(fn, before, init).value, statements[last]);
      } else {
        var k :| 0 <= k < |init| && RejectedAt(fn, before, init, k);
        assert RejectedAt(fn, before, statements, k);
      }
      if k :| 0 <= k < |statements| && RejectedAt(fn, before, statements, k) {
        if k < last {
          assert RejectedAt(fn, before, init, k);
        }
      }
      if StatementsCells(fn, before, init).Some? && StatementRejected(fn, StatementsCells(fn, before, init).value, statements[last]) {
        assert RejectedAt(fn, before, statements, last);
      }
    }
  }

  /** The translator gives up at a block that it reaches exactly if it rejects a statement or the call at the end. */
  lemma BlockRejectedIff(prog: Program, pt: Point, before: Cells)
    requires pt.stack != [] && InRange(prog, pt.stack[|pt.stack| - 1])
    requires CellsBefore(prog, pt.thread, pt.stack[..|pt.stack| - 1], pt.stack[|pt.stack| - 1].f, pt.stack[|pt.stack| - 1].b) == Some(before)
    ensures var fn := prog.functions[pt.stack[|pt.stack| - 1].f];
      var block := fn.blocks[pt.stack[|pt.stack| - 1].b];
      var cells := StatementsCells(fn, before, block.statements);
      EffectAt(prog, pt.thread, pt.stack).None? <==>
        SomeRejected(fn, before, block.statements) || (cells.Some? && block.terminator.Call? && CallRejected(fn, cells.value, block.terminator))
  {
    hide CellsBefore, StatementsCells, TerminatorEffect, SomeRejected, CallRejected;
    var fn := prog.functions[pt.stack[|pt.stack| - 1].f];
    var block := fn.blocks[pt.stack[|pt.stack| - 1].b];
    StatementsRejectedIff(fn, before, block.statements);
    if StatementsCells(fn, before, block.statements).Some? {
      TerminatorRejectedIff(fn, pt, StatementsCells(fn, before, block.statements).value, block.terminator);
    }
  }
}
