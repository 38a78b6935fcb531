/** Every value in a frame's memory refers to objects the translation has created, whatever the sequence of
    links, aliases, aggregates and captures that put it there. */
module Provenance {
  import opened Wrappers
  import opened PetriNets
  import opened Mir
  import opened ControlPoints
  import opened AliasMemory
  import opened Blueprint
  import opened CallEffects
  import opened Worlds

  lemma KnownField(w: World, owner: ThreadName, cells: Cells, place: Place, bundle: Place, index: nat)
    requires KnownCells(w, owner, cells) && LinkedField(cells, place, bundle, index).Some?
    ensures KnownCells(w, owner, LinkedField(cells, place, bundle, index).value)
  {
    assert Known(w, owner, |w.threads|, cells[bundle]);
  }

  lemma KnownIfSync(w: World, owner: ThreadName, fn: Function, cells: Cells, place: Place, linked: Place)
    requires KnownCells(w, owner, cells) && LinkedIfSync(fn, cells, place, linked).Some?
    ensures KnownCells(w, owner, LinkedIfSync(fn, cells, place, linked).value)
  {
    if place in fn.syncPlaces && IsIndirect(linked) {
      KnownField(w, owner, cells, place, Place(linked.local, []), FieldNumber(linked).value);
    }
  }

  lemma KnownReturn(w: World, owner: ThreadName, fn: Function, cells: Cells, args: seq<Operand>, destination: Place)
    requires KnownCells(w, owner, cells) && LinkedReturn(fn, cells, args, destination).Some?
    ensures KnownCells(w, owner, LinkedReturn(fn, cells, args, destination).value)
  {
    if NthArgument(args, 0).Some? {
      KnownIfSync(w, owner, fn, cells, destination, NthArgument(args, 0).value);
    }
  }

  lemma {:induction false} KnownValuesOf(w: World, owner: ThreadName, cells: Cells, places: seq<Place>)
    requires KnownCells(w, owner, cells) && ValuesOf(cells, places).Some?
    ensures KnownValues(w, owner, |w.threads|, ValuesOf(cells, places).value)
  {
    if places != [] {
      KnownValuesOf(w, owner, cells, places[..|places| - 1]);
    }
  }

  lemma KnownStatement(w: World, owner: ThreadName, fn: Function, cells: Cells, statement: Statement)
    requires KnownCells(w, owner, cells) && StatementCells(fn, cells, statement).Some?
    ensures KnownCells(w, owner, StatementCells(fn, cells, statement).value)
  {
    match statement
    case Assign(place, Use(Copy(rhs))) => KnownIfSync(w, owner, fn, cells, place, rhs);
    case Assign(place, Use(Move(rhs))) => KnownIfSync(w, owner, fn, cells, place, rhs);
    case Assign(place, Ref(rhs)) => KnownIfSync(w, owner, fn, cells, place, rhs);
    case Assign(place, Aggregate(operands)) =>
      var places := SyncOperands(fn, operands);
      if places != [] {
        KnownValuesOf(w, owner, cells, places);
      }
    case _ =>
  }

  lemma {:induction false} KnownStatements(w: World, owner: ThreadName, fn: Function, cells: Cells, statements: seq<Statement>)
    requires KnownCells(w, owner, cells) && StatementsCells(fn, cells, statements).Some?
    ensures KnownCells(w, owner, StatementsCells(fn, cells, statements).value)
  {
    if statements != [] {
      var before := statements[..|statements| - 1];
      KnownStatements(w, owner, fn, cells, before);
      KnownStatement(w, owner, fn, StatementsCells(fn, cells, before).value, statements[|statements| - 1]);
    }
  }

  lemma {:induction false} KnownCaptures(w: World, owner: ThreadName, cells: Cells, places: seq<Place>)
    requires KnownCells(w, owner, cells) && CapturesLinked(cells, places).Some?
    ensures KnownCells(w, owner, CapturesLinked(cells, places).value)
  {
    if places != [] {
      var place := places[|places| - 1];
      KnownCaptures(w, owner, cells, places[..|places| - 1]);
      if place.local == 1 {
        KnownField(w, owner, CapturesLinked(cells, places[..|places| - 1]).value, place, CLOSURE, FieldNumber(place).value);
      }
    }
  }

  /** The object a terminator may create at `pt`. */
  ghost predicate Created(pt: Point, term: Terminator, v: Value) {
    && term.Call? && CallEnds(term.returnTo, term.unwind).Ends?
    && ((term.callee.MutexNew? && v == Mutex(pt))
        || (term.callee.CondvarNew? && v == Condvar(pt))
        || (term.callee.ThreadSpawn? && v == JoinHandle(Spawned(pt.thread, pt.stack))))
  }

  ghost predicate KnownAfter(w: World, pt: Point, term: Terminator, cells: Cells) {
    forall p :: p in cells ==> Known(w, pt.thread, |w.threads|, cells[p]) || Created(pt, term, cells[p])
  }

  ghost predicate KnownResult(w: World, pt: Point, term: Terminator, e: Option<Effect>) {
    e.Some? ==> KnownEffect(w, pt.thread, e.value) && KnownAfter(w, pt, term, e.value.cells)
  }

  lemma KnownSpawn(w: World, fn: Function, pt: Point, cells: Cells, term: Terminator, ends: Ends)
    requires term.Call? && term.callee.ThreadSpawn? && ends.Ends? && ends == CallEnds(term.returnTo, term.unwind)
    requires KnownCells(w, pt.thread, cells)
    ensures KnownResult(w, pt, term, SpawnEffect(fn, pt, cells, term, ends))
  {
    hide LinkedReturn;
    if LinkedReturn(fn, cells, term.args, term.destination).Some? {
      KnownReturn(w, pt.thread, fn, cells, term.args, term.destination);
    }
  }

  lemma KnownDerefMut(w: World, fn: Function, pt: Point, cells: Cells, term: Terminator, place: Place, ends: Ends)
    requires term.Call? && ends.Ends? && KnownCells(w, pt.thread, cells)
    ensures KnownResult(w, pt, term, DerefMutEffect(fn, cells, term, place, ends))
  {
    hide LinkedReturn;
    if LinkedReturn(fn, cells, term.args, term.destination).Some? {
      KnownReturn(w, pt.thread, fn, cells, term.args, term.destination);
    }
  }

  lemma KnownMemDrop(w: World, fn: Function, pt: Point, cells: Cells, term: Terminator, ends: Ends)
    requires term.Call? && ends.Ends? && KnownCells(w, pt.thread, cells)
    ensures KnownResult(w, pt, term, MemDropEffect(fn, cells, term, ends))
  {
    hide LinkedReturn;
    if LinkedReturn(fn, cells, term.args, term.destination).Some? {
      KnownReturn(w, pt.thread, fn, cells, term.args, term.destination);
    }
  }

  lemma KnownShortCall(w: World, fn: Function, pt: Point, cells: Cells, term: Terminator, actions: seq<Action>)
    requires term.Call? && KnownCells(w, pt.thread, cells)
    requires forall i :: 0 <= i < |actions| ==> actions[i].Flow?
    ensures KnownResult(w, pt, term, WithCells(actions, LinkedReturn(fn, cells, term.args, term.destination)))
  {
    hide LinkedReturn;
    if LinkedReturn(fn, cells, term.args, term.destination).Some? {
      KnownReturn(w, pt.thread, fn, cells, term.args, term.destination);
    }
  }

  /** Calls that create an object. */
  lemma KnownNew(w: World, fn: Function, pt: Point, cells: Cells, term: Terminator)
    requires term.Call? && (term.callee.MutexNew? || term.callee.CondvarNew?) && CallEnds(term.returnTo, term.unwind).Ends?
    requires KnownCells(w, pt.thread, cells)
    ensures KnownResult(w, pt, term, CallEffect(fn, pt, cells, term))
  {
    hide CallEffect;
    if term.callee.MutexNew? {
      MutexNewIs(fn, pt, cells, term);
    } else {
      CondvarNewIs(fn, pt, cells, term);
    }
  }

  /** Calls on an object that is known already. */
  lemma KnownUse(w: World, fn: Function, pt: Point, cells: Cells, term: Terminator)
    requires term.Call? && (term.callee.MutexLock? || term.callee.CondvarNotifyOne? || term.callee.ThreadJoin?)
    requires CallEnds(term.returnTo, term.unwind).Ends? && KnownCells(w, pt.thread, cells)
    ensures KnownResult(w, pt, term, CallEffect(fn, pt, cells, term))
  {
    hide CallEffect, CallEnds;
    var self := NthArgument(term.args, 0);
    assert self.Some? && self.value in cells ==> Known(w, pt.thread, |w.threads|, cells[self.value]);
    if term.callee.MutexLock? {
      LockIs(fn, pt, cells, term);
    } else if term.callee.CondvarNotifyOne? {
      NotifyOneIs(fn, pt, cells, term);
    } else {
      JoinIs(fn, pt, cells, term);
    }
  }

  lemma KnownWait(w: World, fn: Function, pt: Point, cells: Cells, term: Terminator)
    requires term.Call? && (term.callee.CondvarWait? || term.callee.CondvarWaitWhile?) && CallEnds(term.returnTo, term.unwind).Ends?
    requires KnownCells(w, pt.thread, cells)
    ensures KnownResult(w, pt, term, CallEffect(fn, pt, cells, term))
  {
    hide CallEffect, CallEnds;
    WaitIs(fn, pt, cells, term);
    var self, guard := NthArgument(term.args, 0), NthArgument(term.args, 1);
    assert self.Some? && self.value in cells ==> Known(w, pt.thread, |w.threads|, cells[self.value]);
    assert guard.Some? && guard.value in cells ==> Known(w, pt.thread, |w.threads|, cells[guard.value]);
  }

  /** Calls in short form. */
  lemma KnownShort(w: World, fn: Function, pt: Point, cells: Cells, term: Terminator)
    requires term.Call? && CallEnds(term.returnTo, term.unwind).Ends? && KnownCells(w, pt.thread, cells)
    requires term.callee.Foreign? || term.callee.PanicFunction? || term.callee.DerefFn? || term.callee.ResultUnwrap? || term.callee.DerefMutFn?
    ensures KnownResult(w, pt, term, CallEffect(fn, pt, cells, term))
  {
    hide CallEffect, CallEnds, LinkedReturn, DerefMutEffect, WithCells, KnownCells;
    var ends := CallEnds(term.returnTo, term.unwind);
    KnownShortCall(w, fn, pt, cells, term, ShortCall(ends));
    KnownShortCall(w, fn, pt, cells, term, [Flow(ends.end)]);
    if term.callee.DerefMutFn? {
      DerefMutIs(fn, pt, cells, term);
      if NthArgument(term.args, 0).Some? {
        KnownDerefMut(w, fn, pt, cells, term, NthArgument(term.args, 0).value, ends);
      }
    } else {
      ShortIs(fn, pt, cells, term);
    }
  }

  lemma KnownCall(w: World, fn: Function, pt: Point, cells: Cells, term: Terminator)
    requires term.Call? && KnownCells(w, pt.thread, cells)
    ensures KnownResult(w, pt, term, CallEffect(fn, pt, cells, term))
  {
    hide CallEffect, SpawnEffect, MemDropEffect;
    var ends := CallEnds(term.returnTo, term.unwind);
    if ends.NoReturn? {
      NoReturnIs(fn, pt, cells, term);
    } else {
      match term.callee
      case MemDrop =>
        MemDropIs(fn, pt, cells, term);
        KnownMemDrop(w, fn, pt, cells, term, ends);
      case ThreadSpawn(_) =>
        SpawnIs(fn, pt, cells, term);
        KnownSpawn(w, fn, pt, cells, term, ends);
      case MutexNew => KnownNew(w, fn, pt, cells, term);
      case CondvarNew => KnownNew(w, fn, pt, cells, term);
      case MutexLock => KnownUse(w, fn, pt, cells, term);
      case CondvarNotifyOne => KnownUse(w, fn, pt, cells, term);
      case ThreadJoin => KnownUse(w, fn, pt, cells, term);
      case CondvarWait => KnownWait(w, fn, pt, cells, term);
      case CondvarWaitWhile => KnownWait(w, fn, pt, cells, term);
      case User(_) => UserIs(fn, pt, cells, term);
      case _ => KnownShort(w, fn, pt, cells, term);
    }
  }

  lemma KnownTerminator(w: World, fn: Function, pt: Point, cells: Cells, term: Terminator)
    requires KnownCells(w, pt.thread, cells) && TerminatorEffect(fn, pt, cells, term).Some?
    ensures KnownEffect(w, pt.thread, TerminatorEffect(fn, pt, cells, term).value)
    ensures KnownAfter(w, pt, term, TerminatorEffect(fn, pt, cells, term).value.cells)
  {
    hide CallEffect;
    if term.Call? {
      KnownCall(w, fn, pt, cells, term);
    }
  }
}
