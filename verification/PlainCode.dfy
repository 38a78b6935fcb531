/** Programs without synchronisation: every such program is accepted, and its translation moves one token along the control
    flow of the main thread and of the functions it calls. */
module PlainCode {
  import opened Wrappers
  import opened PetriNets
  import opened Mir
  import opened ControlPoints
  import opened AliasMemory
  import opened Blueprint
  import opened CallEffects
  import opened Worlds
  import opened Frames
  import opened Progress
  import opened Points
  import opened NetLaws
  import opened Condvars
  import opened Control
  import opened Alarms

  /** A call that neither synchronises nor spawns. The library functions on guards and references look at their argument. */
  predicate PlainCallee(term: Terminator)
    requires term.Call?
  {
    match term.callee
    case User(_) => true
    case Foreign(_) => true
    case PanicFunction(_) => true
    case MemDrop => NthArgument(term.args, 0).Some?
    case DerefFn => NthArgument(term.args, 0).Some?
    case DerefMutFn => NthArgument(term.args, 0).Some?
    case ResultUnwrap => NthArgument(term.args, 0).Some?
    case _ => false
  }

  /** Only a panic does not return. */
  predicate PlainTerm(term: Terminator) {
    term.Call? ==> PlainCallee(term) && (CallEnds(term.returnTo, term.unwind).NoReturn? ==> term.callee.PanicFunction?)
  }

  ghost predicate PlainFunction(fn: Function) {
    fn.syncPlaces == {} && fn.mutexPlaces == {} && forall b :: 0 <= b < |fn.blocks| ==> PlainTerm(fn.blocks[b].terminator)
  }

  /** No place has a synchronisation type, and no call synchronises, spawns or diverges. */
  ghost predicate PlainProgram(prog: Program) {
    WellFormed(prog) && forall f :: 0 <= f < |prog.functions| ==> PlainFunction(prog.functions[f])
  }

  lemma {:induction false} NoSyncOperands(fn: Function, operands: seq<Operand>)
    requires fn.syncPlaces == {}
    ensures SyncOperands(fn, operands) == []
  {
    if operands != [] {
      NoSyncOperands(fn, operands[..|operands| - 1]);
    }
  }

  lemma {:induction false} StatementsDoNothing(fn: Function, cells: Cells, statements: seq<Statement>)
    requires fn.syncPlaces == {}
    ensures StatementsCells(fn, cells, statements) == Some(cells)
  {
    hide SyncOperands;
    if statements != [] {
      StatementsDoNothing(fn, cells, statements[..|statements| - 1]);
      var last := statements[|statements| - 1];
      if last.Assign? && last.rvalue.Aggregate? {
        NoSyncOperands(fn, last.rvalue.operands);
      }
    }
  }

  /** Nothing is linked, and all that happens is that control goes on. */
  ghost predicate OnlyFlows(e: Effect) {
    e.cells == map[] && e.wait.None? && forall i :: 0 <= i < |e.actions| ==> e.actions[i].Flow?
  }

  lemma TermFlows(fn: Function, pt: Point, term: Terminator)
    requires fn.syncPlaces == {} && fn.mutexPlaces == {} && PlainTerm(term)
    ensures TerminatorEffect(fn, pt, map[], term).Some? && OnlyFlows(TerminatorEffect(fn, pt, map[], term).value)
  {
    hide CallEffect;
    if term.Call? {
      CallFlows(fn, pt, term);
    }
  }

  lemma CallFlows(fn: Function, pt: Point, term: Terminator)
    requires fn.syncPlaces == {} && fn.mutexPlaces == {} && term.Call? && PlainTerm(term)
    ensures CallEffect(fn, pt, map[], term).Some? && OnlyFlows(CallEffect(fn, pt, map[], term).value)
  {
  }

  /** In the main thread, blocks are reached with an empty memory. */
  lemma {:induction false} NothingBefore(prog: Program, callers: seq<Site>, f: nat, b: nat)
    requires PlainProgram(prog) && f < |prog.functions| && b < |prog.functions[f].blocks|
    ensures CellsBefore(prog, MainThread, callers, f, b) == Some(map[])
    decreases b
  {
    hide WellFormed, TerminatorEffect, StatementsCells, PlainFunction, EffectAt;
    if b > 0 {
      NothingBefore(prog, callers, f, b - 1);
      FlowsAt(prog, callers, f, b - 1);
    }
  }

  lemma FlowsAt(prog: Program, callers: seq<Site>, f: nat, b: nat)
    requires PlainProgram(prog) && f < |prog.functions| && b < |prog.functions[f].blocks| && CellsBefore(prog, MainThread, callers, f, b) == Some(map[])
    ensures var e := EffectAt(prog, MainThread, callers + [Site(f, b)]); e.Some? && OnlyFlows(e.value)
  {
    hide WellFormed, TerminatorEffect, StatementsCells, CellsBefore, PlainTerm;
    var fn := prog.functions[f];
    StatementsDoNothing(fn, map[], fn.blocks[b].statements);
    assert PlainFunction(fn);
    TermFlows(fn, Point(MainThread, callers + [Site(f, b)]), fn.blocks[b].terminator);
    assert (callers + [Site(f, b)])[..|callers|] == callers;
  }

  lemma MainFlows(prog: Program, stack: seq<Site>)
    requires PlainProgram(prog) && stack != [] && InRange(prog, stack[|stack| - 1])
    ensures var e := EffectAt(prog, MainThread, stack); e.Some? && OnlyFlows(e.value)
    ensures CellsBefore(prog, MainThread, stack[..|stack| - 1], stack[|stack| - 1].f, stack[|stack| - 1].b) == Some(map[])
  {
    hide WellFormed, PlainFunction, EffectAt, CellsBefore;
    var callers, site := stack[..|stack| - 1], stack[|stack| - 1];
    NothingBefore(prog, callers, site.f, site.b);
    FlowsAt(prog, callers, site.f, site.b);
    assert callers + [Site(site.f, site.b)] == stack;
  }

  lemma {:induction false} OneThread(prog: Program, t: ThreadName)
    requires PlainProgram(prog) && IsThread(prog, t)
    ensures t.MainThread?
    decreases t
  {
    hide WellFormed, PlainFunction, EffectAt, Root;
    if t.Spawned? {
      OneThread(prog, t.parent);
      MainFlows(prog, t.stack);
    }
  }

  /** Every point is in the main thread, and only goes on. */
  lemma PointFlows(prog: Program, pt: Point)
    requires PlainProgram(prog) && IsPoint(prog, pt)
    ensures pt.thread.MainThread? && pt.stack != [] && InRange(prog, pt.stack[|pt.stack| - 1])
    ensures EffectAt(prog, pt.thread, pt.stack).Some? && OnlyFlows(EffectAt(prog, pt.thread, pt.stack).value)
    ensures CellsBefore(prog, pt.thread, pt.stack[..|pt.stack| - 1], pt.stack[|pt.stack| - 1].f, pt.stack[|pt.stack| - 1].b) == Some(map[])
  {
    hide WellFormed, PlainFunction, EffectAt, CellsBefore, Root;
    LastSite(prog, pt);
    OneThread(prog, pt.thread);
    MainFlows(prog, pt.stack);
  }

  /** The translator accepts every program of this kind. */
  lemma PlainIsAccepted(prog: Program)
    requires PlainProgram(prog)
    ensures Translatable(prog)
  {
    hide WellFormed, PlainFunction, EffectAt, IsPoint, CellsBefore;
    forall pt | IsPoint(prog, pt)
      ensures EffectAt(prog, pt.thread, pt.stack).Some? && WaitAt(prog, pt).None? && forall t: ThreadName :: !JoinsAt(prog, pt, t)
    {
      PointFlows(prog, pt);
    }
  }

  lemma PlainCreatesNothing(prog: Program, pt: Point)
    requires PlainProgram(prog)
    ensures !CreatesMutex(prog, pt) && !CreatesCondvar(prog, pt)
  {
    hide WellFormed;
    if pt.stack != [] && InRange(prog, pt.stack[|pt.stack| - 1]) {
      assert PlainFunction(prog.functions[pt.stack[|pt.stack| - 1].f]);
      assert PlainTerm(TerminatorAt(prog, pt.stack[|pt.stack| - 1]));
    }
  }

  lemma PlainIsSequential(prog: Program, ctx: Context)
    requires PlainProgram(prog)
    ensures Sequential(prog) && MainNeverBlocks(prog, ctx)
  {
    hide WellFormed, PlainFunction, EffectAt, IsPoint, CellsBefore;
    forall pt | IsPoint(prog, pt) ensures WaitAt(prog, pt).None? && forall i :: 0 <= i < |Actions(prog, pt)| ==> Actions(prog, pt)[i].Flow? {
      PointFlows(prog, pt);
    }
  }
}
