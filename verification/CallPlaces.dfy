/** Where the transitions of a call lead, for each of the ways in which a call can return and unwind. */
module CallPlaces {
  import opened Wrappers
  import opened PetriNets
  import opened Mir
  import opened ControlPoints
  import opened AliasMemory
  import opened Blueprint
  import opened Worlds
  import opened Progress
  import opened Points
  import opened NetLaws
  import opened Condvars
  import opened Links
  import opened Machine
  import opened Paths

  /** The place of another block of the same frame. */
  function BlockPlaceAt(pt: Point, b: nat): PlaceRef
    requires pt.stack != []
  {
    Control(pt.thread, pt.stack[..|pt.stack| - 1] + [Site(pt.stack[|pt.stack| - 1].f, b)])
  }

  /** Where a panic of the thread is seen. */
  function PanicAt(pt: Point): PlaceRef {
    if pt.thread == MainThread then ProgramPanic else ThreadEnd(pt.thread)
  }

  /** Control goes on at `p`, and nowhere else but in a thread that is spawned. */
  ghost predicate LeadsTo(pt: Point, edge: Edge, p: PlaceRef) {
    p in edge.post && forall q :: IsControl(q) && q in edge.post ==> q == p || (q.Control? && q.thread == Spawned(pt.thread, pt.stack))
  }

  ghost predicate LeadsNowhere(edge: Edge) {
    forall q :: IsControl(q) ==> q !in edge.post
  }

  lemma ActionLeads(prog: Program, net: ProgramNet, ctx: Context, pt: Point, i: nat)
    requires Translatable(prog) && IsNetOf(prog, net, ctx) && IsPoint(prog, pt) && pt.stack != [] && i < |Actions(prog, pt)|
    ensures TransRef(pt, i) in net.transitions
    ensures var a, edge := Actions(prog, pt)[i], net.transitions[TransRef(pt, i)];
      if a.Vanish? then LeadsNowhere(edge) else LeadsTo(pt, edge, DestPlace(prog, pt, a.dest))
  {
    hide IsPoint, Actions, EdgeOfAction, DestPlace, PlaceOf, EffectAt, Translatable;
    var a, ref := Actions(prog, pt)[i], TransRef(pt, i);
    assert ref in net.transitions by { hide EdgeOf, Tokens, IsPlaceOf, IsContext; }
    EdgeOfPoint(prog, net, ctx, ref);
    if !a.Vanish? {
      DestIsControl(prog, pt, a.dest);
    }
    EffectDefined(prog, pt);
    if a.SpawnThread? {
      SpawnNames(prog, pt, i);
    }
    forall q | IsControl(q) ensures q in net.transitions[ref].post
      <==> (!a.Vanish? && q == DestPlace(prog, pt, a.dest)) || (a.SpawnThread? && a.thread in ctx.prepared && q == Control(a.thread, [Site(a.f, 0)]))
    {
      ControlCounts(prog, ctx, pt, a, q);
    }
  }

  lemma SpawnNames(prog: Program, pt: Point, i: nat)
    requires EffectAt(prog, pt.thread, pt.stack).Some? && i < |Actions(prog, pt)| && Actions(prog, pt)[i].SpawnThread?
    ensures Actions(prog, pt)[i].thread == Spawned(pt.thread, pt.stack)
  {
    hide EffectAt;
    EffectShape(prog, pt);
  }

  /** The transition of index `i` of a call. A call of a user function returns by way of the function. */
  ghost predicate CallEdgeIs(pt: Point, term: Terminator, i: nat, edge: Edge)
    requires pt.stack != [] && term.Call?
  {
    var back := i == 0 && !term.callee.User?;
    match (term.returnTo, term.unwind)
    case (Some(r), Continue) => back && LeadsTo(pt, edge, BlockPlaceAt(pt, r))
    case (Some(r), Cleanup(c)) => LeadsTo(pt, edge, BlockPlaceAt(pt, if back then r else c))
    case (Some(r), Terminate) => LeadsTo(pt, edge, if back then BlockPlaceAt(pt, r) else PanicAt(pt))
    case (Some(r), Impossible) => LeadsTo(pt, edge, if back then BlockPlaceAt(pt, r) else ProgramEnd)
    case (None, Cleanup(c)) => back && LeadsTo(pt, edge, BlockPlaceAt(pt, c))
    case (None, Terminate) => back && LeadsTo(pt, edge, PanicAt(pt))
    case (None, Impossible) => back && LeadsTo(pt, edge, ProgramEnd)
    case (None, Continue) => i == 0 && if term.callee.PanicFunction? then LeadsTo(pt, edge, PanicAt(pt)) else LeadsNowhere(edge)
  }

  /** How many transitions a call has, in each of these cases. */
  predicate CallHas(term: Terminator, n: nat)
    requires term.Call?
  {
    match term.callee
    case CondvarWait => n == if term.returnTo.None? && term.unwind.Continue? then 1 else 0
    case CondvarWaitWhile => n == if term.returnTo.None? && term.unwind.Continue? then 1 else 0
    case User(_) => n == if term.returnTo.None? then (if term.unwind.Continue? then 1 else 0) else if term.unwind.Continue? then 0 else 1
    case Foreign(_) => n == if term.returnTo.Some? && !term.unwind.Continue? then 2 else 1
    case PanicFunction(_) => n == if term.returnTo.Some? && !term.unwind.Continue? then 2 else 1
    case MutexNew => n == if term.returnTo.Some? && !term.unwind.Continue? then 2 else 1
    case CondvarNew => n == if term.returnTo.Some? && !term.unwind.Continue? then 2 else 1
    case MemDrop => n == if term.returnTo.Some? && !term.unwind.Continue? then 2 else 1
    case ThreadSpawn(_) => n == if term.returnTo.Some? && !term.unwind.Continue? then 2 else 1
    case MutexLock => n == 1
    case ThreadJoin => n == 1
    case CondvarNotifyOne => n == 1
    case _ => n == 1 || (n == 2 && term.returnTo.Some? && !term.unwind.Continue?)
  }

  lemma PlaceOfDest(prog: Program, pt: Point, dest: Dest)
    requires WellFormed(prog) && IsPoint(prog, pt) && Located(prog, pt) && DestOk(FunctionAt(prog, pt), dest)
    ensures match dest
      case ToBlock(b) => DestPlace(prog, pt, dest) == BlockPlaceAt(pt, b)
      case ToPanic => DestPlace(prog, pt, dest) == PanicAt(pt)
      case ToEnd => DestPlace(prog, pt, dest) == ProgramEnd
      case ToReturn => true
  {
    hide IsPoint, Home, WellFormed;
    if dest.ToBlock? {
      BlockIsPlace(prog, pt, dest.b);
    }
  }

  lemma CallActions(prog: Program, pt: Point)
    requires Translatable(prog) && IsPoint(prog, pt) && Located(prog, pt) && EndOf(prog, pt).Call?
    ensures Actions(prog, pt) == CallMoves(FunctionAt(prog, pt), pt, TranslatorAtEnd(prog, pt), EndOf(prog, pt)) && CallHas(EndOf(prog, pt), |Actions(prog, pt)|)
    ensures EffectAt(prog, pt.thread, pt.stack).Some? && DestsOk(FunctionAt(prog, pt), EffectAt(prog, pt.thread, pt.stack).value)
  {
    hide IsPoint, StatementsCells, CellsBefore, CallEffect, CallMoves, CallHas, Faulty, WellFormed;
    EffectDefined(prog, pt);
    EffectDests(prog, pt);
    CallMovesAre(FunctionAt(prog, pt), pt, TranslatorAtEnd(prog, pt), EndOf(prog, pt));
    EffectCount(FunctionAt(prog, pt), pt, TranslatorAtEnd(prog, pt), EndOf(prog, pt));
  }

  lemma EffectCount(fn: Function, pt: Point, cells: Cells, term: Terminator)
    requires term.Call? && CallEffect(fn, pt, cells, term).Some?
    ensures CallHas(term, |CallEffect(fn, pt, cells, term).value.actions|)
  {
    hide LinkedReturn;
  }

  /** The transitions of a call, case by case: to the block it returns to, to its cleanup, to the panic place of the thread, to
      the end of the program, or nowhere. */
  lemma CallLeads(prog: Program, net: ProgramNet, ctx: Context, pt: Point)
    requires Translatable(prog) && IsNetOf(prog, net, ctx) && IsPoint(prog, pt) && Located(prog, pt) && EndOf(prog, pt).Call?
    ensures CallHas(EndOf(prog, pt), |Actions(prog, pt)|)
    ensures forall i: nat :: i < |Actions(prog, pt)| ==> TransRef(pt, i) in net.transitions && CallEdgeIs(pt, EndOf(prog, pt), i, net.transitions[TransRef(pt, i)])
  {
    hide IsPoint, IsNetOf, CallMoves, CallHas, Faulty, WellFormed, LeadsTo, LeadsNowhere, BlockPlaceAt, PanicAt, DestPlace, TranslatorAtEnd, DestOk;
    CallActions(prog, pt);
    var fn, term, cells := FunctionAt(prog, pt), EndOf(prog, pt), TranslatorAtEnd(prog, pt);
    forall i: nat | i < |Actions(prog, pt)| ensures TransRef(pt, i) in net.transitions && CallEdgeIs(pt, term, i, net.transitions[TransRef(pt, i)]) {
      ActionLeads(prog, net, ctx, pt, i);
      CallMoveDest(fn, pt, cells, term, i);
      CallVanishes(fn, pt, cells, term, i);
      var a := Actions(prog, pt)[i];
      if !a.Vanish? {
        PlaceOfDest(prog, pt, a.dest);
      }
    }
  }

  lemma CallVanishes(fn: Function, pt: Point, cells: Cells, term: Terminator, i: nat)
    requires term.Call? && i < |CallMoves(fn, pt, cells, term)|
    ensures CallMoves(fn, pt, cells, term)[i].Vanish? <==> NeverComesBack(term) && !term.callee.PanicFunction?
    ensures NeverComesBack(term) ==> i == 0
  {
    hide AfterLinks, ReturnLinks, Captured;
  }

  /** Where the return of a called function leads: to the block its call returns to, or else where the call unwinds. */
  ghost predicate ReturnEdgeIs(pt: Point, caller: Point, call: Terminator, edge: Edge)
    requires caller.stack != [] && call.Call?
  {
    match (call.returnTo, call.unwind)
    case (Some(r), _) => LeadsTo(pt, edge, BlockPlaceAt(caller, r))
    case (None, Cleanup(c)) => LeadsTo(pt, edge, BlockPlaceAt(caller, c))
    case (None, Terminate) => LeadsTo(pt, edge, PanicAt(caller))
    case (None, Impossible) => LeadsTo(pt, edge, ProgramEnd)
    case (None, Continue) => false
  }

  lemma ReturnLeadsBack(prog: Program, net: ProgramNet, ctx: Context, pt: Point)
    requires Translatable(prog) && IsNetOf(prog, net, ctx) && IsPoint(prog, pt) && Located(prog, pt) && EndOf(prog, pt).Return? && |pt.stack| > 1
    ensures Located(prog, CallerOf(pt)) && EndOf(prog, CallerOf(pt)).Call? && |Actions(prog, pt)| == 1 && TransRef(pt, 0) in net.transitions
    ensures ReturnEdgeIs(pt, CallerOf(pt), EndOf(prog, CallerOf(pt)), net.transitions[TransRef(pt, 0)])
  {
    hide IsPoint, IsNetOf, Faulty, WellFormed, LeadsTo, BlockPlaceAt, PanicAt, EffectAt, TargetOk;
    var caller := CallerOf(pt);
    CallerIsPoint(prog, pt);
    assert caller.stack[|caller.stack| - 1] == pt.stack[|pt.stack| - 2];
    ReturnActs(prog, pt);
    ActionLeads(prog, net, ctx, pt, 0);
    var call := EndOf(prog, caller);
    BackIsOk(prog, caller);
    PlaceOfDest(prog, caller, ReturnDest(call));
    ReturnIsThere(prog, pt);
  }

  lemma BackIsOk(prog: Program, pt: Point)
    requires WellFormed(prog) && Located(prog, pt) && EndOf(prog, pt).Call?
    ensures DestOk(FunctionAt(prog, pt), ReturnDest(EndOf(prog, pt)))
  {
    var site := pt.stack[|pt.stack| - 1];
    assert FunctionOk(prog, site.f);
    assert TerminatorOk(prog, site.f, EndOf(prog, pt));
  }

  lemma ReturnActs(prog: Program, pt: Point)
    requires Translatable(prog) && IsPoint(prog, pt) && Located(prog, pt) && EndOf(prog, pt).Return?
    ensures Actions(prog, pt) == [Flow(ToReturn)]
  {
    hide IsPoint, StatementsCells, CellsBefore, Faulty, WellFormed;
    EffectDefined(prog, pt);
  }

  lemma ReturnIsThere(prog: Program, pt: Point)
    requires |pt.stack| > 1 && Located(prog, CallerOf(pt)) && EndOf(prog, CallerOf(pt)).Call? && !NeverComesBack(EndOf(prog, CallerOf(pt)))
    requires !ReturnDest(EndOf(prog, CallerOf(pt))).ToReturn?
    ensures DestPlace(prog, pt, ToReturn) == DestPlace(prog, CallerOf(pt), ReturnDest(EndOf(prog, CallerOf(pt))))
  {
    hide Home;
    assert CallerOf(pt).stack == pt.stack[..|pt.stack| - 1];
  }
}
