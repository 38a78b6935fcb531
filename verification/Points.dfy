/** Facts about the points of a program that the translator accepts: where their actions lead, and that every place of
    a point has a way on. */
module Points {
  import opened Wrappers
  import opened PetriNets
  import opened Mir
  import opened ControlPoints
  import opened AliasMemory
  import opened Blueprint
  import opened Worlds
  import opened Frames
  import opened Progress

  ghost predicate Translatable(prog: Program) {
    WellFormed(prog) && !Faulty(prog, AllPoints(prog))
  }

  lemma EffectDefined(prog: Program, pt: Point)
    requires Translatable(prog) && IsPoint(prog, pt)
    ensures EffectAt(prog, pt.thread, pt.stack).Some?
  {
    hide EffectAt, IsPoint, WellFormed;
    assert pt in AllPoints(prog);
    assert !Stuck(prog, pt);
  }

  lemma LastSite(prog: Program, pt: Point)
    requires IsPoint(prog, pt)
    ensures pt.stack != [] && InRange(prog, pt.stack[|pt.stack| - 1])
  {
    hide IsThread, Root, Calls;
  }

  /** The frame a point lies in. */
  function FrameAt(pt: Point): Frame
    requires pt.stack != []
  {
    Frame(pt.thread, pt.stack[..|pt.stack| - 1], pt.stack[|pt.stack| - 1].f)
  }

  lemma FrameAtIs(pt: Point)
    requires pt.stack != []
    ensures FrameAt(pt).At(pt.stack[|pt.stack| - 1].b) == pt
  {
  }

  // ---------------------------------------------------------------------------------------------
  // Where actions lead

  predicate DestOk(fn: Function, dest: Dest) {
    dest.ToBlock? ==> TargetOk(fn, dest.b)
  }

  /** Every action and every wait of an effect leads to a block of the body, or out of it. */
  ghost predicate DestsOk(fn: Function, e: Effect) {
    && (forall i :: 0 <= i < |e.actions| ==> e.actions[i].Vanish? || DestOk(fn, e.actions[i].dest))
    && (e.wait.Some? ==> DestOk(fn, e.wait.value.dest))
  }

  predicate EndsOk(fn: Function, ends: Ends) {
    ends.Ends? ==> DestOk(fn, ends.end) && (ends.cleanup.Some? ==> DestOk(fn, ends.cleanup.value))
  }

  lemma CallEndsOk(prog: Program, f: nat, term: Terminator)
    requires f < |prog.functions| && TerminatorOk(prog, f, term) && term.Call?
    ensures EndsOk(prog.functions[f], CallEnds(term.returnTo, term.unwind))
  {
  }

  lemma CallDests(prog: Program, f: nat, pt: Point, cells: Cells, term: Terminator)
    requires f < |prog.functions| && TerminatorOk(prog, f, term) && term.Call?
    requires CallEffect(prog.functions[f], pt, cells, term).Some?
    ensures DestsOk(prog.functions[f], CallEffect(prog.functions[f], pt, cells, term).value)
  {
    hide LinkedReturn, CallEnds, TerminatorOk, TargetOk;
    CallEndsOk(prog, f, term);
  }

  lemma TerminatorDests(prog: Program, f: nat, pt: Point, cells: Cells, term: Terminator)
    requires f < |prog.functions| && TerminatorOk(prog, f, term)
    requires TerminatorEffect(prog.functions[f], pt, cells, term).Some?
    ensures DestsOk(prog.functions[f], TerminatorEffect(prog.functions[f], pt, cells, term).value)
  {
    hide CallEffect;
    if term.Call? {
      CallDests(prog, f, pt, cells, term);
    }
  }

  lemma EffectDests(prog: Program, pt: Point)
    requires WellFormed(prog) && EffectAt(prog, pt.thread, pt.stack).Some?
    ensures pt.stack != [] && InRange(prog, pt.stack[|pt.stack| - 1])
    ensures DestsOk(prog.functions[pt.stack[|pt.stack| - 1].f], EffectAt(prog, pt.thread, pt.stack).value)
  {
    hide TerminatorEffect, StatementsCells, CellsBefore;
    var site := pt.stack[|pt.stack| - 1];
    var fn := prog.functions[site.f];
    assert FunctionOk(prog, site.f);
    var before := CellsBefore(prog, pt.thread, pt.stack[..|pt.stack| - 1], site.f, site.b).value;
    var cells := StatementsCells(fn, before, fn.blocks[site.b].statements).value;
    TerminatorDests(prog, site.f, pt, cells, fn.blocks[site.b].terminator);
  }

  /** A block of the frame of a point, other than the first. */
  lemma BlockIsPlace(prog: Program, pt: Point, b: nat)
    requires IsPoint(prog, pt) && pt.stack != [] && InRange(prog, Site(pt.stack[|pt.stack| - 1].f, b)) && b > 0
    ensures IsPoint(prog, FrameAt(pt).At(b)) && Home(FrameAt(pt).At(b).stack) == FrameAt(pt).At(b).stack
  {
    hide IsThread, Root, Chain, InRange;
    var site := pt.stack[|pt.stack| - 1];
    FrameAtIs(pt);
    assert pt.stack == FrameAt(pt).callers + [Site(site.f, site.b)];
    SameCallers(prog, FrameAt(pt).callers, site.f, site.b, b);
    assert FrameAt(pt).At(b).stack[0].f == pt.stack[0].f;
  }

  lemma CallerIsPoint(prog: Program, pt: Point)
    requires IsPoint(prog, pt) && |pt.stack| > 1
    ensures IsPoint(prog, Point(pt.thread, pt.stack[..|pt.stack| - 1]))
    ensures var site := pt.stack[|pt.stack| - 2]; InRange(prog, site) && Calls(prog, site) == Some(pt.stack[|pt.stack| - 1].f)
  {
    hide IsThread, Root;
    var caller := pt.stack[..|pt.stack| - 1];
    assert forall j :: 0 <= j < |caller| - 1 ==> Calls(prog, caller[j]) == Some(caller[j + 1].f);
  }

  lemma DestInFrameIsPlace(prog: Program, ctx: Context, pt: Point, dest: Dest)
    requires IsContext(prog, ctx) && IsPoint(prog, pt) && pt.stack != [] && InRange(prog, pt.stack[|pt.stack| - 1])
    requires DestOk(prog.functions[pt.stack[|pt.stack| - 1].f], dest)
    ensures IsPlaceOf(prog, ctx, DestPlaceInFrame(pt.thread, pt.stack[..|pt.stack| - 1], pt.stack[|pt.stack| - 1].f, dest))
  {
    hide IsContext, Home;
    if dest.ToBlock? {
      BlockIsPlace(prog, pt, dest.b);
    }
  }

  /** Every action leads to a place of the net. */
  lemma DestIsPlace(prog: Program, ctx: Context, pt: Point, dest: Dest)
    requires WellFormed(prog) && IsContext(prog, ctx) && IsPoint(prog, pt) && pt.stack != [] && InRange(prog, pt.stack[|pt.stack| - 1])
    requires DestOk(prog.functions[pt.stack[|pt.stack| - 1].f], dest)
    ensures IsPlaceOf(prog, ctx, DestPlace(prog, pt, dest))
  {
    hide IsContext, Home, IsPoint;
    var callers := pt.stack[..|pt.stack| - 1];
    if !dest.ToReturn? {
      DestInFrameIsPlace(prog, ctx, pt, dest);
    } else if callers == [] {
      EndIsPlace(prog, ctx, pt);
    } else {
      CallerIsPoint(prog, pt);
      var site := callers[|callers| - 1];
      assert FunctionOk(prog, site.f);
      CallEndsOk(prog, site.f, TerminatorAt(prog, site));
      DestInFrameIsPlace(prog, ctx, Point(pt.thread, callers), CallEnds(TerminatorAt(prog, site).returnTo, TerminatorAt(prog, site).unwind).end);
    }
  }

  lemma EndIsPlace(prog: Program, ctx: Context, pt: Point)
    requires IsPoint(prog, pt)
    ensures IsPlaceOf(prog, ctx, ThreadEndPlace(pt.thread))
  {
  }

  // ---------------------------------------------------------------------------------------------
  // Calls

  /** The called function of a point, at its first block. */
  lemma CalleePoint(prog: Program, pt: Point, g: nat)
    requires WellFormed(prog) && IsPoint(prog, pt) && pt.stack != [] && Calls(prog, pt.stack[|pt.stack| - 1]) == Some(g)
    ensures IsPoint(prog, Point(pt.thread, pt.stack + [Site(g, 0)]))
    ensures PlaceOf(pt.thread, pt.stack + [Site(g, 0)]) == PlaceOf(pt.thread, pt.stack)
    ensures g < pt.stack[|pt.stack| - 1].f
  {
    hide IsPoint, Home, WellFormed;
    var site := pt.stack[|pt.stack| - 1];
    LastSite(prog, pt);
    FrameAtIs(pt);
    CalleeIsPoint(prog, FrameAt(pt), site.b, g);
    CalleeSmaller(prog, site.f, site.b);
    StartPlaceOfCall(pt.thread, pt.stack, g);
  }

  lemma NothingMeansCall(fn: Function, pt: Point, cells: Cells, term: Terminator)
    requires TerminatorEffect(fn, pt, cells, term).Some? && (term.SwitchInt? ==> term.targets != [])
    requires var e := TerminatorEffect(fn, pt, cells, term).value; e.actions == [] && e.wait.None?
    ensures term.Call? && term.callee.User? && CallEnds(term.returnTo, term.unwind).Ends?
  {
    hide LinkedReturn;
  }

  /** A point without a transition of its own waits on a condvar or calls a user function. */
  lemma OnlyCallsDoNothing(prog: Program, pt: Point)
    requires Translatable(prog) && IsPoint(prog, pt) && Actions(prog, pt) == [] && WaitAt(prog, pt).None?
    ensures pt.stack != [] && Calls(prog, pt.stack[|pt.stack| - 1]).Some?
  {
    hide TerminatorEffect, StatementsCells, CellsBefore, IsPoint, Faulty;
    EffectDefined(prog, pt);
    var site := pt.stack[|pt.stack| - 1];
    var fn := prog.functions[site.f];
    assert FunctionOk(prog, site.f);
    assert TerminatorOk(prog, site.f, fn.blocks[site.b].terminator);
    var before := CellsBefore(prog, pt.thread, pt.stack[..|pt.stack| - 1], site.f, site.b).value;
    var cells := StatementsCells(fn, before, fn.blocks[site.b].statements).value;
    NothingMeansCall(fn, pt, cells, fn.blocks[site.b].terminator);
  }

  /** From the place of a point there is always a way on: the actions of the point itself, or of the first block of a
      function it calls, directly or not, or a wait. */
  lemma {:induction false} WayOn(prog: Program, pt: Point) returns (q: Point)
    requires Translatable(prog) && IsPoint(prog, pt)
    ensures IsPoint(prog, q) && q.thread == pt.thread && PlaceOf(q.thread, q.stack) == PlaceOf(pt.thread, pt.stack)
    ensures Actions(prog, q) != [] || WaitAt(prog, q).Some?
    ensures pt.stack != [] && pt.stack <= q.stack && forall j :: |pt.stack| <= j < |q.stack| ==> q.stack[j].b == 0
    decreases if pt.stack == [] then 0 else pt.stack[|pt.stack| - 1].f
  {
    hide IsPoint, Translatable, Actions, WaitAt, PlaceOf;
    LastSite(prog, pt);
    if Actions(prog, pt) != [] || WaitAt(prog, pt).Some? {
      q := pt;
    } else {
      OnlyCallsDoNothing(prog, pt);
      var g := Calls(prog, pt.stack[|pt.stack| - 1]).value;
      assert WellFormed(prog) by { Accepted(prog); }
      CalleePoint(prog, pt, g);
      q := WayOn(prog, Point(pt.thread, pt.stack + [Site(g, 0)]));
    }
  }

  lemma Accepted(prog: Program)
    requires Translatable(prog)
    ensures WellFormed(prog)
  {
  }
}
