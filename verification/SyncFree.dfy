/** Control flow without synchronisation: the net of a program without synchronisation has exactly its executions, with one
    token where the program is, and it is never reported. */
module SyncFree {
  import opened Wrappers
  import opened PetriNets
  import opened Mir
  import opened ControlPoints
  import opened AliasMemory
  import opened Blueprint
  import opened Worlds
  import opened Frames
  import opened Progress
  import opened Points
  import opened NetLaws
  import opened Condvars
  import opened Control
  import opened Alarms
  import opened Mutexes
  import opened Links
  import opened Machine
  import opened Paths
  import opened Simulation
  import opened Verdict
  import opened Verdicts
  import opened PlainCode

  // ---------------------------------------------------------------------------------------------
  // No place ever holds an object

  lemma {:induction false} NoSyncLength(fn: Function, operands: seq<Operand>)
    requires fn.syncPlaces == {}
    ensures SyncLength(fn, operands) == 0
  {
    if operands != [] {
      NoSyncLength(fn, operands[..|operands| - 1]);
    }
  }

  lemma {:induction false} NoLinks(fn: Function, statements: seq<Statement>)
    requires fn.syncPlaces == {}
    ensures StatementsLinks(fn, statements) == []
  {
    hide SyncLength;
    if statements != [] {
      NoLinks(fn, statements[..|statements| - 1]);
      var last := statements[|statements| - 1];
      if last.Assign? && last.rvalue.Aggregate? {
        NoSyncLength(fn, last.rvalue.operands);
      }
    }
  }

  /** The memory stays empty along every edge. */
  lemma StaysEmpty(prog: Program, pt: Point, returned: bool)
    requires PlainProgram(prog) && Located(prog, pt)
    ensures AtEnd(prog, pt, map[]) == map[] && Passed(prog, pt, map[], returned) == map[]
    ensures forall args: seq<Operand> :: Passing(map[], args) == map[]
  {
    hide WellFormed, StatementsLinks;
    var fn, term := FunctionAt(prog, pt), EndOf(prog, pt);
    assert PlainFunction(fn);
    assert PlainTerm(term);
    NoLinks(fn, fn.blocks[pt.stack[|pt.stack| - 1].b].statements);
    assert ExitLinks(fn, pt, term, returned) == [];
  }

  lemma EmptyAtEnd(prog: Program, pt: Point)
    requires PlainProgram(prog) && IsPoint(prog, pt) && Located(prog, pt)
    ensures TranslatorBefore(prog, pt) == map[] && TranslatorAtEnd(prog, pt) == map[]
  {
    hide WellFormed, EffectAt, IsPoint, CellsBefore, StatementsCells;
    PointFlows(prog, pt);
    var fn := FunctionAt(prog, pt);
    assert PlainFunction(fn);
    StatementsDoNothing(fn, map[], fn.blocks[pt.stack[|pt.stack| - 1].b].statements);
  }

  lemma EmptyAgrees(places: iset<Place>)
    ensures Agree(map[], map[], places)
  {
  }

  lemma PlainEdges(prog: Program, pt: Point, need: Needs)
    requires PlainProgram(prog) && IsPoint(prog, pt) && Located(prog, pt)
    ensures EdgesAgree(prog, pt, need)
  {
    hide WellFormed, PlainFunction, IsPoint, TranslatorBefore, TranslatorAtEnd, AtEnd, Passing, Passed, Exits, ReturnsTo, UnwindsTo, AgreesAt, Uses, BlockOf;
    EmptyAtEnd(prog, pt);
    StaysEmpty(prog, pt, true);
    EmptyAgrees(Uses(FunctionAt(prog, pt), EndOf(prog, pt)));
    forall e | e in Exits(EndOf(prog, pt)) ensures AgreesAt(prog, BlockOf(pt, e.b), need, Passed(prog, pt, map[], e.returned)) {
      StaysEmpty(prog, pt, e.returned);
      ExitIsTarget(prog, pt, e);
      TargetIsPoint(prog, pt, e.b);
      EmptyAt(prog, BlockOf(pt, e.b), need);
    }
    if Calls(prog, pt.stack[|pt.stack| - 1]).Some? {
      CalleePoint(prog, pt, Calls(prog, pt.stack[|pt.stack| - 1]).value);
      EmptyAt(prog, EntryOf(pt, Calls(prog, pt.stack[|pt.stack| - 1]).value), need);
      assert Passing(AtEnd(prog, pt, map[]), EndOf(prog, pt).args) == map[];
    }
    if ReturnsTo(prog, pt).Some? {
      PlainReturns(prog, pt, need);
    }
    if UnwindsTo(prog, pt).Some? {
      PlainUnwinds(prog, pt, need);
    }
  }

  lemma EmptyAt(prog: Program, pt: Point, need: Needs)
    requires PlainProgram(prog) && IsPoint(prog, pt)
    ensures AgreesAt(prog, pt, need, map[])
  {
    hide WellFormed, PlainFunction, IsPoint, TranslatorAtEnd, TranslatorBefore, Agree;
    LastSite(prog, pt);
    EmptyAtEnd(prog, pt);
    EmptyAgrees(need(pt));
  }

  lemma PlainReturns(prog: Program, pt: Point, need: Needs)
    requires PlainProgram(prog) && IsPoint(prog, pt) && Located(prog, pt) && ReturnsTo(prog, pt).Some?
    ensures TranslatorBefore(prog, pt) == map[]
    ensures AgreesAt(prog, ReturnsTo(prog, pt).value, need,
                     ReturnedMemory(prog, pt, map[], AtEnd(prog, CallerOf(pt), TranslatorBefore(prog, CallerOf(pt)))))
  {
    hide WellFormed, PlainFunction, IsPoint, TranslatorBefore, AtEnd, TargetOk, AgreesAt;
    var caller, there := CallerOf(pt), ReturnsTo(prog, pt).value;
    CallerIsPoint(prog, pt);
    EmptyAtEnd(prog, pt);
    EmptyAtEnd(prog, caller);
    StaysEmpty(prog, caller, true);
    StaysEmpty(prog, pt, true);
    GoesOnAtTarget(prog, caller);
    TargetIsPoint(prog, caller, there.stack[|caller.stack| - 1].b);
    EmptyAt(prog, there, need);
    var nothing: Cells := map[];
    assert nothing - {EndOf(prog, caller).destination} == nothing;
  }

  lemma PlainUnwinds(prog: Program, pt: Point, need: Needs)
    requires PlainProgram(prog) && IsPoint(prog, pt) && Located(prog, pt) && UnwindsTo(prog, pt).Some?
    ensures var caller := CallerAt(pt, UnwindDepth(prog, pt));
      AgreesAt(prog, UnwindsTo(prog, pt).value, need, AtEnd(prog, caller, TranslatorBefore(prog, caller)))
  {
    hide WellFormed, PlainFunction, IsPoint, TranslatorBefore, AtEnd, Exits, TargetOk, AgreesAt;
    var caller, block := CallerAt(pt, UnwindDepth(prog, pt)), Lands(prog, pt.stack[..|pt.stack| - 1]).block;
    CallersArePoints(prog, pt, UnwindDepth(prog, pt));
    EmptyAtEnd(prog, caller);
    StaysEmpty(prog, caller, true);
    ExitIsTarget(prog, caller, Exit(block, false));
    TargetIsPoint(prog, caller, block);
    EmptyAt(prog, UnwindsTo(prog, pt).value, need);
  }

  // ---------------------------------------------------------------------------------------------
  // Every such program is covered

  ghost function PlainNotes(): Notes {
    Notes((m: Point) => (p: PlaceRef) => 0, (pt: Point) => EVERYTHING, (pt: Point) => Some(0))
  }

  lemma PlainIsAligned(prog: Program)
    requires PlainProgram(prog)
    ensures Aligned(prog, PlainNotes())
  {
    hide PlainProgram, IsPoint, EdgesAgree, NeededFor, NeededAtEnd;
    forall pt: Point | IsPoint(prog, pt) && Located(prog, pt) ensures Closed(prog, pt, PlainNotes().need) && EdgesAgree(prog, pt, PlainNotes().need) {
      PlainEdges(prog, pt, PlainNotes().need);
    }
  }

  lemma PlainCleansUp(prog: Program)
    requires PlainProgram(prog)
    ensures CleansUp(prog, PlainNotes())
  {
    hide WellFormed, PlainFunction, IsPoint, EffectAt, CellsBefore, Lands, UnwindsTo, Follows, Resuming;
    forall pt: Point | IsPoint(prog, pt) && Located(prog, pt) ensures UnwindsWell(prog, pt, PlainNotes().cleanup) {
      PointFlows(prog, pt);
    }
  }

  lemma PlainIsSupported(prog: Program)
    requires PlainProgram(prog)
    ensures Supported(prog) && NeverDiverges(prog)
  {
    hide WellFormed, PlainFunction, IsPoint, EffectAt, CellsBefore, CreatesCondvar;
    forall pt: Point | IsPoint(prog, pt)
      ensures !CreatesCondvar(prog, pt) && WaitAt(prog, pt).None? && forall i :: 0 <= i < |Actions(prog, pt)| ==> Actions(prog, pt)[i].Flow?
    {
      PointFlows(prog, pt);
      PlainCreatesNothing(prog, pt);
    }
  }

  lemma PlainIsCovered(prog: Program, net: ProgramNet, ctx: Context)
    requires PlainProgram(prog) && IsNetOf(prog, net, ctx)
    ensures Covered(prog, net, ctx, PlainNotes()) && NeverDiverges(prog) && Sequential(prog) && MainNeverBlocks(prog, ctx)
  {
    hide PlainProgram, IsNetOf, Translatable, Supported, Aligned, CleansUp, NeverDiverges, Sequential, MainNeverBlocks, CreatesMutex, IsPoint;
    PlainIsAccepted(prog);
    PlainIsSupported(prog);
    PlainIsAligned(prog);
    PlainCleansUp(prog);
    PlainIsSequential(prog, ctx);
    forall m: Point ensures !IsMutex(prog, m) {
      PlainCreatesNothing(prog, m);
    }
  }

  /** The control flow of a program without synchronisation: its states and the markings of its net match each other, there
      is one token at all times, no deadlock is reported, and the program never gets stuck. */
  lemma ControlFlowIsExact(prog: Program, net: ProgramNet, ctx: Context)
    requires PlainProgram(prog) && IsNetOf(prog, net, ctx)
    ensures Translatable(prog)
    ensures forall s: State :: CanReach(prog, s) ==> exists m: multiset<PlaceRef> :: Reachable(net, m) && Matches(net, m, s)
    ensures forall m: multiset<PlaceRef> :: Reachable(net, m) ==> ControlTokens(m) == 1 && exists s: State :: CanReach(prog, s) && Matches(net, m, s)
    ensures !DeadlockReported(net, ProgramEnd, ProgramPanic) && !CanDeadlock(prog)
  {
    hide PlainProgram, IsNetOf, Translatable, WellFormed, Supported, GuardDisciplined, Aligned, CleansUp, NeverDiverges, Sequential, MainNeverBlocks,
      DeadlockReported, CanDeadlock, Matches, Tracking, Step, Weight, Canonical, Settled, Initial;
    PlainIsCovered(prog, net, ctx);
    Accepted(prog);
    forall s: State | CanReach(prog, s) ensures exists m: multiset<PlaceRef> :: Reachable(net, m) && Matches(net, m, s) {
      var states: seq<State> :| Execution(prog, states) && states[|states| - 1] == s;
      var m := EveryStateMatched(prog, net, ctx, PlainNotes(), states);
    }
    forall m: multiset<PlaceRef> | Reachable(net, m)
      ensures ControlTokens(m) == 1 && exists s: State :: CanReach(prog, s) && Matches(net, m, s)
    {
      var m0: multiset<PlaceRef>, run: seq<TransRef> :| IsInitial(net, m0) && After(net, m0, run) == Some(m);
      OneControlToken(prog, net, ctx, m0, run);
      var s := EveryMarkingMatched(prog, net, ctx, PlainNotes(), m0, run);
    }
    NoFalseAlarm(prog, net, ctx);
    VerdictIsCorrect(prog, net, ctx, PlainNotes());
  }
}
