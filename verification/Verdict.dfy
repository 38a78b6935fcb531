/** The verdict is correct: for an accepted program that uses mutexes, spawns and joins in a disciplined way and cleans up
    well, the deadlock formula holds of its net exactly if its threads can get stuck before the main thread is over. */
module Verdict {
  import opened Wrappers
  import opened PetriNets
  import opened Mir
  import opened ControlPoints
  import opened AliasMemory
  import opened Blueprint
  import opened Worlds
  import opened Frames
  import opened Progress
  import opened Points
  import opened NetLaws
  import opened Condvars
  import opened Arcs
  import opened Links
  import opened Machine
  import opened Paths
  import opened Simulation

  // ---------------------------------------------------------------------------------------------
  // Where threads are

  /** No thread has entered a called function without having left its first block. */
  ghost predicate Canonical(s: State) {
    forall who: Activity :: who in s.running && who.At? ==> Home(who.pt.stack) == who.pt.stack
  }

  lemma GoesToPoint(prog: Program, pt: Point, dest: Dest, below: seq<Cells>, cells: Cells, unwinding: bool)
    requires IsPoint(prog, pt) && pt.stack != [] && InRange(prog, pt.stack[|pt.stack| - 1])
    requires DestOk(prog.functions[pt.stack[|pt.stack| - 1].f], dest)
    ensures var activity := GoesTo(pt.thread, pt.stack[..|pt.stack| - 1], pt.stack[|pt.stack| - 1].f, dest, below, cells, unwinding);
      activity.At? ==> Home(activity.pt.stack) == activity.pt.stack
  {
    hide IsPoint, Home;
    if dest.ToBlock? {
      BlockIsPlace(prog, pt, dest.b);
    }
  }

  lemma ReturnsToPoint(prog: Program, who: Activity, result: Option<Value>)
    requires WellFormed(prog) && IsThere(prog, who) && |who.pt.stack| > 1
    ensures var activity := Returns(prog, who.pt.thread, who.pt.stack[..|who.pt.stack| - 1], who.below, result, who.unwinding);
      activity.At? ==> Home(activity.pt.stack) == activity.pt.stack
  {
    hide IsPoint, Home, GoesTo, Received;
    var pt, top := who.pt, |who.below| - 1;
    var callers := pt.stack[..|pt.stack| - 1];
    CallerIsPoint(prog, pt);
    var site := callers[|callers| - 1];
    assert FunctionOk(prog, site.f);
    CallEndsOk(prog, site.f, TerminatorAt(prog, site));
    GoesToPoint(prog, Point(pt.thread, callers), ReturnDest(TerminatorAt(prog, site)), who.below[..top],
                Received(who.below[top], TerminatorAt(prog, site).destination, result), who.unwinding);
  }

  lemma UnwindsToPoint(prog: Program, pt: Point)
    requires WellFormed(prog) && IsPoint(prog, pt) && Located(prog, pt) && UnwindsTo(prog, pt).Some?
    ensures Home(UnwindsTo(prog, pt).value.stack) == UnwindsTo(prog, pt).value.stack
  {
    hide IsPoint, Home, WellFormed, Exits;
    var caller, block := CallerAt(pt, UnwindDepth(prog, pt)), Lands(prog, pt.stack[..|pt.stack| - 1]).block;
    CallersArePoints(prog, pt, UnwindDepth(prog, pt));
    ExitIsTarget(prog, caller, Exit(block, false));
    BlockIsPlace(prog, caller, block);
  }

  /** A thread that moves on is not at the entry of a called function. */
  lemma ArrivesAtPlace(prog: Program, who: Activity, dest: Dest, cells: Cells)
    requires WellFormed(prog) && IsThere(prog, who) && DestOk(FunctionAt(prog, who.pt), dest)
    ensures var activity := Arrives(prog, who, dest, cells);
      activity.At? ==> Home(activity.pt.stack) == activity.pt.stack
  {
    hide IsPoint, Home, GoesTo, Received, WellFormed, Resumes, UnwindsTo, Resuming;
    if dest.ToReturn? {
      if |who.pt.stack| > 1 {
        ReturnsToPoint(prog, who, Lookup(cells, RESULT));
      }
    } else if dest.ToPanic? && Resuming(EndOf(prog, who.pt)) {
      ResumeLeads(prog, who);
      if UnwindsTo(prog, who.pt).Some? {
        UnwindsToPoint(prog, who.pt);
      }
    } else {
      GoesToPoint(prog, who.pt, dest, who.below, cells, who.unwinding);
    }
  }

  // ---------------------------------------------------------------------------------------------
  // Threads stay tracked

  /** A spawned thread starts with the objects the translator gives it. */
  lemma SpawnTracked(prog: Program, notes: Notes, pt: Point)
    requires Translatable(prog) && IsPoint(prog, pt) && Actions(prog, pt) != [] && Actions(prog, pt)[0].SpawnThread?
    ensures var a := Actions(prog, pt)[0]; Tracked(prog, notes.need, Starts(a.thread, a.f, ThreadMemory(prog, a.f, a.aggregate)))
  {
    hide EffectAt, IsPoint, CapturesLinked, CaptureLinks, Faulty, WellFormed, Tracked;
    var a := Actions(prog, pt)[0];
    EffectDefined(prog, pt);
    EffectShape(prog, pt);
    assert IsThread(prog, a.thread) by { SpawnIsThread(prog, pt); }
    assert Root(prog, a.thread) == a.f;
    ThreadStart(prog, a.thread);
    var start := Point(a.thread, [Site(a.f, 0)]);
    EffectDefined(prog, start);
    StartMemory(prog, a.thread, a.f, a.aggregate);
    StartTracked(prog, notes.need, a.thread);
  }

  lemma StartMemory(prog: Program, t: ThreadName, f: nat, captured: seq<Value>)
    requires t.Spawned? && EffectAt(prog, t, [Site(f, 0)]).Some?
    requires var actions := Actions(prog, Point(t.parent, t.stack)); actions != [] && actions[0].SpawnThread? && actions[0].aggregate == captured
    ensures ThreadMemory(prog, f, captured) == TranslatorBefore(prog, Point(t, [Site(f, 0)]))
  {
    hide CapturesLinked, CaptureLinks, StatementsCells, TerminatorEffect;
    assert [Site(f, 0)][..0] == [];
    CaptureMemory(map[CLOSURE := Bundle(captured)], prog.functions[f].debugPlaces);
  }

  /** A thread that goes on keeps cleaning up, and starts to where unwinding leads it. */
  lemma CleanupGoesOn(prog: Program, notes: Notes, who: Activity, next: Activity)
    requires CleansUp(prog, notes) && IsThere(prog, who) && Leads(prog, who, next) && next.unwinding && (who.unwinding ==> notes.cleanup(who.pt).Some?)
    ensures notes.cleanup(next.pt).Some?
  {
    hide IsPoint, Passed, Exits, Calls, ReturnedMemory, ReturnsTo, UnwindsTo, UnwindDepth, Follows, NeverAborts, CleansAlone;
    LeadsFollows(prog, who, next);
    assert UnwindsWell(prog, who.pt, notes.cleanup);
  }

  /** A thread that moved on is tracked again. */
  lemma MovedTracked(prog: Program, net: ProgramNet, ctx: Context, notes: Notes, s: State, who: Activity, i: nat)
    requires Covered(prog, net, ctx, notes) && Tracking(prog, notes, s) && CanAct(prog, s, who, i) && !MovesAt(prog, who.pt, who.cells)[i].Vanish?
    ensures var a := MovesAt(prog, who.pt, who.cells)[i];
      var next := Arrives(prog, who, a.dest, Passed(prog, who.pt, who.cells, Returned(EndOf(prog, who.pt), i)));
      next.At? ==> Tracked(prog, notes.need, next) && (next.unwinding ==> notes.cleanup(next.pt).Some?) && Home(next.pt.stack) == next.pt.stack
  {
    hide IsNetOf, Supported, GuardDisciplined, IsPoint, EffectAt, MovesAt, Closed, EdgesAgree, Tracked, Leads, Arrives, Passed, Home, Returned, Faulty, WellFormed, Unblocked,
      CleansUp;
    MovesInNet(prog, net, ctx, notes, s, who);
    var pt, a := who.pt, Actions(prog, who.pt)[i];
    var cells := Passed(prog, pt, who.cells, Returned(EndOf(prog, pt), i));
    var next := Arrives(prog, who, a.dest, cells);
    EffectDefined(prog, pt);
    EffectDests(prog, pt);
    ArrivesAtPlace(prog, who, a.dest, cells);
    if next.At? {
      MoveLeads(prog, who, i);
      LeadsTracked(prog, notes.need, who, next);
      if next.unwinding {
        CleanupGoesOn(prog, notes, who, next);
      }
    }
  }

  lemma SpawnedTracked(prog: Program, net: ProgramNet, ctx: Context, notes: Notes, s: State, who: Activity, i: nat)
    requires Covered(prog, net, ctx, notes) && Tracking(prog, notes, s) && CanAct(prog, s, who, i) && MovesAt(prog, who.pt, who.cells)[i].SpawnThread?
    ensures var a := MovesAt(prog, who.pt, who.cells)[i]; Tracked(prog, notes.need, Starts(a.thread, a.f, ThreadMemory(prog, a.f, a.aggregate)))
  {
    hide IsNetOf, Supported, GuardDisciplined, Aligned, CleansUp, IsPoint, EffectAt, MovesAt, Tracked, ThreadMemory, Translatable, Unblocked;
    MovesInNet(prog, net, ctx, notes, s, who);
    EffectDefined(prog, who.pt);
    EffectShape(prog, who.pt);
    SpawnTracked(prog, notes, who.pt);
  }

  /** Who runs after a move: the others, the thread that moved, and a thread that was spawned. */
  lemma RunningAfter(prog: Program, s: State, who: Activity, a: Action, returned: bool, x: Activity)
    requires who.At? && Located(prog, who.pt) && |who.pt.stack| == |who.below| + 1 && x in Acts(prog, s, who, a, returned).running
    ensures || x in s.running - multiset{who}
            || (a.Vanish? && x == Busy(who.pt.thread))
            || (!a.Vanish? && x == Arrives(prog, who, a.dest, Passed(prog, who.pt, who.cells, returned)))
            || (a.SpawnThread? && x == Starts(a.thread, a.f, ThreadMemory(prog, a.f, a.aggregate)))
  {
    hide Acts, Arrives, Passed, ThreadMemory, Located;
    if a.Vanish? {
      ActsBusy(prog, s, who, a, returned);
    } else {
      ActsRunning(prog, s, who, a, returned);
    }
  }

  /** After a move all threads are tracked. */
  lemma TakenTracking(prog: Program, net: ProgramNet, ctx: Context, notes: Notes, s: State, who: Activity, i: nat)
    requires Covered(prog, net, ctx, notes) && Tracking(prog, notes, s) && CanAct(prog, s, who, i)
    ensures Tracking(prog, notes, Taken(prog, s, who, i))
    ensures Canonical(s.(running := s.running - multiset{who})) ==> Canonical(Taken(prog, s, who, i))
  {
    hide Covered, MovesAt, Tracked, Arrives, Passed, ThreadMemory, Home, Returned, Located, Unblocked, Acts;
    var a := MovesAt(prog, who.pt, who.cells)[i];
    if !a.Vanish? {
      MovedTracked(prog, net, ctx, notes, s, who, i);
    }
    if a.SpawnThread? {
      SpawnedTracked(prog, net, ctx, notes, s, who, i);
      SingleIsHome(Site(a.f, 0));
    }
    forall x: Activity | x in Taken(prog, s, who, i).running && x.At?
      ensures Tracked(prog, notes.need, x) && (x.unwinding ==> notes.cleanup(x.pt).Some?)
      ensures x in s.running - multiset{who} || Home(x.pt.stack) == x.pt.stack
    {
      RunningAfter(prog, s, who, a, Returned(EndOf(prog, who.pt), i), x);
    }
  }

  lemma EnteredTracking(prog: Program, net: ProgramNet, ctx: Context, notes: Notes, s: State, who: Activity)
    requires Covered(prog, net, ctx, notes) && Tracking(prog, notes, s) && CanEnter(prog, s, who)
    ensures Tracking(prog, notes, Replaced(s, who, Enters(prog, who)))
  {
    hide IsNetOf, Supported, GuardDisciplined, IsPoint, WellFormed, Faulty, Closed, EdgesAgree, Tracked, Calls, AtEnd, Passing, CleansUp;
    IsTracked(prog, notes.need, who);
    EntryTracked(prog, notes.need, who);
    if Enters(prog, who).unwinding {
      assert Leads(prog, who, Enters(prog, who));
      CleanupGoesOn(prog, notes, who, Enters(prog, who));
    }
  }

  /** Entering a called function changes nothing in the net. */
  lemma EnterSimulated(prog: Program, net: ProgramNet, ctx: Context, notes: Notes, m: multiset<PlaceRef>, s: State, who: Activity)
    requires Covered(prog, net, ctx, notes) && StandsFor(net, m, s) && Tracking(prog, notes, s) && CanEnter(prog, s, who)
    ensures StandsFor(net, m, Replaced(s, who, Enters(prog, who))) && Tracking(prog, notes, Replaced(s, who, Enters(prog, who)))
  {
    hide IsNetOf, Supported, GuardDisciplined, Aligned, CleansUp, IsPoint, CountAt, Home, WellFormed, Faulty, Tracked, AtEnd, Passing;
    IsTracked(prog, notes.need, who);
    CalleePoint(prog, who.pt, Calls(prog, who.pt.stack[|who.pt.stack| - 1]).value);
    EnteredTracking(prog, net, ctx, notes, s, who);
    EnteredStandsFor(net, m, s, who, Enters(prog, who));
  }

  lemma EnteredStandsFor(net: ProgramNet, m: multiset<PlaceRef>, s: State, was: Activity, becomes: Activity)
    requires StandsFor(net, m, s) && was in s.running && PlaceWhere(was) == PlaceWhere(becomes)
    ensures StandsFor(net, m, Replaced(s, was, becomes))
  {
    hide CountAt, PlaceWhere;
    forall p: PlaceRef ensures CountAt(s.running - multiset{was} + multiset{becomes}, p) == CountAt(s.running, p) {
      CountReplaced(s.running, was, becomes, p);
    }
  }

  // ---------------------------------------------------------------------------------------------
  // The first block of a called function never blocks

  lemma NothingFromNothing(fn: Function, statement: Statement)
    requires StatementCells(fn, map[], statement).Some?
    ensures StatementCells(fn, map[], statement).value == map[]
  {
    if statement.Assign? && statement.rvalue.Aggregate? {
      var places := SyncOperands(fn, statement.rvalue.operands);
      if places != [] {
        NoValues(places);
      }
    }
  }

  lemma NoValues(places: seq<Place>)
    requires places != []
    ensures ValuesOf(map[], places).None?
  {
  }

  lemma {:induction false} EmptyStays(fn: Function, statements: seq<Statement>)
    requires StatementsCells(fn, map[], statements).Some?
    ensures StatementsCells(fn, map[], statements).value == map[]
  {
    if statements != [] {
      EmptyStays(fn, statements[..|statements| - 1]);
      NothingFromNothing(fn, statements[|statements| - 1]);
    }
  }

  lemma NothingToLock(fn: Function, pt: Point, term: Terminator)
    requires TerminatorEffect(fn, pt, map[], term).Some?
    ensures var e := TerminatorEffect(fn, pt, map[], term).value;
      forall i :: 0 <= i < |e.actions| ==> !e.actions[i].Acquire? && !e.actions[i].JoinThread?
  {
    hide LinkedReturn;
  }

  /** A called function starts with an empty memory, so its first block has nothing to lock or to join. */
  lemma EntryNeverWaits(prog: Program, pt: Point)
    requires EffectAt(prog, pt.thread, pt.stack).Some? && |pt.stack| > 1 && pt.stack[|pt.stack| - 1].b == 0
    ensures forall i :: 0 <= i < |Actions(prog, pt)| ==> !Actions(prog, pt)[i].Acquire? && !Actions(prog, pt)[i].JoinThread?
  {
    hide TerminatorEffect, StatementsCells;
    var site := pt.stack[|pt.stack| - 1];
    var fn := prog.functions[site.f];
    assert CellsBefore(prog, pt.thread, pt.stack[..|pt.stack| - 1], site.f, 0) == Some(map[]);
    EmptyStays(fn, fn.blocks[0].statements);
    NothingToLock(fn, pt, fn.blocks[0].terminator);
  }

  /** A thread at the entry of a called function can always go on. */
  lemma EntryMoves(prog: Program, net: ProgramNet, ctx: Context, notes: Notes, s: State, who: Activity)
    requires Covered(prog, net, ctx, notes) && Tracking(prog, notes, s) && who in s.running && who.At? && Home(who.pt.stack) != who.pt.stack
    ensures exists s': State :: Step(prog, s, s')
  {
    hide IsNetOf, GuardDisciplined, Aligned, CleansUp, Tracking, IsPoint, EffectAt, Translatable, Calls, CreatesCondvar, Taken, Enters, MovesAt;
    MovesInNet(prog, net, ctx, notes, s, who);
    EffectDefined(prog, who.pt);
    EntryNeverWaits(prog, who.pt);
    if Calls(prog, who.pt.stack[|who.pt.stack| - 1]).Some? {
      assert CanEnter(prog, s, who);
      assert Step(prog, s, Replaced(s, who, Enters(prog, who)));
    } else {
      assert Actions(prog, who.pt) != [] by {
        if Actions(prog, who.pt) == [] {
          OnlyCallsDoNothing(prog, who.pt);
        }
      }
      assert CanAct(prog, s, who, 0);
      assert Step(prog, s, Taken(prog, s, who, 0));
    }
  }

  // ---------------------------------------------------------------------------------------------
  // Cleaning up

  /** What cleaning up amounts to: it never has to wait, and in a spawned thread it is out of sight of the others. */
  lemma CleaningUp(prog: Program, net: ProgramNet, ctx: Context, notes: Notes, s: State, who: Activity)
    requires Covered(prog, net, ctx, notes) && Tracking(prog, notes, s) && who in s.running && who.At? && who.unwinding
    ensures IsThere(prog, who) && MovesAt(prog, who.pt, who.cells) == Actions(prog, who.pt) && notes.cleanup(who.pt).Some?
    ensures UnwindsWell(prog, who.pt, notes.cleanup)
  {
    hide IsNetOf, Supported, GuardDisciplined, Aligned, IsPoint, Translatable, MovesAt, Tracked, UnwindsWell;
    MovesInNet(prog, net, ctx, notes, s, who);
  }

  /** A thread that cleans up can always go on. */
  lemma CleanupMoves(prog: Program, net: ProgramNet, ctx: Context, notes: Notes, s: State, who: Activity)
    requires Covered(prog, net, ctx, notes) && Tracking(prog, notes, s) && who in s.running && who.At? && who.unwinding
    ensures exists s': State :: Step(prog, s, s')
  {
    hide IsNetOf, GuardDisciplined, Aligned, CleansUp, Tracking, IsPoint, Actions, Translatable, Calls, CreatesCondvar, WaitAt, Taken, Enters, MovesAt, NeverAborts,
      CleansAlone, UnwindsTo, Lands;
    CleaningUp(prog, net, ctx, notes, s, who);
    if Calls(prog, who.pt.stack[|who.pt.stack| - 1]).Some? {
      assert CanEnter(prog, s, who);
      assert Step(prog, s, Replaced(s, who, Enters(prog, who)));
    } else {
      assert Actions(prog, who.pt) != [] by {
        if Actions(prog, who.pt) == [] {
          OnlyCallsDoNothing(prog, who.pt);
        }
      }
      assert CanAct(prog, s, who, 0);
      assert Step(prog, s, Taken(prog, s, who, 0));
    }
  }

  /** A spawned thread that cleans up keeps its place in the net, or leaves the thread for the same place. */
  lemma CleanupInPlace(prog: Program, notes: Notes, who: Activity, a: Action, cells: Cells)
    requires IsThere(prog, who) && who.unwinding && who.pt.thread.Spawned? && notes.cleanup(who.pt).Some? && UnwindsWell(prog, who.pt, notes.cleanup)
    requires a in Actions(prog, who.pt)
    ensures !a.Vanish? && PlaceWhere(Arrives(prog, who, a.dest, cells)) == PlaceWhere(who)
  {
    hide IsPoint, Actions, Lands, Calls, UnwindsTo, CleansOn, NearerTheEnd;
    var i :| 0 <= i < |Actions(prog, who.pt)| && Actions(prog, who.pt)[i] == a;
  }

  /** The net sees nothing of a spawned thread that cleans up. */
  lemma CleanupUnseen(prog: Program, net: ProgramNet, ctx: Context, notes: Notes, m: multiset<PlaceRef>, s: State, who: Activity, i: nat)
    requires Covered(prog, net, ctx, notes) && StandsFor(net, m, s) && Tracking(prog, notes, s)
    requires CanAct(prog, s, who, i) && who.unwinding && who.pt.thread.Spawned?
    ensures StandsFor(net, m, Taken(prog, s, who, i))
    ensures !MovesAt(prog, who.pt, who.cells)[i].Vanish? && Taken(prog, s, who, i).running
      == Replaced(s, who, Arrives(prog, who, MovesAt(prog, who.pt, who.cells)[i].dest, Passed(prog, who.pt, who.cells, Returned(EndOf(prog, who.pt), i)))).running
  {
    hide Covered, Tracking, IsPoint, Actions, MovesAt, Arrives, Passed, Returned, CountAt, PlaceWhere, NeverAborts, UnwindsTo, Lands, Calls, CleansOn;
    CleaningUp(prog, net, ctx, notes, s, who);
    var a := Actions(prog, who.pt)[i];
    var cells := Passed(prog, who.pt, who.cells, Returned(EndOf(prog, who.pt), i));
    assert a.Flow?;
    CleanupInPlace(prog, notes, who, a, cells);
    EnteredStandsFor(net, m, s, who, Arrives(prog, who, a.dest, cells));
  }

  /** The main thread stays over. */
  lemma StaysOut(prog: Program, who: Activity, dest: Dest, cells: Cells)
    requires IsThere(prog, who) && IsOut(who)
    ensures IsOut(Arrives(prog, who, dest, cells))
  {
    hide IsPoint, Lands, Received;
  }

  lemma OthersStay(prog: Program, s: State, who: Activity, a: Action, returned: bool, x: Activity)
    requires who.At? && Located(prog, who.pt) && |who.pt.stack| == |who.below| + 1 && x in s.running && x != who && !x.Finished?
    ensures x in Acts(prog, s, who, a, returned).running
  {
    hide Acts, Arrives, Passed, ThreadMemory, Located;
    var others := s.running - multiset{who};
    assert x in others;
    if a.Vanish? {
      ActsBusy(prog, s, who, a, returned);
    } else {
      ActsRunning(prog, s, who, a, returned);
    }
  }

  lemma ActsBusy(prog: Program, s: State, who: Activity, a: Action, returned: bool)
    requires who.At? && Located(prog, who.pt) && |who.pt.stack| == |who.below| + 1 && a.Vanish?
    ensures Acts(prog, s, who, a, returned).running == s.running - multiset{who} + multiset{Busy(who.pt.thread)}
  {
  }

  /** Who runs after a move, exactly. */
  lemma ActsRunning(prog: Program, s: State, who: Activity, a: Action, returned: bool)
    requires who.At? && Located(prog, who.pt) && |who.pt.stack| == |who.below| + 1 && !a.Vanish?
    ensures var moved := s.running - multiset{who} + multiset{Arrives(prog, who, a.dest, Passed(prog, who.pt, who.cells, returned))};
      Acts(prog, s, who, a, returned).running ==
        if a.SpawnThread? then moved + multiset{Starts(a.thread, a.f, ThreadMemory(prog, a.f, a.aggregate))}
        else if a.JoinThread? then moved - multiset{Finished(a.thread)}
        else moved
  {
    hide Arrives, Passed, ThreadMemory, Located, Made;
  }

  lemma MovedIsThere(prog: Program, s: State, who: Activity, a: Action, returned: bool)
    requires who.At? && Located(prog, who.pt) && |who.pt.stack| == |who.below| + 1 && !a.Vanish?
    ensures var next := Arrives(prog, who, a.dest, Passed(prog, who.pt, who.cells, returned)); !next.Finished? ==> next in Acts(prog, s, who, a, returned).running
  {
    hide Acts, Arrives, Passed, ThreadMemory, Located;
    ActsRunning(prog, s, who, a, returned);
  }

  lemma OverForGood(prog: Program, net: ProgramNet, ctx: Context, notes: Notes, s: State, s': State)
    requires Covered(prog, net, ctx, notes) && Tracking(prog, notes, s) && Step(prog, s, s') && Over(s)
    ensures Over(s')
  {
    hide Covered, Tracking, Taken, Enters, MovesAt, Calls, Unblocked, IsOut;
    var x: Activity :| x in s.running && IsOut(x);
    if who: Activity :| CanEnter(prog, s, who) && s' == Replaced(s, who, Enters(prog, who)) {
      EntersOut(prog, who);
      assert x in s'.running || Enters(prog, who) in s'.running;
    } else {
      var who: Activity, i: nat :| CanAct(prog, s, who, i) && s' == Taken(prog, s, who, i);
      OverAfterMove(prog, net, ctx, notes, s, who, i, x);
    }
  }

  lemma OverAfterMove(prog: Program, net: ProgramNet, ctx: Context, notes: Notes, s: State, who: Activity, i: nat, x: Activity)
    requires Covered(prog, net, ctx, notes) && Tracking(prog, notes, s) && CanAct(prog, s, who, i) && x in s.running && IsOut(x)
    ensures Over(Taken(prog, s, who, i))
  {
    hide Covered, Tracking, Acts, MovesAt, Calls, Unblocked, Arrives, Passed, Returned, IsPoint;
    var a, returned := MovesAt(prog, who.pt, who.cells)[i], Returned(EndOf(prog, who.pt), i);
    if x == who {
      MainGoesOut(prog, net, ctx, notes, s, who, i);
      MovedIsThere(prog, s, who, a, returned);
      StaysOut(prog, who, a.dest, Passed(prog, who.pt, who.cells, returned));
    } else {
      OthersStay(prog, s, who, a, returned, x);
    }
  }

  lemma EntersOut(prog: Program, who: Activity)
    requires who.At? && Located(prog, who.pt) && Calls(prog, who.pt.stack[|who.pt.stack| - 1]).Some?
    ensures IsOut(who) ==> IsOut(Enters(prog, who))
  {
    hide Calls, AtEnd, Passing;
  }

  lemma MainGoesOut(prog: Program, net: ProgramNet, ctx: Context, notes: Notes, s: State, who: Activity, i: nat)
    requires Covered(prog, net, ctx, notes) && Tracking(prog, notes, s) && CanAct(prog, s, who, i) && who.unwinding
    ensures IsThere(prog, who) && !MovesAt(prog, who.pt, who.cells)[i].Vanish?
  {
    hide Covered, Tracking, IsPoint, Actions, MovesAt, NeverAborts, UnwindsTo, Lands, Calls, CleansAlone, Follows, Unblocked;
    CleaningUp(prog, net, ctx, notes, s, who);
  }

  /** Whether the main thread is over can be seen in the net. */
  lemma OverInNet(net: ProgramNet, m: multiset<PlaceRef>, s: State)
    requires StandsFor(net, m, s)
    ensures Over(s) <==> m[ProgramEnd] + m[ProgramPanic] > 0
  {
    hide CountAt;
    if x: Activity :| x in s.running && IsOut(x) {
      CountIsPositive(s.running, x, PlaceWhere(x).value);
    }
    if m[ProgramEnd] > 0 {
      var activity := Somebody(s.running, ProgramEnd);
      assert IsOut(activity);
    }
    if m[ProgramPanic] > 0 {
      var activity := Somebody(s.running, ProgramPanic);
      assert IsOut(activity);
    }
  }

  // ---------------------------------------------------------------------------------------------
  // Every state has its marking

  lemma InitialStandsFor(prog: Program, net: ProgramNet, ctx: Context, notes: Notes, m0: multiset<PlaceRef>)
    requires Covered(prog, net, ctx, notes) && IsInitial(net, m0)
    ensures StandsFor(net, m0, Initial(prog)) && Tracking(prog, notes, Initial(prog)) && Canonical(Initial(prog)) && Settled(Initial(prog))
  {
    hide IsNetOf, IsPoint, Translatable, GuardDisciplined, WaitAt, Actions, CountAt, Aligned, CleansUp, Tracked;
    NoCondvars(prog, net, ctx, notes);
    MainStart(prog, notes);
    var start := Starts(MainThread, prog.main, map[]);
    forall p: PlaceRef ensures m0[p] == if p.MutexPlace? then One(p in net.places) else CountAt(multiset{start}, p) {
      StartTokens(prog, net, ctx, m0, p);
      PlacesAre(prog, net, ctx, p);
      assert multiset{} + multiset{start} == multiset{start};
      CountAdded(multiset{}, start, p);
      NobodyAnywhere(p);
    }
  }

  lemma PlacesAre(prog: Program, net: ProgramNet, ctx: Context, p: PlaceRef)
    requires IsNetOf(prog, net, ctx)
    ensures p in net.places <==> IsPlaceOf(prog, ctx, p)
  {
  }

  lemma NobodyAnywhere(p: PlaceRef)
    ensures CountAt(multiset{}, p) == 0
  {
  }

  lemma MainStart(prog: Program, notes: Notes)
    requires Translatable(prog)
    ensures Tracked(prog, notes.need, Starts(MainThread, prog.main, map[]))
    ensures IsPoint(prog, Point(MainThread, [Site(prog.main, 0)])) && Home([Site(prog.main, 0)]) == [Site(prog.main, 0)]
  {
    hide Tracked;
    ThreadStart(prog, MainThread);
    StartTracked(prog, notes.need, MainThread);
    assert [Site(prog.main, 0)][..0] == [];
  }

  /** A step of a program whose main thread is not over: at most one firing. */
  lemma StepSimulated(prog: Program, net: ProgramNet, ctx: Context, notes: Notes, m: multiset<PlaceRef>, s: State, s': State)
    returns (m': multiset<PlaceRef>)
    requires Covered(prog, net, ctx, notes) && Reachable(net, m) && StandsFor(net, m, s) && Tracking(prog, notes, s) && Step(prog, s, s') && !Over(s)
    ensures Reachable(net, m') && StandsFor(net, m', s') && Tracking(prog, notes, s')
  {
    hide Covered, StandsFor, Tracking, Taken, Enters, Fire, Enabled, Reachable, MovesAt, Calls, Unblocked;
    if who: Activity :| CanEnter(prog, s, who) && s' == Replaced(s, who, Enters(prog, who)) {
      EnterSimulated(prog, net, ctx, notes, m, s, who);
      m' := m;
    } else {
      var who: Activity, i: nat :| CanAct(prog, s, who, i) && s' == Taken(prog, s, who, i);
      TakenTracking(prog, net, ctx, notes, s, who, i);
      if who.unwinding {
        assert !IsOut(who);
        CleanupUnseen(prog, net, ctx, notes, m, s, who, i);
        m' := m;
      } else {
        ActionSimulated(prog, net, ctx, notes, m, s, who, i);
        m' := Fire(net, m, TransRef(who.pt, i));
        ReachableStep(net, m, TransRef(who.pt, i));
      }
    }
  }

  lemma StepTracking(prog: Program, net: ProgramNet, ctx: Context, notes: Notes, s: State, s': State)
    requires Covered(prog, net, ctx, notes) && Tracking(prog, notes, s) && Step(prog, s, s')
    ensures Tracking(prog, notes, s')
  {
    hide Covered, Tracking, Taken, Enters, MovesAt, Calls, Unblocked;
    if who: Activity :| CanEnter(prog, s, who) && s' == Replaced(s, who, Enters(prog, who)) {
      EnteredTracking(prog, net, ctx, notes, s, who);
    } else {
      var who: Activity, i: nat :| CanAct(prog, s, who, i) && s' == Taken(prog, s, who, i);
      TakenTracking(prog, net, ctx, notes, s, who, i);
    }
  }

  /** Every state the program can reach is matched by a marking the net can reach. */
  lemma {:induction false} EveryStateMatched(prog: Program, net: ProgramNet, ctx: Context, notes: Notes, states: seq<State>)
    returns (m: multiset<PlaceRef>)
    requires Covered(prog, net, ctx, notes) && Execution(prog, states)
    ensures Reachable(net, m) && Matches(net, m, states[|states| - 1]) && Tracking(prog, notes, states[|states| - 1])
    decreases |states|
  {
    hide Covered, StandsFor, Tracking, Step, Initial, Canonical, Over, Settled;
    if |states| == 1 {
      m := InitialExists(net);
      InitialStandsFor(prog, net, ctx, notes, m);
      assert After(net, m, []) == Some(m);
      OverInNet(net, m, Initial(prog));
    } else {
      var before := states[..|states| - 1];
      m := EveryStateMatched(prog, net, ctx, notes, before);
      var s, s' := states[|states| - 2], states[|states| - 1];
      assert Step(prog, s, s');
      StepTracking(prog, net, ctx, notes, s, s');
      if Over(s) {
        OverForGood(prog, net, ctx, notes, s, s');
      } else {
        m := StepSimulated(prog, net, ctx, notes, m, s, s');
        OverInNet(net, m, s');
      }
    }
  }

  // ---------------------------------------------------------------------------------------------
  // Every marking has its state

  lemma {:induction false} HomeIsPrefix(stack: seq<Site>)
    requires stack != []
    ensures Home(stack) != [] && Home(stack) <= stack
    ensures forall j :: |Home(stack)| <= j < |stack| ==> stack[j].b == 0
    decreases |stack|
  {
    if |stack| > 1 && stack[|stack| - 1].b == 0 {
      HomeIsPrefix(stack[..|stack| - 1]);
    }
  }

  /** A thread at the place of a point can go on to the point itself by entering the called functions. */
  lemma {:induction false} EnterUpTo(prog: Program, net: ProgramNet, ctx: Context, notes: Notes, s: State, who: Activity, pt: Point) returns (next: Activity)
    requires Covered(prog, net, ctx, notes) && CanReach(prog, s) && Tracking(prog, notes, s) && who in s.running && who.At?
    requires IsPoint(prog, pt) && who.pt.thread == pt.thread && who.pt.stack != [] && who.pt.stack <= pt.stack
    requires forall j :: |who.pt.stack| <= j < |pt.stack| ==> pt.stack[j].b == 0
    ensures next.At? && next.pt == pt && next.unwinding == who.unwinding && CanReach(prog, Replaced(s, who, next)) && Tracking(prog, notes, Replaced(s, who, next))
    ensures who.pt.stack != pt.stack ==> exists s': State :: Step(prog, s, s')
    decreases |pt.stack| - |who.pt.stack|
  {
    hide Covered, IsPoint, Step, CanReach, Enters, Tracked;
    if who.pt.stack == pt.stack {
      next := who;
      assert Replaced(s, who, next) == s by { assert s.running - multiset{who} + multiset{who} == s.running; }
    } else {
      EnterOne(prog, net, ctx, notes, s, who, pt);
      var entered := Enters(prog, who);
      StepReached(prog, s, Replaced(s, who, entered));
      next := EnterUpTo(prog, net, ctx, notes, Replaced(s, who, entered), entered, pt);
      assert Replaced(Replaced(s, who, entered), entered, next) == Replaced(s, who, next) by {
        assert s.running - multiset{who} + multiset{entered} - multiset{entered} == s.running - multiset{who};
      }
    }
  }

  lemma EnterOne(prog: Program, net: ProgramNet, ctx: Context, notes: Notes, s: State, who: Activity, pt: Point)
    requires Covered(prog, net, ctx, notes) && Tracking(prog, notes, s) && who in s.running && who.At?
    requires IsPoint(prog, pt) && who.pt.thread == pt.thread && who.pt.stack != [] && who.pt.stack < pt.stack
    requires pt.stack[|who.pt.stack|].b == 0
    ensures CanEnter(prog, s, who) && Step(prog, s, Replaced(s, who, Enters(prog, who))) && Tracking(prog, notes, Replaced(s, who, Enters(prog, who)))
    ensures Enters(prog, who).At? && Enters(prog, who).pt == Point(pt.thread, pt.stack[..|who.pt.stack| + 1]) && Enters(prog, who).unwinding == who.unwinding
  {
    hide IsNetOf, Supported, GuardDisciplined, Aligned, CleansUp, IsThread, Root, Actions, Tracked, Faulty, WellFormed, AtEnd, Passing, MovesAt;
    var n := |who.pt.stack|;
    IsTracked(prog, notes.need, who);
    assert pt.stack[n - 1] == who.pt.stack[n - 1];
    assert Calls(prog, pt.stack[n - 1]) == Some(pt.stack[n].f);
    assert pt.stack[..n + 1] == who.pt.stack + [Site(pt.stack[n].f, 0)];
    EnteredTracking(prog, net, ctx, notes, s, who);
  }

  /** A firing is matched by entering the called functions up to its point, and taking the move. */
  lemma FiringTaken(prog: Program, net: ProgramNet, ctx: Context, notes: Notes, m: multiset<PlaceRef>, s: State, ref: TransRef)
    returns (who: Activity, s': State)
    requires Covered(prog, net, ctx, notes) && Reachable(net, m) && Enabled(net, m, ref)
    requires CanReach(prog, s) && StandsFor(net, m, s) && Tracking(prog, notes, s) && Canonical(s) && Settled(s)
    ensures CanReach(prog, s') && StandsFor(net, Fire(net, m, ref), s') && Tracking(prog, notes, s') && Canonical(s')
    ensures Settled(s') || (who in s'.running && who.At? && who.unwinding && who.pt.thread.Spawned? && Settled(s'.(running := s'.running - multiset{who})))
  {
    hide IsNetOf, IsPoint, Supported, GuardDisciplined, Aligned, CleansUp, Fire, Reachable, CanReach, Translatable, Actions, Home, Step, StandsFor, Tracking, MovesAt, Taken,
      Located, Settled;
    NoCondvars(prog, net, ctx, notes);
    EdgeOfPoint(prog, net, ctx, ref);
    var pt, i := ref.pt, ref.i;
    HomeIsPrefix(pt.stack);
    HereIsInput(prog, net, ctx, notes, m, ref);
    var was := SomebodyAt(net, m, s, pt);
    var there := EnterUpTo(prog, net, ctx, notes, s, was, pt);
    var entered := Replaced(s, was, there);
    EnteredStandsFor(net, m, s, was, there);
    EnteredSettled(s, was, there);
    MovesInNet(prog, net, ctx, notes, entered, there);
    ReadyIffEnabled(prog, net, ctx, notes, m, entered, pt, i);
    ActionSimulated(prog, net, ctx, notes, m, entered, there, i);
    TakenTracking(prog, net, ctx, notes, entered, there, i);
    assert entered.running - multiset{there} == s.running - multiset{was};
    s' := Taken(prog, entered, there, i);
    assert Step(prog, entered, s') by { ActIsStep(prog, entered, there, i); }
    StepReached(prog, entered, s');
    who := TakenSettled(prog, entered, there, i);
  }

  lemma EnteredSettled(s: State, was: Activity, becomes: Activity)
    requires Settled(s) && was.At? && becomes.At? && !becomes.unwinding
    ensures Settled(Replaced(s, was, becomes))
  {
  }

  /** After a move, only the thread that moved can be one that cleans up. */
  lemma TakenSettled(prog: Program, s: State, who: Activity, i: nat) returns (next: Activity)
    requires Settled(s) && CanAct(prog, s, who, i)
    ensures var s' := Taken(prog, s, who, i);
      Settled(s') || (next in s'.running && next.At? && next.unwinding && next.pt.thread.Spawned? && Settled(s'.(running := s'.running - multiset{next})))
  {
    hide MovesAt, Arrives, Passed, ThreadMemory, Returned, Located, Unblocked;
    var a, returned := MovesAt(prog, who.pt, who.cells)[i], Returned(EndOf(prog, who.pt), i);
    next := if a.Vanish? then Busy(who.pt.thread) else Arrives(prog, who, a.dest, Passed(prog, who.pt, who.cells, returned));
  }

  /** A spawned thread that cleans up can do so to the end, unseen by the net. */
  lemma {:induction false} CleanedUp(prog: Program, net: ProgramNet, ctx: Context, notes: Notes, m: multiset<PlaceRef>, s: State, who: Activity) returns (s': State)
    requires Covered(prog, net, ctx, notes) && CanReach(prog, s) && StandsFor(net, m, s) && Tracking(prog, notes, s) && Canonical(s)
    requires who in s.running && who.At? && who.unwinding && who.pt.thread.Spawned? && notes.cleanup(who.pt).Some?
    requires Settled(s.(running := s.running - multiset{who}))
    ensures CanReach(prog, s') && StandsFor(net, m, s') && Tracking(prog, notes, s') && Canonical(s') && Settled(s')
    decreases notes.cleanup(who.pt).value
  {
    hide Covered, CanReach, StandsFor, Tracking, Canonical, MovesAt, Taken, Home, Step, Arrives, Passed, Returned, Unblocked, Settled, Located;
    var i := NearestMove(prog, net, ctx, notes, s, who);
    var next := Arrives(prog, who, MovesAt(prog, who.pt, who.cells)[i].dest, Passed(prog, who.pt, who.cells, Returned(EndOf(prog, who.pt), i)));
    s' := Taken(prog, s, who, i);
    CleanupUnseen(prog, net, ctx, notes, m, s, who, i);
    TakenTracking(prog, net, ctx, notes, s, who, i);
    StillCanonical(s, who);
    ActIsStep(prog, s, who, i);
    StepReached(prog, s, s');
    assert s'.running == s.running - multiset{who} + multiset{next};
    assert s'.running - multiset{next} == s.running - multiset{who};
    SettledOthers(s.(running := s.running - multiset{who}), s', next);
    if next.At? {
      s' := CleanedUp(prog, net, ctx, notes, m, s', next);
    }
  }

  lemma StillCanonical(s: State, who: Activity)
    requires Canonical(s)
    ensures Canonical(s.(running := s.running - multiset{who}))
  {
    hide Home;
  }

  lemma SettledOthers(others: State, s: State, next: Activity)
    requires Settled(others) && s.running == others.running + multiset{next}
    ensures !next.At? ==> Settled(s)
    ensures Settled(s.(running := s.running - multiset{next}))
  {
    assert s.running - multiset{next} == others.running;
  }

  lemma NearestMove(prog: Program, net: ProgramNet, ctx: Context, notes: Notes, s: State, who: Activity) returns (i: nat)
    requires Covered(prog, net, ctx, notes) && Tracking(prog, notes, s) && who in s.running && who.At? && who.unwinding && who.pt.thread.Spawned?
    ensures CanAct(prog, s, who, i) && notes.cleanup(who.pt).Some? && !MovesAt(prog, who.pt, who.cells)[i].Vanish?
    ensures var next := Arrives(prog, who, MovesAt(prog, who.pt, who.cells)[i].dest, Passed(prog, who.pt, who.cells, Returned(EndOf(prog, who.pt), i)));
      next.At? ==> next.unwinding && next.pt.thread.Spawned? && notes.cleanup(next.pt).Some? && notes.cleanup(next.pt).value < notes.cleanup(who.pt).value
  {
    hide Covered, Tracking, IsPoint, Actions, MovesAt, Passed, Returned, UnwindsTo, Lands, Calls, CleansOn, Resumes, Resuming;
    CleaningUp(prog, net, ctx, notes, s, who);
    i :| 0 <= i < |Actions(prog, who.pt)| && NearerTheEnd(prog, who.pt, Actions(prog, who.pt)[i].dest, notes.cleanup);
    if Resuming(EndOf(prog, who.pt)) {
      ResumeLeads(prog, who);
      if UnwindsTo(prog, who.pt).Some? {
        UnwindsInThread(prog, who.pt);
      }
    }
  }

  lemma UnwindsInThread(prog: Program, pt: Point)
    requires Located(prog, pt) && UnwindsTo(prog, pt).Some?
    ensures UnwindsTo(prog, pt).value.thread == pt.thread
  {
  }

  /** A firing is matched by a move, after which a thread that has to clean up does so. */
  lemma FiringMatched(prog: Program, net: ProgramNet, ctx: Context, notes: Notes, m: multiset<PlaceRef>, s: State, ref: TransRef)
    returns (s': State)
    requires Covered(prog, net, ctx, notes) && Reachable(net, m) && Enabled(net, m, ref)
    requires CanReach(prog, s) && StandsFor(net, m, s) && Tracking(prog, notes, s) && Canonical(s) && Settled(s)
    ensures CanReach(prog, s') && StandsFor(net, Fire(net, m, ref), s') && Tracking(prog, notes, s') && Canonical(s') && Settled(s')
  {
    hide Covered, CanReach, StandsFor, Canonical, Settled, Reachable, Fire, Enabled, Tracked;
    var who: Activity;
    who, s' := FiringTaken(prog, net, ctx, notes, m, s, ref);
    if !Settled(s') {
      s' := CleanedUp(prog, net, ctx, notes, Fire(net, m, ref), s', who);
    }
  }

  lemma ActIsStep(prog: Program, s: State, who: Activity, i: nat)
    requires CanAct(prog, s, who, i)
    ensures Step(prog, s, Taken(prog, s, who, i))
  {
    hide MovesAt, Taken;
  }

  lemma HereIsInput(prog: Program, net: ProgramNet, ctx: Context, notes: Notes, m: multiset<PlaceRef>, ref: TransRef)
    requires Covered(prog, net, ctx, notes) && Enabled(net, m, ref) && ref.TransRef?
    ensures PlaceOf(ref.pt.thread, ref.pt.stack) in m
  {
    hide IsNetOf, IsPoint, Supported, GuardDisciplined, Aligned, CleansUp, Translatable, Actions, Home, EdgeOfAction;
    EdgeOfPoint(prog, net, ctx, ref);
    ControlCounts(prog, ctx, ref.pt, Actions(prog, ref.pt)[ref.i], PlaceOf(ref.pt.thread, ref.pt.stack));
  }

  lemma SomebodyAt(net: ProgramNet, m: multiset<PlaceRef>, s: State, pt: Point) returns (who: Activity)
    requires StandsFor(net, m, s) && Canonical(s) && PlaceOf(pt.thread, pt.stack) in m
    ensures who in s.running && who.At? && !who.unwinding && who.pt == Point(pt.thread, Home(pt.stack))
  {
    hide CountAt, Home;
    who := Somebody(s.running, PlaceOf(pt.thread, pt.stack));
  }

  /** The main thread stays over in the net. */
  lemma OverStays(prog: Program, net: ProgramNet, ctx: Context, notes: Notes, m: multiset<PlaceRef>, ref: TransRef)
    requires Covered(prog, net, ctx, notes) && Enabled(net, m, ref) && m[ProgramEnd] + m[ProgramPanic] > 0
    ensures Fire(net, m, ref)[ProgramEnd] + Fire(net, m, ref)[ProgramPanic] > 0
  {
    hide IsNetOf, IsPoint, Supported, GuardDisciplined, Aligned, CleansUp, Translatable, Actions, Home, EdgeOfAction, DestPlace;
    NoCondvars(prog, net, ctx, notes);
    EdgeOfPoint(prog, net, ctx, ref);
    ControlCounts(prog, ctx, ref.pt, Actions(prog, ref.pt)[ref.i], ProgramEnd);
    ControlCounts(prog, ctx, ref.pt, Actions(prog, ref.pt)[ref.i], ProgramPanic);
  }

  /** Every marking the net can reach is matched by a state the program can reach. */
  lemma {:induction false} EveryMarkingMatched(prog: Program, net: ProgramNet, ctx: Context, notes: Notes, m0: multiset<PlaceRef>, run: seq<TransRef>)
    returns (s: State)
    requires Covered(prog, net, ctx, notes) && IsInitial(net, m0) && After(net, m0, run).Some?
    ensures CanReach(prog, s) && Matches(net, After(net, m0, run).value, s) && Tracking(prog, notes, s)
    ensures Over(s) || (Canonical(s) && Settled(s))
  {
    hide Covered, StandsFor, Tracking, Canonical, CanReach, Enabled, Fire, Over, Settled;
    if run == [] {
      s := Initial(prog);
      StartReached(prog);
      InitialStandsFor(prog, net, ctx, notes, m0);
      OverInNet(net, m0, s);
    } else {
      var before, last := run[..|run| - 1], run[|run| - 1];
      LastFiring(net, m0, run);
      s := EveryMarkingMatched(prog, net, ctx, notes, m0, before);
      var m := After(net, m0, before).value;
      if Over(s) {
        OverStays(prog, net, ctx, notes, m, last);
      } else {
        assert Reachable(net, m);
        s := FiringMatched(prog, net, ctx, notes, m, s, last);
        OverInNet(net, Fire(net, m, last), s);
      }
    }
  }

  // ---------------------------------------------------------------------------------------------
  // The verdict

  /** In a state without steps nobody is at the entry of a called function, and nobody cleans up. */
  lemma AtRest(prog: Program, net: ProgramNet, ctx: Context, notes: Notes, s: State)
    requires Covered(prog, net, ctx, notes) && Tracking(prog, notes, s) && Stalled(prog, s)
    ensures Canonical(s) && Settled(s) && !Over(s)
  {
    hide Covered, Tracking, Step, Home;
    forall who: Activity | who in s.running && who.At? ensures Home(who.pt.stack) == who.pt.stack && !who.unwinding {
      if Home(who.pt.stack) != who.pt.stack {
        EntryMoves(prog, net, ctx, notes, s, who);
      }
      if who.unwinding {
        CleanupMoves(prog, net, ctx, notes, s, who);
      }
    }
  }

  /** A state without steps has a dead marking. */
  lemma StalledIsDead(prog: Program, net: ProgramNet, ctx: Context, notes: Notes, m: multiset<PlaceRef>, s: State)
    requires Covered(prog, net, ctx, notes) && CanReach(prog, s) && StandsFor(net, m, s) && Tracking(prog, notes, s) && Stalled(prog, s)
    ensures Dead(net, m)
  {
    hide Covered, StandsFor, Tracking, CanReach, Enabled, Step, Canonical, Settled;
    AtRest(prog, net, ctx, notes, s);
    forall ref ensures !Enabled(net, m, ref) {
      if Enabled(net, m, ref) {
        EnabledMeansStep(prog, net, ctx, notes, m, s, ref);
      }
    }
  }

  lemma EnabledMeansStep(prog: Program, net: ProgramNet, ctx: Context, notes: Notes, m: multiset<PlaceRef>, s: State, ref: TransRef)
    requires Covered(prog, net, ctx, notes) && CanReach(prog, s) && StandsFor(net, m, s) && Tracking(prog, notes, s) && Canonical(s) && Settled(s) && Enabled(net, m, ref)
    ensures exists s': State :: Step(prog, s, s')
  {
    hide IsNetOf, IsPoint, StandsFor, Supported, GuardDisciplined, Aligned, CleansUp, Tracking, Translatable, Step, Home, Actions, CanReach, MovesAt, Located, Settled;
    NoCondvars(prog, net, ctx, notes);
    EdgeOfPoint(prog, net, ctx, ref);
    var pt := ref.pt;
    HomeIsPrefix(pt.stack);
    HereIsInput(prog, net, ctx, notes, m, ref);
    var who := SomebodyAt(net, m, s, pt);
    if who.pt.stack == pt.stack {
      MovesInNet(prog, net, ctx, notes, s, who);
      ReadyIffEnabled(prog, net, ctx, notes, m, s, pt, ref.i);
      ActIsStep(prog, s, who, ref.i);
    } else {
      var next := EnterUpTo(prog, net, ctx, notes, s, who, pt);
    }
  }

  /** A dead marking belongs to a state without steps. */
  lemma DeadIsStalled(prog: Program, net: ProgramNet, ctx: Context, notes: Notes, m: multiset<PlaceRef>, s: State)
    requires Covered(prog, net, ctx, notes) && Reachable(net, m) && Dead(net, m) && StandsFor(net, m, s) && Tracking(prog, notes, s)
    requires Settled(s) && !Over(s)
    ensures Stalled(prog, s)
  {
    hide Covered, StandsFor, Tracking, Reachable, Enabled, Taken, Enters, MovesAt, Calls, Unblocked;
    assert forall x: Activity :: x in s.running ==> !IsOut(x);
    forall s': State ensures !Step(prog, s, s') {
      if who: Activity :| CanEnter(prog, s, who) && s' == Replaced(s, who, Enters(prog, who)) {
        EntryIsEnabled(prog, net, ctx, notes, m, s, who);
      } else if who: Activity, i: nat :| CanAct(prog, s, who, i) && s' == Taken(prog, s, who, i) {
        ActionSimulated(prog, net, ctx, notes, m, s, who, i);
      }
    }
  }

  /** If a function can be entered, some transition is enabled. */
  lemma EntryIsEnabled(prog: Program, net: ProgramNet, ctx: Context, notes: Notes, m: multiset<PlaceRef>, s: State, who: Activity)
    requires Covered(prog, net, ctx, notes) && StandsFor(net, m, s) && Tracking(prog, notes, s) && CanEnter(prog, s, who) && !who.unwinding
    ensures exists ref: TransRef :: Enabled(net, m, ref)
  {
    hide IsNetOf, IsPoint, StandsFor, GuardDisciplined, Aligned, CleansUp, Enabled, Home, EffectAt, Faulty, WellFormed, WaitAt, Actions, CreatesCondvar, Tracked, Settled;
    IsTracked(prog, notes.need, who);
    var pt := who.pt;
    var g := Calls(prog, pt.stack[|pt.stack| - 1]).value;
    CalleePoint(prog, pt, g);
    var callee := Point(pt.thread, pt.stack + [Site(g, 0)]);
    var q := WayOn(prog, callee);
    HereIsMarked(net, m, s, who);
    EffectDefined(prog, q);
    assert q.stack[|q.stack| - 1].b == 0 by { DeeperEntry(callee.stack, q.stack); }
    EntryNeverWaits(prog, q);
    ReadyIffEnabled(prog, net, ctx, notes, m, s, q, 0);
  }

  lemma DeeperEntry(stack: seq<Site>, deeper: seq<Site>)
    requires stack != [] && stack[|stack| - 1].b == 0 && stack <= deeper && forall j :: |stack| <= j < |deeper| ==> deeper[j].b == 0
    ensures deeper[|deeper| - 1].b == 0
  {
  }

  /** What the model checker reports, exactly: that the program can get to a state in which no thread goes on, other than
      those in a diverging call, before the main thread is over. */
  lemma ReportedIffStalled(prog: Program, net: ProgramNet, ctx: Context, notes: Notes)
    requires Covered(prog, net, ctx, notes)
    ensures DeadlockReported(net, ProgramEnd, ProgramPanic) <==> CanStall(prog)
  {
    hide Covered, StandsFor, Tracking, Canonical, Stalled, Step, Initial, Dead, After, Over, Settled;
    if m: multiset<PlaceRef> :| Reachable(net, m) && Dead(net, m) && m[ProgramEnd] == 0 && m[ProgramPanic] == 0 {
      var m0: multiset<PlaceRef>, run: seq<TransRef> :| IsInitial(net, m0) && After(net, m0, run) == Some(m);
      var s := EveryMarkingMatched(prog, net, ctx, notes, m0, run);
      DeadIsStalled(prog, net, ctx, notes, m, s);
    }
    if s: State :| CanReach(prog, s) && Stalled(prog, s) {
      var states: seq<State> :| Execution(prog, states) && states[|states| - 1] == s;
      var m := EveryStateMatched(prog, net, ctx, notes, states);
      AtRest(prog, net, ctx, notes, s);
      StalledIsDead(prog, net, ctx, notes, m, s);
      OverInNet(net, m, s);
    }
  }

  /** The program calls no diverging function. */
  ghost predicate NeverDiverges(prog: Program) {
    forall pt: Point, i: nat :: IsPoint(prog, pt) && i < |Actions(prog, pt)| ==> !Actions(prog, pt)[i].Vanish?
  }

  ghost predicate NobodyBusy(s: State) {
    forall t: ThreadName :: Busy(t) !in s.running
  }

  lemma NeverBusy(prog: Program, net: ProgramNet, ctx: Context, notes: Notes, s: State, s': State)
    requires Covered(prog, net, ctx, notes) && Tracking(prog, notes, s) && Step(prog, s, s') && NeverDiverges(prog) && NobodyBusy(s)
    ensures NobodyBusy(s')
  {
    hide Covered, Tracking, Acts, MovesAt, Calls, Unblocked, Actions, Returned, IsPoint, AtEnd, Passing, Arrives, Passed, ThreadMemory;
    if who: Activity :| CanEnter(prog, s, who) && s' == Replaced(s, who, Enters(prog, who)) {
    } else {
      var who: Activity, i: nat :| CanAct(prog, s, who, i) && s' == Taken(prog, s, who, i);
      MovesInNet(prog, net, ctx, notes, s, who);
      var a, returned := MovesAt(prog, who.pt, who.cells)[i], Returned(EndOf(prog, who.pt), i);
      forall t: ThreadName ensures Busy(t) !in s'.running {
        if Busy(t) in s'.running {
          RunningAfter(prog, s, who, a, returned, Busy(t));
          ArrivesNotBusy(prog, who, a.dest, Passed(prog, who.pt, who.cells, returned));
        }
      }
    }
  }

  lemma ArrivesNotBusy(prog: Program, who: Activity, dest: Dest, cells: Cells)
    requires IsThere(prog, who)
    ensures !Arrives(prog, who, dest, cells).Busy?
  {
    hide IsPoint, Lands, Received;
  }

  lemma {:induction false} NobodyEverBusy(prog: Program, net: ProgramNet, ctx: Context, notes: Notes, states: seq<State>)
    requires Covered(prog, net, ctx, notes) && Execution(prog, states) && NeverDiverges(prog)
    ensures NobodyBusy(states[|states| - 1])
    decreases |states|
  {
    hide Covered, Tracking, Step, NeverDiverges, Reachable, Matches;
    if |states| > 1 {
      var before := states[..|states| - 1];
      NobodyEverBusy(prog, net, ctx, notes, before);
      var m := EveryStateMatched(prog, net, ctx, notes, before);
      assert Step(prog, states[|states| - 2], states[|states| - 1]);
      NeverBusy(prog, net, ctx, notes, states[|states| - 2], states[|states| - 1]);
    }
  }

  /** Verdict correctness: unless the program calls a diverging function, the model checker finds a deadlock exactly if the
      program can get stuck. */
  lemma VerdictIsCorrect(prog: Program, net: ProgramNet, ctx: Context, notes: Notes)
    requires Covered(prog, net, ctx, notes) && NeverDiverges(prog)
    ensures DeadlockReported(net, ProgramEnd, ProgramPanic) <==> CanDeadlock(prog)
  {
    hide Covered, NeverDiverges, Stalled, Step, DeadlockReported;
    ReportedIffStalled(prog, net, ctx, notes);
    if s: State :| CanReach(prog, s) && Stalled(prog, s) {
      var states: seq<State> :| Execution(prog, states) && states[|states| - 1] == s;
      NobodyEverBusy(prog, net, ctx, notes, states);
      assert Deadlocked(prog, s);
    }
  }
}
