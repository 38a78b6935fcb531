/** One name for each object. A mutex or a thread is named after the call that creates it, in the net and in the program
    alike. That is exact as long as no such call is executed twice, which a budget for the call shows. */
module Objects {
  import opened Wrappers
  import opened PetriNets
  import opened Mir
  import opened ControlPoints
  import opened AliasMemory
  import opened Blueprint
  import opened Points
  import opened NetLaws
  import opened Condvars
  import opened Control
  import opened Links
  import opened Machine
  import opened Paths
  import opened Simulation
  import opened Verdict
  import opened Verdicts
  import opened Witnesses
  import opened CallEffects
  import opened Worlds
  import opened Progress

  /** The budget of a place pays for the places an action leads to, and for the call if this is it. */
  ghost predicate Affords(prog: Program, ctx: Context, pt: Point, w: Weighing, q: Point, i: nat)
    requires q.stack != [] && i < |Actions(prog, q)|
  {
    var a := Actions(prog, q)[i];
    a.Vanish? ||
    w(DestPlace(prog, q, a.dest)) + (if a.SpawnThread? then w(Control(a.thread, [Site(a.f, 0)])) else 0) + One(q == pt && i == 0)
    <= w(PlaceOf(q.thread, q.stack)) + if a.JoinThread? && LinkedJoin(ctx, q.thread, a.thread) then w(ThreadEnd(a.thread)) else 0
  }

  /** It pays for the cleanup in which unwinding goes on, too. */
  ghost predicate AffordsCleanup(prog: Program, w: Weighing, q: Point)
    requires Located(prog, q)
  {
    UnwindsTo(prog, q).Some? ==> w(PlaceOf(q.thread, UnwindsTo(prog, q).value.stack)) <= w(PlaceOf(q.thread, q.stack))
  }

  /** The program starts with a budget of at most one call at `pt`. */
  ghost predicate Budget(prog: Program, ctx: Context, pt: Point, w: Weighing) {
    && (forall p: PlaceRef :: w(p) >= 0)
    && w(Control(MainThread, [Site(prog.main, 0)])) <= 1
    && (forall q: Point, i: nat :: IsPoint(prog, q) && q.stack != [] && i < |Actions(prog, q)| ==> Affords(prog, ctx, pt, w, q, i))
    && forall q: Point :: IsPoint(prog, q) && Located(prog, q) ==> AffordsCleanup(prog, w, q)
  }

  /** The budget of a thread, wherever it is. */
  function BudgetOf(w: Weighing): Activity -> int {
    (activity: Activity) =>
      match activity
      case At(pt, _, _, _) => w(PlaceOf(pt.thread, pt.stack))
      case Busy(_) => 0
      case Ended => w(ProgramEnd)
      case Panicked => w(ProgramPanic)
      case Finished(t) => w(ThreadEnd(t))
  }

  /** What is left of the budget. */
  ghost function Left(s: State, w: Weighing): int {
    Weight(s.running, BudgetOf(w))
  }

  lemma LeftReplaced(s: State, was: Activity, becomes: Activity, w: Weighing)
    requires was in s.running
    ensures Left(Replaced(s, was, becomes), w) == Left(s, w) - BudgetOf(w)(was) + BudgetOf(w)(becomes)
  {
    hide PlaceOf;
    WeightRemove(s.running, BudgetOf(w), was);
    WeightSum(s.running - multiset{was}, multiset{becomes}, BudgetOf(w));
    WeightOne(becomes, BudgetOf(w));
  }

  /** A thread that goes on takes the budget of the place it goes to. */
  lemma ArrivesBudget(prog: Program, ctx: Context, who: Activity, dest: Dest, cells: Cells, pt: Point, w: Weighing)
    requires Budget(prog, ctx, pt, w) && IsThere(prog, who) && LeavesWell(prog, who.pt, dest)
    ensures var left := BudgetOf(w)(Arrives(prog, who, dest, cells));
      left == w(DestPlace(prog, who.pt, dest)) || (Resuming(EndOf(prog, who.pt)) && left <= BudgetOf(w)(who))
  {
    hide IsPoint, DestPlace, PlaceOf, Arrives, Lands, UnwindsTo, Resuming, LeavesWell, Actions, Affords;
    assert AffordsCleanup(prog, w, who.pt);
    if dest.ToPanic? && Resuming(EndOf(prog, who.pt)) {
      ResumeBudget(prog, who, dest, cells, w);
    } else {
      PlainBudget(prog, who, dest, cells, w);
    }
  }

  lemma SameBudget(prog: Program, who: Activity, dest: Dest, cells: Cells, w: Weighing)
    requires IsThere(prog, who)
    ensures BudgetOf(w)(Arrives(prog, who, dest, cells)) == BudgetOf(w)(Arrives(prog, who.(unwinding := false), dest, cells))
  {
    hide IsPoint, PlaceOf, Lands, Received;
  }

  lemma ResumeBudget(prog: Program, who: Activity, dest: Dest, cells: Cells, w: Weighing)
    requires IsThere(prog, who) && dest.ToPanic? && Resuming(EndOf(prog, who.pt)) && LeavesWell(prog, who.pt, dest) && AffordsCleanup(prog, w, who.pt)
    ensures var left := BudgetOf(w)(Arrives(prog, who, dest, cells));
      left == w(DestPlace(prog, who.pt, dest)) || left <= BudgetOf(w)(who)
  {
    hide IsPoint, PlaceOf, Lands, Resuming;
    ResumeLeads(prog, who);
  }

  lemma PlainBudget(prog: Program, who: Activity, dest: Dest, cells: Cells, w: Weighing)
    requires IsThere(prog, who) && !(dest.ToPanic? && Resuming(EndOf(prog, who.pt))) && LeavesWell(prog, who.pt, dest)
    ensures BudgetOf(w)(Arrives(prog, who, dest, cells)) == w(DestPlace(prog, who.pt, dest))
  {
    hide IsPoint, DestPlace, PlaceOf, Lands, Resuming, LeavesWell, Received;
    var awake := who.(unwinding := false);
    SameBudget(prog, who, dest, cells, w);
    ArrivesAt(prog, awake, dest, cells);
  }

  /** What a move has created it has paid for. */
  lemma TakenBudget(prog: Program, net: ProgramNet, ctx: Context, notes: Notes, s: State, who: Activity, i: nat, pt: Point, w: Weighing)
    requires Covered(prog, net, ctx, notes) && Tracking(prog, notes, s) && CanAct(prog, s, who, i) && Budget(prog, ctx, pt, w)
    ensures Taken(prog, s, who, i).made[pt] + Left(Taken(prog, s, who, i), w) <= s.made[pt] + Left(s, w)
  {
    hide IsNetOf, Aligned, GuardDisciplined, Translatable, Supported, CleansUp, Tracking, IsPoint, MovesAt, Actions, Arrives, Passed, Unblocked, ThreadMemory, Left, PlaceOf,
      AffordsCleanup, Affords, Returned, Creates, Acts, Resuming, DestPlace;
    MovesInNet(prog, net, ctx, notes, s, who);
    var a, returned := Actions(prog, who.pt)[i], Returned(EndOf(prog, who.pt), i);
    if a.Vanish? {
      LeftReplaced(s, who, Busy(who.pt.thread), w);
      assert w(PlaceOf(who.pt.thread, who.pt.stack)) >= 0;
      VanishMakesNothing(prog, s, who, a, returned);
    } else {
      MoveLeavesWell(prog, notes, who, i);
      ArrivesBudget(prog, ctx, who, a.dest, Passed(prog, who.pt, who.cells, returned), pt, w);
      assert Affords(prog, ctx, pt, w, who.pt, i);
      LeftAfter(prog, s, who, a, returned, w);
      MadeAfter(prog, s, who, i, pt);
      MovePaid(prog, ctx, pt, w, who.pt, i);
    }
  }

  lemma VanishMakesNothing(prog: Program, s: State, who: Activity, a: Action, returned: bool)
    requires who.At? && Located(prog, who.pt) && |who.pt.stack| == |who.below| + 1 && a.Vanish?
    ensures Acts(prog, s, who, a, returned) == Replaced(s, who, Busy(who.pt.thread))
  {
  }

  /** The budget after a move: that of the place it leads to, and that of a spawned thread. */
  lemma LeftAfter(prog: Program, s: State, who: Activity, a: Action, returned: bool, w: Weighing)
    requires IsThere(prog, who) && who in s.running && Unblocked(s, a) && !a.Vanish?
    ensures var next := Arrives(prog, who, a.dest, Passed(prog, who.pt, who.cells, returned));
      Left(Acts(prog, s, who, a, returned), w) == Left(s, w) - w(PlaceOf(who.pt.thread, who.pt.stack)) + BudgetOf(w)(next)
        + (if a.SpawnThread? then w(Control(a.thread, [Site(a.f, 0)])) else 0) - if a.JoinThread? then w(ThreadEnd(a.thread)) else 0
  {
    hide IsPoint, Home, Arrives, Passed, ThreadMemory, Weight;
    var next := Arrives(prog, who, a.dest, Passed(prog, who.pt, who.cells, returned));
    var moved := Replaced(s, who, next);
    LeftReplaced(s, who, next, w);
    var after := Acts(prog, s, who, a, returned);
    if a.SpawnThread? {
      var start := Starts(a.thread, a.f, ThreadMemory(prog, a.f, a.aggregate));
      SingleIsHome(Site(a.f, 0));
      assert after.running == moved.running + multiset{start};
      WeightSum(moved.running, multiset{start}, BudgetOf(w));
      WeightOne(start, BudgetOf(w));
      assert PlaceOf(a.thread, [Site(a.f, 0)]) == Control(a.thread, [Site(a.f, 0)]);
      assert BudgetOf(w)(start) == w(PlaceOf(a.thread, [Site(a.f, 0)]));
    } else if a.JoinThread? {
      assert after.running == moved.running - multiset{Finished(a.thread)};
      WeightRemove(moved.running, BudgetOf(w), Finished(a.thread));
    } else {
      assert after.running == moved.running;
    }
  }

  lemma MadeAfter(prog: Program, s: State, who: Activity, i: nat, pt: Point)
    requires IsThere(prog, who) && i < |MovesAt(prog, who.pt, who.cells)| && !MovesAt(prog, who.pt, who.cells)[i].Vanish?
    ensures Taken(prog, s, who, i).made[pt] == s.made[pt] || (who.pt == pt && i == 0 && !Resuming(EndOf(prog, pt)) && Taken(prog, s, who, i).made[pt] == s.made[pt] + 1)
    ensures Resuming(EndOf(prog, who.pt)) ==> MovesAt(prog, who.pt, who.cells)[i].Flow?
  {
    hide IsPoint, AtEnd, Acts, Moves, Resuming;
    ActsMade(prog, s, who, MovesAt(prog, who.pt, who.cells)[i], Returned(EndOf(prog, who.pt), i));
    if Resuming(EndOf(prog, who.pt)) {
      UnwindingMakesNothing(FunctionAt(prog, who.pt), who.pt, AtEnd(prog, who.pt, who.cells), EndOf(prog, who.pt), i);
    }
  }

  lemma ActsMade(prog: Program, s: State, who: Activity, a: Action, returned: bool)
    requires who.At? && Located(prog, who.pt) && |who.pt.stack| == |who.below| + 1 && !a.Vanish?
    ensures Acts(prog, s, who, a, returned).made == Made(prog, s, who.pt, returned)
  {
    hide Arrives, Passed, ThreadMemory, Located, Creates;
  }

  /** Unwinding creates and starts nothing. */
  lemma UnwindingMakesNothing(fn: Function, pt: Point, cells: Cells, term: Terminator, i: nat)
    requires Resuming(term) && i < |Moves(fn, pt, cells, term)| && !Moves(fn, pt, cells, term)[i].Vanish?
    ensures !Creates(term) && Moves(fn, pt, cells, term)[i].Flow?
  {
  }

  lemma MovePaid(prog: Program, ctx: Context, pt: Point, w: Weighing, q: Point, i: nat)
    requires Budget(prog, ctx, pt, w) && q.stack != [] && i < |Actions(prog, q)| && Affords(prog, ctx, pt, w, q, i) && !Actions(prog, q)[i].Vanish?
    ensures var a := Actions(prog, q)[i];
      w(DestPlace(prog, q, a.dest)) + (if a.SpawnThread? then w(Control(a.thread, [Site(a.f, 0)])) else 0) + One(q == pt && i == 0)
      <= w(PlaceOf(q.thread, q.stack)) + if a.JoinThread? then w(ThreadEnd(a.thread)) else 0
  {
    hide IsPoint, Actions, DestPlace, PlaceOf, AffordsCleanup;
  }

  lemma StepBudget(prog: Program, net: ProgramNet, ctx: Context, notes: Notes, s: State, s': State, pt: Point, w: Weighing)
    requires Covered(prog, net, ctx, notes) && Tracking(prog, notes, s) && Step(prog, s, s') && Budget(prog, ctx, pt, w)
    ensures s'.made[pt] + Left(s', w) <= s.made[pt] + Left(s, w)
  {
    hide Covered, Tracking, Taken, MovesAt, Calls, Unblocked, Budget, Left, AtEnd, Passing;
    if who: Activity :| CanEnter(prog, s, who) && s' == Replaced(s, who, Enters(prog, who)) {
      LeftReplaced(s, who, Enters(prog, who), w);
      EntersInPlace(prog, net, ctx, notes, s, who);
    } else {
      var who: Activity, i: nat :| CanAct(prog, s, who, i) && s' == Taken(prog, s, who, i);
      TakenBudget(prog, net, ctx, notes, s, who, i, pt, w);
    }
  }

  lemma EntersInPlace(prog: Program, net: ProgramNet, ctx: Context, notes: Notes, s: State, who: Activity)
    requires Covered(prog, net, ctx, notes) && Tracking(prog, notes, s) && CanEnter(prog, s, who)
    ensures var next := Enters(prog, who); PlaceOf(next.pt.thread, next.pt.stack) == PlaceOf(who.pt.thread, who.pt.stack)
  {
    hide IsNetOf, Supported, GuardDisciplined, Aligned, CleansUp, IsPoint, Home, WellFormed, Faulty, Tracked, AtEnd, Passing, Calls;
    IsTracked(prog, notes.need, who);
    CalleePoint(prog, who.pt, Calls(prog, who.pt.stack[|who.pt.stack| - 1]).value);
  }

  lemma {:induction false} Spent(prog: Program, net: ProgramNet, ctx: Context, notes: Notes, states: seq<State>, pt: Point, w: Weighing)
    requires Covered(prog, net, ctx, notes) && Execution(prog, states) && Budget(prog, ctx, pt, w)
    ensures states[|states| - 1].made[pt] + Left(states[|states| - 1], w) <= 1
    decreases |states|
  {
    hide Covered, Tracking, Step, Budget, Left, Reachable, Matches;
    if |states| == 1 {
      BudgetAtStart(prog, ctx, pt, w);
    } else {
      var before := states[..|states| - 1];
      Spent(prog, net, ctx, notes, before, pt, w);
      var m := EveryStateMatched(prog, net, ctx, notes, before);
      assert Step(prog, states[|states| - 2], states[|states| - 1]);
      StepBudget(prog, net, ctx, notes, states[|states| - 2], states[|states| - 1], pt, w);
    }
  }

  lemma BudgetAtStart(prog: Program, ctx: Context, pt: Point, w: Weighing)
    requires Budget(prog, ctx, pt, w)
    ensures Initial(prog).made[pt] + Left(Initial(prog), w) <= 1
  {
    hide Home, IsPoint, Actions, Affords, AffordsCleanup, Weight;
    var start := Starts(MainThread, prog.main, map[]);
    SingleIsHome(Site(prog.main, 0));
    WeightOne(start, BudgetOf(w));
    assert BudgetOf(w)(start) == w(PlaceOf(MainThread, [Site(prog.main, 0)]));
  }

  lemma NeverInDebt(prog: Program, ctx: Context, pt: Point, w: Weighing, s: State)
    requires Budget(prog, ctx, pt, w)
    ensures Left(s, w) >= 0
  {
    hide IsPoint, Actions, Affords, AffordsCleanup, Weight, PlaceOf;
    forall activity: Activity ensures BudgetOf(w)(activity) >= 0 {
      match activity
      case At(pt, _, _, _) => assert w(PlaceOf(pt.thread, pt.stack)) >= 0;
      case Finished(t) => assert w(ThreadEnd(t)) >= 0;
      case _ => assert w(ProgramEnd) >= 0 && w(ProgramPanic) >= 0;
    }
    WeightNonNegative(s.running, BudgetOf(w));
  }

  /** In no execution of the program the call at `pt` creates a second object, so the name stands for one object. */
  lemma CreatedOnce(prog: Program, net: ProgramNet, ctx: Context, notes: Notes, pt: Point, w: Weighing, s: State)
    requires Covered(prog, net, ctx, notes) && Budget(prog, ctx, pt, w) && CanReach(prog, s)
    ensures s.made[pt] <= 1
  {
    hide Covered, Budget, Step, Initial, Left;
    var states: seq<State> :| Execution(prog, states) && states[|states| - 1] == s;
    Spent(prog, net, ctx, notes, states, pt, w);
    NeverInDebt(prog, ctx, pt, w, s);
  }

  /** A budget for every call that creates an object. */
  ghost predicate Budgeted(prog: Program, ctx: Context, budget: Point -> Weighing) {
    forall pt: Point :: IsPoint(prog, pt) && Located(prog, pt) && Creates(EndOf(prog, pt)) ==> Budget(prog, ctx, pt, budget(pt))
  }

  /** With budgets the names of the objects are exact, and so is the verdict. */
  lemma VerdictOnObjects(prog: Program, net: ProgramNet, ctx: Context, notes: Notes, budget: Point -> Weighing)
    requires Covered(prog, net, ctx, notes) && NeverDiverges(prog) && Budgeted(prog, ctx, budget)
    ensures forall s: State, pt: Point :: CanReach(prog, s) && IsPoint(prog, pt) && Located(prog, pt) && Creates(EndOf(prog, pt)) ==> s.made[pt] <= 1
    ensures DeadlockReported(net, ProgramEnd, ProgramPanic) <==> CanDeadlock(prog)
  {
    hide Covered, NeverDiverges, Budget, CanReach, IsPoint, Creates, DeadlockReported, CanDeadlock;
    VerdictIsCorrect(prog, net, ctx, notes);
    forall s: State, pt: Point | CanReach(prog, s) && IsPoint(prog, pt) && Located(prog, pt) && Creates(EndOf(prog, pt)) ensures s.made[pt] <= 1 {
      CreatedOnce(prog, net, ctx, notes, pt, budget(pt), s);
    }
  }

  // ---------------------------------------------------------------------------------------------
  // A program with one object, and one with many of one name

  /** The budget of a call at the first block. */
  function FirstBlockBudget(pt: Point): Weighing {
    (p: PlaceRef) => One(p == MainPlace(0))
  }

  lemma LockTwiceAffords(ctx: Context, q: Point, i: nat)
    requires IsPoint(Only(LockTwice()), q) && i < |Actions(Only(LockTwice()), q)|
    ensures q.stack != [] && Affords(Only(LockTwice()), ctx, MainAt(0), FirstBlockBudget(MainAt(0)), q, i)
  {
    hide IsPoint, Actions, DestPlace, Plain, AllDefined, EffectAt, LockTwice;
    LockTwiceEffects();
    OnlyMain(LockTwice(), q);
    var b := q.stack[0].b;
    MainPoints(LockTwice(), b);
    MainDestIs(LockTwice(), b, Actions(Only(LockTwice()), q)[i].dest);
  }

  lemma LockTwiceBudget(ctx: Context)
    ensures Budgeted(Only(LockTwice()), ctx, FirstBlockBudget)
  {
    hide IsPoint, Actions, Affords, Plain, AllDefined, EffectAt;
    var prog := Only(LockTwice());
    LockTwiceEffects();
    forall q: Point, i: nat | IsPoint(prog, q) && q.stack != [] && i < |Actions(prog, q)| ensures Affords(prog, ctx, MainAt(0), FirstBlockBudget(MainAt(0)), q, i) {
      LockTwiceAffords(ctx, q, i);
    }
    forall q: Point | IsPoint(prog, q) && Located(prog, q) ensures UnwindsTo(prog, q).None? && (Creates(EndOf(prog, q)) ==> q == MainAt(0)) {
      OnlyMain(LockTwice(), q);
      assert q.stack[..|q.stack| - 1] == [];
    }
  }

  /** The mutex of the program that locks twice is one mutex, so its deadlock is one on that mutex. */
  lemma LockTwiceOnOneMutex(net: ProgramNet, ctx: Context, s: State)
    requires IsNetOf(Only(LockTwice()), net, ctx) && CanReach(Only(LockTwice()), s)
    ensures s.made[MainAt(0)] <= 1 && CanDeadlock(Only(LockTwice())) && DeadlockReported(net, ProgramEnd, ProgramPanic)
  {
    hide IsNetOf, CanReach, Covered, NeverDiverges, Budget, CanDeadlock, DeadlockReported, LockTwice, Plain, AllDefined, Actions, EffectAt;
    LockTwiceBudget(ctx);
    LockTwiceCovered(net, ctx);
    FoundDeadlock(net, ctx);
    VerdictOnObjects(Only(LockTwice()), net, ctx, LocksNotes(), FirstBlockBudget);
    LockTwiceCreates();
  }

  lemma LockTwiceCreates()
    ensures var prog := Only(LockTwice()); IsPoint(prog, MainAt(0)) && Located(prog, MainAt(0)) && Creates(EndOf(prog, MainAt(0)))
  {
    assert Plain(LockTwice());
    MainPoints(LockTwice(), 0);
  }

  /** Creates a mutex again and again. */
  function Looped(): seq<Block> {
    [Block0(Goto(1)), CallTo(MutexNew, [], 1, 2), Block0(Goto(1))]
  }

  lemma LoopedAccepted()
    ensures Translatable(Only(Looped()))
  {
    hide EffectAt, CellsBefore, CallEffect;
    var blocks, one: Cells := Looped(), map[Local(1) := Mutex(MainAt(1))];
    StartCells(blocks);
    MutexNewIs(Only(blocks).functions[0], MainAt(1), map[], blocks[1].terminator);
    assert ShortCall(Ends(ToBlock(2), None)) == [Flow(ToBlock(2))];
    EffectFrom(blocks, 0, map[], Effect([Flow(ToBlock(1))], map[], None));
    EffectFrom(blocks, 1, map[], Effect([Flow(ToBlock(2))], one, None));
    EffectFrom(blocks, 2, one, Effect([Flow(ToBlock(1))], one, None));
    assert FunctionOk(Only(blocks), 0);
    forall b: nat | b < 3 ensures WaitAt(Only(blocks), MainAt(b)).None? {
      NoWait(blocks, b);
    }
    PlainAccepted(blocks, 0);
  }

  lemma GotoStep(b: nat, cells: Cells, made: multiset<Point>)
    requires b == 0 || b == 2
    ensures Step(Only(Looped()), Main(b, cells, {}, made), Main(1, cells, {}, made))
  {
    hide Step;
    MainLocated(Looped(), b);
    MainStep(Looped(), b, Main(b, cells, {}, made), cells, 0, 1, cells, Main(1, cells, {}, made));
  }

  /** A name for two objects: a call in a loop creates a second one. The call has no budget. */
  lemma CreatedTwice(net: ProgramNet, ctx: Context)
    requires IsNetOf(Only(Looped()), net, ctx)
    ensures Translatable(Only(Looped())) && exists s: State :: CanReach(Only(Looped()), s) && s.made[MainAt(1)] == 2
    ensures forall notes: Notes, w: Weighing :: Covered(Only(Looped()), net, ctx, notes) ==> !Budget(Only(Looped()), ctx, MainAt(1), w)
  {
    hide IsNetOf, Step, CanReach, Covered, Budget, Translatable, Only, Looped;
    var prog, pt := Only(Looped()), MainAt(1);
    LoopedAccepted();
    var twice := TwoMade();
    forall notes: Notes, w: Weighing | Covered(prog, net, ctx, notes) ensures !Budget(prog, ctx, pt, w) {
      if Budget(prog, ctx, pt, w) {
        CreatedOnce(prog, net, ctx, notes, pt, w, twice);
      }
    }
  }

  lemma TwoMade() returns (s: State)
    ensures CanReach(Only(Looped()), s) && s.made[MainAt(1)] == 2
  {
    hide Step, CanReach;
    var prog, pt, one: Cells := Only(Looped()), MainAt(1), map[Local(1) := Mutex(MainAt(1))];
    StartReached(prog);
    GotoStep(0, map[], multiset{});
    StepReached(prog, Initial(prog), Main(1, map[], {}, multiset{}));
    NewStep(Looped(), 1, map[], {}, multiset{}, 1, 2);
    assert multiset{} + multiset{pt} == multiset{pt};
    StepReached(prog, Main(1, map[], {}, multiset{}), Main(2, one, {}, multiset{pt}));
    GotoStep(2, one, multiset{pt});
    StepReached(prog, Main(2, one, {}, multiset{pt}), Main(1, one, {}, multiset{pt}));
    NewStep(Looped(), 1, one, {}, multiset{pt}, 1, 2);
    assert one[Local(1) := Mutex(pt)] == one;
    s := Main(2, one, {}, multiset{pt} + multiset{pt});
    StepReached(prog, Main(1, one, {}, multiset{pt}), s);
  }
}
