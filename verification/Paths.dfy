/** Aliases on every path. The translator links places in the order of the blocks, a thread of the program in the order in
    which it passes them. Both have the same objects wherever they matter, on all paths through blocks, calls,
    returns and unwinding, exactly if they do so along every single edge. */
module Paths {
  import opened Wrappers
  import opened PetriNets
  import opened Mir
  import opened ControlPoints
  import opened AliasMemory
  import opened Blueprint
  import opened CallEffects
  import opened Worlds
  import opened Frames
  import opened Progress
  import opened Points
  import opened Links
  import opened Machine

  // ---------------------------------------------------------------------------------------------
  // Edges

  /** A block a terminator leads to, and whether it gets there by returning from a call. */
  datatype Exit = Exit(b: nat, returned: bool)

  function Unwinds(unwind: UnwindAction, returned: bool): set<Exit> {
    if unwind.Cleanup? then {Exit(unwind.block, returned)} else {}
  }

  /** A call of a user function gets to its next block by way of the called function. */
  function Exits(term: Terminator): set<Exit> {
    match term
    case Goto(target) => {Exit(target, true)}
    case SwitchInt(targets) => set i | 0 <= i < |targets| :: Exit(targets[i], true)
    case Drop(_, target, unwind) => {Exit(target, true)} + Unwinds(unwind, true)
    case Assert(target, unwind) => {Exit(target, true)} + Unwinds(unwind, true)
    case Call(callee, _, _, returnTo, unwind) =>
      (if returnTo.Some? && !callee.User? then {Exit(returnTo.value, true)} else {}) + Unwinds(unwind, false)
    case _ => {}
  }

  function BlockOf(pt: Point, b: nat): Point
    requires pt.stack != []
  {
    FrameAt(pt).At(b)
  }

  function EntryOf(pt: Point, g: nat): Point {
    Point(pt.thread, pt.stack + [Site(g, 0)])
  }

  function CallerOf(pt: Point): Point
    requires pt.stack != []
  {
    Point(pt.thread, pt.stack[..|pt.stack| - 1])
  }

  /** The block at which a call of a user function goes on. */
  function GoesOnAt(prog: Program, pt: Point): Option<Point>
    requires Located(prog, pt)
  {
    if Calls(prog, pt.stack[|pt.stack| - 1]).None? then None
    else
      var end := ReturnDest(EndOf(prog, pt));
      if end.ToBlock? then Some(BlockOf(pt, end.b)) else None
  }

  /** The caller whose cleanup goes on with unwinding after `pt`. */
  function UnwindDepth(prog: Program, pt: Point): (depth: nat)
    requires Located(prog, pt)
    ensures UnwindsTo(prog, pt).Some? ==> depth < |pt.stack| - 1 && Located(prog, CallerAt(pt, depth))
  {
    var landing := Lands(prog, pt.stack[..|pt.stack| - 1]);
    if landing.InCleanup? then landing.depth else 0
  }

  /** The cleanup block in which unwinding goes on when `pt` resumes it, if it is in a called function. */
  function UnwindsTo(prog: Program, pt: Point): Option<Point>
    requires Located(prog, pt)
  {
    var landing := Lands(prog, pt.stack[..|pt.stack| - 1]);
    if Resuming(EndOf(prog, pt)) && landing.InCleanup? && Located(prog, CallerAt(pt, landing.depth))
       && Exit(landing.block, false) in Exits(EndOf(prog, CallerAt(pt, landing.depth)))
    then Some(BlockOf(CallerAt(pt, landing.depth), landing.block)) else None
  }

  /** The caller of depth `j`. */
  function CallerAt(pt: Point, j: nat): Point
    requires j < |pt.stack|
  {
    Point(pt.thread, pt.stack[..j + 1])
  }

  // ---------------------------------------------------------------------------------------------
  // The places that matter

  /** The operands that decide what a terminator does. */
  ghost function Uses(fn: Function, term: Terminator): iset<Place> {
    match term
    case Drop(place, _, _) => iset{place}
    case Call(callee, args, _, returnTo, unwind) =>
      var self := NthArgument(args, 0);
      if self.None? || NeverComesBack(term) then iset{}
      else if callee.MemDrop? || callee.DerefMutFn? || callee.ThreadSpawn? then NeededFor(ReturnLinks(fn, term), iset{self.value})
      else if callee.MutexLock? || callee.ThreadJoin? || callee.CondvarNotifyOne? then iset{self.value}
      else iset{}
    case _ => iset{}
  }

  /** For every block, the places whose objects may be used before they are assigned again. */
  type Needs = Point -> iset<Place>

  ghost predicate NeededByExit(prog: Program, pt: Point, need: Needs, p: Place)
    requires Located(prog, pt)
  {
    exists e :: e in Exits(EndOf(prog, pt)) && p in NeededFor(ExitLinks(FunctionAt(prog, pt), pt, EndOf(prog, pt), e.returned), need(BlockOf(pt, e.b)))
  }

  /** Arguments whose parameters are needed. */
  ghost predicate NeededByCallee(prog: Program, pt: Point, need: Needs, p: Place)
    requires Located(prog, pt)
  {
    && Calls(prog, pt.stack[|pt.stack| - 1]).Some?
    && var args := EndOf(prog, pt).args;
       exists i :: 0 <= i < |args| && !args[i].Constant? && args[i].place == p
         && Place(i + 1, []) in need(EntryOf(pt, Calls(prog, pt.stack[|pt.stack| - 1]).value))
  }

  ghost predicate NeededAfterCall(prog: Program, pt: Point, need: Needs, p: Place)
    requires Located(prog, pt)
  {
    GoesOnAt(prog, pt).Some? && p != EndOf(prog, pt).destination && p in need(GoesOnAt(prog, pt).value)
  }

  /** The point that a return at `pt` goes on from, if it is the return of a called function. */
  function ReturnsTo(prog: Program, pt: Point): Option<Point>
    requires Located(prog, pt)
  {
    if EndOf(prog, pt).Return? && |pt.stack| > 1 && Located(prog, CallerOf(pt)) then GoesOnAt(prog, CallerOf(pt)) else None
  }

  ghost predicate NeededByReturn(prog: Program, pt: Point, need: Needs, p: Place)
    requires Located(prog, pt)
  {
    p == RESULT && ReturnsTo(prog, pt).Some? && EndOf(prog, CallerOf(pt)).destination in need(ReturnsTo(prog, pt).value)
  }

  ghost function NeededAtEnd(prog: Program, pt: Point, need: Needs): iset<Place>
    requires Located(prog, pt)
  {
    iset p | || p in Uses(FunctionAt(prog, pt), EndOf(prog, pt))
             || NeededByExit(prog, pt, need, p)
             || NeededByCallee(prog, pt, need, p)
             || NeededAfterCall(prog, pt, need, p)
             || NeededByReturn(prog, pt, need, p)
  }

  /** What is needed later on, and not assigned in the block before, is needed at the block. */
  ghost predicate Closed(prog: Program, pt: Point, need: Needs)
    requires Located(prog, pt)
  {
    NeededFor(BlockLinks(prog, pt), NeededAtEnd(prog, pt, need)) <= need(pt)
  }

  // ---------------------------------------------------------------------------------------------
  // Agreement along edges

  /** The memory with which the translator gets to a block, and to its terminator. */
  function TranslatorBefore(prog: Program, pt: Point): Cells {
    if pt.stack == [] then map[]
    else
      match CellsBefore(prog, pt.thread, pt.stack[..|pt.stack| - 1], pt.stack[|pt.stack| - 1].f, pt.stack[|pt.stack| - 1].b)
      case Some(cells) => cells
      case None => map[]
  }

  function TranslatorAtEnd(prog: Program, pt: Point): Cells
    requires Located(prog, pt)
  {
    match StatementsCells(FunctionAt(prog, pt), TranslatorBefore(prog, pt), FunctionAt(prog, pt).blocks[pt.stack[|pt.stack| - 1].b].statements)
    case Some(cells) => cells
    case None => map[]
  }

  /** A memory that agrees with the translator on the needed places of a block. */
  ghost predicate AgreesAt(prog: Program, pt: Point, need: Needs, cells: Cells) {
    Agree(cells, TranslatorBefore(prog, pt), need(pt))
  }

  /** The operands of the terminator are looked up alike. */
  ghost predicate ResolvesAlike(prog: Program, pt: Point, cells: Cells)
    requires Located(prog, pt)
  {
    Agree(AtEnd(prog, pt, cells), TranslatorAtEnd(prog, pt), Uses(FunctionAt(prog, pt), EndOf(prog, pt)))
  }

  /** Carried along any edge from a block, the memory of the translator agrees with the one it has at the other end. */
  ghost predicate EdgesAgree(prog: Program, pt: Point, need: Needs)
    requires Located(prog, pt)
  {
    var here, end := TranslatorBefore(prog, pt), EndOf(prog, pt);
    && ResolvesAlike(prog, pt, here)
    && (forall e :: e in Exits(end) ==> AgreesAt(prog, BlockOf(pt, e.b), need, Passed(prog, pt, here, e.returned)))
    && (Calls(prog, pt.stack[|pt.stack| - 1]).Some? ==>
          AgreesAt(prog, EntryOf(pt, Calls(prog, pt.stack[|pt.stack| - 1]).value), need, Passing(AtEnd(prog, pt, here), end.args)))
    && (ReturnsTo(prog, pt).Some? ==>
          AgreesAt(prog, ReturnsTo(prog, pt).value, need, ReturnedMemory(prog, pt, here, AtEnd(prog, CallerOf(pt), TranslatorBefore(prog, CallerOf(pt))))))
    && (UnwindsTo(prog, pt).Some? ==>
          var caller := CallerAt(pt, UnwindDepth(prog, pt));
          AgreesAt(prog, UnwindsTo(prog, pt).value, need, AtEnd(prog, caller, TranslatorBefore(prog, caller))))
  }

  function ReturnedMemory(prog: Program, pt: Point, cells: Cells, caller: Cells): Cells
    requires Located(prog, pt) && ReturnsTo(prog, pt).Some?
  {
    Received(caller, EndOf(prog, CallerOf(pt)).destination, Lookup(AtEnd(prog, pt, cells), RESULT))
  }

  lemma AgreeOnFewer(a: Cells, b: Cells, places: iset<Place>, fewer: iset<Place>)
    requires Agree(a, b, places) && fewer <= places
    ensures Agree(a, b, fewer)
  {
  }

  lemma AgreeThrough(a: Cells, b: Cells, c: Cells, places: iset<Place>)
    requires Agree(a, b, places)
    ensures Agree(a, c, places) <==> Agree(b, c, places)
  {
  }

  /** Memories that agree on the needed places of a block agree on what is needed at its end. */
  lemma AgreeAtEnd(prog: Program, pt: Point, need: Needs, a: Cells, b: Cells)
    requires Located(prog, pt) && Closed(prog, pt, need) && Agree(a, b, need(pt))
    ensures Agree(AtEnd(prog, pt, a), AtEnd(prog, pt, b), NeededAtEnd(prog, pt, need))
  {
    hide Agree, NeededAtEnd, NeededFor, AfterLinks, BlockLinks;
    var after := NeededAtEnd(prog, pt, need);
    AgreeOnFewer(a, b, need(pt), NeededFor(BlockLinks(prog, pt), after));
    AgreeAfter(a, b, BlockLinks(prog, pt), after);
  }

  lemma AgreeOnUses(prog: Program, pt: Point, need: Needs, a: Cells, b: Cells)
    requires Located(prog, pt) && Agree(a, b, NeededAtEnd(prog, pt, need))
    ensures Agree(a, b, Uses(FunctionAt(prog, pt), EndOf(prog, pt)))
  {
    hide Uses, NeededByExit, NeededByCallee, NeededAfterCall, NeededByReturn, Lookup;
  }

  lemma AgreeOnExit(prog: Program, pt: Point, need: Needs, a: Cells, b: Cells, e: Exit)
    requires Located(prog, pt) && Agree(a, b, NeededAtEnd(prog, pt, need)) && e in Exits(EndOf(prog, pt))
    ensures var links := ExitLinks(FunctionAt(prog, pt), pt, EndOf(prog, pt), e.returned);
      Agree(AfterLinks(a, links), AfterLinks(b, links), need(BlockOf(pt, e.b)))
  {
    hide Uses, NeededByCallee, NeededAfterCall, NeededByReturn, Lookup, NeededFor, ExitLinks, Exits, AfterLinks;
    var links := ExitLinks(FunctionAt(prog, pt), pt, EndOf(prog, pt), e.returned);
    forall p | p in NeededFor(links, need(BlockOf(pt, e.b))) ensures Lookup(a, p) == Lookup(b, p) {
      assert NeededByExit(prog, pt, need, p);
      assert p in NeededAtEnd(prog, pt, need);
    }
    AgreeAfter(a, b, links, need(BlockOf(pt, e.b)));
  }

  lemma AgreeOnEntry(prog: Program, pt: Point, need: Needs, a: Cells, b: Cells)
    requires Located(prog, pt) && Agree(a, b, NeededAtEnd(prog, pt, need)) && Calls(prog, pt.stack[|pt.stack| - 1]).Some?
    ensures var args := EndOf(prog, pt).args;
      Agree(Passing(a, args), Passing(b, args), need(EntryOf(pt, Calls(prog, pt.stack[|pt.stack| - 1]).value)))
  {
    hide Uses, NeededByExit, NeededAfterCall, NeededByReturn;
    var args, entry := EndOf(prog, pt).args, EntryOf(pt, Calls(prog, pt.stack[|pt.stack| - 1]).value);
    forall p | p in need(entry) ensures Lookup(Passing(a, args), p) == Lookup(Passing(b, args), p) {
      if i :| 0 <= i < |args| && !args[i].Constant? && p == Place(i + 1, []) {
        assert NeededByCallee(prog, pt, need, args[i].place);
        assert args[i].place in NeededAtEnd(prog, pt, need);
        assert Lookup(a, args[i].place) == Lookup(b, args[i].place);
        PassedOn(a, args, i);
        PassedOn(b, args, i);
      }
    }
  }

  lemma PassedOn(cells: Cells, args: seq<Operand>, i: nat)
    requires i < |args| && !args[i].Constant?
    ensures Lookup(Passing(cells, args), Place(i + 1, [])) == Lookup(cells, args[i].place)
  {
    if args[i].place in cells {
      assert Place(i + 1, []) in Passing(cells, args);
    }
  }

  lemma AgreeOnReturn(prog: Program, pt: Point, need: Needs, a: Cells, b: Cells, x: Cells, y: Cells)
    requires Located(prog, pt) && ReturnsTo(prog, pt).Some?
    requires Agree(AtEnd(prog, pt, a), AtEnd(prog, pt, b), NeededAtEnd(prog, pt, need)) && Agree(x, y, NeededAtEnd(prog, CallerOf(pt), need))
    ensures Agree(ReturnedMemory(prog, pt, a, x), ReturnedMemory(prog, pt, b, y), need(ReturnsTo(prog, pt).value))
  {
    hide Uses, NeededByExit, NeededByCallee, AtEnd;
    var target, dest := ReturnsTo(prog, pt).value, EndOf(prog, CallerOf(pt)).destination;
    forall p | p in need(target) ensures Lookup(ReturnedMemory(prog, pt, a, x), p) == Lookup(ReturnedMemory(prog, pt, b, y), p) {
      if p == dest {
        assert NeededByReturn(prog, pt, need, RESULT);
        assert RESULT in NeededAtEnd(prog, pt, need);
      } else {
        assert NeededAfterCall(prog, CallerOf(pt), need, p);
        assert p in NeededAtEnd(prog, CallerOf(pt), need);
      }
    }
  }

  // ---------------------------------------------------------------------------------------------
  // Paths of a thread

  ghost predicate IsThere(prog: Program, who: Activity) {
    who.At? && IsPoint(prog, who.pt) && Located(prog, who.pt) && |who.pt.stack| == |who.below| + 1
  }

  /** The thread in the cleanup in which unwinding goes on. */
  function UnwoundAt(prog: Program, who: Activity): Activity
    requires who.At? && Located(prog, who.pt) && |who.pt.stack| == |who.below| + 1 && UnwindsTo(prog, who.pt).Some?
  {
    var depth := UnwindDepth(prog, who.pt);
    At(UnwindsTo(prog, who.pt).value, who.below[..depth], who.below[depth], true)
  }

  /** One step of a thread along the control flow, whatever it has to wait for. */
  ghost predicate Leads(prog: Program, who: Activity, next: Activity)
    requires IsThere(prog, who)
  {
    var pt, top := who.pt, |who.below| - 1;
    || (exists e :: e in Exits(EndOf(prog, pt)) && next == At(BlockOf(pt, e.b), who.below, Passed(prog, pt, who.cells, e.returned), who.unwinding))
    || (Calls(prog, pt.stack[|pt.stack| - 1]).Some? && next == Enters(prog, who))
    || (ReturnsTo(prog, pt).Some? && next == At(ReturnsTo(prog, pt).value, who.below[..top], ReturnedMemory(prog, pt, who.cells, who.below[top]), who.unwinding))
    || (UnwindsTo(prog, pt).Some? && next == UnwoundAt(prog, who))
  }

  /** A block that comes after another one. */
  ghost predicate Follows(prog: Program, pt: Point, q: Point)
    requires Located(prog, pt)
  {
    || (exists e :: e in Exits(EndOf(prog, pt)) && q == BlockOf(pt, e.b))
    || (Calls(prog, pt.stack[|pt.stack| - 1]).Some? && q == EntryOf(pt, Calls(prog, pt.stack[|pt.stack| - 1]).value))
    || ReturnsTo(prog, pt) == Some(q)
    || UnwindsTo(prog, pt) == Some(q)
  }

  lemma LeadsFollows(prog: Program, who: Activity, next: Activity)
    requires IsThere(prog, who) && Leads(prog, who, next)
    ensures next.At? && Follows(prog, who.pt, next.pt)
  {
    hide IsPoint, Passed, Exits, Calls, ReturnedMemory, ReturnsTo, UnwindsTo, UnwindDepth;
  }

  /** The activities of a thread along a path from its start. */
  ghost predicate IsWalk(prog: Program, t: ThreadName, walk: seq<Activity>) {
    && walk != [] && walk[0] == Starts(t, Root(prog, t), TranslatorBefore(prog, Point(t, [Site(Root(prog, t), 0)])))
    && forall i :: 0 <= i < |walk| - 1 ==> IsThere(prog, walk[i]) && Leads(prog, walk[i], walk[i + 1])
  }

  ghost predicate CallerAgrees(prog: Program, pt: Point, need: Needs, j: nat, cells: Cells)
    requires j < |pt.stack|
  {
    && Located(prog, CallerAt(pt, j))
    && Agree(cells, AtEnd(prog, CallerAt(pt, j), TranslatorBefore(prog, CallerAt(pt, j))), NeededAtEnd(prog, CallerAt(pt, j), need))
  }

  /** The memories of a thread agree with those of the translator wherever it matters. */
  ghost predicate Tracked(prog: Program, need: Needs, who: Activity) {
    && IsThere(prog, who)
    && AgreesAt(prog, who.pt, need, who.cells)
    && forall j :: 0 <= j < |who.below| ==> CallerAgrees(prog, who.pt, need, j, who.below[j])
  }

  lemma TargetIsPoint(prog: Program, pt: Point, b: nat)
    requires WellFormed(prog) && IsPoint(prog, pt) && Located(prog, pt) && TargetOk(FunctionAt(prog, pt), b)
    ensures IsPoint(prog, BlockOf(pt, b)) && Located(prog, BlockOf(pt, b))
    ensures |BlockOf(pt, b).stack| == |pt.stack| && BlockOf(pt, b).thread == pt.thread && forall j :: 0 <= j < |pt.stack| - 1 ==> CallerAt(BlockOf(pt, b), j) == CallerAt(pt, j)
  {
    hide IsPoint, Home, WellFormed;
    BlockIsPlace(prog, pt, b);
    forall j | 0 <= j < |pt.stack| - 1 ensures CallerAt(BlockOf(pt, b), j) == CallerAt(pt, j) {
      assert BlockOf(pt, b).stack == pt.stack[..|pt.stack| - 1] + [Site(pt.stack[|pt.stack| - 1].f, b)];
      assert BlockOf(pt, b).stack[..j + 1] == pt.stack[..j + 1];
    }
  }

  lemma ExitIsTarget(prog: Program, pt: Point, e: Exit)
    requires WellFormed(prog) && Located(prog, pt) && e in Exits(EndOf(prog, pt))
    ensures TargetOk(FunctionAt(prog, pt), e.b)
  {
    assert FunctionOk(prog, pt.stack[|pt.stack| - 1].f);
    assert TerminatorOk(prog, pt.stack[|pt.stack| - 1].f, EndOf(prog, pt));
  }

  lemma GoesOnAtTarget(prog: Program, pt: Point)
    requires WellFormed(prog) && Located(prog, pt) && GoesOnAt(prog, pt).Some?
    ensures TargetOk(FunctionAt(prog, pt), GoesOnAt(prog, pt).value.stack[|pt.stack| - 1].b)
    ensures GoesOnAt(prog, pt).value == BlockOf(pt, GoesOnAt(prog, pt).value.stack[|pt.stack| - 1].b)
  {
    assert FunctionOk(prog, pt.stack[|pt.stack| - 1].f);
    CallEndsOk(prog, pt.stack[|pt.stack| - 1].f, EndOf(prog, pt));
  }

  lemma ExitTracked(prog: Program, need: Needs, who: Activity, e: Exit)
    requires WellFormed(prog) && Tracked(prog, need, who) && Closed(prog, who.pt, need) && EdgesAgree(prog, who.pt, need) && e in Exits(EndOf(prog, who.pt))
    ensures Tracked(prog, need, At(BlockOf(who.pt, e.b), who.below, Passed(prog, who.pt, who.cells, e.returned), who.unwinding))
  {
    hide IsPoint, WellFormed, Agree, NeededAtEnd, Closed, AfterLinks, ExitLinks, TranslatorBefore, Located, BlockOf, ResolvesAlike, Exits;
    var pt, here := who.pt, TranslatorBefore(prog, who.pt);
    ExitIsTarget(prog, pt, e);
    TargetIsPoint(prog, pt, e.b);
    AgreeAtEnd(prog, pt, need, who.cells, here);
    AgreeOnExit(prog, pt, need, AtEnd(prog, pt, who.cells), AtEnd(prog, pt, here), e);
    AgreeThrough(Passed(prog, pt, who.cells, e.returned), Passed(prog, pt, here, e.returned), TranslatorBefore(prog, BlockOf(pt, e.b)), need(BlockOf(pt, e.b)));
    assert AgreesAt(prog, BlockOf(pt, e.b), need, Passed(prog, pt, here, e.returned));
  }

  lemma EntryTracked(prog: Program, need: Needs, who: Activity)
    requires WellFormed(prog) && Tracked(prog, need, who) && Closed(prog, who.pt, need) && EdgesAgree(prog, who.pt, need)
    requires Calls(prog, who.pt.stack[|who.pt.stack| - 1]).Some?
    ensures Tracked(prog, need, Enters(prog, who))
  {
    hide IsPoint, WellFormed, Agree, NeededAtEnd, Closed, AtEnd, TranslatorBefore, ResolvesAlike, Exits, Passing;
    var pt, here, next := who.pt, TranslatorBefore(prog, who.pt), Enters(prog, who);
    var g := Calls(prog, pt.stack[|pt.stack| - 1]).value;
    CalleePoint(prog, pt, g);
    LastSite(prog, next.pt);
    AgreeAtEnd(prog, pt, need, who.cells, here);
    AgreeOnEntry(prog, pt, need, AtEnd(prog, pt, who.cells), AtEnd(prog, pt, here));
    AgreeThrough(next.cells, Passing(AtEnd(prog, pt, here), EndOf(prog, pt).args), TranslatorBefore(prog, next.pt), need(next.pt));
    forall j | 0 <= j < |next.below| ensures CallerAgrees(prog, next.pt, need, j, next.below[j]) {
      assert next.pt.stack[..j + 1] == pt.stack[..j + 1];
      assert pt.stack[..|pt.stack|] == pt.stack;
      if j < |who.below| {
        assert CallerAgrees(prog, pt, need, j, who.below[j]);
      }
    }
  }

  lemma ReturnTracked(prog: Program, need: Needs, who: Activity)
    requires WellFormed(prog) && Tracked(prog, need, who) && Closed(prog, who.pt, need) && EdgesAgree(prog, who.pt, need) && ReturnsTo(prog, who.pt).Some?
    ensures var top := |who.below| - 1;
      Tracked(prog, need, At(ReturnsTo(prog, who.pt).value, who.below[..top], ReturnedMemory(prog, who.pt, who.cells, who.below[top]), who.unwinding))
  {
    hide IsPoint, WellFormed, Agree, NeededAtEnd, Closed, AtEnd, TranslatorBefore, ResolvesAlike, Exits, Calls, TargetOk;
    var pt, here, top := who.pt, TranslatorBefore(prog, who.pt), |who.below| - 1;
    var caller := CallerOf(pt);
    var there := ReturnsTo(prog, pt).value;
    CallerIsPoint(prog, pt);
    GoesOnAtTarget(prog, caller);
    TargetIsPoint(prog, caller, there.stack[|caller.stack| - 1].b);
    AgreeAtEnd(prog, pt, need, who.cells, here);
    assert CallerAt(pt, top) == caller;
    assert CallerAgrees(prog, pt, need, top, who.below[top]);
    var callers := AtEnd(prog, caller, TranslatorBefore(prog, caller));
    AgreeOnReturn(prog, pt, need, who.cells, here, who.below[top], callers);
    AgreeThrough(ReturnedMemory(prog, pt, who.cells, who.below[top]), ReturnedMemory(prog, pt, here, callers), TranslatorBefore(prog, there), need(there));
    forall j | 0 <= j < top ensures CallerAgrees(prog, there, need, j, who.below[j]) {
      assert CallerAt(there, j) == CallerAt(caller, j);
      assert caller.stack[..j + 1] == pt.stack[..j + 1];
      assert CallerAgrees(prog, pt, need, j, who.below[j]);
    }
  }

  /** What the cleanup of a caller needs is needed at the end of its call. */
  lemma AgreeOnUnwind(prog: Program, pt: Point, need: Needs, a: Cells, b: Cells)
    requires Located(prog, pt) && UnwindsTo(prog, pt).Some?
    requires Agree(a, b, NeededAtEnd(prog, CallerAt(pt, UnwindDepth(prog, pt)), need))
    ensures Agree(a, b, need(UnwindsTo(prog, pt).value))
  {
    hide Agree, NeededAtEnd, Exits, BlockOf;
    var caller, landing := CallerAt(pt, UnwindDepth(prog, pt)), Lands(prog, pt.stack[..|pt.stack| - 1]);
    AgreeOnExit(prog, caller, need, a, b, Exit(landing.block, false));
  }

  lemma CallersArePoints(prog: Program, pt: Point, j: nat)
    requires IsPoint(prog, pt) && j < |pt.stack|
    ensures IsPoint(prog, CallerAt(pt, j))
    decreases |pt.stack|
  {
    hide IsPoint;
    if j == |pt.stack| - 1 {
      assert pt.stack[..j + 1] == pt.stack;
    } else {
      CallerIsPoint(prog, pt);
      CallersArePoints(prog, CallerOf(pt), j);
      assert CallerOf(pt).stack[..j + 1] == pt.stack[..j + 1];
    }
  }

  lemma UnwindTracked(prog: Program, need: Needs, who: Activity)
    requires WellFormed(prog) && Tracked(prog, need, who) && EdgesAgree(prog, who.pt, need) && UnwindsTo(prog, who.pt).Some?
    ensures Tracked(prog, need, UnwoundAt(prog, who))
  {
    hide IsPoint, WellFormed, Agree, NeededAtEnd, AtEnd, TranslatorBefore, ResolvesAlike, Exits, Calls, TargetOk;
    var pt, depth := who.pt, UnwindDepth(prog, who.pt);
    var caller, there := CallerAt(pt, depth), UnwindsTo(prog, pt).value;
    var block := Lands(prog, pt.stack[..|pt.stack| - 1]).block;
    CallersArePoints(prog, pt, depth);
    ExitIsTarget(prog, caller, Exit(block, false));
    TargetIsPoint(prog, caller, block);
    assert CallerAgrees(prog, pt, need, depth, who.below[depth]);
    var callers := AtEnd(prog, caller, TranslatorBefore(prog, caller));
    AgreeOnUnwind(prog, pt, need, who.below[depth], callers);
    AgreeThrough(who.below[depth], callers, TranslatorBefore(prog, there), need(there));
    forall j | 0 <= j < depth ensures CallerAgrees(prog, there, need, j, who.below[j]) {
      assert CallerAt(there, j) == CallerAt(caller, j);
      assert caller.stack[..j + 1] == pt.stack[..j + 1];
      assert CallerAgrees(prog, pt, need, j, who.below[j]);
    }
  }

  lemma LeadsTracked(prog: Program, need: Needs, who: Activity, next: Activity)
    requires WellFormed(prog) && Tracked(prog, need, who) && Closed(prog, who.pt, need) && EdgesAgree(prog, who.pt, need) && Leads(prog, who, next)
    ensures Tracked(prog, need, next)
  {
    hide WellFormed, Tracked, Closed, EdgesAgree, Enters, Passed, Calls, Exits, ReturnsTo, ReturnedMemory, IsPoint;
    IsTracked(prog, need, who);
    var pt := who.pt;
    if e :| e in Exits(EndOf(prog, pt)) && next == At(BlockOf(pt, e.b), who.below, Passed(prog, pt, who.cells, e.returned), who.unwinding) {
      ExitTracked(prog, need, who, e);
    } else if Calls(prog, pt.stack[|pt.stack| - 1]).Some? && next == Enters(prog, who) {
      EntryTracked(prog, need, who);
    } else if UnwindsTo(prog, pt).Some? && next == UnwoundAt(prog, who) {
      UnwindTracked(prog, need, who);
    } else {
      ReturnTracked(prog, need, who);
    }
  }

  lemma IsTracked(prog: Program, need: Needs, who: Activity)
    requires Tracked(prog, need, who)
    ensures IsThere(prog, who)
  {
  }

  lemma ThreadStart(prog: Program, t: ThreadName)
    requires WellFormed(prog) && IsThread(prog, t)
    ensures IsPoint(prog, Point(t, [Site(Root(prog, t), 0)]))
  {
    hide EffectAt;
    if t.MainThread? {
      assert FunctionOk(prog, prog.main);
    } else {
      var spawner := Point(t.parent, t.stack);
      EffectShape(prog, spawner);
      LastSite(prog, spawner);
      CalleeSmaller(prog, t.stack[|t.stack| - 1].f, t.stack[|t.stack| - 1].b);
      assert FunctionOk(prog, Root(prog, t));
    }
  }

  lemma SpawnIsThread(prog: Program, pt: Point)
    requires IsPoint(prog, pt) && Actions(prog, pt) != [] && Actions(prog, pt)[0].SpawnThread?
    ensures IsThread(prog, Spawned(pt.thread, pt.stack))
  {
    hide EffectAt;
  }

  lemma StartTracked(prog: Program, need: Needs, t: ThreadName)
    requires WellFormed(prog) && IsThread(prog, t)
    ensures Tracked(prog, need, Starts(t, Root(prog, t), TranslatorBefore(prog, Point(t, [Site(Root(prog, t), 0)]))))
  {
    hide IsPoint, WellFormed, Root, TranslatorBefore;
    ThreadStart(prog, t);
    LastSite(prog, Point(t, [Site(Root(prog, t), 0)]));
  }

  /** On every path, the thread has the objects the translator has, wherever they matter and at every terminator. */
  ghost predicate AgreesOnPaths(prog: Program, t: ThreadName, need: Needs) {
    forall walk: seq<Activity> :: IsWalk(prog, t, walk) ==> TrackedAndResolved(prog, need, walk[|walk| - 1])
  }

  ghost predicate TrackedAndResolved(prog: Program, need: Needs, who: Activity) {
    Tracked(prog, need, who) && ResolvesAlike(prog, who.pt, who.cells)
  }

  /** Along every edge from a block the thread can get to, the memory of the translator agrees with itself. */
  ghost predicate AgreesOnEdges(prog: Program, t: ThreadName, need: Needs) {
    forall walk: seq<Activity> :: IsWalk(prog, t, walk) && IsThere(prog, walk[|walk| - 1]) ==> EdgesAgree(prog, walk[|walk| - 1].pt, need)
  }

  ghost predicate ClosedIn(prog: Program, t: ThreadName, need: Needs) {
    forall pt: Point :: IsPoint(prog, pt) && pt.thread == t && Located(prog, pt) ==> Closed(prog, pt, need)
  }

  lemma ResolvedFromEdges(prog: Program, need: Needs, who: Activity)
    requires Tracked(prog, need, who) && Closed(prog, who.pt, need) && EdgesAgree(prog, who.pt, need)
    ensures ResolvesAlike(prog, who.pt, who.cells)
  {
    hide Agree, NeededAtEnd, Closed, AtEnd, TranslatorBefore, TranslatorAtEnd, Uses, Exits, IsPoint, Located;
    var pt, here := who.pt, TranslatorBefore(prog, who.pt);
    AgreeAtEnd(prog, pt, need, who.cells, here);
    AgreeOnUses(prog, pt, need, AtEnd(prog, pt, who.cells), AtEnd(prog, pt, here));
    AgreeThrough(AtEnd(prog, pt, who.cells), AtEnd(prog, pt, here), TranslatorAtEnd(prog, pt), Uses(FunctionAt(prog, pt), EndOf(prog, pt)));
  }

  lemma SameThread(prog: Program, who: Activity, next: Activity)
    requires IsThere(prog, who) && Leads(prog, who, next)
    ensures next.At? && next.pt.thread == who.pt.thread
  {
    hide IsPoint, Passed, Exits, Calls, ReturnedMemory;
  }

  lemma {:induction false} WalkTracked(prog: Program, t: ThreadName, need: Needs, walk: seq<Activity>)
    requires WellFormed(prog) && IsThread(prog, t) && ClosedIn(prog, t, need) && AgreesOnEdges(prog, t, need) && IsWalk(prog, t, walk)
    ensures Tracked(prog, need, walk[|walk| - 1]) && walk[|walk| - 1].pt.thread == t && EdgesAgree(prog, walk[|walk| - 1].pt, need)
    decreases |walk|
  {
    hide WellFormed, IsThread, Tracked, Closed, EdgesAgree, Leads, IsPoint, Root, TranslatorBefore;
    if |walk| == 1 {
      StartTracked(prog, need, t);
    } else {
      var before := walk[..|walk| - 1];
      WalkTracked(prog, t, need, before);
      var who, next := walk[|walk| - 2], walk[|walk| - 1];
      assert IsThere(prog, who) && Leads(prog, who, next);
      assert Closed(prog, who.pt, need) by { ClosedThere(prog, t, need, who); }
      LeadsTracked(prog, need, who, next);
      SameThread(prog, who, next);
    }
    IsTracked(prog, need, walk[|walk| - 1]);
  }

  lemma ClosedThere(prog: Program, t: ThreadName, need: Needs, who: Activity)
    requires ClosedIn(prog, t, need) && IsThere(prog, who) && who.pt.thread == t
    ensures Closed(prog, who.pt, need)
  {
    hide IsPoint, Closed;
  }

  /** One step further on a path. */
  lemma WalkOn(prog: Program, t: ThreadName, walk: seq<Activity>, next: Activity)
    requires IsWalk(prog, t, walk) && IsThere(prog, walk[|walk| - 1]) && Leads(prog, walk[|walk| - 1], next)
    ensures IsWalk(prog, t, walk + [next])
  {
    hide IsThere, Leads, Root, TranslatorBefore;
    var longer := walk + [next];
    forall i | 0 <= i < |longer| - 1 ensures IsThere(prog, longer[i]) && Leads(prog, longer[i], longer[i + 1]) {
      if i < |walk| - 1 {
        assert longer[i] == walk[i] && longer[i + 1] == walk[i + 1];
      }
    }
  }

  lemma ExitFromPath(prog: Program, need: Needs, who: Activity, e: Exit)
    requires Tracked(prog, need, who) && Closed(prog, who.pt, need) && e in Exits(EndOf(prog, who.pt))
    requires Tracked(prog, need, At(BlockOf(who.pt, e.b), who.below, Passed(prog, who.pt, who.cells, e.returned), who.unwinding))
    ensures AgreesAt(prog, BlockOf(who.pt, e.b), need, Passed(prog, who.pt, TranslatorBefore(prog, who.pt), e.returned))
  {
    hide IsPoint, Agree, NeededAtEnd, Closed, AfterLinks, ExitLinks, TranslatorBefore, Located, BlockOf, ResolvesAlike, Exits;
    var pt, here := who.pt, TranslatorBefore(prog, who.pt);
    AgreeAtEnd(prog, pt, need, who.cells, here);
    AgreeOnExit(prog, pt, need, AtEnd(prog, pt, who.cells), AtEnd(prog, pt, here), e);
    AgreeThrough(Passed(prog, pt, who.cells, e.returned), Passed(prog, pt, here, e.returned), TranslatorBefore(prog, BlockOf(pt, e.b)), need(BlockOf(pt, e.b)));
  }

  lemma EntryFromPath(prog: Program, need: Needs, who: Activity)
    requires Tracked(prog, need, who) && Closed(prog, who.pt, need) && Calls(prog, who.pt.stack[|who.pt.stack| - 1]).Some?
    requires Tracked(prog, need, Enters(prog, who))
    ensures AgreesAt(prog, EntryOf(who.pt, Calls(prog, who.pt.stack[|who.pt.stack| - 1]).value), need,
                     Passing(AtEnd(prog, who.pt, TranslatorBefore(prog, who.pt)), EndOf(prog, who.pt).args))
  {
    hide IsPoint, Agree, NeededAtEnd, Closed, AtEnd, TranslatorBefore, ResolvesAlike, Exits, Passing;
    var pt, here, next := who.pt, TranslatorBefore(prog, who.pt), Enters(prog, who);
    AgreeAtEnd(prog, pt, need, who.cells, here);
    AgreeOnEntry(prog, pt, need, AtEnd(prog, pt, who.cells), AtEnd(prog, pt, here));
    AgreeThrough(next.cells, Passing(AtEnd(prog, pt, here), EndOf(prog, pt).args), TranslatorBefore(prog, next.pt), need(next.pt));
  }

  lemma ReturnFromPath(prog: Program, need: Needs, who: Activity)
    requires Tracked(prog, need, who) && Closed(prog, who.pt, need) && ReturnsTo(prog, who.pt).Some?
    requires var top := |who.below| - 1;
      Tracked(prog, need, At(ReturnsTo(prog, who.pt).value, who.below[..top], ReturnedMemory(prog, who.pt, who.cells, who.below[top]), who.unwinding))
    ensures var caller := AtEnd(prog, CallerOf(who.pt), TranslatorBefore(prog, CallerOf(who.pt)));
      AgreesAt(prog, ReturnsTo(prog, who.pt).value, need, ReturnedMemory(prog, who.pt, TranslatorBefore(prog, who.pt), caller))
  {
    hide IsPoint, Agree, NeededAtEnd, Closed, AtEnd, TranslatorBefore, ResolvesAlike, Exits, Calls, TargetOk;
    var pt, here, top := who.pt, TranslatorBefore(prog, who.pt), |who.below| - 1;
    var caller, there := CallerOf(pt), ReturnsTo(prog, pt).value;
    AgreeAtEnd(prog, pt, need, who.cells, here);
    assert CallerAt(pt, top) == caller;
    assert CallerAgrees(prog, pt, need, top, who.below[top]);
    var callers := AtEnd(prog, caller, TranslatorBefore(prog, caller));
    AgreeOnReturn(prog, pt, need, who.cells, here, who.below[top], callers);
    AgreeThrough(ReturnedMemory(prog, pt, who.cells, who.below[top]), ReturnedMemory(prog, pt, here, callers), TranslatorBefore(prog, there), need(there));
  }

  lemma UnwindFromPath(prog: Program, need: Needs, who: Activity)
    requires Tracked(prog, need, who) && UnwindsTo(prog, who.pt).Some? && Tracked(prog, need, UnwoundAt(prog, who))
    ensures var caller := CallerAt(who.pt, UnwindDepth(prog, who.pt));
      AgreesAt(prog, UnwindsTo(prog, who.pt).value, need, AtEnd(prog, caller, TranslatorBefore(prog, caller)))
  {
    hide IsPoint, Agree, NeededAtEnd, AtEnd, TranslatorBefore, ResolvesAlike, Exits, Calls, TargetOk;
    var pt, depth := who.pt, UnwindDepth(prog, who.pt);
    var caller, there := CallerAt(pt, depth), UnwindsTo(prog, pt).value;
    assert CallerAgrees(prog, pt, need, depth, who.below[depth]);
    var callers := AtEnd(prog, caller, TranslatorBefore(prog, caller));
    AgreeOnUnwind(prog, pt, need, who.below[depth], callers);
    AgreeThrough(who.below[depth], callers, TranslatorBefore(prog, there), need(there));
  }

  lemma ResolvedFromPath(prog: Program, need: Needs, who: Activity)
    requires TrackedAndResolved(prog, need, who) && Closed(prog, who.pt, need)
    ensures ResolvesAlike(prog, who.pt, TranslatorBefore(prog, who.pt))
  {
    hide Agree, NeededAtEnd, Closed, AtEnd, TranslatorBefore, TranslatorAtEnd, Uses, Exits, IsPoint, Located;
    var pt, here := who.pt, TranslatorBefore(prog, who.pt);
    AgreeAtEnd(prog, pt, need, who.cells, here);
    AgreeOnUses(prog, pt, need, AtEnd(prog, pt, who.cells), AtEnd(prog, pt, here));
    AgreeThrough(AtEnd(prog, pt, who.cells), AtEnd(prog, pt, here), TranslatorAtEnd(prog, pt), Uses(FunctionAt(prog, pt), EndOf(prog, pt)));
  }

  lemma EdgesFromPaths(prog: Program, t: ThreadName, need: Needs, walk: seq<Activity>)
    requires ClosedIn(prog, t, need) && AgreesOnPaths(prog, t, need) && IsWalk(prog, t, walk) && walk[|walk| - 1].At? && walk[|walk| - 1].pt.thread == t
    ensures IsThere(prog, walk[|walk| - 1]) && EdgesAgree(prog, walk[|walk| - 1].pt, need)
  {
    hide Tracked, Closed, IsPoint, ResolvesAlike, AgreesAt, Passed, Enters, ReturnedMemory, ReturnsTo, Exits, Calls, TranslatorBefore, Passing, AtEnd, UnwindsTo, UnwoundAt;
    var who := walk[|walk| - 1];
    var pt, top := who.pt, |who.below| - 1;
    assert TrackedAndResolved(prog, need, who);
    IsTracked(prog, need, who);
    ClosedThere(prog, t, need, who);
    ResolvedFromPath(prog, need, who);
    forall e | e in Exits(EndOf(prog, pt)) ensures AgreesAt(prog, BlockOf(pt, e.b), need, Passed(prog, pt, TranslatorBefore(prog, pt), e.returned)) {
      NextTracked(prog, t, need, walk, At(BlockOf(pt, e.b), who.below, Passed(prog, pt, who.cells, e.returned), who.unwinding));
      ExitFromPath(prog, need, who, e);
    }
    if Calls(prog, pt.stack[|pt.stack| - 1]).Some? {
      NextTracked(prog, t, need, walk, Enters(prog, who));
      EntryFromPath(prog, need, who);
    }
    if ReturnsTo(prog, pt).Some? {
      assert top >= 0 by { ReturnsFromCallee(prog, pt); }
      NextTracked(prog, t, need, walk, At(ReturnsTo(prog, pt).value, who.below[..top], ReturnedMemory(prog, pt, who.cells, who.below[top]), who.unwinding));
      ReturnFromPath(prog, need, who);
    }
    if UnwindsTo(prog, pt).Some? {
      NextTracked(prog, t, need, walk, UnwoundAt(prog, who));
      UnwindFromPath(prog, need, who);
    }
  }

  lemma ReturnsFromCallee(prog: Program, pt: Point)
    requires Located(prog, pt) && ReturnsTo(prog, pt).Some?
    ensures |pt.stack| > 1
  {
  }

  lemma NextTracked(prog: Program, t: ThreadName, need: Needs, walk: seq<Activity>, next: Activity)
    requires AgreesOnPaths(prog, t, need) && IsWalk(prog, t, walk) && IsThere(prog, walk[|walk| - 1]) && Leads(prog, walk[|walk| - 1], next)
    ensures Tracked(prog, need, next)
  {
    hide Tracked, IsThere, Leads, ResolvesAlike;
    WalkOn(prog, t, walk, next);
    var longer := walk + [next];
    assert TrackedAndResolved(prog, need, longer[|longer| - 1]);
  }

  lemma {:induction false} WalkStays(prog: Program, t: ThreadName, walk: seq<Activity>)
    requires IsWalk(prog, t, walk)
    ensures walk[|walk| - 1].At? && walk[|walk| - 1].pt.thread == t
    decreases |walk|
  {
    hide IsThere, Leads, TranslatorBefore, Root;
    if |walk| > 1 {
      WalkStays(prog, t, walk[..|walk| - 1]);
      assert IsThere(prog, walk[|walk| - 2]) && Leads(prog, walk[|walk| - 2], walk[|walk| - 1]);
      SameThread(prog, walk[|walk| - 2], walk[|walk| - 1]);
    }
  }

  /** For every thread and every choice of needed places: the memories agree on all paths exactly if they agree on all
      edges. */
  lemma PathsIffEdges(prog: Program, t: ThreadName, need: Needs)
    requires WellFormed(prog) && IsThread(prog, t) && ClosedIn(prog, t, need)
    ensures AgreesOnPaths(prog, t, need) <==> AgreesOnEdges(prog, t, need)
  {
    hide WellFormed, IsThread, Tracked, Closed, EdgesAgree, IsPoint, Leads, Root, TranslatorBefore, ClosedIn, ResolvesAlike;
    if AgreesOnEdges(prog, t, need) {
      forall walk: seq<Activity> | IsWalk(prog, t, walk) ensures TrackedAndResolved(prog, need, walk[|walk| - 1]) {
        WalkTracked(prog, t, need, walk);
        IsTracked(prog, need, walk[|walk| - 1]);
        ClosedThere(prog, t, need, walk[|walk| - 1]);
        ResolvedFromEdges(prog, need, walk[|walk| - 1]);
      }
    }
    if AgreesOnPaths(prog, t, need) {
      forall walk: seq<Activity> | IsWalk(prog, t, walk) && IsThere(prog, walk[|walk| - 1]) ensures EdgesAgree(prog, walk[|walk| - 1].pt, need) {
        WalkStays(prog, t, walk);
        EdgesFromPaths(prog, t, need, walk);
      }
    }
  }

  // ---------------------------------------------------------------------------------------------
  // What a terminator does

  lemma CallMovesAgree(fn: Function, pt: Point, a: Cells, b: Cells, term: Terminator)
    requires term.Call? && Agree(a, b, Uses(fn, term))
    ensures CallMoves(fn, pt, a, term) == CallMoves(fn, pt, b, term)
  {
    hide NeededFor, ReturnLinks, AfterLinks, Lookup;
    var self := NthArgument(term.args, 0);
    if self.Some? && !NeverComesBack(term) {
      var place := self.value;
      if term.callee.MemDrop? || term.callee.DerefMutFn? || term.callee.ThreadSpawn? {
        AgreeAfter(a, b, ReturnLinks(fn, term), iset{place});
        assert place in iset{place};
        SameLookup(AfterLinks(a, ReturnLinks(fn, term)), AfterLinks(b, ReturnLinks(fn, term)), place);
      } else if term.callee.MutexLock? || term.callee.ThreadJoin? || term.callee.CondvarNotifyOne? {
        assert place in Uses(fn, term);
        SameLookup(a, b, place);
      }
    }
  }

  lemma SameLookup(a: Cells, b: Cells, p: Place)
    requires Lookup(a, p) == Lookup(b, p)
    ensures GetMutex(a, p) == GetMutex(b, p) && GetGuard(a, p) == GetGuard(b, p) && GetHandle(a, p) == GetHandle(b, p)
    ensures GetCondvar(a, p) == GetCondvar(b, p) && GetBundle(a, p) == GetBundle(b, p)
  {
  }

  lemma MovesAgree(fn: Function, pt: Point, a: Cells, b: Cells, term: Terminator)
    requires Agree(a, b, Uses(fn, term))
    ensures Moves(fn, pt, a, term) == Moves(fn, pt, b, term)
  {
    hide CallMoves;
    if term.Call? {
      CallMovesAgree(fn, pt, a, b, term);
    } else if term.Drop? {
      assert term.place in Uses(fn, term);
      SameLookup(a, b, term.place);
    }
  }

  lemma CallMovesAre(fn: Function, pt: Point, cells: Cells, term: Terminator)
    requires term.Call? && CallEffect(fn, pt, cells, term).Some?
    ensures CallMoves(fn, pt, cells, term) == CallEffect(fn, pt, cells, term).value.actions
  {
    hide CallEffect, LinkedReturn, ReturnLinks, AfterLinks;
    if CallEnds(term.returnTo, term.unwind).NoReturn? {
      NoReturnIs(fn, pt, cells, term);
    } else {
      match term.callee
      case ThreadSpawn(_) =>
        SpawnIs(fn, pt, cells, term);
        if NthArgument(term.args, 0).Some? {
          ReturnMemory(fn, cells, term);
        }
      case CondvarNew => CondvarNewIs(fn, pt, cells, term);
      case MutexNew => MutexNewIs(fn, pt, cells, term);
      case MutexLock => LockIs(fn, pt, cells, term);
      case CondvarWait => WaitIs(fn, pt, cells, term);
      case CondvarWaitWhile => WaitIs(fn, pt, cells, term);
      case CondvarNotifyOne => NotifyOneIs(fn, pt, cells, term);
      case ThreadJoin => JoinIs(fn, pt, cells, term);
      case User(_) => UserIs(fn, pt, cells, term);
      case MemDrop =>
        MemDropIs(fn, pt, cells, term);
        ReturnMemory(fn, cells, term);
      case DerefMutFn =>
        DerefMutIs(fn, pt, cells, term);
        if NthArgument(term.args, 0).value in fn.mutexPlaces {
          ReturnMemory(fn, cells, term);
        }
      case _ => ShortIs(fn, pt, cells, term);
    }
  }

  lemma MovesAre(fn: Function, pt: Point, cells: Cells, term: Terminator)
    requires TerminatorEffect(fn, pt, cells, term).Some?
    ensures Moves(fn, pt, cells, term) == TerminatorEffect(fn, pt, cells, term).value.actions
  {
    hide CallMoves, CallEffect;
    if term.Call? {
      CallMovesAre(fn, pt, cells, term);
    }
  }

  /** Where the operands are looked up alike, the program does what the translator made transitions for. */
  lemma MovesAreActions(prog: Program, pt: Point, cells: Cells)
    requires EffectAt(prog, pt.thread, pt.stack).Some? && Located(prog, pt) && ResolvesAlike(prog, pt, cells)
    ensures MovesAt(prog, pt, cells) == Actions(prog, pt)
  {
    hide Moves, TerminatorEffect, StatementsCells, CellsBefore, Uses, AtEnd;
    var fn, end := FunctionAt(prog, pt), EndOf(prog, pt);
    MovesAgree(fn, pt, AtEnd(prog, pt, cells), TranslatorAtEnd(prog, pt), end);
    MovesAre(fn, pt, TranslatorAtEnd(prog, pt), end);
  }

  /** If all edges agree, the net has exactly the moves of the program on every path. */
  lemma ActionsOnPaths(prog: Program, t: ThreadName, need: Needs, walk: seq<Activity>)
    requires Translatable(prog) && IsThread(prog, t) && ClosedIn(prog, t, need) && AgreesOnEdges(prog, t, need) && IsWalk(prog, t, walk)
    ensures IsThere(prog, walk[|walk| - 1])
    ensures MovesAt(prog, walk[|walk| - 1].pt, walk[|walk| - 1].cells) == Actions(prog, walk[|walk| - 1].pt)
  {
    hide Translatable, IsThread, Tracked, IsPoint, ClosedIn, ResolvesAlike, Actions, MovesAt, EffectAt, EdgesAgree, Leads, TranslatorBefore, Root;
    var who := walk[|walk| - 1];
    Accepted(prog);
    PathsIffEdges(prog, t, need);
    assert TrackedAndResolved(prog, need, who);
    IsTracked(prog, need, who);
    EffectDefined(prog, who.pt);
    MovesAreActions(prog, who.pt, who.cells);
  }

  // ---------------------------------------------------------------------------------------------
  // Moves follow the edges

  /** Where the moves of a call lead. */
  lemma CallMoveDest(fn: Function, pt: Point, cells: Cells, term: Terminator, i: nat)
    requires term.Call? && i < |CallMoves(fn, pt, cells, term)|
    ensures var a := CallMoves(fn, pt, cells, term)[i];
      || a.Vanish? || (NeverComesBack(term) && a.dest == ToPanic)
      || (!NeverComesBack(term) && i == 0 && !term.callee.User? && a.dest == ReturnDest(term))
      || (MayUnwind(term) && (i == 1 || term.callee.User?) && a.dest == UnwindDest(term.unwind))
  {
    hide AfterLinks, ReturnLinks, Captured;
  }

  lemma MoveIsExit(fn: Function, pt: Point, cells: Cells, term: Terminator, i: nat)
    requires i < |Moves(fn, pt, cells, term)| && !Moves(fn, pt, cells, term)[i].Vanish?
    ensures var dest := Moves(fn, pt, cells, term)[i].dest;
      && (dest.ToBlock? ==> Exit(dest.b, Returned(term, i)) in Exits(term))
      && (dest.ToReturn? ==> term.Return?)
  {
    hide CallMoves;
    if term.Call? {
      CallMoveDest(fn, pt, cells, term, i);
    } else if term.SwitchInt? {
      assert Exit(term.targets[i], true) in Exits(term);
    }
  }

  /** A move to another block is a step along an edge. */
  lemma MoveLeads(prog: Program, who: Activity, i: nat)
    requires IsThere(prog, who) && i < |MovesAt(prog, who.pt, who.cells)| && !MovesAt(prog, who.pt, who.cells)[i].Vanish?
    ensures var dest, returned := MovesAt(prog, who.pt, who.cells)[i].dest, Returned(EndOf(prog, who.pt), i);
      var next := Arrives(prog, who, dest, Passed(prog, who.pt, who.cells, returned));
      next.At? ==> Leads(prog, who, next)
  {
    hide Moves, Exits, IsPoint, AtEnd, TerminatorLinks, Lands, UnwindsTo, Resuming;
    var pt := who.pt;
    var dest, returned := MovesAt(prog, pt, who.cells)[i].dest, Returned(EndOf(prog, pt), i);
    MoveIsExit(FunctionAt(prog, pt), pt, AtEnd(prog, pt, who.cells), EndOf(prog, pt), i);
    if dest.ToBlock? {
      var e := Exit(dest.b, returned);
      assert e in Exits(EndOf(prog, pt)) && Arrives(prog, who, dest, Passed(prog, pt, who.cells, returned))
        == At(BlockOf(pt, e.b), who.below, Passed(prog, pt, who.cells, e.returned), who.unwinding);
    } else if dest.ToReturn? && |pt.stack| > 1 {
      ReturnLeads(prog, who, returned);
    } else if dest.ToPanic? && Resuming(EndOf(prog, pt)) {
      ResumeLeads(prog, who);
    }
  }

  lemma {:induction false} LandsInCleanup(prog: Program, callers: seq<Site>)
    requires Lands(prog, callers).InCleanup?
    ensures var site := callers[Lands(prog, callers).depth];
      InRange(prog, site) && TerminatorAt(prog, site).Call? && TerminatorAt(prog, site).unwind == Cleanup(Lands(prog, callers).block)
    decreases |callers|
  {
    var top := |callers| - 1;
    if TerminatorAt(prog, callers[top]).unwind.Continue? {
      LandsInCleanup(prog, callers[..top]);
    }
  }

  /** Unwinding out of a called function goes on in a cleanup of its callers, or leaves the thread. */
  lemma ResumeLeads(prog: Program, who: Activity)
    requires IsThere(prog, who) && Resuming(EndOf(prog, who.pt))
    ensures var next := Resumes(prog, who.pt.thread, who.pt.stack[..|who.pt.stack| - 1], who.below);
      if UnwindsTo(prog, who.pt).Some? then next == UnwoundAt(prog, who) else !next.At?
  {
    hide IsPoint, Lands, Resuming;
    var callers := who.pt.stack[..|who.pt.stack| - 1];
    if Lands(prog, callers).InCleanup? {
      LandsInCleanup(prog, callers);
      var j := Lands(prog, callers).depth;
      assert CallerAt(who.pt, j).stack[..j] == callers[..j];
    }
  }

  lemma ReturnLeads(prog: Program, who: Activity, returned: bool)
    requires IsThere(prog, who) && EndOf(prog, who.pt).Return? && |who.pt.stack| > 1
    ensures var next := Arrives(prog, who, ToReturn, Passed(prog, who.pt, who.cells, returned));
      next.At? ==> Leads(prog, who, next)
  {
    hide IsPoint, AtEnd, Exits, IsThread;
    var pt, top := who.pt, |who.below| - 1;
    CallerIsPoint(prog, pt);
    assert CallerOf(pt).stack[|pt.stack| - 2] == pt.stack[|pt.stack| - 2];
    assert Passed(prog, pt, who.cells, returned) == AtEnd(prog, pt, who.cells);
    var next := Arrives(prog, who, ToReturn, Passed(prog, pt, who.cells, returned));
    if next.At? {
      assert next == At(ReturnsTo(prog, pt).value, who.below[..top], ReturnedMemory(prog, pt, who.cells, who.below[top]), who.unwinding);
    }
  }

  // ---------------------------------------------------------------------------------------------
  // From a block to the next one

  ghost predicate PlainBlock(prog: Program, pt: Point)
    requires Located(prog, pt)
  {
    var fn, block := FunctionAt(prog, pt), FunctionAt(prog, pt).blocks[pt.stack[|pt.stack| - 1].b];
    (forall i :: 0 <= i < |block.statements| ==> PlainStatement(fn, block.statements[i])) && PlainTerminator(fn, block.terminator)
  }

  /** In a block that only moves objects about, the translator follows the program: to the terminator, and to the next
      block in index order if the program goes there by returning or jumping. */
  lemma NextBlock(prog: Program, pt: Point)
    requires EffectAt(prog, pt.thread, pt.stack).Some? && Located(prog, pt) && PlainBlock(prog, pt)
    ensures AtEnd(prog, pt, TranslatorBefore(prog, pt)) == TranslatorAtEnd(prog, pt)
    ensures Passed(prog, pt, TranslatorBefore(prog, pt), true) == TranslatorBefore(prog, BlockOf(pt, pt.stack[|pt.stack| - 1].b + 1))
  {
    hide TerminatorEffect, StatementsCells, TerminatorLinks, StatementsLinks, PlainStatement, PlainTerminator, CellsBefore;
    var site, fn := pt.stack[|pt.stack| - 1], FunctionAt(prog, pt);
    var before := CellsBefore(prog, pt.thread, pt.stack[..|pt.stack| - 1], site.f, site.b).value;
    StatementsMemory(fn, before, fn.blocks[site.b].statements);
    TerminatorMemory(fn, pt, TranslatorAtEnd(prog, pt), fn.blocks[site.b].terminator);
    FrameAtIs(pt);
    CellsNext(prog, FrameAt(pt), site.b);
    var next := BlockOf(pt, site.b + 1);
    assert next.stack[..|next.stack| - 1] == FrameAt(pt).callers;
  }
}
