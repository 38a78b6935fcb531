/** Which programs the translator accepts, in terms of their blocks. */
module Acceptance {
  import opened Wrappers
  import opened Mir
  import opened ControlPoints
  import opened AliasMemory
  import opened Blueprint
  import opened Worlds
  import opened Points
  import opened Machine
  import opened Captures
  import opened Rejections
  import opened Unfolding

  // ---------------------------------------------------------------------------------------------
  // Threads and blocks that are rejected

  /** A place of the debug information that names no captured variable, or one that was named before. */
  ghost predicate CaptureRejected(values: seq<Value>, places: seq<Place>, i: nat)
    requires i < |places|
  {
    && places[i].local == 1
    && (NoField(places[i].projection) || places[i] in places[..i] || MissingField(values, places[i]))
  }

  ghost predicate MissingField(values: seq<Value>, place: Place) {
    exists j: nat, n: nat :: IsFirstField(place.projection, j, n) && n >= |values|
  }

  ghost predicate SomeCaptureRejected(values: seq<Value>, places: seq<Place>) {
    exists i :: 0 <= i < |places| && CaptureRejected(values, places, i)
  }

  /** The last place, once those before it are linked. */
  lemma LastCapture(values: seq<Value>, places: seq<Place>)
    requires places != [] && CapturesLinked(map[Place(1, []) := Bundle(values)], places[..|places| - 1]).Some?
    ensures CapturesLinked(map[Place(1, []) := Bundle(values)], places).None? <==> CaptureRejected(values, places, |places| - 1)
  {
    hide FirstField, NoField, IsFirstField;
    var last := places[|places| - 1];
    CapturesFound(values, places[..|places| - 1]);
    if NoField(last.projection) {
      NoFirstField(last.projection);
    } else {
      var i, n := FindField(last.projection);
      forall j: nat, k: nat | IsFirstField(last.projection, j, k) ensures k == n {
        FirstFieldIs(last.projection, i, n);
        FirstFieldIs(last.projection, j, k);
      }
      FirstFieldIs(last.projection, i, n);
      HasProjection(last.projection, i, n);
    }
  }

  lemma HasProjection(projection: seq<Projection>, i: nat, n: nat)
    requires IsFirstField(projection, i, n)
    ensures projection != []
  {
  }

  lemma {:induction false} CapturesRejectedIff(values: seq<Value>, places: seq<Place>)
    ensures CapturesLinked(map[Place(1, []) := Bundle(values)], places).None? <==> SomeCaptureRejected(values, places)
    decreases |places|
  {
    hide CaptureRejected, FieldNumber, LinkedField;
    if places != [] {
      var last := |places| - 1;
      var before := places[..last];
      CapturesRejectedIff(values, before);
      forall i | 0 <= i < last ensures CaptureRejected(values, before, i) == CaptureRejected(values, places, i) {
        SameCapture(values, places, i);
      }
      if CapturesLinked(map[Place(1, []) := Bundle(values)], before).Some? {
        LastCapture(values, places);
      } else {
        var i :| 0 <= i < last && CaptureRejected(values, before, i);
        assert CaptureRejected(values, places, i);
      }
    }
  }

  lemma SameCapture(values: seq<Value>, places: seq<Place>, i: nat)
    requires i < |places| - 1
    ensures CaptureRejected(values, places[..|places| - 1], i) == CaptureRejected(values, places, i)
  {
    assert places[..|places| - 1][..i] == places[..i];
  }

  /** The captured variables of the thread that starts at `pt` cannot be linked. */
  ghost predicate StartRejected(prog: Program, pt: Point) {
    && pt.thread.Spawned? && |pt.stack| == 1 && Located(prog, pt) && pt.stack[0].b == 0
    && SomeCaptureRejected(CapturedBy(prog, pt.thread), FunctionAt(prog, pt).debugPlaces)
  }

  function CapturedBy(prog: Program, t: ThreadName): seq<Value>
    requires t.Spawned?
  {
    var actions := Actions(prog, Point(t.parent, t.stack));
    if actions != [] && actions[0].SpawnThread? then actions[0].aggregate else []
  }

  /** The memory of the translator before the first statement of a block, and after the last. */
  function MemoryBefore(prog: Program, pt: Point): Option<Cells>
    requires Located(prog, pt)
  {
    var top := |pt.stack| - 1;
    CellsBefore(prog, pt.thread, pt.stack[..top], pt.stack[top].f, pt.stack[top].b)
  }

  function StatementsAt(prog: Program, pt: Point): seq<Statement>
    requires Located(prog, pt)
  {
    FunctionAt(prog, pt).blocks[pt.stack[|pt.stack| - 1].b].statements
  }

  function MemoryAfter(prog: Program, pt: Point): Option<Cells>
    requires Located(prog, pt)
  {
    match MemoryBefore(prog, pt)
    case None => None
    case Some(before) => StatementsCells(FunctionAt(prog, pt), before, StatementsAt(prog, pt))
  }

  /** A statement of the block is rejected, or the call at its end. */
  ghost predicate BlockRejected(prog: Program, pt: Point) {
    Located(prog, pt) && (StatementIsRejected(prog, pt) || EndIsRejected(prog, pt))
  }

  ghost predicate StatementIsRejected(prog: Program, pt: Point)
    requires Located(prog, pt)
  {
    MemoryBefore(prog, pt).Some? && SomeRejected(FunctionAt(prog, pt), MemoryBefore(prog, pt).value, StatementsAt(prog, pt))
  }

  ghost predicate EndIsRejected(prog: Program, pt: Point)
    requires Located(prog, pt)
  {
    MemoryAfter(prog, pt).Some? && EndOf(prog, pt).Call? && CallRejected(FunctionAt(prog, pt), MemoryAfter(prog, pt).value, EndOf(prog, pt))
  }

  ghost predicate RejectedHere(prog: Program, pt: Point) {
    StartRejected(prog, pt) || BlockRejected(prog, pt)
  }

  lemma StartOfThread(prog: Program, pt: Point)
    requires IsPoint(prog, pt) && pt.thread.Spawned? && |pt.stack| == 1 && Located(prog, pt) && pt.stack[0].b == 0
    ensures MemoryBefore(prog, pt).None? <==> StartRejected(prog, pt)
  {
    hide EffectAt, SomeCaptureRejected, CapturesLinked;
    assert pt.stack[..0] == [];
    CapturesRejectedIff(CapturedBy(prog, pt.thread), FunctionAt(prog, pt).debugPlaces);
  }

  lemma StuckHere(prog: Program, pt: Point)
    requires Located(prog, pt) && MemoryBefore(prog, pt).Some?
    ensures Stuck(prog, pt) <==> BlockRejected(prog, pt)
  {
    hide EffectAt, CellsBefore, StatementsCells, SomeRejected, CallRejected;
    BlockRejectedIff(prog, pt, MemoryBefore(prog, pt).value);
  }

  /** The translator is stuck at a point only if it rejects that point or one before it. */
  lemma {:induction false} FindRejected(prog: Program, pt: Point) returns (q: Point)
    requires IsPoint(prog, pt) && Stuck(prog, pt)
    ensures IsPoint(prog, q) && RejectedHere(prog, q)
    decreases if pt.stack == [] then 0 else pt.stack[|pt.stack| - 1].b
  {
    hide IsPoint, EffectAt, StatementsCells, BlockRejected, StartRejected;
    LastSite(prog, pt);
    var top := |pt.stack| - 1;
    if MemoryBefore(prog, pt).Some? {
      StuckHere(prog, pt);
      q := pt;
    } else if pt.stack[top].b > 0 {
      var before := Point(pt.thread, pt.stack[..top] + [Site(pt.stack[top].f, pt.stack[top].b - 1)]);
      BlockBefore(prog, pt);
      q := FindRejected(prog, before);
    } else {
      StartOfThread(prog, pt);
      q := pt;
    }
  }

  lemma BlockBefore(prog: Program, pt: Point)
    requires IsPoint(prog, pt) && Located(prog, pt) && pt.stack[|pt.stack| - 1].b > 0
    ensures var top := |pt.stack| - 1;
      IsPoint(prog, Point(pt.thread, pt.stack[..top] + [Site(pt.stack[top].f, pt.stack[top].b - 1)]))
  {
    hide IsThread, Root, Calls;
    var top := |pt.stack| - 1;
    var stack := pt.stack[..top] + [Site(pt.stack[top].f, pt.stack[top].b - 1)];
    assert forall j :: 0 <= j < top ==> stack[j] == pt.stack[j];
    assert stack[..0] == [];
  }

  lemma RejectedIsStuck(prog: Program, pt: Point)
    requires IsPoint(prog, pt) && RejectedHere(prog, pt)
    ensures Stuck(prog, pt)
  {
    hide IsPoint, CellsBefore, StatementsCells, SomeRejected, CallRejected, SomeCaptureRejected, TerminatorEffect;
    if StartRejected(prog, pt) {
      StartOfThread(prog, pt);
    } else {
      StuckHere(prog, pt);
    }
  }

  // ---------------------------------------------------------------------------------------------
  // Joins and waits

  /** The block ends in a join of thread `t`. */
  ghost predicate JoinsThread(prog: Program, pt: Point, t: ThreadName) {
    && Located(prog, pt) && MemoryAfter(prog, pt).Some? && EndsInCall(prog, pt, ThreadJoin)
    && HoldsObject(MemoryAfter(prog, pt).value, Operand0(EndOf(prog, pt).args), JoinHandle(t))
  }

  predicate HoldsObject(cells: Cells, place: Option<Place>, value: Value) {
    place.Some? && place.value in cells && cells[place.value] == value
  }

  /** The block ends in a wait on condvar `c` with the guard of some mutex. */
  ghost predicate WaitsOn(prog: Program, pt: Point, c: Point) {
    && Located(prog, pt) && MemoryAfter(prog, pt).Some? && (EndsInCall(prog, pt, CondvarWait) || EndsInCall(prog, pt, CondvarWaitWhile))
    && HoldsObject(MemoryAfter(prog, pt).value, Operand0(EndOf(prog, pt).args), Condvar(c))
    && Holds(MemoryAfter(prog, pt).value, Operand1(EndOf(prog, pt).args), (v: Value) => v.MutexGuard?)
  }

  lemma JoinOfCall(fn: Function, pt: Point, cells: Cells, term: Terminator, t: ThreadName)
    ensures var e := TerminatorEffect(fn, pt, cells, term);
      e.Some? && e.value.actions != [] && e.value.actions[0].JoinThread? && e.value.actions[0].thread == t
      <==> ComesBack(term, ThreadJoin) && HoldsObject(cells, Operand0(term.args), JoinHandle(t))
  {
    hide LinkedReturn;
  }

  lemma WaitOfCall(fn: Function, pt: Point, cells: Cells, term: Terminator, c: Point)
    ensures var e := TerminatorEffect(fn, pt, cells, term);
      e.Some? && e.value.wait.Some? && e.value.wait.value.condvar == c
      <==> && (ComesBack(term, CondvarWait) || ComesBack(term, CondvarWaitWhile))
           && HoldsObject(cells, Operand0(term.args), Condvar(c)) && Holds(cells, Operand1(term.args), (v: Value) => v.MutexGuard?)
  {
    hide LinkedReturn;
  }

  lemma JoinsWhen(prog: Program, pt: Point, t: ThreadName)
    ensures JoinsAt(prog, pt, t) <==> JoinsThread(prog, pt, t)
  {
    hide CellsBefore, StatementsCells, TerminatorEffect, ComesBack, HoldsObject;
    if Located(prog, pt) && MemoryAfter(prog, pt).Some? {
      JoinOfCall(FunctionAt(prog, pt), pt, MemoryAfter(prog, pt).value, EndOf(prog, pt), t);
    }
  }

  lemma WaitsWhen(prog: Program, pt: Point, c: Point)
    ensures WaitsAt(prog, pt, c) <==> WaitsOn(prog, pt, c)
  {
    hide CellsBefore, StatementsCells, TerminatorEffect, ComesBack, HoldsObject, Holds;
    if Located(prog, pt) && MemoryAfter(prog, pt).Some? {
      WaitOfCall(FunctionAt(prog, pt), pt, MemoryAfter(prog, pt).value, EndOf(prog, pt), c);
    }
  }

  // ---------------------------------------------------------------------------------------------
  // Accepted programs

  ghost predicate NothingRejected(prog: Program) {
    forall pt: Point :: IsPoint(prog, pt) ==> !RejectedHere(prog, pt)
  }

  ghost predicate JoinedOnce(prog: Program) {
    forall p: Point, q: Point, t: ThreadName :: IsPoint(prog, p) && IsPoint(prog, q) && JoinsThread(prog, p, t) && JoinsThread(prog, q, t) ==> p == q
  }

  ghost predicate WaitedOnOnce(prog: Program) {
    forall p: Point, q: Point, c: Point :: IsPoint(prog, p) && IsPoint(prog, q) && WaitsOn(prog, p, c) && WaitsOn(prog, q, c) ==> p == q
  }

  /** A well-formed program is accepted exactly if no thread start, statement or call of it is rejected, no thread is joined
      at two points and no condvar waited on at two. */
  lemma AcceptedIff(prog: Program)
    requires WellFormed(prog)
    ensures Translatable(prog) <==> NothingRejected(prog) && JoinedOnce(prog) && WaitedOnOnce(prog)
  {
    hide WellFormed, IsPoint, Stuck, JoinsAt, WaitsAt, JoinsThread, WaitsOn, RejectedHere;
    StuckSomewhere(prog);
    forall p: Point, t: ThreadName ensures JoinsAt(prog, p, t) <==> JoinsThread(prog, p, t) {
      JoinsWhen(prog, p, t);
    }
    forall p: Point, c: Point ensures WaitsAt(prog, p, c) <==> WaitsOn(prog, p, c) {
      WaitsWhen(prog, p, c);
    }
  }

  lemma StuckSomewhere(prog: Program)
    ensures (exists pt :: pt in AllPoints(prog) && Stuck(prog, pt)) <==> !NothingRejected(prog)
  {
    hide IsPoint, Stuck, RejectedHere;
    if pt :| pt in AllPoints(prog) && Stuck(prog, pt) {
      var q := FindRejected(prog, pt);
    }
    if pt: Point :| IsPoint(prog, pt) && RejectedHere(prog, pt) {
      RejectedIsStuck(prog, pt);
    }
  }
}
