/** Programs that show which bounds the translation does not keep: a guard dropped again while unwinding, and a signal
    received while nobody waits. */
module Witnesses {
  import opened Wrappers
  import opened PetriNets
  import opened Mir
  import opened ControlPoints
  import opened AliasMemory
  import opened Blueprint
  import opened CallEffects
  import opened Worlds
  import opened Frames
  import opened Progress
  import opened Points
  import opened NetLaws
  import opened Condvars

  // ---------------------------------------------------------------------------------------------
  // Programs with one function and no threads

  function Local(n: nat): Place {
    Place(n, [])
  }

  function Only(blocks: seq<Block>, sync: set<Place> := {}): Program {
    Program([Function("main", blocks, sync, {}, [])], 0)
  }

  function Block0(terminator: Terminator): Block {
    Block([], terminator)
  }

  function CallTo(callee: Callee, args: seq<Operand>, destination: nat, next: nat): Block {
    Block0(Call(callee, args, Local(destination), Some(next), Continue))
  }

  function MainAt(b: nat): Point {
    Point(MainThread, [Site(0, b)])
  }

  function MainPlace(b: nat): PlaceRef {
    Control(MainThread, [Site(0, b)])
  }

  ghost predicate Plain(blocks: seq<Block>) {
    blocks != [] && forall b :: 0 <= b < |blocks| ==>
      blocks[b].terminator.Call? ==> !blocks[b].terminator.callee.User? && !blocks[b].terminator.callee.ThreadSpawn?
  }

  lemma MainPoints(blocks: seq<Block>, b: nat, sync: set<Place> := {})
    requires Plain(blocks) && b < |blocks|
    ensures IsPoint(Only(blocks, sync), MainAt(b)) && PlaceOf(MainThread, MainAt(b).stack) == MainPlace(b)
  {
  }

  ghost predicate AllDefined(blocks: seq<Block>, sync: set<Place> := {}) {
    forall b: nat :: b < |blocks| ==> EffectAt(Only(blocks, sync), MainThread, MainAt(b).stack).Some?
  }

  lemma OnlyMain(blocks: seq<Block>, pt: Point, sync: set<Place> := {})
    requires Plain(blocks) && IsPoint(Only(blocks, sync), pt)
    ensures pt.stack != [] && pt == MainAt(pt.stack[0].b) && pt.stack[0].b < |blocks|
  {
    hide EffectAt;
    if |pt.stack| > 1 {
      CallerIsPoint(Only(blocks, sync), pt);
      assert false;
    }
    if pt.thread.Spawned? {
      EffectShape(Only(blocks, sync), Point(pt.thread.parent, pt.thread.stack));
      assert false;
    }
    assert pt.stack == [pt.stack[0]];
  }

  /** A program of this kind that joins nothing and waits at most once is accepted if all its effects are defined. */
  lemma PlainAccepted(blocks: seq<Block>, wait: nat, sync: set<Place> := {})
    requires Plain(blocks) && WellFormed(Only(blocks, sync)) && AllDefined(blocks, sync)
    requires forall b: nat, t: ThreadName :: b < |blocks| ==> !JoinsAt(Only(blocks, sync), MainAt(b), t)
    requires forall b: nat :: b < |blocks| && b != wait ==> WaitAt(Only(blocks, sync), MainAt(b)).None?
    ensures Translatable(Only(blocks, sync))
  {
    hide EffectAt, WellFormed, IsPoint, JoinsAt, WaitAt, Only;
    forall pt | IsPoint(Only(blocks, sync), pt) ensures pt.stack != [] && pt == MainAt(pt.stack[0].b) && pt.stack[0].b < |blocks| {
      OnlyMain(blocks, pt, sync);
    }
  }

  /** The effect of a block that is reached with the memory `before`. */
  lemma EffectAfter(blocks: seq<Block>, b: nat, before: Cells, cells: Cells, e: Effect, sync: set<Place> := {})
    requires Plain(blocks) && b < |blocks| && CellsBefore(Only(blocks, sync), MainThread, [], 0, b) == Some(before)
    requires StatementsCells(Only(blocks, sync).functions[0], before, blocks[b].statements) == Some(cells)
    requires TerminatorEffect(Only(blocks, sync).functions[0], MainAt(b), cells, blocks[b].terminator) == Some(e)
    ensures EffectAt(Only(blocks, sync), MainThread, MainAt(b).stack) == Some(e)
    ensures Actions(Only(blocks, sync), MainAt(b)) == e.actions
    ensures CellsBefore(Only(blocks, sync), MainThread, [], 0, b + 1) == Some(e.cells)
  {
    hide TerminatorEffect, CellsBefore, StatementsCells;
    var fr := Frame(MainThread, [], 0);
    assert fr.At(b) == MainAt(b);
    EffectIs(Only(blocks, sync), fr, b, before);
    CellsNext(Only(blocks, sync), fr, b);
  }

  lemma EffectFrom(blocks: seq<Block>, b: nat, cells: Cells, e: Effect, sync: set<Place> := {})
    requires Plain(blocks) && b < |blocks| && blocks[b].statements == [] && CellsBefore(Only(blocks, sync), MainThread, [], 0, b) == Some(cells)
    requires TerminatorEffect(Only(blocks, sync).functions[0], MainAt(b), cells, blocks[b].terminator) == Some(e)
    ensures EffectAt(Only(blocks, sync), MainThread, MainAt(b).stack) == Some(e)
    ensures Actions(Only(blocks, sync), MainAt(b)) == e.actions
    ensures CellsBefore(Only(blocks, sync), MainThread, [], 0, b + 1) == Some(e.cells)
  {
    hide TerminatorEffect, CellsBefore;
    EffectAfter(blocks, b, cells, cells, e, sync);
  }

  lemma StartCells(blocks: seq<Block>, sync: set<Place> := {})
    ensures CellsBefore(Only(blocks, sync), MainThread, [], 0, 0) == Some(map[])
  {
  }

  lemma EdgeFrom(blocks: seq<Block>, net: ProgramNet, ctx: Context, b: nat, i: nat)
    requires Plain(blocks) && b < |blocks| && IsNetOf(Only(blocks), net, ctx) && i < |Actions(Only(blocks), MainAt(b))|
    ensures TransRef(MainAt(b), i) in net.transitions
    ensures net.transitions[TransRef(MainAt(b), i)] == EdgeOfAction(Only(blocks), ctx, MainAt(b), Actions(Only(blocks), MainAt(b))[i])
    ensures PlaceOf(MainThread, MainAt(b).stack) == MainPlace(b)
    ensures forall c: nat :: DestPlace(Only(blocks), MainAt(b), ToBlock(c)) == MainPlace(c)
  {
    hide IsContext, EdgeOfAction, Actions, Tokens, IsPlaceOf;
    MainPoints(blocks, b);
    assert MainAt(b).stack[..0] == [];
  }

  /** A transition between two blocks that takes a token from a shared place, puts one there, or leaves it alone. */
  function Arc(here: PlaceRef, there: PlaceRef, shared: PlaceRef, change: int): Edge {
    Transition(multiset{here} + (if change < 0 then multiset{shared} else multiset{}),
               multiset{there} + (if change > 0 then multiset{shared} else multiset{}))
  }

  /** The transition of an action that goes to block `c`. */
  lemma ArcFrom(blocks: seq<Block>, net: ProgramNet, ctx: Context, b: nat, i: nat, c: nat, shared: PlaceRef, change: int)
    requires Plain(blocks) && b < |blocks| && IsNetOf(Only(blocks), net, ctx) && i < |Actions(Only(blocks), MainAt(b))|
    requires match Actions(Only(blocks), MainAt(b))[i]
      case Flow(d) => d == ToBlock(c) && change == 0
      case Acquire(m, d) => d == ToBlock(c) && shared == MutexPlace(m) && change == -1
      case Release(m, d) => d == ToBlock(c) && shared == MutexPlace(m) && change == 1
      case NotifyOne(n, d) => d == ToBlock(c) && shared == Notify(n) && change == 1
      case _ => false
    ensures TransRef(MainAt(b), i) in net.transitions
    ensures net.transitions[TransRef(MainAt(b), i)] == Arc(MainPlace(b), MainPlace(c), shared, change)
  {
    hide IsNetOf, Actions, DestPlace, PlaceOf, Plain, Only;
    EdgeFrom(blocks, net, ctx, b, i);
    assert multiset{MainPlace(b)} + multiset{} == multiset{MainPlace(b)} && multiset{MainPlace(c)} + multiset{} == multiset{MainPlace(c)};
  }

  lemma TokenGoes(net: ProgramNet, m: multiset<PlaceRef>, ref: TransRef, here: PlaceRef, there: PlaceRef, shared: PlaceRef, change: int)
    returns (m': multiset<PlaceRef>)
    requires Reachable(net, m) && ref in net.transitions && net.transitions[ref] == Arc(here, there, shared, change)
    requires -1 <= change <= 1 && here in m && (change < 0 ==> shared in m) && here != shared && there != shared
    ensures Reachable(net, m') && there in m' && m'[shared] == m[shared] + change
    ensures forall p :: p != here && p != there && p != shared ==> m'[p] == m[p]
  {
    hide Reachable;
    m' := Fire(net, m, ref);
    ReachableStep(net, m, ref);
  }

  // ---------------------------------------------------------------------------------------------
  // Programs with threads, but without calls of user functions

  ghost predicate Flat(prog: Program) {
    forall f: nat, b: nat :: InRange(prog, Site(f, b)) ==> Calls(prog, Site(f, b)).None?
  }

  lemma FlatPoint(prog: Program, pt: Point)
    requires Flat(prog) && IsPoint(prog, pt)
    ensures |pt.stack| == 1 && pt.stack == [Site(Root(prog, pt.thread), pt.stack[0].b)] && InRange(prog, pt.stack[0])
  {
    hide EffectAt, Calls, IsThread;
    LastSite(prog, pt);
    if |pt.stack| > 1 {
      CallerIsPoint(prog, pt);
    }
  }

  /** A spawned thread of such a program starts at a block of its parent that spawns. */
  lemma FlatThread(prog: Program, t: ThreadName)
    requires Flat(prog) && IsThread(prog, t) && t.Spawned?
    ensures IsThread(prog, t.parent) && |t.stack| == 1 && t.stack[0].f == Root(prog, t.parent) && InRange(prog, t.stack[0])
    ensures SpawnsAt(prog, t.stack[0]).Some?
  {
    hide EffectAt;
    var spawner := Point(t.parent, t.stack);
    assert IsPoint(prog, spawner);
    FlatPoint(prog, spawner);
    EffectShape(prog, spawner);
  }

  // ---------------------------------------------------------------------------------------------
  // A mutex unlocked twice

  /** Locks a mutex and drops the guard; the cleanup block of the drop drops it again. */
  function DoubleDrop(): seq<Block> {
    [CallTo(MutexNew, [], 1, 1),
     CallTo(MutexLock, [Copy(Local(1))], 2, 2),
     Block0(Drop(Local(2), 3, Cleanup(4))),
     Block0(Return),
     Block0(Drop(Local(2), 5, Terminate)),
     Block0(UnwindResume)]
  }

  lemma DoubleDropLocks()
    ensures var prog, m := Only(DoubleDrop()), MainAt(0);
      && EffectAt(prog, MainThread, MainAt(0).stack).Some? && Actions(prog, MainAt(0)) == [Flow(ToBlock(1))]
      && EffectAt(prog, MainThread, MainAt(1).stack).Some? && Actions(prog, MainAt(1)) == [Acquire(m, ToBlock(2))]
      && CellsBefore(prog, MainThread, [], 0, 2) == Some(map[Local(1) := Mutex(m), Local(2) := MutexGuard(m)])
  {
    hide EffectAt, CellsBefore, Actions, CallEffect;
    var blocks, m := DoubleDrop(), MainAt(0);
    var fn := Only(blocks).functions[0];
    var one: Cells := map[Local(1) := Mutex(m)];
    StartCells(blocks);
    MutexNewIs(fn, MainAt(0), map[], blocks[0].terminator);
    LockIs(fn, MainAt(1), one, blocks[1].terminator);
    assert ShortCall(Ends(ToBlock(1), None)) == [Flow(ToBlock(1))];
    EffectFrom(blocks, 0, map[], Effect([Flow(ToBlock(1))], one, None));
    EffectFrom(blocks, 1, one, Effect([Acquire(m, ToBlock(2))], one[Local(2) := MutexGuard(m)], None));
  }

  lemma DoubleDropEffects()
    ensures var prog, m := Only(DoubleDrop()), MainAt(0);
      && Actions(prog, MainAt(0)) == [Flow(ToBlock(1))]
      && Actions(prog, MainAt(1)) == [Acquire(m, ToBlock(2))]
      && Actions(prog, MainAt(2)) == [Release(m, ToBlock(3)), Release(m, ToBlock(4))]
      && Actions(prog, MainAt(3)) == [Flow(ToReturn)]
      && Actions(prog, MainAt(4)) == [Release(m, ToBlock(5))]
      && Actions(prog, MainAt(5)) == [Flow(ToPanic)]
    ensures Plain(DoubleDrop()) && |DoubleDrop()| == 6 && AllDefined(DoubleDrop())
  {
    hide EffectAt, CellsBefore, Actions, CallEffect;
    var blocks, m := DoubleDrop(), MainAt(0);
    var cells: Cells := map[Local(1) := Mutex(m), Local(2) := MutexGuard(m)];
    DoubleDropLocks();
    EffectFrom(blocks, 2, cells, Effect([Release(m, ToBlock(3)), Release(m, ToBlock(4))], cells, None));
    EffectFrom(blocks, 3, cells, Effect([Flow(ToReturn)], cells, None));
    EffectFrom(blocks, 4, cells, Effect([Release(m, ToBlock(5))], cells, None));
    EffectFrom(blocks, 5, cells, Effect([Flow(ToPanic)], cells, None));
  }

  lemma StartsAt(blocks: seq<Block>, net: ProgramNet, ctx: Context, m0: multiset<PlaceRef>)
    requires Plain(blocks) && IsNetOf(Only(blocks), net, ctx) && IsInitial(net, m0)
    ensures Reachable(net, m0) && m0[MainPlace(0)] == 1
    ensures forall c: Point :: IsPoint(Only(blocks), c) && CreatesMutex(Only(blocks), c) ==> m0[MutexPlace(c)] == 1
    ensures forall c: Point :: IsPoint(Only(blocks), c) && CreatesCondvar(Only(blocks), c) ==> m0[WaitEnabled(c)] == 1
  {
    hide IsNetOf, IsPoint, CreatesMutex, CreatesCondvar;
    MainPoints(blocks, 0);
    assert After(net, m0, []) == Some(m0);
    StartTokens(Only(blocks), net, ctx, m0, MainPlace(0));
    assert Home([Site(0, 0)]) == [Site(0, 0)];
    forall c: Point | IsPoint(Only(blocks), c) && CreatesMutex(Only(blocks), c) ensures m0[MutexPlace(c)] == 1 {
      StartTokens(Only(blocks), net, ctx, m0, MutexPlace(c));
    }
    forall c: Point | IsPoint(Only(blocks), c) && CreatesCondvar(Only(blocks), c) ensures m0[WaitEnabled(c)] == 1 {
      StartTokens(Only(blocks), net, ctx, m0, WaitEnabled(c));
    }
  }

  lemma DoubleDropEdges(net: ProgramNet, ctx: Context)
    requires IsNetOf(Only(DoubleDrop()), net, ctx)
    ensures var mutex := MutexPlace(MainAt(0));
      && TransRef(MainAt(0), 0) in net.transitions && net.transitions[TransRef(MainAt(0), 0)] == Arc(MainPlace(0), MainPlace(1), mutex, 0)
      && TransRef(MainAt(1), 0) in net.transitions && net.transitions[TransRef(MainAt(1), 0)] == Arc(MainPlace(1), MainPlace(2), mutex, -1)
      && TransRef(MainAt(2), 1) in net.transitions && net.transitions[TransRef(MainAt(2), 1)] == Arc(MainPlace(2), MainPlace(4), mutex, 1)
      && TransRef(MainAt(4), 0) in net.transitions && net.transitions[TransRef(MainAt(4), 0)] == Arc(MainPlace(4), MainPlace(5), mutex, 1)
  {
    hide IsNetOf, Actions, Plain, Only, DoubleDrop, WaitAt, Arc, EffectAt;
    DoubleDropEffects();
    var mutex := MutexPlace(MainAt(0));
    ArcFrom(DoubleDrop(), net, ctx, 0, 0, 1, mutex, 0);
    ArcFrom(DoubleDrop(), net, ctx, 1, 0, 2, mutex, -1);
    ArcFrom(DoubleDrop(), net, ctx, 2, 1, 4, mutex, 1);
    ArcFrom(DoubleDrop(), net, ctx, 4, 0, 5, mutex, 1);
  }

  /** MUTEX <= 1 can fail: the run new, lock, drop on the unwind path, drop again leaves two tokens in the mutex. */
  lemma DoubleUnlock(net: ProgramNet, ctx: Context, m0: multiset<PlaceRef>) returns (m: multiset<PlaceRef>)
    requires IsNetOf(Only(DoubleDrop()), net, ctx) && IsInitial(net, m0)
    ensures Translatable(Only(DoubleDrop()))
    ensures Reachable(net, m) && m[MutexPlace(MainAt(0))] == 2
  {
    hide IsNetOf, Reachable, Only, DoubleDrop, Arc, Translatable;
    DoubleDropAccepted();
    var mutex := MutexPlace(MainAt(0));
    DoubleDropStart(net, ctx, m0);
    DoubleDropEdges(net, ctx);
    m := TokenGoes(net, m0, TransRef(MainAt(0), 0), MainPlace(0), MainPlace(1), mutex, 0);
    m := TokenGoes(net, m, TransRef(MainAt(1), 0), MainPlace(1), MainPlace(2), mutex, -1);
    m := TokenGoes(net, m, TransRef(MainAt(2), 1), MainPlace(2), MainPlace(4), mutex, 1);
    m := TokenGoes(net, m, TransRef(MainAt(4), 0), MainPlace(4), MainPlace(5), mutex, 1);
  }

  lemma DoubleDropStart(net: ProgramNet, ctx: Context, m0: multiset<PlaceRef>)
    requires IsNetOf(Only(DoubleDrop()), net, ctx) && IsInitial(net, m0)
    ensures Reachable(net, m0) && m0[MainPlace(0)] == 1 && m0[MutexPlace(MainAt(0))] == 1
  {
    hide IsNetOf, Reachable, IsPoint;
    MainPoints(DoubleDrop(), 0);
    StartsAt(DoubleDrop(), net, ctx, m0);
  }

  lemma DoubleDropAccepted()
    ensures Translatable(Only(DoubleDrop()))
  {
    hide EffectAt;
    DoubleDropEffects();
    assert FunctionOk(Only(DoubleDrop()), 0);
    forall b: nat | b < 6 ensures WaitAt(Only(DoubleDrop()), MainAt(b)).None? {
      NoWait(DoubleDrop(), b);
    }
    PlainAccepted(DoubleDrop(), 0);
  }

  lemma NoWait(blocks: seq<Block>, b: nat, sync: set<Place> := {})
    requires Plain(blocks) && b < |blocks|
    requires blocks[b].terminator.Call? ==> !blocks[b].terminator.callee.CondvarWait? && !blocks[b].terminator.callee.CondvarWaitWhile?
    ensures WaitAt(Only(blocks, sync), MainAt(b)).None?
  {
    hide EffectAt;
    if WaitAt(Only(blocks, sync), MainAt(b)).Some? {
      WaitShape(Only(blocks, sync), MainAt(b));
    }
  }

  lemma WaitShape(prog: Program, pt: Point)
    requires EffectAt(prog, pt.thread, pt.stack).Some? && WaitAt(prog, pt).Some?
    ensures pt.stack != [] && InRange(prog, pt.stack[|pt.stack| - 1])
    ensures var term := TerminatorAt(prog, pt.stack[|pt.stack| - 1]); term.Call? && (term.callee.CondvarWait? || term.callee.CondvarWaitWhile?)
  {
    hide TerminatorEffect, StatementsCells, CellsBefore;
    var site := pt.stack[|pt.stack| - 1];
    var fn := prog.functions[site.f];
    var before := CellsBefore(prog, pt.thread, pt.stack[..|pt.stack| - 1], site.f, site.b).value;
    var cells := StatementsCells(fn, before, fn.blocks[site.b].statements).value;
    TerminatorShape(fn, pt, cells, fn.blocks[site.b].terminator);
  }

  // ---------------------------------------------------------------------------------------------
  // A signal received while nobody waits

  /** Notifies first, then locks a mutex and waits. */
  function NotifyFirst(): seq<Block> {
    [CallTo(CondvarNew, [], 1, 1),
     CallTo(MutexNew, [], 2, 2),
     CallTo(CondvarNotifyOne, [Copy(Local(1))], 3, 3),
     CallTo(MutexLock, [Copy(Local(2))], 4, 4),
     CallTo(CondvarWait, [Copy(Local(1)), Move(Local(4))], 5, 5),
     Block0(Return)]
  }

  lemma NotifyFirstBegins()
    ensures var prog, c, m := Only(NotifyFirst()), MainAt(0), MainAt(1);
      && EffectAt(prog, MainThread, MainAt(0).stack).Some? && Actions(prog, MainAt(0)) == [Flow(ToBlock(1))]
      && EffectAt(prog, MainThread, MainAt(1).stack).Some? && Actions(prog, MainAt(1)) == [Flow(ToBlock(2))]
      && EffectAt(prog, MainThread, MainAt(2).stack).Some? && Actions(prog, MainAt(2)) == [NotifyOne(c, ToBlock(3))]
      && CellsBefore(prog, MainThread, [], 0, 3) == Some(map[Local(1) := Condvar(c), Local(2) := Mutex(m)])
  {
    hide EffectAt, CellsBefore, Actions, CallEffect;
    var blocks, c, m := NotifyFirst(), MainAt(0), MainAt(1);
    var fn := Only(blocks).functions[0];
    var one: Cells := map[Local(1) := Condvar(c)];
    var two := one[Local(2) := Mutex(m)];
    StartCells(blocks);
    CondvarNewIs(fn, c, map[], blocks[0].terminator);
    MutexNewIs(fn, m, one, blocks[1].terminator);
    NotifyOneIs(fn, MainAt(2), two, blocks[2].terminator);
    assert ShortCall(Ends(ToBlock(1), None)) == [Flow(ToBlock(1))] && ShortCall(Ends(ToBlock(2), None)) == [Flow(ToBlock(2))];
    EffectFrom(blocks, 0, map[], Effect([Flow(ToBlock(1))], one, None));
    EffectFrom(blocks, 1, one, Effect([Flow(ToBlock(2))], two, None));
    EffectFrom(blocks, 2, two, Effect([NotifyOne(c, ToBlock(3))], two, None));
  }

  lemma NotifyFirstEffects()
    ensures var prog, c, m := Only(NotifyFirst()), MainAt(0), MainAt(1);
      && Actions(prog, MainAt(0)) == [Flow(ToBlock(1))]
      && Actions(prog, MainAt(1)) == [Flow(ToBlock(2))]
      && Actions(prog, MainAt(2)) == [NotifyOne(c, ToBlock(3))]
      && Actions(prog, MainAt(3)) == [Acquire(m, ToBlock(4))]
      && Actions(prog, MainAt(4)) == [] && WaitAt(prog, MainAt(4)) == Some(Wait(c, m, ToBlock(5)))
      && Actions(prog, MainAt(5)) == [Flow(ToReturn)]
    ensures Plain(NotifyFirst()) && |NotifyFirst()| == 6 && AllDefined(NotifyFirst())
  {
    hide EffectAt, CellsBefore, Actions;
    NotifyFirstBegins();
    NotifyFirstEnds();
  }

  lemma NotifyFirstEnds()
    ensures var prog, c, m := Only(NotifyFirst()), MainAt(0), MainAt(1);
      && EffectAt(prog, MainThread, MainAt(3).stack).Some? && Actions(prog, MainAt(3)) == [Acquire(m, ToBlock(4))]
      && EffectAt(prog, MainThread, MainAt(4).stack).Some? && Actions(prog, MainAt(4)) == [] && WaitAt(prog, MainAt(4)) == Some(Wait(c, m, ToBlock(5)))
      && EffectAt(prog, MainThread, MainAt(5).stack).Some? && Actions(prog, MainAt(5)) == [Flow(ToReturn)]
  {
    hide EffectAt, CellsBefore, Actions, CallEffect;
    var blocks, c, m := NotifyFirst(), MainAt(0), MainAt(1);
    var fn := Only(blocks).functions[0];
    var two: Cells := map[Local(1) := Condvar(c), Local(2) := Mutex(m)];
    var three := two[Local(4) := MutexGuard(m)];
    var four := three[Local(5) := MutexGuard(m)];
    NotifyFirstBegins();
    LockIs(fn, MainAt(3), two, blocks[3].terminator);
    WaitIs(fn, MainAt(4), three, blocks[4].terminator);
    EffectFrom(blocks, 3, two, Effect([Acquire(m, ToBlock(4))], three, None));
    EffectFrom(blocks, 4, three, Effect([], four, Some(Wait(c, m, ToBlock(5)))));
    EffectFrom(blocks, 5, four, Effect([Flow(ToReturn)], four, None));
  }

  lemma NotifyFirstAccepted()
    ensures Translatable(Only(NotifyFirst()))
  {
    hide EffectAt;
    NotifyFirstEffects();
    assert FunctionOk(Only(NotifyFirst()), 0);
    forall b: nat | b < 6 && b != 4 ensures WaitAt(Only(NotifyFirst()), MainAt(b)).None? {
      NoWait(NotifyFirst(), b);
    }
    PlainAccepted(NotifyFirst(), 4);
  }

  lemma NotifyFirstEdges(net: ProgramNet, ctx: Context)
    requires IsNetOf(Only(NotifyFirst()), net, ctx)
    ensures var notify := Notify(MainAt(0));
      && TransRef(MainAt(0), 0) in net.transitions && net.transitions[TransRef(MainAt(0), 0)] == Arc(MainPlace(0), MainPlace(1), notify, 0)
      && TransRef(MainAt(1), 0) in net.transitions && net.transitions[TransRef(MainAt(1), 0)] == Arc(MainPlace(1), MainPlace(2), notify, 0)
      && TransRef(MainAt(2), 0) in net.transitions && net.transitions[TransRef(MainAt(2), 0)] == Arc(MainPlace(2), MainPlace(3), notify, 1)
  {
    hide IsNetOf, Actions, Plain, Only, NotifyFirst, WaitAt, Arc, EffectAt;
    NotifyFirstEffects();
    var notify := Notify(MainAt(0));
    ArcFrom(NotifyFirst(), net, ctx, 0, 0, 1, notify, 0);
    ArcFrom(NotifyFirst(), net, ctx, 1, 0, 2, notify, 0);
    ArcFrom(NotifyFirst(), net, ctx, 2, 0, 3, notify, 1);
  }

  lemma NotifyFirstReceives(net: ProgramNet, ctx: Context)
    requires IsNetOf(Only(NotifyFirst()), net, ctx)
    ensures var ref := CondvarRef(MainAt(0), NotifyReceived);
      && ref in net.transitions
      && net.transitions[ref] == Transition(multiset{Notify(MainAt(0))} + multiset{MutexPlace(MainAt(1))},
                                            multiset{WaitEnabled(MainAt(0))} + multiset{MainPlace(5)})
  {
    hide EffectAt, Actions, DestPlace, PlaceOf, WaitAt, EdgeOf, Tokens, IsPlaceOf, IsConditionPair, IsThread;
    var prog, c := Only(NotifyFirst()), MainAt(0);
    NotifyFirstEffects();
    MainPoints(NotifyFirst(), 0);
    MainPoints(NotifyFirst(), 4);
    assert ctx.waits[c] == WaitLink(MainAt(4), Wait(c, MainAt(1), ToBlock(5)));
    assert CondvarRef(c, NotifyReceived) in net.transitions;
    EdgeOfCondvar(prog, net, ctx, CondvarRef(c, NotifyReceived));
    ToBlockPlace(NotifyFirst(), 4, 5);
  }

  lemma ToBlockPlace(blocks: seq<Block>, b: nat, c: nat, sync: set<Place> := {})
    ensures DestPlace(Only(blocks, sync), MainAt(b), ToBlock(c)) == MainPlace(c)
  {
    assert MainAt(b).stack[..0] == [];
  }

  lemma NotifyFirstStart(net: ProgramNet, ctx: Context, m0: multiset<PlaceRef>)
    requires IsNetOf(Only(NotifyFirst()), net, ctx) && IsInitial(net, m0)
    ensures Reachable(net, m0) && m0[MainPlace(0)] == 1 && m0[MutexPlace(MainAt(1))] == 1 && m0[WaitEnabled(MainAt(0))] == 1
  {
    hide IsNetOf, Reachable, IsPoint;
    MainPoints(NotifyFirst(), 0);
    MainPoints(NotifyFirst(), 1);
    StartsAt(NotifyFirst(), net, ctx, m0);
  }

  /** wait_enabled <= 1 can fail: the signal is received before anybody waits. The main thread is then in two places at
      once: before the lock, and behind the wait. */
  lemma SpuriousSignal(net: ProgramNet, ctx: Context, m0: multiset<PlaceRef>) returns (m: multiset<PlaceRef>)
    requires IsNetOf(Only(NotifyFirst()), net, ctx) && IsInitial(net, m0)
    ensures Translatable(Only(NotifyFirst()))
    ensures Reachable(net, m) && m[WaitEnabled(MainAt(0))] == 2
    ensures MainPlace(3) in m && MainPlace(5) in m
  {
    hide IsNetOf, Reachable, Only, NotifyFirst, Arc, Translatable;
    NotifyFirstAccepted();
    var notify := Notify(MainAt(0));
    NotifyFirstStart(net, ctx, m0);
    NotifyFirstEdges(net, ctx);
    NotifyFirstReceives(net, ctx);
    m := TokenGoes(net, m0, TransRef(MainAt(0), 0), MainPlace(0), MainPlace(1), notify, 0);
    m := TokenGoes(net, m, TransRef(MainAt(1), 0), MainPlace(1), MainPlace(2), notify, 0);
    m := TokenGoes(net, m, TransRef(MainAt(2), 0), MainPlace(2), MainPlace(3), notify, 1);
    m := Receives(net, m, MainAt(0), MainAt(1), MainPlace(3), MainPlace(5));
  }

  lemma Receives(net: ProgramNet, m: multiset<PlaceRef>, c: Point, mutex: Point, here: PlaceRef, there: PlaceRef) returns (m': multiset<PlaceRef>)
    requires Reachable(net, m) && CondvarRef(c, NotifyReceived) in net.transitions
    requires net.transitions[CondvarRef(c, NotifyReceived)] == Transition(multiset{Notify(c)} + multiset{MutexPlace(mutex)},
                                                                          multiset{WaitEnabled(c)} + multiset{there})
    requires Notify(c) in m && MutexPlace(mutex) in m && here in m && here.Control? && there.Control?
    ensures Reachable(net, m') && m'[WaitEnabled(c)] == m[WaitEnabled(c)] + 1 && here in m' && there in m'
  {
    hide Reachable;
    m' := Fire(net, m, CondvarRef(c, NotifyReceived));
    ReachableStep(net, m, CondvarRef(c, NotifyReceived));
  }
}
