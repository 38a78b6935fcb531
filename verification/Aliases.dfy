/** Alias soundness: whatever the chain of assignments, references, aggregates and thread captures, every value the
    translator resolves at a point of the program stands for an object created at exactly one point of the program. */
module Aliases {
  import opened Wrappers
  import opened PetriNets
  import opened Mir
  import opened ControlPoints
  import opened AliasMemory
  import opened Blueprint
  import opened Worlds
  import opened Provenance
  import opened Frames
  import opened Progress
  import opened Points

  /** The objects a value refers to exist: a mutex and its guards were created by one `Mutex::new`, a condvar by one
      `Condvar::new`, and a join handle by one `thread::spawn`. */
  ghost predicate Sound(prog: Program, v: Value) {
    match v
    case Mutex(m) => IsPoint(prog, m) && CreatesMutex(prog, m)
    case MutexGuard(m) => IsPoint(prog, m) && CreatesMutex(prog, m)
    case Condvar(c) => IsPoint(prog, c) && CreatesCondvar(prog, c)
    case JoinHandle(t) => t.Spawned? && IsThread(prog, t)
    case Bundle(values) => forall i :: 0 <= i < |values| ==> Sound(prog, values[i])
  }

  ghost predicate SoundAction(prog: Program, a: Action) {
    match a
    case Acquire(m, _) => Sound(prog, Mutex(m))
    case Release(m, _) => Sound(prog, MutexGuard(m))
    case SetCondition(m, _) => Sound(prog, MutexGuard(m))
    case NotifyOne(c, _) => Sound(prog, Condvar(c))
    case JoinThread(t, _) => Sound(prog, JoinHandle(t))
    case SpawnThread(_, _, aggregate, _) => forall i :: 0 <= i < |aggregate| ==> Sound(prog, aggregate[i])
    case _ => true
  }

  /** All objects of a translated program, as a state in which the translation has nothing left to do. */
  ghost function Everything(net: ProgramNet, ctx: Context): World {
    World(net.places, net.transitions,
          map p | p in net.places && p.MutexPlace? :: p.id := [],
          map p | p in net.places && p.Notify? :: p.id := None,
          map[], [], multiset{}, ctx.prepared, {}, iset{})
  }

  lemma {:induction false} KnownIsSound(prog: Program, net: ProgramNet, ctx: Context, owner: ThreadName, v: Value)
    requires IsNetOf(prog, net, ctx)
    ensures Known(Everything(net, ctx), owner, 0, v) <==> Sound(prog, v)
    decreases v
  {
    hide IsPoint, IsThread, CreatesMutex, CreatesCondvar, EdgeOf, Tokens;
    var w := Everything(net, ctx);
    match v
    case Mutex(m) => assert m in w.mutexes <==> MutexPlace(m) in net.places;
    case MutexGuard(m) => assert m in w.mutexes <==> MutexPlace(m) in net.places;
    case Condvar(c) => assert c in w.condvars <==> Notify(c) in net.places;
    case JoinHandle(t) =>
    case Bundle(values) =>
      forall i | 0 <= i < |values| ensures Known(w, owner, 0, values[i]) <==> Sound(prog, values[i]) {
        KnownIsSound(prog, net, ctx, owner, values[i]);
      }
  }

  lemma KnownByAll(prog: Program, net: ProgramNet, ctx: Context, owner: ThreadName, other: ThreadName, cells: Cells)
    requires IsNetOf(prog, net, ctx) && KnownCells(Everything(net, ctx), owner, cells)
    ensures KnownCells(Everything(net, ctx), other, cells)
  {
    hide IsNetOf, Known;
    forall p | p in cells ensures Known(Everything(net, ctx), other, 0, cells[p]) {
      KnownIsSound(prog, net, ctx, owner, cells[p]);
      KnownIsSound(prog, net, ctx, other, cells[p]);
    }
  }

  lemma CreatedIsSound(prog: Program, pt: Point, e: Effect, v: Value)
    requires IsPoint(prog, pt) && EffectAt(prog, pt.thread, pt.stack) == Some(e) && InRange(prog, pt.stack[|pt.stack| - 1])
    requires Created(pt, TerminatorAt(prog, pt.stack[|pt.stack| - 1]), v)
    ensures Sound(prog, v)
  {
    EffectShape(prog, pt);
    hide EffectAt;
  }

  /** The memory a block is reached with, and everything its effect refers to. */
  lemma {:induction false} CellsSound(prog: Program, net: ProgramNet, ctx: Context, fr: Frame, b: nat)
    requires IsNetOf(prog, net, ctx) && IsPoint(prog, fr.At(b))
    requires CellsBefore(prog, fr.t, fr.callers, fr.f, b).Some?
    ensures KnownCells(Everything(net, ctx), fr.t, CellsBefore(prog, fr.t, fr.callers, fr.f, b).value)
    decreases fr.t, b, 0
  {
    hide IsNetOf, KnownCells, IsPoint, CellsBefore, EffectAt, KnownEffect, Actions;
    if b > 0 {
      EarlierIsPoint(prog, fr, b);
      CellsFrom(prog, fr, b);
      EffectSound(prog, net, ctx, fr, b - 1);
    } else if fr.callers == [] && fr.t.Spawned? {
      SpawnerIsPoint(prog, fr);
      var q := Point(fr.t.parent, fr.t.stack);
      var site := q.stack[|q.stack| - 1];
      var spawner := Frame(q.thread, q.stack[..|q.stack| - 1], site.f);
      assert spawner.At(site.b) == q;
      EffectSound(prog, net, ctx, spawner, site.b);
      CapturesSound(prog, net, ctx, fr);
    } else {
      StartsEmpty(prog, fr);
      EmptyIsKnown(Everything(net, ctx), fr.t);
    }
  }

  lemma CellsFrom(prog: Program, fr: Frame, b: nat)
    requires b > 0 && CellsBefore(prog, fr.t, fr.callers, fr.f, b).Some?
    ensures EffectAt(prog, fr.t, fr.At(b - 1).stack).Some?
    ensures CellsBefore(prog, fr.t, fr.callers, fr.f, b).value == EffectAt(prog, fr.t, fr.At(b - 1).stack).value.cells
  {
    hide EffectAt;
  }

  lemma StartsEmpty(prog: Program, fr: Frame)
    requires fr.callers != [] || fr.t.MainThread?
    ensures CellsBefore(prog, fr.t, fr.callers, fr.f, 0) == Some(map[])
  {
    hide EffectAt;
  }

  lemma EmptyIsKnown(w: World, owner: ThreadName)
    ensures KnownCells(w, owner, map[])
  {
  }

  lemma EarlierIsPoint(prog: Program, fr: Frame, b: nat)
    requires IsPoint(prog, fr.At(b)) && b > 0
    ensures IsPoint(prog, fr.At(b - 1))
  {
    hide IsThread, Root, Chain;
    LastSite(prog, fr.At(b));
    SameCallers(prog, fr.callers, fr.f, b, b - 1);
    assert fr.At(b - 1).stack[0].f == fr.At(b).stack[0].f;
  }

  lemma SpawnerIsPoint(prog: Program, fr: Frame)
    requires IsPoint(prog, fr.At(0)) && fr.callers == [] && fr.t.Spawned?
    ensures IsPoint(prog, Point(fr.t.parent, fr.t.stack)) && fr.t.stack != []
    ensures EffectAt(prog, fr.t.parent, fr.t.stack).Some?
  {
    hide EffectAt;
  }

  lemma CapturesSound(prog: Program, net: ProgramNet, ctx: Context, fr: Frame)
    requires IsNetOf(prog, net, ctx) && fr.callers == [] && fr.t.Spawned?
    requires EffectAt(prog, fr.t.parent, fr.t.stack).Some? && KnownEffect(Everything(net, ctx), fr.t.parent, EffectAt(prog, fr.t.parent, fr.t.stack).value)
    requires CellsBefore(prog, fr.t, [], fr.f, 0).Some?
    ensures KnownCells(Everything(net, ctx), fr.t, CellsBefore(prog, fr.t, [], fr.f, 0).value)
  {
    hide IsNetOf, EffectAt, CapturesLinked;
    var w := Everything(net, ctx);
    var actions := EffectAt(prog, fr.t.parent, fr.t.stack).value.actions;
    var aggregate := actions[0].aggregate;
    assert KnownAction(w, fr.t.parent, actions[0]);
    var closure: Cells := map[CLOSURE := Bundle(aggregate)];
    assert Known(w, fr.t.parent, 0, Bundle(aggregate));
    KnownByAll(prog, net, ctx, fr.t.parent, fr.t, closure);
    KnownCaptures(w, fr.t, closure, prog.functions[fr.f].debugPlaces);
  }

  lemma {:induction false} EffectSound(prog: Program, net: ProgramNet, ctx: Context, fr: Frame, b: nat)
    requires IsNetOf(prog, net, ctx) && IsPoint(prog, fr.At(b))
    requires EffectAt(prog, fr.t, fr.At(b).stack).Some?
    ensures KnownEffect(Everything(net, ctx), fr.t, EffectAt(prog, fr.t, fr.At(b).stack).value)
    ensures KnownCells(Everything(net, ctx), fr.t, EffectAt(prog, fr.t, fr.At(b).stack).value.cells)
    decreases fr.t, b, 1
  {
    hide IsNetOf, KnownEffect, IsPoint, CellsBefore, TerminatorEffect, StatementsCells, KnownAfter, Sound, Known;
    LastSite(prog, fr.At(b));
    assert fr.At(b).stack[..|fr.callers|] == fr.callers;
    var fn := prog.functions[fr.f];
    CellsSound(prog, net, ctx, fr, b);
    var before := CellsBefore(prog, fr.t, fr.callers, fr.f, b).value;
    KnownStatements(Everything(net, ctx), fr.t, fn, before, fn.blocks[b].statements);
    var cells := StatementsCells(fn, before, fn.blocks[b].statements).value;
    KnownTerminator(Everything(net, ctx), fn, fr.At(b), cells, fn.blocks[b].terminator);
    AfterIsSound(prog, net, ctx, fr.At(b));
  }

  lemma AfterIsSound(prog: Program, net: ProgramNet, ctx: Context, pt: Point)
    requires IsNetOf(prog, net, ctx) && IsPoint(prog, pt) && EffectAt(prog, pt.thread, pt.stack).Some?
    requires pt.stack != [] && InRange(prog, pt.stack[|pt.stack| - 1])
    requires KnownAfter(Everything(net, ctx), pt, TerminatorAt(prog, pt.stack[|pt.stack| - 1]), EffectAt(prog, pt.thread, pt.stack).value.cells)
    ensures KnownCells(Everything(net, ctx), pt.thread, EffectAt(prog, pt.thread, pt.stack).value.cells)
  {
    hide IsNetOf, EffectAt, IsPoint, Sound, Known, Created;
    var e := EffectAt(prog, pt.thread, pt.stack).value;
    forall p | p in e.cells ensures Known(Everything(net, ctx), pt.thread, 0, e.cells[p]) {
      if Created(pt, TerminatorAt(prog, pt.stack[|pt.stack| - 1]), e.cells[p]) {
        CreatedIsSound(prog, pt, e, e.cells[p]);
        KnownIsSound(prog, net, ctx, pt.thread, e.cells[p]);
      }
    }
  }

  /** At every point of a translated program, every value in memory and every object an action refers to is sound. */
  lemma AliasSoundness(prog: Program, net: ProgramNet, ctx: Context, pt: Point)
    requires IsNetOf(prog, net, ctx) && IsPoint(prog, pt) && EffectAt(prog, pt.thread, pt.stack).Some?
    ensures var e := EffectAt(prog, pt.thread, pt.stack).value;
      && (forall p :: p in e.cells ==> Sound(prog, e.cells[p]))
      && (forall i :: 0 <= i < |e.actions| ==> SoundAction(prog, e.actions[i]))
      && (e.wait.Some? ==> Sound(prog, Condvar(e.wait.value.condvar)) && Sound(prog, Mutex(e.wait.value.mutex)))
  {
    hide IsNetOf, EffectAt, IsPoint, IsThread, CreatesMutex, CreatesCondvar;
    LastSite(prog, pt);
    var site := pt.stack[|pt.stack| - 1];
    var fr := Frame(pt.thread, pt.stack[..|pt.stack| - 1], site.f);
    assert fr.At(site.b) == pt;
    EffectSound(prog, net, ctx, fr, site.b);
    var e := EffectAt(prog, pt.thread, pt.stack).value;
    forall p | p in e.cells ensures Sound(prog, e.cells[p]) {
      KnownIsSound(prog, net, ctx, pt.thread, e.cells[p]);
    }
    forall i | 0 <= i < |e.actions| ensures SoundAction(prog, e.actions[i]) {
      ActionIsSound(prog, net, ctx, pt.thread, e.actions[i]);
    }
    if e.wait.Some? {
      KnownIsSound(prog, net, ctx, pt.thread, Condvar(e.wait.value.condvar));
      KnownIsSound(prog, net, ctx, pt.thread, Mutex(e.wait.value.mutex));
    }
  }

  lemma ActionIsSound(prog: Program, net: ProgramNet, ctx: Context, owner: ThreadName, a: Action)
    requires IsNetOf(prog, net, ctx) && KnownAction(Everything(net, ctx), owner, a)
    ensures SoundAction(prog, a)
  {
    hide IsNetOf, Sound;
    match a
    case Acquire(m, _) => KnownIsSound(prog, net, ctx, owner, Mutex(m));
    case Release(m, _) => KnownIsSound(prog, net, ctx, owner, MutexGuard(m));
    case SetCondition(m, _) => KnownIsSound(prog, net, ctx, owner, MutexGuard(m));
    case NotifyOne(c, _) => KnownIsSound(prog, net, ctx, owner, Condvar(c));
    case JoinThread(t, _) => KnownIsSound(prog, net, ctx, owner, JoinHandle(t));
    case SpawnThread(_, _, aggregate, _) =>
      forall i | 0 <= i < |aggregate| ensures Sound(prog, aggregate[i]) {
        KnownIsSound(prog, net, ctx, owner, aggregate[i]);
      }
    case _ =>
  }
}
