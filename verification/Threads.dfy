/** Preparing a queued thread for translation: its start and end place, the arc from its spawn and the arc to
    its join if there is one already; and when all threads are translated. */
module ThreadQueue {
  import opened Wrappers
  import opened PetriNets
  import opened Mir
  import opened ControlPoints
  import opened AliasMemory
  import opened Blueprint
  import opened Worlds
  import opened Provenance
  import opened Frames
  import opened Progress

  ghost predicate CanPrepare(w: World) {
    && w.threads != []
    && w.threads[0].spawn in w.transitions
    && (w.threads[0].name in w.joins ==> w.joins[w.threads[0].name] in w.transitions && w.joins[w.threads[0].name] != w.threads[0].spawn)
  }

  function StartOf(th: Thread): PlaceRef {
    Control(th.name, [Site(th.f, 0)])
  }

  function PreparedTransitions(transitions: map<TransRef, Edge>, joins: map<ThreadName, TransRef>, th: Thread): map<TransRef, Edge>
    requires th.spawn in transitions && (th.name in joins ==> joins[th.name] in transitions)
  {
    var spawn := transitions[th.spawn];
    var spawned := transitions[th.spawn := Transition(spawn.pre, spawn.post + multiset{StartOf(th)})];
    if th.name !in joins then spawned
    else
      var join := spawned[joins[th.name]];
      spawned[joins[th.name] := Transition(join.pre + multiset{ThreadEnd(th.name)}, join.post)]
  }

  ghost function Prepared(w: World): World
    requires CanPrepare(w)
  {
    var th := w.threads[0];
    w.(threads := w.threads[1..], prepared := w.prepared + {th.name},
       places := w.places[StartOf(th) := 0][ThreadEnd(th.name) := 0],
       transitions := PreparedTransitions(w.transitions, w.joins, th))
  }

  lemma QueueHead(prog: Program, w: World, current: ThreadName)
    requires Inv(prog, w, current) && w.threads != []
    ensures CanPrepare(w) && ThreadOk(prog, w, w.threads[0]) && w.threads[0].name !in w.prepared
    ensures w.threads[0].name in w.joins ==>
      && w.joins[w.threads[0].name].TransRef? && w.joins[w.threads[0].name].pt.thread == w.threads[0].name.parent
      && JoinsAt(prog, w.joins[w.threads[0].name].pt, w.threads[0].name)
  {
    hide EffectAt, InvEdges, InvMutexes, InvCondvars, InvPlaces, InvTasks, InvHomes, InvCaptures;
  }

  /** Preparing a thread changes the edges of its spawn and of its join by the parent, and no others. */
  lemma EdgePrepared(prog: Program, ctx: Context, name: ThreadName, pt: Point, a: Action)
    requires pt.stack != [] && name.Spawned? && name !in ctx.prepared
    requires a.JoinThread? && a.thread == name ==> name.parent == pt.thread
    ensures var edge := EdgeOfAction(prog, ctx, pt, a);
      EdgeOfAction(prog, ctx.(prepared := ctx.prepared + {name}), pt, a) ==
        if a.SpawnThread? && a.thread == name then Transition(edge.pre, edge.post + multiset{Control(name, [Site(a.f, 0)])})
        else if a.JoinThread? && a.thread == name then Transition(edge.pre + multiset{ThreadEnd(name)}, edge.post)
        else edge
  {
    match a
    case SetCondition(m, _) =>
      hide PlaceOf, DestPlace, NotSetOfMutex, SetOfMutex;
      SameConditions(ctx, ctx.(prepared := ctx.prepared + {name}), m);
    case SpawnThread(t, f, _, d) =>
      hide EdgeOfAction;
      SpawnPrepared(prog, ctx, name, pt, a);
    case JoinThread(t, _) =>
      hide EdgeOfAction;
      JoinPrepared(prog, ctx, name, pt, a);
    case _ =>
      hide PlaceOf, DestPlace;
  }

  lemma SpawnPrepared(prog: Program, ctx: Context, name: ThreadName, pt: Point, a: Action)
    requires pt.stack != [] && name.Spawned? && name !in ctx.prepared && a.SpawnThread?
    ensures var edge := EdgeOfAction(prog, ctx, pt, a);
      EdgeOfAction(prog, ctx.(prepared := ctx.prepared + {name}), pt, a) ==
        if a.thread == name then Transition(edge.pre, edge.post + multiset{Control(name, [Site(a.f, 0)])}) else edge
  {
    hide PlaceOf, DestPlace;
    assert multiset{DestPlace(prog, pt, a.dest)} + multiset{} == multiset{DestPlace(prog, pt, a.dest)};
  }

  lemma JoinPrepared(prog: Program, ctx: Context, name: ThreadName, pt: Point, a: Action)
    requires pt.stack != [] && name.Spawned? && name !in ctx.prepared && a.JoinThread? && (a.thread == name ==> name.parent == pt.thread)
    ensures var edge := EdgeOfAction(prog, ctx, pt, a);
      EdgeOfAction(prog, ctx.(prepared := ctx.prepared + {name}), pt, a) ==
        if a.thread == name then Transition(edge.pre + multiset{ThreadEnd(name)}, edge.post) else edge
  {
    hide PlaceOf, DestPlace;
    assert multiset{PlaceOf(pt.thread, pt.stack)} + multiset{} == multiset{PlaceOf(pt.thread, pt.stack)};
  }

  lemma SameConditions(ctx: Context, ctx': Context, m: Point)
    requires ctx.conditions == ctx'.conditions
    ensures NotSetOfMutex(ctx, m) == NotSetOfMutex(ctx', m) && SetOfMutex(ctx, m) == SetOfMutex(ctx', m)
  {
  }

  /** Which action is the spawn of the next thread, and which is its join. */
  lemma SpawnOrJoin(prog: Program, w: World, q: Point, i: nat)
    requires CanPrepare(w) && ThreadOk(prog, w, w.threads[0]) && w.threads[0].name !in w.prepared
    requires InvJoins(prog, w) && InvPoints(prog, w) && q in w.visited && i < |Actions(prog, q)|
    ensures var a, th := Actions(prog, q)[i], w.threads[0];
      && (TransRef(q, i) == th.spawn <==> a.SpawnThread? && a.thread == th.name)
      && (TransRef(q, i) == th.spawn ==> a.f == th.f)
      && (th.name in w.joins && TransRef(q, i) == w.joins[th.name] <==> a.JoinThread? && a.thread == th.name)
      && (a.JoinThread? && a.thread == th.name ==> th.name.parent == q.thread)
  {
    hide EffectAt, Actions, WaitAt;
    EffectShape(prog, q);
  }

  lemma PreparedEdge(prog: Program, w: World, q: Point, i: nat)
    requires CanPrepare(w) && ThreadOk(prog, w, w.threads[0]) && w.threads[0].name !in w.prepared
    requires InvJoins(prog, w) && InvPoints(prog, w) && q in w.visited && i < |Actions(prog, q)| && TransRef(q, i) in w.transitions
    requires w.transitions[TransRef(q, i)] == EdgeOfAction(prog, Ctx(w), q, Actions(prog, q)[i])
    ensures Prepared(w).transitions[TransRef(q, i)] == EdgeOfAction(prog, Ctx(Prepared(w)), q, Actions(prog, q)[i])
  {
    hide EdgeOfAction, EffectAt, Actions, InvJoins;
    SpawnOrJoin(prog, w, q, i);
    EdgePrepared(prog, Ctx(w), w.threads[0].name, q, Actions(prog, q)[i]);
  }

  lemma PreparedEdges(prog: Program, w: World)
    requires CanPrepare(w) && ThreadOk(prog, w, w.threads[0]) && w.threads[0].name !in w.prepared
    requires InvJoins(prog, w) && InvPoints(prog, w) && InvKeys(prog, w) && InvEdges(prog, w)
    ensures InvKeys(prog, Prepared(w)) && InvEdges(prog, Prepared(w))
  {
    hide EdgeOfAction, EffectAt, Actions, WaitAt, CondvarEdge, SkipEdge, Sets, JoinsAt, ThreadOk, InvJoins;
    var w' := Prepared(w);
    assert w.threads[0].spawn.TransRef? && (w.threads[0].name in w.joins ==> w.joins[w.threads[0].name].TransRef?) by {
      SpawnAndJoin(prog, w);
    }
    assert w'.transitions.Keys == w.transitions.Keys;
    forall ref | ref in w'.transitions ensures w'.transitions[ref] == EdgeOf(prog, Ctx(w'), ref) {
      match ref
      case TransRef(q, i) => PreparedEdge(prog, w, q, i);
      case CondvarRef(c, role) => SameCondvarEdge(prog, Ctx(w), Ctx(w'), c, role);
      case SkipRef(_, _) =>
    }
  }

  lemma SpawnAndJoin(prog: Program, w: World)
    requires CanPrepare(w) && ThreadOk(prog, w, w.threads[0]) && InvJoins(prog, w)
    ensures w.threads[0].spawn.TransRef? && (w.threads[0].name in w.joins ==> w.joins[w.threads[0].name].TransRef?)
  {
    hide EffectAt;
  }

  lemma PreparedPlaces(prog: Program, w: World)
    requires CanPrepare(w) && ThreadOk(prog, w, w.threads[0]) && InvPlaces(prog, w) && InvHomes(w) && InvCondvars(prog, w)
    ensures InvPlaces(prog, Prepared(w)) && InvHomes(Prepared(w)) && InvCondvars(prog, Prepared(w))
  {
    hide EffectAt, SpawnsThread, Actions, WaitAt, DestPlace, PlaceOf, CreatesCondvar;
  }

  /** A thread that waits in the queue has not spawned anything. */
  lemma NotAParent(prog: Program, w: World, current: ThreadName, t: ThreadName)
    requires InvThreads(prog, w, current) && Real(prog, w) && t in w.prepared
    requires w.threads != [] && w.threads[0].name.Spawned? && w.threads[0].name !in w.prepared
    ensures t.Spawned? && t.parent != w.threads[0].name
  {
    hide IsPoint, SpawnsThread, Home, ThreadOk;
    assert Point(t.parent, t.stack) in w.visited;
  }

  lemma PreparedThreads(prog: Program, w: World, current: ThreadName)
    requires CanPrepare(w) && InvThreads(prog, w, current) && Real(prog, w)
    ensures InvThreads(prog, Prepared(w), w.threads[0].name)
  {
    hide Real, SpawnsThread, PreparedTransitions, Actions;
    var w', th := Prepared(w), w.threads[0];
    assert ThreadOk(prog, w, th);
    forall i | 0 <= i < |w'.threads| ensures ThreadOk(prog, w', w'.threads[i]) && w'.threads[i].name !in w'.prepared {
      assert w'.threads[i] == w.threads[i + 1];
    }
    forall q: Point | q in w'.visited && SpawnsThread(prog, q)
      ensures Spawned(q.thread, q.stack) in w'.prepared || Queued(w', Spawned(q.thread, q.stack), |w'.threads|)
    {
      if Spawned(q.thread, q.stack) !in w.prepared {
        ShiftedQueue(w, Spawned(q.thread, q.stack), |w.threads|);
      }
    }
    forall t: ThreadName | t in w.prepared ensures t.Spawned? && t.parent != th.name {
      NotAParent(prog, w, current, t);
    }
  }

  lemma ShiftedQueue(w: World, t: ThreadName, upTo: nat)
    requires CanPrepare(w) && Queued(w, t, upTo)
    ensures t in Prepared(w).prepared || (upTo > 0 && Queued(Prepared(w), t, upTo - 1))
  {
    hide PreparedTransitions;
    var i :| 0 <= i < upTo && i < |w.threads| && w.threads[i].name == t;
    if i > 0 {
      assert Prepared(w).threads[i - 1] == w.threads[i];
    }
  }

  lemma {:induction false} ShiftedKnown(w: World, owner: ThreadName, upTo: nat, v: Value)
    requires CanPrepare(w) && Known(w, owner, upTo, v)
    ensures Known(Prepared(w), owner, if upTo == 0 then 0 else upTo - 1, v)
    decreases v
  {
    hide PreparedTransitions;
    match v
    case JoinHandle(t) =>
      if t !in w.prepared {
        ShiftedQueue(w, t, upTo);
      }
    case Bundle(values) =>
      forall i | 0 <= i < |values| ensures Known(Prepared(w), owner, if upTo == 0 then 0 else upTo - 1, values[i]) {
        ShiftedKnown(w, owner, upTo, values[i]);
      }
    case _ =>
  }

  lemma PreparedCaptures(w: World)
    requires CanPrepare(w) && InvCaptures(w)
    ensures InvCaptures(Prepared(w))
  {
    hide PreparedTransitions;
    var w' := Prepared(w);
    forall i, j | 0 <= i < |w'.threads| && 0 <= j < |w'.threads[i].aggregate|
      ensures w'.threads[i].name.Spawned? && Known(w', w'.threads[i].name.parent, i, w'.threads[i].aggregate[j])
    {
      assert w'.threads[i] == w.threads[i + 1];
      assert KnownValues(w, w.threads[i + 1].name.parent, i + 1, w.threads[i + 1].aggregate);
      ShiftedKnown(w, w.threads[i + 1].name.parent, i + 1, w'.threads[i].aggregate[j]);
    }
    assert forall i :: 0 <= i < |w'.threads| ==> w'.threads[i] == w.threads[i + 1];
  }

  /** Preparing the next thread keeps the invariant, with that thread as the one being translated. */
  lemma PreparedInv(prog: Program, w: World, current: ThreadName)
    requires Inv(prog, w, current) && Real(prog, w) && w.threads != []
    ensures CanPrepare(w) && Inv(prog, Prepared(w), w.threads[0].name)
  {
    hide EffectAt, InvKeys, InvEdges, InvCondvars, InvThreads, InvCaptures, InvPlaces, InvHomes, Real, PreparedTransitions, Sets, JoinsAt,
      ThreadOk, CreatesMutex;
    QueueHead(prog, w, current);
    PreparedEdges(prog, w);
    PreparedPlaces(prog, w);
    PreparedThreads(prog, w, current);
    PreparedCaptures(w);
  }

  // ---------------------------------------------------------------------------------------------
  // The frame of a thread

  function FrameOf(th: Thread): Frame {
    Frame(th.name, [], th.f)
  }

  lemma ThreadIsThread(prog: Program, w: World, th: Thread)
    requires WellFormed(prog) && ThreadOk(prog, w, th) && Real(prog, w) && InvPoints(prog, w)
    ensures IsThread(prog, th.name) && Root(prog, th.name) == th.f && InRange(prog, Site(th.f, 0))
    ensures IsPoint(prog, FrameOf(th).At(0))
    ensures CellsBefore(prog, th.name, [], th.f, 0) == ThreadCells(prog.functions[th.f], th.aggregate)
  {
    var q := Point(th.name.parent, th.name.stack);
    EffectShape(prog, q);
    hide EffectAt;
    assert IsPoint(prog, q);
    var site := q.stack[|q.stack| - 1];
    CalleeSmaller(prog, site.f, site.b);
    assert FunctionOk(prog, th.f);
    assert FrameOf(th).At(0).stack == [Site(th.f, 0)];
  }

  lemma PreparedReal(prog: Program, w: World)
    requires CanPrepare(w) && Real(prog, w) && IsPoint(prog, FrameOf(w.threads[0]).At(0))
    ensures Real(prog, Prepared(w))
  {
    hide IsPoint, PreparedTransitions;
    assert FrameOf(w.threads[0]).At(0).stack == [Site(w.threads[0].f, 0)];
  }

  lemma PreparedVacant(prog: Program, w: World)
    requires CanPrepare(w) && Real(prog, w) && w.threads[0].name.Spawned? && w.threads[0].name !in w.prepared
    ensures Vacant(prog, Prepared(w).places, FrameOf(w.threads[0]))
    ensures forall pt :: pt in FrameOf(w.threads[0]).From(prog, 0) ==> pt !in w.visited
  {
    hide IsPoint, PreparedTransitions, Home, Chain;
    assert FrameOf(w.threads[0]).At(0).stack == [Site(w.threads[0].f, 0)];
  }

  /** The captured values are known to the new thread as well. */
  lemma {:induction false} KnownToThread(w: World, v: Value)
    requires CanPrepare(w) && w.threads[0].name.Spawned? && Known(w, w.threads[0].name.parent, 0, v)
    ensures Known(Prepared(w), w.threads[0].name, |Prepared(w).threads|, v)
    decreases v
  {
    hide PreparedTransitions;
    if v.Bundle? {
      forall i | 0 <= i < |v.values| ensures Known(Prepared(w), w.threads[0].name, |Prepared(w).threads|, v.values[i]) {
        KnownToThread(w, v.values[i]);
      }
    }
  }

  lemma ThreadKnows(w: World, fn: Function)
    requires CanPrepare(w) && InvCaptures(w) && ThreadCells(fn, w.threads[0].aggregate).Some?
    ensures KnownCells(Prepared(w), w.threads[0].name, ThreadCells(fn, w.threads[0].aggregate).value)
  {
    hide PreparedTransitions, CapturesLinked;
    var th := w.threads[0];
    assert KnownValues(w, th.name.parent, 0, th.aggregate);
    KnownToThread(w, Bundle(th.aggregate));
    KnownCaptures(Prepared(w), th.name, map[CLOSURE := Bundle(th.aggregate)], fn.debugPlaces);
  }

  lemma ThreadOpen(prog: Program, w: World, current: ThreadName)
    requires WellFormed(prog) && Inv(prog, w, current) && Real(prog, w) && w.threads != []
    requires w.threads[0].f < |prog.functions| ==> ThreadCells(prog.functions[w.threads[0].f], w.threads[0].aggregate).Some?
    ensures CanPrepare(w) && w.threads[0].f < |prog.functions|
    ensures Open(prog, Prepared(w), FrameOf(w.threads[0]), 0, ThreadCells(prog.functions[w.threads[0].f], w.threads[0].aggregate).value)
    ensures Vacant(prog, Prepared(w).places, FrameOf(w.threads[0]))
    ensures IsThread(prog, w.threads[0].name) && Root(prog, w.threads[0].name) == w.threads[0].f
  {
    hide EffectAt, InvKeys, InvEdges, InvMutexes, InvCondvars, InvJoins, InvPlaces, InvHomes, InvTasks, Real, PreparedTransitions, ThreadCells, IsPoint,
      Vacant, CellsBefore, KnownCells, IsThread, Root, FramePoints, Shallow;
    var th := w.threads[0];
    QueueHead(prog, w, current);
    PreparedInv(prog, w, current);
    ThreadIsThread(prog, w, th);
    PreparedReal(prog, w);
    PreparedVacant(prog, w);
    ThreadKnows(w, prog.functions[th.f]);
    VacantIsShallow(prog, Prepared(w).places, FrameOf(th));
  }

  lemma ThreadStuck(prog: Program, w: World, current: ThreadName)
    requires WellFormed(prog) && Inv(prog, w, current) && Real(prog, w) && w.threads != []
    ensures w.threads[0].f < |prog.functions|
    ensures ThreadCells(prog.functions[w.threads[0].f], w.threads[0].aggregate).None? ==> Faulty(prog, AllPoints(prog))
  {
    hide EffectAt, InvKeys, InvEdges, InvMutexes, InvCondvars, InvJoins, InvPlaces, InvHomes, InvTasks, Real, ThreadCells, IsPoint, CellsBefore;
    var th := w.threads[0];
    QueueHead(prog, w, current);
    ThreadIsThread(prog, w, th);
    if ThreadCells(prog.functions[th.f], th.aggregate).None? {
      NoCells(prog, FrameOf(th));
      assert FrameOf(th).At(0) in AllPoints(prog) && Stuck(prog, FrameOf(th).At(0));
    }
  }

  lemma NoCells(prog: Program, fr: Frame)
    requires CellsBefore(prog, fr.t, fr.callers, fr.f, 0).None?
    ensures EffectAt(prog, fr.t, fr.At(0).stack).None?
  {
    hide CellsBefore;
    assert fr.At(0).stack[..|fr.callers|] == fr.callers;
  }

  // ---------------------------------------------------------------------------------------------
  // All threads

  /** Every thread that was begun was translated completely. */
  ghost predicate AllDone(prog: Program, w: World) {
    forall t: ThreadName, pt: Point :: Begun(w, t) && InFrame(prog, pt, t, [], Root(prog, t), 0) ==> pt in w.visited
  }

  lemma {:induction false} AllBegun(prog: Program, w: World, current: ThreadName, t: ThreadName)
    requires InvThreads(prog, w, current) && AllDone(prog, w) && w.threads == [] && IsThread(prog, t)
    ensures Begun(w, t)
    decreases t
  {
    hide InFrame, Actions;
    if t.Spawned? {
      AllBegun(prog, w, current, t.parent);
      var q := Point(t.parent, t.stack);
      assert q in w.visited && SpawnsThread(prog, q);
      assert !Queued(w, t, |w.threads|);
    }
  }

  /** With the queue empty, the visited points are the points of the program. */
  lemma AllVisited(prog: Program, w: World, current: ThreadName)
    requires InvThreads(prog, w, current) && Real(prog, w) && AllDone(prog, w) && w.threads == []
    ensures w.visited == AllPoints(prog)
  {
    hide InFrame, InvThreads, Home;
    forall pt | IsPoint(prog, pt) ensures pt in w.visited {
      AllBegun(prog, w, current, pt.thread);
    }
  }

  lemma InAllPoints(prog: Program, w: World, fr: Frame)
    requires Real(prog, w) && IsThread(prog, fr.t) && fr.callers == [] && Root(prog, fr.t) == fr.f
    ensures w.visited + fr.From(prog, 0) <= AllPoints(prog)
  {
    hide Home, IsThread, Root, Chain;
  }

  lemma NextDone(prog: Program, w: World, w': World)
    requires CanPrepare(w) && AllDone(prog, w) && Root(prog, w.threads[0].name) == w.threads[0].f
    requires Extends(Prepared(w), w', FrameOf(w.threads[0]).From(prog, 0))
    requires w'.visited == Prepared(w).visited + FrameOf(w.threads[0]).From(prog, 0)
    ensures AllDone(prog, w')
  {
    hide InFrame, PreparedTransitions, Root;
    forall t: ThreadName, pt: Point | Begun(w', t) && InFrame(prog, pt, t, [], Root(prog, t), 0) ensures pt in w'.visited {
      if t == w.threads[0].name {
        assert pt in FrameOf(w.threads[0]).From(prog, 0);
      }
    }
  }

  /** A program translated completely has no conflicts and no point where the translator panics. */
  lemma NotFaulty(prog: Program, w: World, current: ThreadName)
    requires Inv(prog, w, current)
    ensures !Faulty(prog, w.visited)
  {
    hide EffectAt, InvKeys, InvEdges, InvMutexes, InvThreads, InvPlaces, InvHomes, InvTasks, InvCaptures, JoinsAt, PlaceOf, DestPlace;
  }

  lemma NewPlaces(prog: Program, w: World, current: ThreadName)
    requires Inv(prog, w, current) && Real(prog, w) && w.threads != []
    ensures w.threads[0].name.Spawned?
    ensures CanPrepare(w) && StartOf(w.threads[0]) !in w.places && ThreadEnd(w.threads[0].name) !in w.places
  {
    hide EffectAt, InvKeys, InvEdges, InvMutexes, InvCondvars, InvJoins, InvHomes, InvTasks, InvCaptures, IsPoint;
    QueueHead(prog, w, current);
  }
}
