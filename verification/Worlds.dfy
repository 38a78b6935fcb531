/** The state of the translation as a value: the net, the shared objects, the queues, and which points have
    been visited. `Inv` relates all of it to the blueprint of the visited points. */
module Worlds {
  import opened Wrappers
  import opened PetriNets
  import opened Mir
  import opened ControlPoints
  import opened AliasMemory
  import opened Blueprint

  /** A thread waiting to be translated. */
  datatype Thread = Thread(name: ThreadName, spawn: TransRef, f: nat, aggregate: seq<Value>)

  datatype Task =
    | LinkMutexToCondvar(at: Point, startPlace: PlaceRef, endPlace: PlaceRef, waitStart: TransRef)
    | NewMutexTask(mutex: Point)

  function Priority(task: Task): nat {
    if task.LinkMutexToCondvar? then 1 else 2
  }

  datatype World = World(
    places: map<PlaceRef, nat>,
    transitions: map<TransRef, Edge>,
    mutexes: map<Point, seq<TransRef>>,
    condvars: map<Point, Option<WaitLink>>,
    joins: map<ThreadName, TransRef>,
    threads: seq<Thread>,
    tasks: multiset<Task>,
    prepared: set<ThreadName>,
    conditions: set<(Point, Point)>,
    visited: iset<Point>)

  function LinkedWaits(condvars: map<Point, Option<WaitLink>>): map<Point, WaitLink> {
    map c | c in condvars && condvars[c].Some? :: condvars[c].value
  }

  function Ctx(w: World): Context {
    Context(w.prepared, LinkedWaits(w.condvars), w.conditions)
  }

  // ---------------------------------------------------------------------------------------------
  // Visiting a point

  function NextCondvars(prog: Program, condvars: map<Point, Option<WaitLink>>, pt: Point, e: Effect): map<Point, Option<WaitLink>> {
    if e.wait.Some? then condvars[e.wait.value.condvar := Some(WaitLink(pt, e.wait.value))]
    else if CreatesCondvar(prog, pt) then condvars[pt := None]
    else condvars
  }

  function NextMutexes(prog: Program, mutexes: map<Point, seq<TransRef>>, pt: Point, e: Effect): map<Point, seq<TransRef>> {
    if CreatesMutex(prog, pt) then mutexes[pt := []]
    else if e.actions != [] && e.actions[0].SetCondition? && e.actions[0].mutex in mutexes
    then mutexes[e.actions[0].mutex := mutexes[e.actions[0].mutex] + [TransRef(pt, 0)]]
    else mutexes
  }

  function NextJoins(joins: map<ThreadName, TransRef>, pt: Point, e: Effect): map<ThreadName, TransRef> {
    if e.actions != [] && e.actions[0].JoinThread? then joins[e.actions[0].thread := TransRef(pt, 0)] else joins
  }

  function NextThreads(threads: seq<Thread>, pt: Point, e: Effect): seq<Thread> {
    if e.actions != [] && e.actions[0].SpawnThread?
    then threads + [Thread(e.actions[0].thread, TransRef(pt, 0), e.actions[0].f, e.actions[0].aggregate)]
    else threads
  }

  function TaskOf(prog: Program, pt: Point, wait: Wait): Task
    requires pt.stack != []
  {
    LinkMutexToCondvar(pt, PlaceOf(pt.thread, pt.stack), DestPlace(prog, pt, wait.dest), CondvarRef(wait.condvar, WaitStart))
  }

  function NextTasks(prog: Program, tasks: multiset<Task>, pt: Point, e: Effect): multiset<Task>
    requires pt.stack != []
  {
    if e.wait.Some? then tasks + multiset{TaskOf(prog, pt, e.wait.value)}
    else if CreatesMutex(prog, pt) then tasks + multiset{NewMutexTask(pt)}
    else tasks
  }

  function CondvarEdges(prog: Program, ctx: Context, c: Point): map<TransRef, Edge> {
    map[CondvarRef(c, WaitStart) := CondvarEdge(prog, ctx, c, WaitStart),
        CondvarRef(c, LostSignal) := CondvarEdge(prog, ctx, c, LostSignal),
        CondvarRef(c, NotifyReceived) := CondvarEdge(prog, ctx, c, NotifyReceived)]
  }

  lemma CondvarEdgesAre(prog: Program, ctx: Context, c: Point)
    ensures forall ref :: ref in CondvarEdges(prog, ctx, c) <==> ref.CondvarRef? && ref.condvar == c
    ensures forall role :: CondvarEdges(prog, ctx, c)[CondvarRef(c, role)] == CondvarEdge(prog, ctx, c, role)
  {
    hide CondvarEdge;
    forall ref ensures ref in CondvarEdges(prog, ctx, c) <==> ref.CondvarRef? && ref.condvar == c {
      if ref.CondvarRef? {
        match ref.role
        case WaitStart =>
        case LostSignal =>
        case NotifyReceived =>
      }
    }
    forall role ensures CondvarEdges(prog, ctx, c)[CondvarRef(c, role)] == CondvarEdge(prog, ctx, c, role) {
      match role
      case WaitStart =>
      case LostSignal =>
      case NotifyReceived =>
    }
  }

  function NextTransitions(prog: Program, w: World, pt: Point, e: Effect): map<TransRef, Edge>
    requires pt.stack != []
  {
    var own := w.transitions + Numbered(pt, EdgesOf(prog, Ctx(w), pt, e.actions));
    var ctx := Ctx(w).(waits := LinkedWaits(NextCondvars(prog, w.condvars, pt, e)));
    if e.wait.Some? then own + CondvarEdges(prog, ctx, e.wait.value.condvar)
    else if CreatesCondvar(prog, pt) then own + CondvarEdges(prog, ctx, pt)
    else own
  }

  ghost function Visited(prog: Program, w: World, pt: Point, e: Effect, places: map<PlaceRef, nat>): World
    requires pt.stack != []
  {
    w.(places := places,
       transitions := NextTransitions(prog, w, pt, e),
       mutexes := NextMutexes(prog, w.mutexes, pt, e),
       condvars := NextCondvars(prog, w.condvars, pt, e),
       joins := NextJoins(w.joins, pt, e),
       threads := NextThreads(w.threads, pt, e),
       tasks := NextTasks(prog, w.tasks, pt, e),
       visited := w.visited + iset{pt})
  }

  // ---------------------------------------------------------------------------------------------
  // Invariant

  ghost predicate InvPoints(prog: Program, w: World) {
    forall pt :: pt in w.visited ==> pt.stack != [] && EffectAt(prog, pt.thread, pt.stack).Some?
  }

  ghost predicate InvKeys(prog: Program, w: World) {
    && (forall pt: Point, i: nat :: TransRef(pt, i) in w.transitions <==> pt in w.visited && i < |Actions(prog, pt)|)
    && (forall c: Point, role: Role :: CondvarRef(c, role) in w.transitions <==> c in w.condvars)
    && (forall m: Point, p: Point :: SkipRef(m, p) in w.transitions <==> (m, p) in w.conditions)
  }

  ghost predicate InvEdges(prog: Program, w: World) {
    forall ref :: ref in w.transitions ==> w.transitions[ref] == EdgeOf(prog, Ctx(w), ref)
  }

  ghost predicate InvMutexes(prog: Program, w: World) {
    && (forall m: Point :: m in w.mutexes <==> m in w.visited && CreatesMutex(prog, m))
    && (forall m: Point, ref: TransRef :: m in w.mutexes ==>
          (ref in w.mutexes[m] <==> ref.TransRef? && ref.pt in w.visited && Sets(prog, m, ref.pt, ref.i)))
    && (forall pt: Point, i: nat, m: Point :: pt in w.visited && Sets(prog, m, pt, i) ==> m in w.mutexes)
    && (forall m: Point, i: nat, j: nat :: m in w.mutexes && i < j < |w.mutexes[m]| ==> w.mutexes[m][i] != w.mutexes[m][j])
  }

  ghost predicate InvCondvars(prog: Program, w: World) {
    && (forall c: Point :: c in w.condvars <==> c in w.visited && CreatesCondvar(prog, c))
    && (forall c: Point :: c in w.condvars && w.condvars[c].Some? ==>
          var link := w.condvars[c].value;
          && link.at in w.visited
          && link.at.stack != []
          && WaitAt(prog, link.at) == Some(link.wait)
          && link.wait.condvar == c
          && link.wait.mutex in w.mutexes
          && PlaceOf(link.at.thread, link.at.stack) in w.places
          && DestPlace(prog, link.at, link.wait.dest) in w.places)
    && (forall p: Point :: p in w.visited && WaitAt(prog, p).Some? ==>
          var wait := WaitAt(prog, p).value;
          wait.condvar in w.condvars && w.condvars[wait.condvar] == Some(WaitLink(p, wait)))
  }

  ghost predicate InvJoins(prog: Program, w: World) {
    && (forall pt: Point, t: ThreadName :: pt in w.visited && JoinsAt(prog, pt, t) ==>
          t in w.joins && w.joins[t] == TransRef(pt, 0))
    && (forall t: ThreadName :: t in w.joins ==>
          && t.Spawned?
          && w.joins[t].TransRef? && w.joins[t].i == 0
          && w.joins[t].pt in w.visited
          && JoinsAt(prog, w.joins[t].pt, t)
          && (w.joins[t].pt.thread != t.parent ==> t in w.prepared))
  }

  ghost predicate SpawnsThread(prog: Program, pt: Point) {
    Actions(prog, pt) != [] && Actions(prog, pt)[0].SpawnThread?
  }

  ghost predicate ThreadOk(prog: Program, w: World, th: Thread) {
    && th.name.Spawned?
    && var q := Point(th.name.parent, th.name.stack);
       && q in w.visited
       && th.spawn == TransRef(q, 0)
       && SpawnsThread(prog, q)
       && Actions(prog, q)[0].thread == th.name
       && Actions(prog, q)[0].f == th.f
       && Actions(prog, q)[0].aggregate == th.aggregate
  }

  ghost predicate Queued(w: World, t: ThreadName, upTo: nat) {
    exists i :: 0 <= i < upTo && i < |w.threads| && w.threads[i].name == t
  }

  ghost predicate InvThreads(prog: Program, w: World, current: ThreadName) {
    && (forall i :: 0 <= i < |w.threads| ==> ThreadOk(prog, w, w.threads[i]) && w.threads[i].name !in w.prepared)
    && (forall i, j :: 0 <= i < j < |w.threads| ==> w.threads[i].name != w.threads[j].name)
    && (forall q: Point :: q in w.visited && SpawnsThread(prog, q) ==>
          Spawned(q.thread, q.stack) in w.prepared || Queued(w, Spawned(q.thread, q.stack), |w.threads|))
    && (forall t: ThreadName :: t in w.prepared ==>
          t.Spawned? && t.parent != current && Point(t.parent, t.stack) in w.visited && SpawnsThread(prog, Point(t.parent, t.stack)))
  }

  /** `v` refers to objects that exist. A join handle of a thread spawned elsewhere names a thread that
      has been translated already; `upTo` says how far in the queue other handles may point. */
  ghost predicate Known(w: World, owner: ThreadName, upTo: nat, v: Value) {
    match v
    case Mutex(m) => m in w.mutexes
    case MutexGuard(m) => m in w.mutexes
    case Condvar(c) => c in w.condvars
    case JoinHandle(t) =>
      && t.Spawned?
      && (t in w.prepared || Queued(w, t, upTo))
      && (t.parent != owner ==> t in w.prepared)
    case Bundle(values) => forall i :: 0 <= i < |values| ==> Known(w, owner, upTo, values[i])
  }

  ghost predicate KnownCells(w: World, owner: ThreadName, cells: Cells) {
    forall p :: p in cells ==> Known(w, owner, |w.threads|, cells[p])
  }

  ghost predicate KnownValues(w: World, owner: ThreadName, upTo: nat, values: seq<Value>) {
    forall i :: 0 <= i < |values| ==> Known(w, owner, upTo, values[i])
  }

  /** The values captured by a queued thread. */
  ghost predicate InvCaptures(w: World) {
    forall i :: 0 <= i < |w.threads| ==>
      w.threads[i].name.Spawned? && KnownValues(w, w.threads[i].name.parent, i, w.threads[i].aggregate)
  }

  ghost predicate InvPlaces(prog: Program, w: World) {
    && (forall p :: p in w.places ==> w.places[p] == Tokens(prog, p))
    && (forall m: Point :: MutexPlace(m) in w.places <==> m in w.mutexes)
    && (forall c: Point :: WaitEnabled(c) in w.places <==> c in w.condvars)
    && (forall c: Point :: Notify(c) in w.places <==> c in w.condvars)
    && (forall t: ThreadName :: ThreadEnd(t) in w.places <==> t in w.prepared)
    && (forall m: Point, p: Point :: ConditionNotSet(m, p) in w.places <==> (m, p) in w.conditions)
    && (forall m: Point, p: Point :: ConditionSet(m, p) in w.places <==> (m, p) in w.conditions)
    && ProgramEnd in w.places && ProgramPanic in w.places
  }

  ghost predicate InvHomes(w: World) {
    forall pt :: pt in w.visited ==> PlaceOf(pt.thread, pt.stack) in w.places
  }

  ghost predicate Expected(prog: Program, w: World, task: Task) {
    match task
    case NewMutexTask(m) => m in w.mutexes
    case LinkMutexToCondvar(at, _, _, _) =>
      at in w.visited && at.stack != [] && WaitAt(prog, at).Some? && task == TaskOf(prog, at, WaitAt(prog, at).value)
  }

  ghost predicate InvTasks(prog: Program, w: World) {
    forall task: Task :: w.tasks[task] == if Expected(prog, w, task) then 1 else 0
  }

  ghost predicate Inv(prog: Program, w: World, current: ThreadName) {
    && InvPoints(prog, w)
    && InvKeys(prog, w)
    && InvEdges(prog, w)
    && InvMutexes(prog, w)
    && InvCondvars(prog, w)
    && InvJoins(prog, w)
    && InvThreads(prog, w, current)
    && InvCaptures(w)
    && InvPlaces(prog, w)
    && InvHomes(w)
    && InvTasks(prog, w)
    && w.conditions == {}
  }

  // ---------------------------------------------------------------------------------------------
  // The shape of effects

  /** Only the first action of a block can be a spawn, a join or a condition setter; only waits wait. */
  ghost predicate ShapeOf(pt: Point, term: Terminator, e: Effect) {
    && (forall i :: 0 < i < |e.actions| ==> e.actions[i].Flow? || e.actions[i].Release?)
    && (e.actions != [] && e.actions[0].SpawnThread? <==>
          term.Call? && term.callee.ThreadSpawn? && CallEnds(term.returnTo, term.unwind).Ends?)
    && (e.actions != [] && e.actions[0].SpawnThread? ==>
          e.actions[0].thread == Spawned(pt.thread, pt.stack) && e.actions[0].f == term.callee.f)
    && (e.wait.Some? ==> e.actions == [] && term.Call? && (term.callee.CondvarWait? || term.callee.CondvarWaitWhile?))
    && (term.Call? && (term.callee.MutexNew? || term.callee.CondvarNew?) && CallEnds(term.returnTo, term.unwind).Ends? ==>
          e.actions != [] && e.actions[0].Flow? && e.wait.None?)
  }

  lemma CallShape(fn: Function, pt: Point, cells: Cells, term: Terminator)
    requires term.Call? && CallEffect(fn, pt, cells, term).Some?
    ensures ShapeOf(pt, term, CallEffect(fn, pt, cells, term).value)
  {
    hide LinkedReturn;
    match term.callee
    case MemDrop => hide SpawnEffect, WaitEffect, DerefMutEffect, MutexCallEffect;
    case ThreadSpawn(_) => hide MemDropEffect, WaitEffect, DerefMutEffect, MutexCallEffect;
    case _ => hide SpawnEffect, MemDropEffect;
  }

  lemma TerminatorShape(fn: Function, pt: Point, cells: Cells, term: Terminator)
    requires TerminatorEffect(fn, pt, cells, term).Some?
    ensures ShapeOf(pt, term, TerminatorEffect(fn, pt, cells, term).value)
  {
    hide CallEffect;
    if term.Call? {
      CallShape(fn, pt, cells, term);
    }
  }

  ghost predicate Shape(prog: Program, pt: Point, e: Effect) {
    && Actions(prog, pt) == e.actions
    && WaitAt(prog, pt) == e.wait
    && (forall i :: 0 < i < |e.actions| ==> e.actions[i].Flow? || e.actions[i].Release?)
    && pt.stack != []
    && (e.actions != [] && e.actions[0].SpawnThread? <==> SpawnsAt(prog, pt.stack[|pt.stack| - 1]).Some?)
    && (e.actions != [] && e.actions[0].SpawnThread? ==>
          e.actions[0].thread == Spawned(pt.thread, pt.stack) && Some(e.actions[0].f) == SpawnsAt(prog, pt.stack[|pt.stack| - 1]))
    && (e.wait.Some? ==> e.actions == [] && !CreatesMutex(prog, pt) && !CreatesCondvar(prog, pt))
    && (CreatesMutex(prog, pt) || CreatesCondvar(prog, pt) ==> e.actions != [] && e.actions[0].Flow? && e.wait.None?)
    && !(CreatesMutex(prog, pt) && CreatesCondvar(prog, pt))
  }

  lemma EffectShape(prog: Program, pt: Point)
    requires EffectAt(prog, pt.thread, pt.stack).Some?
    ensures Shape(prog, pt, EffectAt(prog, pt.thread, pt.stack).value)
  {
    hide TerminatorEffect, StatementsCells, CellsBefore;
    var site := pt.stack[|pt.stack| - 1];
    var fn := prog.functions[site.f];
    var before := CellsBefore(prog, pt.thread, pt.stack[..|pt.stack| - 1], site.f, site.b).value;
    var cells := StatementsCells(fn, before, fn.blocks[site.b].statements).value;
    TerminatorShape(fn, pt, cells, fn.blocks[site.b].terminator);
  }

  // ---------------------------------------------------------------------------------------------
  // Visiting a point keeps the invariant

  ghost predicate KnownAction(w: World, current: ThreadName, a: Action) {
    match a
    case Acquire(m, _) => m in w.mutexes
    case Release(m, _) => m in w.mutexes
    case SetCondition(m, _) => m in w.mutexes
    case NotifyOne(c, _) => c in w.condvars
    case JoinThread(t, _) => Known(w, current, |w.threads|, JoinHandle(t))
    case SpawnThread(_, _, aggregate, _) => KnownValues(w, current, |w.threads|, aggregate)
    case _ => true
  }

  ghost predicate KnownEffect(w: World, current: ThreadName, e: Effect) {
    && (forall i :: 0 <= i < |e.actions| ==> KnownAction(w, current, e.actions[i]))
    && (e.wait.Some? ==> e.wait.value.condvar in w.condvars && e.wait.value.mutex in w.mutexes)
  }

  ghost predicate NoConflict(w: World, e: Effect) {
    && (e.actions != [] && e.actions[0].JoinThread? ==> e.actions[0].thread !in w.joins)
    && (e.wait.Some? && e.wait.value.condvar in w.condvars ==> w.condvars[e.wait.value.condvar].None?)
  }

  /** The places after visiting `pt`: those of the objects it creates, and places of control points. */
  ghost predicate PlacesAfter(prog: Program, w: World, pt: Point, e: Effect, places: map<PlaceRef, nat>)
    requires pt.stack != []
  {
    && (forall p :: p in w.places ==> p in places)
    && (forall p :: p in places ==> places[p] == Tokens(prog, p))
    && (forall p :: p in places && p !in w.places ==>
          || p.Control?
          || (p == MutexPlace(pt) && CreatesMutex(prog, pt))
          || ((p == WaitEnabled(pt) || p == Notify(pt)) && CreatesCondvar(prog, pt)))
    && (CreatesMutex(prog, pt) ==> MutexPlace(pt) in places)
    && (CreatesCondvar(prog, pt) ==> WaitEnabled(pt) in places && Notify(pt) in places)
    && PlaceOf(pt.thread, pt.stack) in places
    && (e.wait.Some? ==> DestPlace(prog, pt, e.wait.value.dest) in places)
  }

  ghost predicate CanVisit(prog: Program, w: World, pt: Point, e: Effect, places: map<PlaceRef, nat>) {
    && Inv(prog, w, pt.thread)
    && pt.stack != []
    && pt !in w.visited
    && EffectAt(prog, pt.thread, pt.stack) == Some(e)
    && KnownEffect(w, pt.thread, e)
    && NoConflict(w, e)
    && PlacesAfter(prog, w, pt, e, places)
  }

  /** The transitions after visiting `pt`, one by one. */
  lemma NextTransition(prog: Program, w: World, pt: Point, e: Effect, ref: TransRef)
    requires pt.stack != []
    ensures var next := NextTransitions(prog, w, pt, e);
      var ctx := Ctx(w).(waits := LinkedWaits(NextCondvars(prog, w.condvars, pt, e)));
      if ref.CondvarRef? && (if e.wait.Some? then ref.condvar == e.wait.value.condvar else CreatesCondvar(prog, pt) && ref.condvar == pt) then
        ref in next && next[ref] == CondvarEdge(prog, ctx, ref.condvar, ref.role)
      else if ref.TransRef? && ref.pt == pt && ref.i < |e.actions| then
        ref in next && next[ref] == EdgeOfAction(prog, Ctx(w), pt, e.actions[ref.i])
      else
        (ref in next <==> ref in w.transitions) && (ref in next ==> next[ref] == w.transitions[ref])
  {
    hide EdgeOfAction, CondvarEdge, CreatesCondvar, CondvarEdges, LinkedWaits, Numbered;
    var edges := EdgesOf(prog, Ctx(w), pt, e.actions);
    var ctx := Ctx(w).(waits := LinkedWaits(NextCondvars(prog, w.condvars, pt, e)));
    NumberedAre(pt, edges);
    CondvarEdgesAre(prog, ctx, if e.wait.Some? then e.wait.value.condvar else pt);
  }

  lemma VisitedKeys(prog: Program, w: World, pt: Point, e: Effect, places: map<PlaceRef, nat>)
    requires InvKeys(prog, w) && pt.stack != [] && pt !in w.visited && Shape(prog, pt, e)
    requires e.wait.Some? ==> e.wait.value.condvar in w.condvars
    ensures InvKeys(prog, Visited(prog, w, pt, e, places))
  {
    hide Actions, WaitAt, CreatesMutex, CreatesCondvar, EdgeOfAction, CondvarEdge, NextTransitions;
    var w' := Visited(prog, w, pt, e, places);
    forall q: Point, i: nat ensures TransRef(q, i) in w'.transitions <==> q in w'.visited && i < |Actions(prog, q)| {
      NextTransition(prog, w, pt, e, TransRef(q, i));
    }
    forall c: Point, role: Role ensures CondvarRef(c, role) in w'.transitions <==> c in w'.condvars {
      NextTransition(prog, w, pt, e, CondvarRef(c, role));
    }
    forall m: Point, p: Point ensures SkipRef(m, p) in w'.transitions <==> (m, p) in w'.conditions {
      NextTransition(prog, w, pt, e, SkipRef(m, p));
    }
  }

  lemma VisitedEdges(prog: Program, w: World, pt: Point, e: Effect, places: map<PlaceRef, nat>)
    requires InvKeys(prog, w) && InvEdges(prog, w) && InvPoints(prog, w)
    requires pt.stack != [] && pt !in w.visited && Shape(prog, pt, e)
    ensures InvEdges(prog, Visited(prog, w, pt, e, places))
  {
    hide Actions, WaitAt, CreatesMutex, CreatesCondvar, EdgeOfAction, CondvarEdge, NextTransitions, SkipEdge;
    var w' := Visited(prog, w, pt, e, places);
    forall ref | ref in w'.transitions ensures w'.transitions[ref] == EdgeOf(prog, Ctx(w'), ref) {
      NextTransition(prog, w, pt, e, ref);
      match ref
      case TransRef(q, i) => SameEdge(prog, Ctx(w), Ctx(w'), q, Actions(prog, q)[i]);
      case CondvarRef(c, role) => SameCondvarEdge(prog, Ctx(w), Ctx(w'), c, role);
      case SkipRef(_, _) =>
    }
  }

  lemma SameCondvarEdge(prog: Program, ctx: Context, ctx': Context, c: Point, role: Role)
    requires ctx.conditions == ctx'.conditions
    ensures (c in ctx.waits <==> c in ctx'.waits) && (c in ctx.waits ==> ctx.waits[c] == ctx'.waits[c]) ==>
      CondvarEdge(prog, ctx, c, role) == CondvarEdge(prog, ctx', c, role)
  {
    assert forall w :: NotSetOfWait(ctx, w) == NotSetOfWait(ctx', w);
  }

  /** The edge of an action does not depend on the linked waits. */
  lemma SameEdge(prog: Program, ctx: Context, ctx': Context, pt: Point, a: Action)
    requires pt.stack != [] && ctx.prepared == ctx'.prepared && ctx.conditions == ctx'.conditions
    ensures EdgeOfAction(prog, ctx, pt, a) == EdgeOfAction(prog, ctx', pt, a)
  {
  }

  lemma VisitedMutexes(prog: Program, w: World, pt: Point, e: Effect, places: map<PlaceRef, nat>)
    requires InvMutexes(prog, w) && pt.stack != [] && pt !in w.visited && Shape(prog, pt, e)
    requires e.actions != [] && e.actions[0].SetCondition? ==> e.actions[0].mutex in w.mutexes
    ensures InvMutexes(prog, Visited(prog, w, pt, e, places))
  {
    hide Actions, WaitAt, CreatesMutex, CreatesCondvar, NextTransitions, NextCondvars, NextJoins, NextThreads, NextTasks, SpawnsAt;
    var w' := Visited(prog, w, pt, e, places);
    forall m: Point, ref: TransRef | m in w'.mutexes
      ensures ref in w'.mutexes[m] <==> ref.TransRef? && ref.pt in w'.visited && Sets(prog, m, ref.pt, ref.i)
    {
      if m in w.mutexes && m != pt {
        assert ref in w.mutexes[m] <==> ref.TransRef? && ref.pt in w.visited && Sets(prog, m, ref.pt, ref.i);
      }
    }
  }

  lemma VisitedCondvars(prog: Program, w: World, pt: Point, e: Effect, places: map<PlaceRef, nat>)
    requires InvCondvars(prog, w) && InvMutexes(prog, w) && pt.stack != [] && pt !in w.visited && Shape(prog, pt, e)
    requires KnownEffect(w, pt.thread, e) && NoConflict(w, e) && PlacesAfter(prog, w, pt, e, places)
    ensures InvCondvars(prog, Visited(prog, w, pt, e, places))
  {
    hide Actions, WaitAt, CreatesMutex, CreatesCondvar, NextTransitions;
  }

  lemma VisitedJoins(prog: Program, w: World, pt: Point, e: Effect, places: map<PlaceRef, nat>)
    requires InvJoins(prog, w) && pt.stack != [] && pt !in w.visited && Shape(prog, pt, e)
    requires KnownEffect(w, pt.thread, e) && NoConflict(w, e)
    ensures InvJoins(prog, Visited(prog, w, pt, e, places))
  {
    hide Actions, WaitAt, CreatesMutex, CreatesCondvar, NextTransitions;
  }

  lemma VisitedThreads(prog: Program, w: World, pt: Point, e: Effect, places: map<PlaceRef, nat>)
    requires InvThreads(prog, w, pt.thread) && pt.stack != [] && pt !in w.visited && Shape(prog, pt, e)
    ensures InvThreads(prog, Visited(prog, w, pt, e, places), pt.thread)
  {
    hide Actions, WaitAt, CreatesMutex, CreatesCondvar, NextTransitions;
    var w' := Visited(prog, w, pt, e, places);
    assert w.threads <= w'.threads;
    forall q: Point | q in w'.visited && SpawnsThread(prog, q)
      ensures Spawned(q.thread, q.stack) in w'.prepared || Queued(w', Spawned(q.thread, q.stack), |w'.threads|)
    {
      if q == pt {
        assert w'.threads[|w.threads|].name == Spawned(q.thread, q.stack);
      } else if Spawned(q.thread, q.stack) !in w.prepared {
        assert Queued(w, Spawned(q.thread, q.stack), |w.threads|);
        StillQueued(w, w', Spawned(q.thread, q.stack), |w.threads|);
      }
    }
  }

  lemma StillQueued(w: World, w': World, t: ThreadName, upTo: nat)
    requires w.threads <= w'.threads && Queued(w, t, upTo)
    ensures Queued(w', t, upTo) && Queued(w', t, |w'.threads|)
  {
    var i :| 0 <= i < upTo && i < |w.threads| && w.threads[i].name == t;
    assert w'.threads[i].name == t;
  }

  lemma NewKeys(prog: Program, w: World, pt: Point, e: Effect)
    requires InvMutexes(prog, w) && InvCondvars(prog, w) && pt.stack != [] && pt !in w.visited
    requires e.wait.Some? ==> e.wait.value.condvar in w.condvars && !CreatesCondvar(prog, pt)
    ensures forall m: Point :: m in NextMutexes(prog, w.mutexes, pt, e) <==> m in w.mutexes || (m == pt && CreatesMutex(prog, pt))
    ensures forall c: Point :: c in NextCondvars(prog, w.condvars, pt, e) <==> c in w.condvars || (c == pt && CreatesCondvar(prog, pt))
    ensures pt !in w.mutexes && pt !in w.condvars
  {
    hide Sets, WaitAt, CreatesMutex, CreatesCondvar, PlaceOf, DestPlace;
  }

  lemma VisitedPlaces(prog: Program, w: World, pt: Point, e: Effect, places: map<PlaceRef, nat>)
    requires InvPlaces(prog, w) && InvHomes(w) && InvMutexes(prog, w) && InvCondvars(prog, w) && pt.stack != [] && pt !in w.visited
    requires Shape(prog, pt, e) && PlacesAfter(prog, w, pt, e, places)
    requires e.wait.Some? ==> e.wait.value.condvar in w.condvars
    ensures InvPlaces(prog, Visited(prog, w, pt, e, places)) && InvHomes(Visited(prog, w, pt, e, places))
  {
    hide Visited, Shape, PlacesAfter, InvPlaces, InvHomes, InvMutexes, InvCondvars;
    VisitedTokens(prog, w, pt, e, places);
    VisitedHomes(prog, w, pt, e, places);
  }

  lemma VisitedTokens(prog: Program, w: World, pt: Point, e: Effect, places: map<PlaceRef, nat>)
    requires InvPlaces(prog, w) && InvMutexes(prog, w) && InvCondvars(prog, w) && pt.stack != [] && pt !in w.visited
    requires Shape(prog, pt, e) && PlacesAfter(prog, w, pt, e, places)
    requires e.wait.Some? ==> e.wait.value.condvar in w.condvars
    ensures InvPlaces(prog, Visited(prog, w, pt, e, places))
  {
    hide Actions, WaitAt, CreatesMutex, CreatesCondvar, NextTransitions, NextMutexes, NextCondvars, NextJoins, NextThreads, NextTasks, Tokens, PlaceOf, DestPlace,
      InvMutexes, InvCondvars, SpawnsAt;
    NewKeys(prog, w, pt, e);
  }

  lemma VisitedHomes(prog: Program, w: World, pt: Point, e: Effect, places: map<PlaceRef, nat>)
    requires InvHomes(w) && pt.stack != [] && PlacesAfter(prog, w, pt, e, places)
    ensures InvHomes(Visited(prog, w, pt, e, places))
  {
    hide Actions, WaitAt, CreatesMutex, CreatesCondvar, NextTransitions, Tokens, PlaceOf, DestPlace;
  }

  lemma VisitedTasks(prog: Program, w: World, pt: Point, e: Effect, places: map<PlaceRef, nat>)
    requires InvTasks(prog, w) && InvMutexes(prog, w) && pt.stack != [] && pt !in w.visited && Shape(prog, pt, e)
    ensures InvTasks(prog, Visited(prog, w, pt, e, places))
  {
    hide Actions, WaitAt, CreatesMutex, CreatesCondvar, NextTransitions;
  }

  ghost predicate Grows(w: World, w': World) {
    && (forall m :: m in w.mutexes ==> m in w'.mutexes)
    && (forall c :: c in w.condvars ==> c in w'.condvars)
    && w.prepared <= w'.prepared
    && w.threads <= w'.threads
  }

  lemma {:induction false} StillKnown(w: World, w': World, owner: ThreadName, upTo: nat, upTo': nat, v: Value)
    requires Known(w, owner, upTo, v) && Grows(w, w') && upTo <= upTo'
    ensures Known(w', owner, upTo', v)
    decreases v
  {
    match v
    case JoinHandle(t) =>
      if t !in w.prepared {
        var i :| 0 <= i < upTo && i < |w.threads| && w.threads[i].name == t;
        assert w'.threads[i].name == t;
      }
    case Bundle(values) =>
      forall i | 0 <= i < |values| ensures Known(w', owner, upTo', values[i]) {
        StillKnown(w, w', owner, upTo, upTo', values[i]);
      }
    case _ =>
  }

  lemma StillKnownCells(w: World, w': World, owner: ThreadName, cells: Cells)
    requires KnownCells(w, owner, cells) && Grows(w, w')
    ensures KnownCells(w', owner, cells)
  {
    forall p | p in cells ensures Known(w', owner, |w'.threads|, cells[p]) {
      StillKnown(w, w', owner, |w.threads|, |w'.threads|, cells[p]);
    }
  }

  lemma VisitedGrows(prog: Program, w: World, pt: Point, e: Effect, places: map<PlaceRef, nat>)
    requires pt.stack != []
    ensures Grows(w, Visited(prog, w, pt, e, places))
  {
    hide CreatesMutex, CreatesCondvar, NextTransitions;
  }

  lemma VisitedCaptures(prog: Program, w: World, pt: Point, e: Effect, places: map<PlaceRef, nat>)
    requires InvCaptures(w) && pt.stack != [] && Shape(prog, pt, e) && KnownEffect(w, pt.thread, e)
    ensures InvCaptures(Visited(prog, w, pt, e, places))
  {
    hide Actions, WaitAt, CreatesMutex, CreatesCondvar, NextTransitions;
    var w' := Visited(prog, w, pt, e, places);
    VisitedGrows(prog, w, pt, e, places);
    forall i, j | 0 <= i < |w'.threads| && 0 <= j < |w'.threads[i].aggregate|
      ensures w'.threads[i].name.Spawned? && Known(w', w'.threads[i].name.parent, i, w'.threads[i].aggregate[j])
    {
      if i < |w.threads| {
        assert w'.threads[i] == w.threads[i];
        assert KnownValues(w, w.threads[i].name.parent, i, w.threads[i].aggregate);
        StillKnown(w, w', w.threads[i].name.parent, i, i, w.threads[i].aggregate[j]);
      } else {
        assert KnownAction(w, pt.thread, e.actions[0]);
        StillKnown(w, w', pt.thread, |w.threads|, i, e.actions[0].aggregate[j]);
      }
    }
  }

  lemma VisitedInv(prog: Program, w: World, pt: Point, e: Effect, places: map<PlaceRef, nat>)
    requires CanVisit(prog, w, pt, e, places)
    ensures Inv(prog, Visited(prog, w, pt, e, places), pt.thread)
    ensures Grows(w, Visited(prog, w, pt, e, places))
  {
    hide EffectAt, NextTransitions, InvKeys, InvEdges, InvMutexes, InvCondvars, InvJoins, InvThreads, InvCaptures,
      InvPlaces, InvHomes, InvTasks, PlacesAfter, Shape, CreatesMutex, CreatesCondvar;
    EffectShape(prog, pt);
    assert KnownAction(w, pt.thread, Flow(ToEnd));
    VisitedKeys(prog, w, pt, e, places);
    VisitedEdges(prog, w, pt, e, places);
    VisitedMutexes(prog, w, pt, e, places);
    VisitedCondvars(prog, w, pt, e, places);
    VisitedJoins(prog, w, pt, e, places);
    VisitedThreads(prog, w, pt, e, places);
    VisitedCaptures(prog, w, pt, e, places);
    VisitedPlaces(prog, w, pt, e, places);
    VisitedTasks(prog, w, pt, e, places);
    VisitedGrows(prog, w, pt, e, places);
  }
}
