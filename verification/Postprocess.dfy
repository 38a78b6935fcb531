/** The condition logic that is added once all threads are translated: for every mutex that is ever set and every
    wait, a pair of places that remembers whether the condition was set, and a transition that skips the wait. */
module Postprocess {
  import opened Wrappers
  import opened PetriNets
  import opened Mir
  import opened ControlPoints
  import opened AliasMemory
  import opened Blueprint
  import opened Worlds

  /** What is left of the invariant while conditions are linked. */
  ghost predicate PostInv(prog: Program, w: World) {
    && InvPoints(prog, w)
    && InvKeys(prog, w)
    && InvEdges(prog, w)
    && InvMutexes(prog, w)
    && InvCondvars(prog, w)
    && InvPlaces(prog, w)
    && Complete(prog, w)
  }

  /** Every point was visited, every thread prepared, and every point has its place. */
  ghost predicate Complete(prog: Program, w: World) {
    && w.visited == AllPoints(prog)
    && (forall t: ThreadName :: t in w.prepared <==> t.Spawned? && IsThread(prog, t))
    && (forall t: ThreadName, stack: seq<Site> :: Control(t, stack) in w.places <==> IsPoint(prog, Point(t, stack)) && Home(stack) == stack)
  }

  /** The arcs between the condition places of `m` and `p`, the setters `refs`, the wait and the skip transition. */
  function SetterArcs(transitions: map<TransRef, Edge>, refs: seq<TransRef>, notSet: PlaceRef, isSet: PlaceRef): map<TransRef, Edge> {
    map ref | ref in transitions ::
      if ref in refs then Transition(transitions[ref].pre + multiset{notSet}, transitions[ref].post + multiset{isSet})
      else transitions[ref]
  }

  lemma NoSetters(transitions: map<TransRef, Edge>, notSet: PlaceRef, isSet: PlaceRef)
    ensures SetterArcs(transitions, [], notSet, isSet) == transitions
  {
  }

  lemma NextSetter(transitions: map<TransRef, Edge>, refs: seq<TransRef>, ref: TransRef, notSet: PlaceRef, isSet: PlaceRef)
    requires ref in transitions && ref !in refs
    ensures var before := SetterArcs(transitions, refs, notSet, isSet); before.Keys == transitions.Keys && before[ref] == transitions[ref]
    ensures SetterArcs(transitions, refs + [ref], notSet, isSet)
         == SetterArcs(transitions, refs, notSet, isSet)[ref :=
              Transition(transitions[ref].pre + multiset{notSet}, transitions[ref].post + multiset{isSet})]
  {
  }

  lemma NotASetter(transitions: map<TransRef, Edge>, refs: seq<TransRef>, notSet: PlaceRef, isSet: PlaceRef, ref: TransRef)
    requires ref !in refs
    ensures var next := SetterArcs(transitions, refs, notSet, isSet);
      (ref in next <==> ref in transitions) && (ref in next ==> next[ref] == transitions[ref])
  {
  }

  lemma ArcsInOrder(transitions: map<TransRef, Edge>, refs: seq<TransRef>, m: Point, task: Task)
    requires task.LinkMutexToCondvar? && task.waitStart in transitions && task.waitStart !in refs
    requires SkipRef(m, task.at) !in transitions && SkipRef(m, task.at) != task.waitStart
    ensures var notSet, isSet := ConditionNotSet(m, task.at), ConditionSet(m, task.at);
      var wait := transitions[task.waitStart];
      ConditionArcs(transitions, refs, m, task)
      == SetterArcs(transitions, refs, notSet, isSet)
           [task.waitStart := Transition(wait.pre + multiset{notSet}, wait.post + multiset{notSet})]
           [SkipRef(m, task.at) := Transition(multiset{task.startPlace} + multiset{isSet}, multiset{task.endPlace} + multiset{isSet})]
  {
  }

  function ConditionArcs(transitions: map<TransRef, Edge>, refs: seq<TransRef>, m: Point, task: Task): map<TransRef, Edge>
    requires task.LinkMutexToCondvar?
  {
    var p := task.at;
    map ref | ref in transitions.Keys + {SkipRef(m, p)} ::
      if ref == SkipRef(m, p) then
        Transition(multiset{task.startPlace} + multiset{ConditionSet(m, p)}, multiset{task.endPlace} + multiset{ConditionSet(m, p)})
      else if ref in refs then
        Transition(transitions[ref].pre + multiset{ConditionNotSet(m, p)}, transitions[ref].post + multiset{ConditionSet(m, p)})
      else if ref == task.waitStart then
        Transition(transitions[ref].pre + multiset{ConditionNotSet(m, p)}, transitions[ref].post + multiset{ConditionNotSet(m, p)})
      else transitions[ref]
  }

  ghost function LinkedWorld(w: World, m: Point, task: Task): World
    requires task.LinkMutexToCondvar? && m in w.mutexes
  {
    if w.mutexes[m] == [] then w
    else
      w.(conditions := w.conditions + {(m, task.at)},
         places := w.places[ConditionNotSet(m, task.at) := 1][ConditionSet(m, task.at) := 0],
         transitions := ConditionArcs(w.transitions, w.mutexes[m], m, task))
  }

  ghost predicate CanLink(prog: Program, w: World, m: Point, task: Task) {
    && task.LinkMutexToCondvar? && Expected(prog, w, task)
    && m in w.mutexes && (m, task.at) !in w.conditions
  }

  lemma ConditionsOfMutex(ctx: Context, m: Point, p: Point, m': Point)
    requires (m, p) !in ctx.conditions
    ensures var ctx' := ctx.(conditions := ctx.conditions + {(m, p)});
      if m' == m then
        && multiset(NotSetOfMutex(ctx', m')) == multiset(NotSetOfMutex(ctx, m')) + multiset{ConditionNotSet(m, p)}
        && multiset(SetOfMutex(ctx', m')) == multiset(SetOfMutex(ctx, m')) + multiset{ConditionSet(m, p)}
      else NotSetOfMutex(ctx', m') == NotSetOfMutex(ctx, m') && SetOfMutex(ctx', m') == SetOfMutex(ctx, m')
  {
    var ctx' := ctx.(conditions := ctx.conditions + {(m, p)});
    if m' == m {
      assert NotSetOfMutex(ctx', m') == NotSetOfMutex(ctx, m') + {ConditionNotSet(m, p)};
      assert SetOfMutex(ctx', m') == SetOfMutex(ctx, m') + {ConditionSet(m, p)};
    }
  }

  lemma ConditionsOfWait(ctx: Context, m: Point, p: Point, p': Point)
    requires (m, p) !in ctx.conditions
    ensures var ctx' := ctx.(conditions := ctx.conditions + {(m, p)});
      if p' == p then multiset(NotSetOfWait(ctx', p')) == multiset(NotSetOfWait(ctx, p')) + multiset{ConditionNotSet(m, p)}
      else NotSetOfWait(ctx', p') == NotSetOfWait(ctx, p')
  {
    var ctx' := ctx.(conditions := ctx.conditions + {(m, p)});
    if p' == p {
      assert NotSetOfWait(ctx', p') == NotSetOfWait(ctx, p') + {ConditionNotSet(m, p)};
    }
  }

  lemma LinkedAction(prog: Program, ctx: Context, m: Point, p: Point, pt: Point, a: Action)
    requires pt.stack != [] && (m, p) !in ctx.conditions
    ensures var edge := EdgeOfAction(prog, ctx, pt, a);
      EdgeOfAction(prog, ctx.(conditions := ctx.conditions + {(m, p)}), pt, a) ==
        if a.SetCondition? && a.mutex == m
        then Transition(edge.pre + multiset{ConditionNotSet(m, p)}, edge.post + multiset{ConditionSet(m, p)})
        else edge
  {
    hide PlaceOf, DestPlace, NotSetOfMutex, SetOfMutex;
    match a
    case SetCondition(m', d) =>
      ConditionsOfMutex(ctx, m, p, m');
    case _ =>
  }

  lemma LinkedWait(prog: Program, ctx: Context, m: Point, p: Point, c: Point, role: Role)
    requires (m, p) !in ctx.conditions
    ensures var edge := CondvarEdge(prog, ctx, c, role);
      CondvarEdge(prog, ctx.(conditions := ctx.conditions + {(m, p)}), c, role) ==
        if role == WaitStart && c in ctx.waits && ctx.waits[c].at == p
        then Transition(edge.pre + multiset{ConditionNotSet(m, p)}, edge.post + multiset{ConditionNotSet(m, p)})
        else edge
  {
    hide PlaceOf, DestPlace, NotSetOfWait;
    if c in ctx.waits {
      ConditionsOfWait(ctx, m, p, ctx.waits[c].at);
    }
  }

  lemma LinkedSetter(prog: Program, w: World, m: Point, task: Task, q: Point, i: nat)
    requires CanLink(prog, w, m, task) && w.mutexes[m] != [] && InvMutexes(prog, w) && q.stack != []
    requires TransRef(q, i) in w.transitions && q in w.visited && i < |Actions(prog, q)|
    requires w.transitions[TransRef(q, i)] == EdgeOfAction(prog, Ctx(w), q, Actions(prog, q)[i])
    ensures LinkedWorld(w, m, task).transitions[TransRef(q, i)] == EdgeOfAction(prog, Ctx(LinkedWorld(w, m, task)), q, Actions(prog, q)[i])
  {
    hide EdgeOfAction, Actions, WaitAt, TaskOf;
    assert task.waitStart.CondvarRef? by { LinkTask(prog, w, task); }
    LinkedAction(prog, Ctx(w), m, task.at, q, Actions(prog, q)[i]);
    assert TransRef(q, i) in w.mutexes[m] <==> Sets(prog, m, q, i);
  }

  lemma LinkTask(prog: Program, w: World, task: Task)
    requires task.LinkMutexToCondvar? && Expected(prog, w, task)
    ensures task.at in w.visited && task.at.stack != [] && WaitAt(prog, task.at).Some?
    ensures var wait := WaitAt(prog, task.at).value;
      task == LinkMutexToCondvar(task.at, PlaceOf(task.at.thread, task.at.stack), DestPlace(prog, task.at, wait.dest), CondvarRef(wait.condvar, WaitStart))
  {
    hide WaitAt, PlaceOf, DestPlace;
  }

  lemma LinkedStart(prog: Program, w: World, m: Point, task: Task, c: Point, role: Role)
    requires CanLink(prog, w, m, task) && w.mutexes[m] != [] && InvMutexes(prog, w) && InvCondvars(prog, w)
    requires CondvarRef(c, role) in w.transitions && c in w.condvars
    requires w.transitions[CondvarRef(c, role)] == CondvarEdge(prog, Ctx(w), c, role)
    ensures LinkedWorld(w, m, task).transitions[CondvarRef(c, role)] == CondvarEdge(prog, Ctx(LinkedWorld(w, m, task)), c, role)
  {
    hide CondvarEdge, WaitAt, TaskOf, CreatesCondvar, InvMutexes, PlaceOf, DestPlace;
    LinkTask(prog, w, task);
    LinkedWait(prog, Ctx(w), m, task.at, c, role);
    SettersAre(prog, w, m, CondvarRef(c, role));
  }

  lemma SettersAre(prog: Program, w: World, m: Point, ref: TransRef)
    requires InvMutexes(prog, w) && m in w.mutexes
    ensures ref in w.mutexes[m] ==> ref.TransRef?
  {
    hide Sets, CreatesMutex;
  }

  lemma LinkedEdges(prog: Program, w: World, m: Point, task: Task)
    requires CanLink(prog, w, m, task) && w.mutexes[m] != [] && PostInv(prog, w)
    ensures InvKeys(prog, LinkedWorld(w, m, task)) && InvEdges(prog, LinkedWorld(w, m, task))
  {
    hide EdgeOfAction, CondvarEdge, Actions, WaitAt, InvMutexes, InvCondvars, InvPlaces, EffectAt, PlaceOf, DestPlace, Complete;
    var w' := LinkedWorld(w, m, task);
    LinkTask(prog, w, task);
    forall ref | ref in w'.transitions ensures w'.transitions[ref] == EdgeOf(prog, Ctx(w'), ref) {
      match ref
      case TransRef(q, i) => LinkedSetter(prog, w, m, task, q, i);
      case CondvarRef(c, role) => LinkedStart(prog, w, m, task, c, role);
      case SkipRef(m', p) =>
        if (m', p) != (m, task.at) {
          OtherSkips(prog, w, m, task, m', p);
        }
    }
  }

  lemma OtherSkips(prog: Program, w: World, m: Point, task: Task, m': Point, p: Point)
    requires CanLink(prog, w, m, task) && w.mutexes[m] != [] && PostInv(prog, w)
    requires SkipRef(m', p) in w.transitions && (m', p) != (m, task.at)
    ensures LinkedWorld(w, m, task).transitions[SkipRef(m', p)] == w.transitions[SkipRef(m', p)]
  {
    hide EdgeOf, Actions, WaitAt, InvMutexes, InvCondvars, InvPlaces, EffectAt, PlaceOf, DestPlace, Complete;
    LinkTask(prog, w, task);
    SettersAre(prog, w, m, SkipRef(m', p));
  }

  lemma LinkedInv(prog: Program, w: World, m: Point, task: Task)
    requires CanLink(prog, w, m, task) && PostInv(prog, w)
    ensures PostInv(prog, LinkedWorld(w, m, task))
  {
    hide InvKeys, InvEdges, InvCondvars, InvPlaces, EffectAt, Sets, CreatesMutex, ConditionArcs, Expected, Complete;
    if w.mutexes[m] != [] {
      LinkedEdges(prog, w, m, task);
      LinkedPlaces(prog, w, m, task);
      LinkedComplete(prog, w, m, task);
    }
  }

  lemma LinkedComplete(prog: Program, w: World, m: Point, task: Task)
    requires CanLink(prog, w, m, task) && Complete(prog, w)
    ensures Complete(prog, LinkedWorld(w, m, task))
  {
    hide ConditionArcs, Expected, IsPoint, IsThread, Home, AllPoints;
  }

  lemma LinkedPlaces(prog: Program, w: World, m: Point, task: Task)
    requires CanLink(prog, w, m, task) && w.mutexes[m] != [] && InvCondvars(prog, w) && InvPlaces(prog, w)
    ensures InvCondvars(prog, LinkedWorld(w, m, task)) && InvPlaces(prog, LinkedWorld(w, m, task))
  {
    hide WaitAt, PlaceOf, DestPlace, CreatesCondvar, ConditionArcs, Expected;
  }

  // ---------------------------------------------------------------------------------------------
  // The queue of tasks

  /** The tasks that were taken from the queue: `seen` lists their mutexes, `linked` their waits. */
  ghost predicate Drained(prog: Program, w: World, seen: seq<Point>, linked: set<Point>) {
    && (forall task: Task :: task in w.tasks ==> w.tasks[task] == 1 && Expected(prog, w, task))
    && (forall m: Point :: m in seen <==> m in w.mutexes && NewMutexTask(m) !in w.tasks)
    && (forall i: nat, j: nat :: i < j < |seen| ==> seen[i] != seen[j])
    && (forall task: Task :: task.LinkMutexToCondvar? && Expected(prog, w, task) ==> (task.at in linked <==> task !in w.tasks))
    && (forall p: Point :: p in linked ==> p in w.visited && WaitAt(prog, p).Some?)
    && (linked != {} ==> forall m: Point :: m in w.mutexes ==> m in seen)
    && (forall m: Point, p: Point :: (m, p) in w.conditions <==> p in linked && m in w.mutexes && w.mutexes[m] != [])
  }

  lemma NothingDrained(prog: Program, w: World)
    requires InvTasks(prog, w) && w.conditions == {}
    ensures Drained(prog, w, [], {})
  {
    hide WaitAt, TaskOf;
  }

  /** Once the queue is empty, exactly the condition pairs of the program are linked. */
  lemma AllLinked(prog: Program, w: World, seen: seq<Point>, linked: set<Point>)
    requires PostInv(prog, w) && w.visited == AllPoints(prog) && Drained(prog, w, seen, linked) && w.tasks == multiset{}
    ensures forall m: Point, p: Point :: (m, p) in w.conditions <==> IsConditionPair(prog, m, p)
  {
    hide EffectAt, InvKeys, InvEdges, InvCondvars, InvPlaces, WaitAt, Sets, IsPoint;
    forall m: Point, p: Point ensures (m, p) in w.conditions <==> IsConditionPair(prog, m, p) {
      if p in w.visited && WaitAt(prog, p).Some? && p.stack != [] {
        assert Expected(prog, w, TaskOf(prog, p, WaitAt(prog, p).value));
      }
      if m in w.mutexes {
        EverSet(prog, w, m);
      }
    }
  }

  lemma EverSet(prog: Program, w: World, m: Point)
    requires InvMutexes(prog, w) && w.visited == AllPoints(prog) && m in w.mutexes
    ensures w.mutexes[m] != [] <==> exists pt: Point, i: nat :: IsPoint(prog, pt) && Sets(prog, m, pt, i)
  {
    hide IsPoint, Sets, CreatesMutex;
    if w.mutexes[m] != [] {
      var ref := w.mutexes[m][0];
      assert ref in w.mutexes[m];
      assert IsPoint(prog, ref.pt) && Sets(prog, m, ref.pt, ref.i);
    }
    if pt: Point, i: nat :| IsPoint(prog, pt) && Sets(prog, m, pt, i) {
      assert TransRef(pt, i) in w.mutexes[m];
    }
  }

  /** Taking a mutex from the queue. */
  lemma TookMutex(prog: Program, w: World, m: Point, seen: seq<Point>, linked: set<Point>)
    requires Drained(prog, w, seen, linked) && NewMutexTask(m) in w.tasks
    ensures Drained(prog, w.(tasks := w.tasks - multiset{NewMutexTask(m)}), seen + [m], linked)
  {
    hide WaitAt, TaskOf;
    var w' := w.(tasks := w.tasks - multiset{NewMutexTask(m)});
    assert w.tasks[NewMutexTask(m)] == 1 && Expected(prog, w, NewMutexTask(m));
    assert forall task: Task :: task in w'.tasks <==> task in w.tasks && task != NewMutexTask(m);
    assert forall m': Point :: m' in seen + [m] <==> m' in seen || m' == m;
  }

  /** The wait is linked to the first `n` mutexes seen. */
  ghost predicate Linking(prog: Program, w: World, w': World, seen: seq<Point>, n: nat, task: Task)
    requires task.LinkMutexToCondvar?
  {
    && w' == w.(conditions := w'.conditions, places := w'.places, transitions := w'.transitions)
    && n <= |seen|
    && (forall m: Point, p: Point :: (m, p) in w'.conditions <==>
          (m, p) in w.conditions || (p == task.at && m in seen[..n] && m in w.mutexes && w.mutexes[m] != []))
  }

  lemma LinkingNext(prog: Program, w: World, w': World, seen: seq<Point>, n: nat, task: Task)
    requires task.LinkMutexToCondvar? && Linking(prog, w, w', seen, n, task) && n < |seen| && seen[n] in w'.mutexes
    ensures Linking(prog, w, LinkedWorld(w', seen[n], task), seen, n + 1, task)
  {
    assert seen[..n + 1] == seen[..n] + [seen[n]];
    assert forall m: Point :: m in seen[..n + 1] <==> m in seen[..n] || m == seen[n];
  }

  lemma LinkingCan(prog: Program, w: World, w': World, seen: seq<Point>, linked: set<Point>, n: nat, task: Task)
    requires task.LinkMutexToCondvar? && Expected(prog, w, task) && Linking(prog, w, w', seen, n, task) && n < |seen|
    requires Drained(prog, w.(tasks := w.tasks + multiset{task}), seen, linked)
    ensures CanLink(prog, w', seen[n], task)
  {
    hide WaitAt, TaskOf;
    var queue := w.(tasks := w.tasks + multiset{task});
    assert seen[n] in seen;
    assert task in queue.tasks && Expected(prog, queue, task);
    assert seen[n] !in seen[..n];
  }

  /** Taking a wait from the queue, with no mutex left in it, and linking it to all mutexes. */
  lemma TookWait(prog: Program, w: World, w': World, seen: seq<Point>, linked: set<Point>, task: Task)
    requires task.LinkMutexToCondvar? && Drained(prog, w, seen, linked) && task in w.tasks
    requires forall m: Point :: NewMutexTask(m) !in w.tasks
    requires Linking(prog, w.(tasks := w.tasks - multiset{task}), w', seen, |seen|, task)
    ensures Drained(prog, w', seen, linked + {task.at})
  {
    hide WaitAt, Expected;
    assert seen[..|seen|] == seen;
    assert w.tasks[task] == 1;
    LinkTask(prog, w, task);
    assert forall task': Task :: w'.tasks[task'] == if task' == task then 0 else w.tasks[task'];
    SameExpected(prog, w, w');
  }

  lemma SameExpected(prog: Program, w: World, w': World)
    requires w.mutexes == w'.mutexes && w.visited == w'.visited
    ensures forall task: Task :: Expected(prog, w, task) == Expected(prog, w', task)
    ensures forall task: Task, other: Task ::
      (&& task.LinkMutexToCondvar? && other.LinkMutexToCondvar? && task.at == other.at
       && Expected(prog, w, task) && Expected(prog, w, other)) ==> task == other
  {
    hide WaitAt;
  }

  /** What linking a mutex and a wait needs of the net. */
  lemma LinkReady(prog: Program, w: World, m: Point, task: Task)
    requires CanLink(prog, w, m, task) && PostInv(prog, w)
    ensures task.waitStart.CondvarRef? && task.waitStart in w.transitions
    ensures task.startPlace in w.places && task.endPlace in w.places
    ensures ConditionNotSet(m, task.at) !in w.places && ConditionSet(m, task.at) !in w.places && SkipRef(m, task.at) !in w.transitions
    ensures forall i :: 0 <= i < |w.mutexes[m]| ==> w.mutexes[m][i].TransRef? && w.mutexes[m][i] in w.transitions
    ensures forall i, j :: 0 <= i < j < |w.mutexes[m]| ==> w.mutexes[m][i] != w.mutexes[m][j]
  {
    hide EffectAt, WaitAt, PlaceOf, DestPlace, InvEdges, InvMutexes, Complete, CreatesCondvar, Expected, Sets, Actions;
    LinkTask(prog, w, task);
    SettersReady(prog, w, m);
  }

  lemma SettersReady(prog: Program, w: World, m: Point)
    requires InvMutexes(prog, w) && InvKeys(prog, w) && m in w.mutexes
    ensures forall i :: 0 <= i < |w.mutexes[m]| ==> w.mutexes[m][i].TransRef? && w.mutexes[m][i] in w.transitions
    ensures forall i, j :: 0 <= i < j < |w.mutexes[m]| ==> w.mutexes[m][i] != w.mutexes[m][j]
  {
    hide CreatesMutex, Actions;
    forall i | 0 <= i < |w.mutexes[m]| ensures w.mutexes[m][i].TransRef? && w.mutexes[m][i] in w.transitions {
      var ref := w.mutexes[m][i];
      assert ref in w.mutexes[m] && ref == TransRef(ref.pt, ref.i);
    }
  }

  /** A task of the highest priority: a mutex if there is one left. */
  lemma HighestPriority(tasks: multiset<Task>)
    requires tasks != multiset{}
    ensures exists task :: task in tasks && forall other :: other in tasks ==> Priority(other) <= Priority(task)
  {
    var any :| any in tasks;
    if task :| task in tasks && task.NewMutexTask? {
      assert forall other :: other in tasks ==> Priority(other) <= Priority(task);
    } else {
      assert forall other :: other in tasks ==> Priority(other) <= Priority(any);
    }
  }

  /** The net after postprocessing is the net of the program. */
  lemma IsTheNet(prog: Program, w: World, seen: seq<Point>, linked: set<Point>)
    requires PostInv(prog, w) && Drained(prog, w, seen, linked) && w.tasks == multiset{}
    ensures IsNetOf(prog, Net(w.places, w.transitions), Ctx(w))
  {
    hide EffectAt, Actions, WaitAt, PlaceOf, DestPlace, CreatesMutex, CreatesCondvar, IsPoint, IsThread, Home, Sets, Drained, IsConditionPair, Tokens,
      EdgeOf;
    AllLinked(prog, w, seen, linked);
    assert forall pt :: pt in w.visited <==> IsPoint(prog, pt);
    IsTheContext(prog, w);
  }

  lemma IsTheContext(prog: Program, w: World)
    requires InvCondvars(prog, w) && Complete(prog, w)
    requires forall m: Point, p: Point :: (m, p) in w.conditions <==> IsConditionPair(prog, m, p)
    ensures IsContext(prog, Ctx(w))
  {
    hide WaitAt, PlaceOf, DestPlace, CreatesMutex, CreatesCondvar, IsPoint, IsThread, Home, IsConditionPair;
    assert forall pt :: pt in w.visited <==> IsPoint(prog, pt);
  }

  lemma NothingLinked(prog: Program, w: World, seen: seq<Point>, task: Task)
    requires task.LinkMutexToCondvar?
    ensures Linking(prog, w, w, seen, 0, task)
  {
    assert seen[..0] == [];
  }

  lemma TaskTaken(prog: Program, w: World, w': World, seen: seq<Point>, linked: set<Point>, task: Task)
    requires PostInv(prog, w) && Drained(prog, w, seen, linked) && task in w.tasks && w' == w.(tasks := w.tasks - multiset{task})
    ensures PostInv(prog, w') && Expected(prog, w', task) && w == w'.(tasks := w'.tasks + multiset{task})
  {
    hide PostInv, WaitAt, TaskOf;
    assert w.tasks == w'.tasks + multiset{task};
    TasksDoNotMatter(prog, w, w');
  }

  lemma TasksDoNotMatter(prog: Program, w: World, w': World)
    requires PostInv(prog, w) && w' == w.(tasks := w'.tasks)
    ensures PostInv(prog, w')
  {
    hide EffectAt, WaitAt, PlaceOf, DestPlace, Actions, IsPoint, IsThread, Home, CreatesMutex, CreatesCondvar, Sets, EdgeOf, Tokens;
    assert Ctx(w) == Ctx(w');
  }
}
