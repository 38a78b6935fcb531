/** The net and the program simulate each other: a state of the program corresponds to a marking of the net, a step of
    the program to at most one firing, and a firing to a step after entering the called functions. */
module Simulation {
  import opened Wrappers
  import opened PetriNets
  import opened Mir
  import opened ControlPoints
  import opened AliasMemory
  import opened Blueprint
  import opened Worlds
  import opened Frames
  import opened Progress
  import opened Points
  import opened Aliases
  import opened NetLaws
  import opened Condvars
  import opened Arcs
  import opened Control
  import opened Mutexes
  import opened Links
  import opened Machine
  import opened Paths

  // ---------------------------------------------------------------------------------------------
  // Which programs are covered

  /** The program synchronises with mutexes, spawns and joins only, and joins a thread only in the thread that spawned it. */
  ghost predicate Supported(prog: Program) {
    forall pt: Point :: IsPoint(prog, pt) ==>
      && !CreatesCondvar(prog, pt) && WaitAt(prog, pt).None?
      && forall i :: 0 <= i < |Actions(prog, pt)| ==> SupportedAction(pt, Actions(prog, pt)[i])
  }

  ghost predicate SupportedAction(pt: Point, a: Action) {
    !a.NotifyOne? && (a.JoinThread? ==> a.thread.Spawned? && a.thread.parent == pt.thread)
  }

  /** What is to be known of a program, place by place and block by block: the held-counts of its mutexes, the places
      whose objects are needed, and the blocks that clean up after a called function, each with a bound on what is left to
      do there. */
  datatype Notes = Notes(held: Point -> Weighing, need: Needs, cleanup: Point -> Option<nat>)

  /** Every mutex is locked and unlocked in a disciplined way. */
  ghost predicate GuardDisciplined(prog: Program, ctx: Context, notes: Notes) {
    forall m: Point :: IsMutex(prog, m) ==> Disciplined(prog, ctx, m, notes.held(m))
  }

  /** The objects of the translator are those of the program along every edge. */
  ghost predicate Aligned(prog: Program, notes: Notes) {
    forall pt: Point :: IsPoint(prog, pt) && Located(prog, pt) ==> Closed(prog, pt, notes.need) && EdgesAgree(prog, pt, notes.need)
  }

  /** A spawned thread does not abort the program. */
  ghost predicate NeverAborts(prog: Program, pt: Point)
    requires Located(prog, pt)
  {
    && (forall i :: 0 <= i < |Actions(prog, pt)| && !Actions(prog, pt)[i].Vanish? && Actions(prog, pt)[i].dest.ToPanic? ==>
          Resuming(EndOf(prog, pt)) && !Lands(prog, pt.stack[..|pt.stack| - 1]).Aborted?)
    && (EndOf(prog, pt).Return? && |pt.stack| > 1 && Located(prog, CallerOf(pt)) && EndOf(prog, CallerOf(pt)).Call? ==>
          !(EndOf(prog, CallerOf(pt)).returnTo.None? && EndOf(prog, CallerOf(pt)).unwind.Terminate?))
  }

  /** Cleaning up neither waits nor takes for ever, and goes on cleaning up. */
  ghost predicate CleansOn(prog: Program, pt: Point, cleanup: Point -> Option<nat>)
    requires Located(prog, pt)
  {
    && (forall i :: 0 <= i < |Actions(prog, pt)| ==> !Actions(prog, pt)[i].Acquire? && !Actions(prog, pt)[i].JoinThread? && !Actions(prog, pt)[i].Vanish?)
    && (forall q: Point :: Follows(prog, pt, q) ==> cleanup(q).Some?)
  }

  /** Whether there is less left to do after going on to `dest`. */
  ghost predicate NearerTheEnd(prog: Program, pt: Point, dest: Dest, cleanup: Point -> Option<nat>)
    requires Located(prog, pt) && cleanup(pt).Some?
  {
    match dest
    case ToBlock(b) => cleanup(BlockOf(pt, b)).Some? && cleanup(BlockOf(pt, b)).value < cleanup(pt).value
    case ToPanic => UnwindsTo(prog, pt).Some? ==> cleanup(UnwindsTo(prog, pt).value).Some? && cleanup(UnwindsTo(prog, pt).value).value < cleanup(pt).value
    case _ => false
  }

  /** Cleaning up in a spawned thread is of no concern to the others, and can come to an end. */
  ghost predicate CleansAlone(prog: Program, pt: Point, cleanup: Point -> Option<nat>)
    requires Located(prog, pt) && cleanup(pt).Some?
  {
    && Calls(prog, pt.stack[|pt.stack| - 1]).None?
    && (forall i :: 0 <= i < |Actions(prog, pt)| ==> Actions(prog, pt)[i].Flow? && (Actions(prog, pt)[i].dest.ToBlock? || Actions(prog, pt)[i].dest.ToPanic?))
    && (exists i :: 0 <= i < |Actions(prog, pt)| && NearerTheEnd(prog, pt, Actions(prog, pt)[i].dest, cleanup))
  }

  /** Where unwinding out of a called function leads. */
  ghost predicate UnwindsWell(prog: Program, pt: Point, cleanup: Point -> Option<nat>)
    requires Located(prog, pt)
  {
    && (UnwindsTo(prog, pt).Some? ==> cleanup(UnwindsTo(prog, pt).value).Some?)
    && (pt.thread.Spawned? ==> NeverAborts(prog, pt))
    && (cleanup(pt).Some? ==> CleansOn(prog, pt, cleanup) && (pt.thread.Spawned? ==> CleansAlone(prog, pt, cleanup)))
  }

  ghost predicate CleansUp(prog: Program, notes: Notes) {
    forall pt: Point :: IsPoint(prog, pt) && Located(prog, pt) ==> UnwindsWell(prog, pt, notes.cleanup)
  }

  /** The net of an accepted, supported, disciplined and aligned program that cleans up well. */
  ghost predicate Covered(prog: Program, net: ProgramNet, ctx: Context, notes: Notes) {
    && Translatable(prog) && IsNetOf(prog, net, ctx) && Supported(prog)
    && GuardDisciplined(prog, ctx, notes) && Aligned(prog, notes) && CleansUp(prog, notes)
  }

  lemma NoCondvars(prog: Program, net: ProgramNet, ctx: Context, notes: Notes)
    requires Covered(prog, net, ctx, notes)
    ensures ctx.conditions == {} && ctx.waits == map[]
    ensures forall ref :: ref in net.transitions ==> ref.TransRef?
  {
    hide IsPoint, WaitAt, Actions, CreatesCondvar, CreatesMutex, EdgeOf, Tokens, IsPlaceOf, GuardDisciplined, Translatable, IsThread, Sets, SupportedAction, CleansUp;
    assert forall c :: c in ctx.conditions ==> (c.0, c.1) in ctx.conditions && IsConditionPair(prog, c.0, c.1);
    forall ref | ref in net.transitions ensures ref.TransRef? {
      match ref
      case TransRef(_, _) =>
      case CondvarRef(_, _) =>
      case SkipRef(_, _) =>
    }
  }

  // ---------------------------------------------------------------------------------------------
  // States and markings

  /** The place of a thread. One that resumed unwinding in a called function is over for the net, and one that is busy for
      ever has no place. */
  function PlaceWhere(activity: Activity): Option<PlaceRef> {
    match activity
    case At(pt, _, _, unwinding) => Some(if unwinding then PanicPlace(pt.thread) else PlaceOf(pt.thread, pt.stack))
    case Busy(_) => None
    case Ended => Some(ProgramEnd)
    case Panicked => Some(ProgramPanic)
    case Finished(t) => Some(ThreadEnd(t))
  }

  function OnPlace(p: PlaceRef): Activity -> int {
    (activity: Activity) => if PlaceWhere(activity) == Some(p) then 1 else 0
  }

  ghost function CountAt(running: multiset<Activity>, p: PlaceRef): int {
    Weight(running, OnPlace(p))
  }

  /** A marking stands for a state: a token for every thread, and one for every mutex that is free. */
  ghost predicate StandsFor(net: ProgramNet, m: multiset<PlaceRef>, s: State) {
    forall p: PlaceRef :: m[p] == if p.MutexPlace? then One(p in net.places && p.id !in s.held) else CountAt(s.running, p)
  }

  /** All threads are at points of the program, with the objects the translator has there. */
  ghost predicate Tracking(prog: Program, notes: Notes, s: State) {
    forall who: Activity :: who in s.running && who.At? ==> Tracked(prog, notes.need, who) && (who.unwinding ==> notes.cleanup(who.pt).Some?)
  }

  /** The main thread ended or panicked, or is on its way out. */
  predicate IsOut(activity: Activity) {
    activity.Ended? || activity.Panicked? || (activity.At? && activity.pt.thread.MainThread? && activity.unwinding)
  }

  ghost predicate Over(s: State) {
    exists activity: Activity :: activity in s.running && IsOut(activity)
  }

  /** Until the main thread is over, the marking stands for the state. */
  ghost predicate Matches(net: ProgramNet, m: multiset<PlaceRef>, s: State) {
    if Over(s) then m[ProgramEnd] + m[ProgramPanic] > 0 else StandsFor(net, m, s)
  }

  /** What a thread can do in the program is what its point can do in the net. */
  lemma MovesInNet(prog: Program, net: ProgramNet, ctx: Context, notes: Notes, s: State, who: Activity)
    requires Covered(prog, net, ctx, notes) && Tracking(prog, notes, s) && who in s.running && who.At?
    ensures IsThere(prog, who) && MovesAt(prog, who.pt, who.cells) == Actions(prog, who.pt)
  {
    hide IsNetOf, Supported, GuardDisciplined, Translatable, IsPoint, EffectAt, MovesAt, Actions, Closed, EdgesAgree, ResolvesAlike, Tracked, CleansUp;
    IsTracked(prog, notes.need, who);
    ResolvedFromEdges(prog, notes.need, who);
    EffectDefined(prog, who.pt);
    MovesAreActions(prog, who.pt, who.cells);
  }

  /** A thread that goes on to `dest` does not abort the program, unless it is the main thread. */
  ghost predicate LeavesWell(prog: Program, pt: Point, dest: Dest)
    requires Located(prog, pt)
  {
    && (pt.thread.Spawned? && dest.ToPanic? ==> Resuming(EndOf(prog, pt)) && !Lands(prog, pt.stack[..|pt.stack| - 1]).Aborted?)
    && (pt.thread.Spawned? && dest.ToReturn? && |pt.stack| > 1 && Located(prog, CallerOf(pt)) && EndOf(prog, CallerOf(pt)).Call? ==>
          !(EndOf(prog, CallerOf(pt)).returnTo.None? && EndOf(prog, CallerOf(pt)).unwind.Terminate?))
  }

  lemma ArrivesAt(prog: Program, who: Activity, dest: Dest, cells: Cells)
    requires IsThere(prog, who) && !who.unwinding && LeavesWell(prog, who.pt, dest)
    ensures PlaceWhere(Arrives(prog, who, dest, cells)) == Some(DestPlace(prog, who.pt, dest))
  {
    hide Home, Received, Lands, IsPoint;
    if dest.ToReturn? && |who.pt.stack| > 1 {
      assert CallerOf(who.pt).stack[|who.pt.stack| - 2] == who.pt.stack[..|who.pt.stack| - 1][|who.pt.stack| - 2];
    }
  }

  lemma CountReplaced(running: multiset<Activity>, was: Activity, becomes: Activity, p: PlaceRef)
    requires was in running
    ensures CountAt(running - multiset{was} + multiset{becomes}, p)
         == CountAt(running, p) - One(PlaceWhere(was) == Some(p)) + One(PlaceWhere(becomes) == Some(p))
  {
    hide PlaceWhere;
    WeightRemove(running, OnPlace(p), was);
    WeightSum(running - multiset{was}, multiset{becomes}, OnPlace(p));
    WeightOne(becomes, OnPlace(p));
  }

  lemma CountAdded(running: multiset<Activity>, activity: Activity, p: PlaceRef)
    ensures CountAt(running + multiset{activity}, p) == CountAt(running, p) + One(PlaceWhere(activity) == Some(p))
  {
    hide PlaceWhere;
    WeightSum(running, multiset{activity}, OnPlace(p));
    WeightOne(activity, OnPlace(p));
  }

  lemma CountRemoved(running: multiset<Activity>, activity: Activity, p: PlaceRef)
    requires activity in running
    ensures CountAt(running - multiset{activity}, p) == CountAt(running, p) - One(PlaceWhere(activity) == Some(p))
  {
    hide PlaceWhere;
    WeightRemove(running, OnPlace(p), activity);
  }

  /** A marked place has a thread at it. */
  lemma Somebody(running: multiset<Activity>, p: PlaceRef) returns (activity: Activity)
    requires CountAt(running, p) > 0
    ensures activity in running && PlaceWhere(activity) == Some(p)
  {
    hide PlaceWhere;
    activity := Heavy(running, OnPlace(p));
  }

  lemma CountIsPositive(running: multiset<Activity>, activity: Activity, p: PlaceRef)
    requires activity in running && PlaceWhere(activity) == Some(p)
    ensures CountAt(running, p) >= 1
  {
    hide PlaceWhere;
    var w := OnPlace(p);
    WeightOne(activity, w);
    WeightPart(multiset{activity}, running, w);
  }

  // ---------------------------------------------------------------------------------------------
  // One step

  /** A mutex is held wherever a guard of it is dropped. */
  lemma MutexFree(prog: Program, net: ProgramNet, ctx: Context, notes: Notes, m: multiset<PlaceRef>, s: State, pt: Point, i: nat)
    requires Covered(prog, net, ctx, notes) && Reachable(net, m) && StandsFor(net, m, s)
    requires IsPoint(prog, pt) && pt.stack != [] && i < |Actions(prog, pt)| && PlaceOf(pt.thread, pt.stack) in m
    requires Actions(prog, pt)[i].Release? && IsMutex(prog, Actions(prog, pt)[i].mutex)
    ensures Actions(prog, pt)[i].mutex in s.held
  {
    hide IsPoint, CreatesMutex, WaitAt, Actions, EdgeOf, Tokens, Translatable, IsThread, IsContext, Supported, Weight, DestPlace, Home, WaitBalanced, CountAt, Aligned, CleansUp;
    var mutex := Actions(prog, pt)[i].mutex;
    var m0: multiset<PlaceRef>, run: seq<TransRef> :| IsInitial(net, m0) && After(net, m0, run) == Some(m);
    var here := PlaceOf(pt.thread, pt.stack);
    assert Disciplined(prog, ctx, mutex, notes.held(mutex));
    assert Balanced(prog, ctx, mutex, notes.held(mutex), pt, Actions(prog, pt)[i]);
    MutualExclusion(prog, net, ctx, m0, run, mutex, notes.held(mutex), here, here);
    assert MutexPlace(mutex) in net.places;
  }

  /** No spawned thread is cleaning up after a called function. */
  ghost predicate Settled(s: State) {
    forall who: Activity :: who in s.running && who.At? && who.pt.thread.Spawned? ==> !who.unwinding
  }

  /** An action can be taken in a state exactly if its transition is enabled in the marking, once all threads that are over
      for the net have cleaned up. */
  lemma ReadyIffEnabled(prog: Program, net: ProgramNet, ctx: Context, notes: Notes, m: multiset<PlaceRef>, s: State, pt: Point, i: nat)
    requires Covered(prog, net, ctx, notes) && StandsFor(net, m, s) && IsPoint(prog, pt) && pt.stack != [] && i < |Actions(prog, pt)|
    requires PlaceOf(pt.thread, pt.stack) in m
    ensures TransRef(pt, i) in net.transitions
    ensures Unblocked(s, Actions(prog, pt)[i]) ==> Enabled(net, m, TransRef(pt, i))
    ensures Settled(s) && Enabled(net, m, TransRef(pt, i)) ==> Unblocked(s, Actions(prog, pt)[i])
  {
    hide IsPoint, WaitAt, Actions, EdgeOf, Tokens, IsThread, IsContext, GuardDisciplined, DestPlace, Home, CountAt, EdgeOfAction, CreatesMutex, CreatesCondvar, Faulty,
      WellFormed, Aligned, CleansUp, Settled;
    var a := Actions(prog, pt)[i];
    var ref := TransRef(pt, i);
    assert ref in net.transitions;
    EdgeOfPoint(prog, net, ctx, ref);
    assert SupportedAction(pt, a);
    ActionSound(prog, net, ctx, pt, i);
    NoCondvars(prog, net, ctx, notes);
    PreOf(prog, net, ctx, pt, a);
    match a
    case JoinThread(t, _) => FinishedCount(net, m, s, t);
    case _ =>
  }

  lemma ActionSound(prog: Program, net: ProgramNet, ctx: Context, pt: Point, i: nat)
    requires Translatable(prog) && IsNetOf(prog, net, ctx) && IsPoint(prog, pt) && i < |Actions(prog, pt)|
    ensures SoundAction(prog, Actions(prog, pt)[i])
  {
    hide IsPoint, EffectAt, Translatable, IsNetOf;
    EffectDefined(prog, pt);
    AliasSoundness(prog, net, ctx, pt);
  }

  /** The input arcs of an action, in a program without condvars. */
  lemma PreOf(prog: Program, net: ProgramNet, ctx: Context, pt: Point, a: Action)
    requires IsNetOf(prog, net, ctx) && pt.stack != [] && ctx.conditions == {} && SupportedAction(pt, a) && SoundAction(prog, a)
    ensures EdgeOfAction(prog, ctx, pt, a).pre == multiset{PlaceOf(pt.thread, pt.stack)} +
      match a
      case Acquire(m, _) => multiset{MutexPlace(m)}
      case JoinThread(t, _) => multiset{ThreadEnd(t)}
      case _ => multiset{}
  {
    hide IsPoint, EdgeOf, Tokens, IsPlaceOf, DestPlace, Home, CreatesMutex, CreatesCondvar, IsThread;
    if a.SetCondition? {
      assert NotSetOfMutex(ctx, a.mutex) == {};
    }
  }

  lemma FinishedCount(net: ProgramNet, m: multiset<PlaceRef>, s: State, t: ThreadName)
    requires StandsFor(net, m, s)
    ensures Finished(t) in s.running ==> ThreadEnd(t) in m
    ensures Settled(s) && ThreadEnd(t) in m ==> Finished(t) in s.running
  {
    hide CountAt;
    if ThreadEnd(t) in m {
      var activity := Somebody(s.running, ThreadEnd(t));
    }
    if Finished(t) in s.running {
      CountIsPositive(s.running, Finished(t), ThreadEnd(t));
    }
  }

  /** How many threads an action moves to a place, less those it moves away. */
  lemma ActCounts(prog: Program, s: State, who: Activity, a: Action, returned: bool, p: PlaceRef)
    requires IsThere(prog, who) && !who.unwinding && who in s.running && Unblocked(s, a) && (!a.Vanish? ==> LeavesWell(prog, who.pt, a.dest))
    ensures CountAt(Acts(prog, s, who, a, returned).running, p) == CountAt(s.running, p)
      - One(p == PlaceOf(who.pt.thread, who.pt.stack)) + One(!a.Vanish? && p == DestPlace(prog, who.pt, a.dest))
      + One(a.SpawnThread? && p == PlaceOf(a.thread, [Site(a.f, 0)])) - One(a.JoinThread? && p == ThreadEnd(a.thread))
  {
    hide CountAt, DestPlace, PlaceOf, Arrives, IsPoint, Passed, ThreadMemory, LeavesWell;
    if a.Vanish? {
      CountReplaced(s.running, who, Busy(who.pt.thread), p);
    } else {
      var becomes := Arrives(prog, who, a.dest, Passed(prog, who.pt, who.cells, returned));
      ArrivesAt(prog, who, a.dest, Passed(prog, who.pt, who.cells, returned));
      var moved := s.running - multiset{who} + multiset{becomes};
      CountReplaced(s.running, who, becomes, p);
      if a.SpawnThread? {
        CountAdded(moved, Starts(a.thread, a.f, ThreadMemory(prog, a.f, a.aggregate)), p);
      }
      if a.JoinThread? {
        CountRemoved(moved, Finished(a.thread), p);
      }
    }
  }

  lemma FireControl(prog: Program, net: ProgramNet, ctx: Context, m: multiset<PlaceRef>, s: State, who: Activity, i: nat, returned: bool, p: PlaceRef)
    requires IsNetOf(prog, net, ctx) && IsThere(prog, who) && !who.unwinding && i < |Actions(prog, who.pt)|
    requires Enabled(net, m, TransRef(who.pt, i)) && !p.MutexPlace? && m[p] == CountAt(s.running, p) && ctx.conditions == {}
    requires who in s.running && Unblocked(s, Actions(prog, who.pt)[i])
    requires SupportedAction(who.pt, Actions(prog, who.pt)[i]) && SoundAction(prog, Actions(prog, who.pt)[i])
    requires !Actions(prog, who.pt)[i].Vanish? ==> LeavesWell(prog, who.pt, Actions(prog, who.pt)[i].dest)
    ensures Fire(net, m, TransRef(who.pt, i))[p] == CountAt(Acts(prog, s, who, Actions(prog, who.pt)[i], returned).running, p)
  {
    hide CountAt, DestPlace, Acts, EdgeOfAction, Actions, IsPoint, Home, EdgeOf, Tokens, IsPlaceOf, IsThread, CreatesMutex, CreatesCondvar, LeavesWell;
    var pt := who.pt;
    var a := Actions(prog, pt)[i];
    EdgeOfPoint(prog, net, ctx, TransRef(pt, i));
    ActCounts(prog, s, who, a, returned, p);
    if !a.Vanish? {
      DestIsControl(prog, pt, a.dest);
    }
    if a.SpawnThread? {
      SpawnIsPrepared(prog, net, ctx, pt, i);
      assert Home([Site(a.f, 0)]) == [Site(a.f, 0)] by { SingleIsHome(Site(a.f, 0)); }
    }
    if IsControl(p) {
      ControlCounts(prog, ctx, pt, a, p);
    } else {
      SharedCounts(prog, ctx, pt, a, p);
    }
  }

  lemma SingleIsHome(site: Site)
    ensures Home([site]) == [site]
  {
  }

  lemma FireMutex(prog: Program, net: ProgramNet, ctx: Context, m: multiset<PlaceRef>, s: State, who: Activity, i: nat, returned: bool, mutex: Point)
    requires IsNetOf(prog, net, ctx) && IsThere(prog, who) && i < |Actions(prog, who.pt)|
    requires Enabled(net, m, TransRef(who.pt, i)) && m[MutexPlace(mutex)] == One(MutexPlace(mutex) in net.places && mutex !in s.held)
    requires SupportedAction(who.pt, Actions(prog, who.pt)[i]) && SoundAction(prog, Actions(prog, who.pt)[i]) && Unblocked(s, Actions(prog, who.pt)[i])
    requires Actions(prog, who.pt)[i].Release? ==> Actions(prog, who.pt)[i].mutex in s.held
    ensures Fire(net, m, TransRef(who.pt, i))[MutexPlace(mutex)]
         == One(MutexPlace(mutex) in net.places && mutex !in Acts(prog, s, who, Actions(prog, who.pt)[i], returned).held)
  {
    hide DestPlace, EdgeOfAction, Actions, IsPoint, Home, EdgeOf, Tokens, IsContext, CreatesMutex, CreatesCondvar, Arrives, IsThread, Passed, ThreadMemory;
    var a := Actions(prog, who.pt)[i];
    EdgeOfPoint(prog, net, ctx, TransRef(who.pt, i));
    SharedCounts(prog, ctx, who.pt, a, MutexPlace(mutex));
  }

  lemma MoveLeavesWell(prog: Program, notes: Notes, who: Activity, i: nat)
    requires CleansUp(prog, notes) && IsThere(prog, who) && i < |MovesAt(prog, who.pt, who.cells)| && MovesAt(prog, who.pt, who.cells) == Actions(prog, who.pt)
    requires !Actions(prog, who.pt)[i].Vanish?
    ensures LeavesWell(prog, who.pt, Actions(prog, who.pt)[i].dest)
  {
    hide IsPoint, Actions, Lands, Calls, UnwindsTo, CleansOn, CleansAlone, CallMoves, AtEnd;
    assert UnwindsWell(prog, who.pt, notes.cleanup);
    if Actions(prog, who.pt)[i].dest.ToReturn? {
      MoveIsExit(FunctionAt(prog, who.pt), who.pt, AtEnd(prog, who.pt, who.cells), EndOf(prog, who.pt), i);
    }
  }

  /** Taking a move and firing its transition lead to a state and a marking that correspond again. */
  lemma ActionSimulated(prog: Program, net: ProgramNet, ctx: Context, notes: Notes, m: multiset<PlaceRef>, s: State, who: Activity, i: nat)
    requires Covered(prog, net, ctx, notes) && Reachable(net, m) && StandsFor(net, m, s) && Tracking(prog, notes, s)
    requires CanAct(prog, s, who, i) && !who.unwinding
    ensures Enabled(net, m, TransRef(who.pt, i))
    ensures StandsFor(net, Fire(net, m, TransRef(who.pt, i)), Taken(prog, s, who, i))
  {
    hide CountAt, DestPlace, Acts, Actions, IsPoint, Home, IsNetOf, Fire, Enabled, SoundAction, Unblocked, GuardDisciplined, Translatable, CreatesCondvar, WaitAt,
      Aligned, Tracking, MovesAt, Returned, CleansUp, LeavesWell;
    MovesInNet(prog, net, ctx, notes, s, who);
    var pt, a := who.pt, Actions(prog, who.pt)[i];
    var returned := Returned(EndOf(prog, pt), i);
    assert SupportedAction(pt, a);
    HereIsMarked(net, m, s, who);
    ActionSound(prog, net, ctx, pt, i);
    NoCondvars(prog, net, ctx, notes);
    ReadyIffEnabled(prog, net, ctx, notes, m, s, pt, i);
    if a.Release? {
      ReleasedMutex(prog, a);
      MutexFree(prog, net, ctx, notes, m, s, pt, i);
    }
    if !a.Vanish? {
      MoveLeavesWell(prog, notes, who, i);
    }
    var m', s' := Fire(net, m, TransRef(pt, i)), Acts(prog, s, who, a, returned);
    forall p: PlaceRef ensures m'[p] == if p.MutexPlace? then One(p in net.places && p.id !in s'.held) else CountAt(s'.running, p) {
      if p.MutexPlace? {
        FireMutex(prog, net, ctx, m, s, who, i, returned, p.id);
      } else {
        FireControl(prog, net, ctx, m, s, who, i, returned, p);
      }
    }
  }

  lemma HereIsMarked(net: ProgramNet, m: multiset<PlaceRef>, s: State, who: Activity)
    requires StandsFor(net, m, s) && who in s.running && who.At? && !who.unwinding
    ensures PlaceOf(who.pt.thread, who.pt.stack) in m
  {
    hide CountAt;
    CountIsPositive(s.running, who, PlaceOf(who.pt.thread, who.pt.stack));
  }

  lemma ReleasedMutex(prog: Program, a: Action)
    requires SoundAction(prog, a) && a.Release?
    ensures IsMutex(prog, a.mutex)
  {
  }
}
