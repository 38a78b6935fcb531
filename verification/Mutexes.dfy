/** The mutex invariant: in a program that locks and unlocks in a disciplined way, the mutex and its holders share one
    token. Discipline is a held-count for every place: how many guards of the mutex a thread has at that place. */
module Mutexes {
  import opened Wrappers
  import opened PetriNets
  import opened Mir
  import opened ControlPoints
  import opened AliasMemory
  import opened Blueprint
  import opened Aliases
  import opened NetLaws
  import opened Condvars
  import opened Control

  ghost predicate IsMutex(prog: Program, m: Point) {
    IsPoint(prog, m) && CreatesMutex(prog, m)
  }

  /** The places where threads end. */
  predicate Terminal(p: PlaceRef) {
    p.ProgramEnd? || p.ProgramPanic? || p.ThreadEnd?
  }

  /** The guards of the mutex a thread has after an action: one more after a lock, one less after an unlock. */
  ghost function GuardsAfter(m: Point, h: Weighing, pt: Point, a: Action): int {
    h(PlaceOf(pt.thread, pt.stack)) + One(a.Acquire? && a.mutex == m) - One(a.Release? && a.mutex == m)
  }

  /** The held-count of a place is the number of guards a thread has there. A thread that ends may have guards left, which
      are never dropped. */
  ghost predicate Fits(h: Weighing, p: PlaceRef, guards: int) {
    if Terminal(p) then h(p) <= guards else h(p) == guards
  }

  ghost predicate Balanced(prog: Program, ctx: Context, m: Point, h: Weighing, pt: Point, a: Action)
    requires pt.stack != []
  {
    && (!a.Vanish? ==> Fits(h, DestPlace(prog, pt, a.dest), GuardsAfter(m, h, pt, a)))
    && (a.SpawnThread? ==> h(Control(a.thread, [Site(a.f, 0)])) == 0)
    && (a.JoinThread? && LinkedJoin(ctx, pt.thread, a.thread) ==> h(ThreadEnd(a.thread)) == 0)
  }

  /** A wait starts with the guard it releases, and ends with the guard it got back. */
  ghost predicate WaitBalanced(prog: Program, m: Point, h: Weighing, link: WaitLink)
    requires link.at.stack != []
  {
    && h(PlaceOf(link.at.thread, link.at.stack)) == One(link.wait.mutex == m)
    && Fits(h, DestPlace(prog, link.at, link.wait.dest), One(link.wait.mutex == m))
  }

  ghost predicate Disciplined(prog: Program, ctx: Context, m: Point, h: Weighing) {
    && (forall p: PlaceRef :: h(p) >= 0)
    && (forall p: PlaceRef :: !IsControl(p) ==> h(p) == 0)
    && h(Control(MainThread, [Site(prog.main, 0)])) == 0
    && (forall pt: Point, i: nat :: IsPoint(prog, pt) && pt.stack != [] && i < |Actions(prog, pt)| ==>
          Balanced(prog, ctx, m, h, pt, Actions(prog, pt)[i]))
    && (forall c: Point :: c in ctx.waits && ctx.waits[c].at.stack != [] ==> WaitBalanced(prog, m, h, ctx.waits[c]))
  }

  /** A firing that ends a thread which still holds the mutex. */
  ghost predicate Forgets(prog: Program, ctx: Context, m: Point, h: Weighing, ref: TransRef) {
    match ref
    case TransRef(pt, i) =>
      && pt.stack != [] && i < |Actions(prog, pt)|
      && var a := Actions(prog, pt)[i];
         if a.Vanish? then h(PlaceOf(pt.thread, pt.stack)) > 0 else h(DestPlace(prog, pt, a.dest)) < GuardsAfter(m, h, pt, a)
    case CondvarRef(c, NotifyReceived) =>
      && c in ctx.waits && ctx.waits[c].at.stack != []
      && h(DestPlace(prog, ctx.waits[c].at, ctx.waits[c].wait.dest)) < One(ctx.waits[c].wait.mutex == m)
    case SkipRef(_, w) =>
      && w.stack != [] && WaitAt(prog, w).Some?
      && h(DestPlace(prog, w, WaitAt(prog, w).value.dest)) < h(PlaceOf(w.thread, w.stack))
    case _ => false
  }

  /** Weighs the token of the mutex and the guards the threads hold. */
  function MutexWeight(m: Point, h: Weighing): Weighing {
    (p: PlaceRef) => (if p == MutexPlace(m) then 1 else 0) + h(p)
  }

  /** A transition never adds to the weight, and takes away from it only by forgetting a guard. */
  ghost predicate KeepsWeight(prog: Program, ctx: Context, m: Point, h: Weighing, ref: TransRef, gain: int) {
    gain <= 0 && (gain == 0 <==> !Forgets(prog, ctx, m, h, ref))
  }

  lemma ActionMutexGain(prog: Program, net: ProgramNet, ctx: Context, m: Point, h: Weighing, pt: Point, i: nat)
    requires IsNetOf(prog, net, ctx) && Disciplined(prog, ctx, m, h)
    requires IsPoint(prog, pt) && pt.stack != [] && i < |Actions(prog, pt)|
    ensures KeepsWeight(prog, ctx, m, h, TransRef(pt, i), ActionGain(prog, ctx, pt, Actions(prog, pt)[i], MutexWeight(m, h)))
  {
    hide IsNetOf, Actions, DestPlace, Home, IsPoint;
    var a := Actions(prog, pt)[i];
    assert Balanced(prog, ctx, m, h, pt, a);
    if !a.Vanish? {
      DestIsControl(prog, pt, a.dest);
    }
  }

  lemma WaitMutexGain(prog: Program, ctx: Context, m: Point, h: Weighing, c: Point, role: Role)
    requires Disciplined(prog, ctx, m, h) && (c in ctx.waits ==> ctx.waits[c].at.stack != [])
    ensures KeepsWeight(prog, ctx, m, h, CondvarRef(c, role), GainAt(prog, ctx, CondvarRef(c, role), MutexWeight(m, h)))
  {
    hide Actions, DestPlace, Home, WaitAt, IsPoint, Balanced;
    if c in ctx.waits {
      assert WaitBalanced(prog, m, h, ctx.waits[c]);
      DestIsControl(prog, ctx.waits[c].at, ctx.waits[c].wait.dest);
    }
  }

  lemma MutexGain(prog: Program, net: ProgramNet, ctx: Context, m: Point, h: Weighing, ref: TransRef)
    requires IsNetOf(prog, net, ctx) && Disciplined(prog, ctx, m, h) && ref in net.transitions
    ensures KeepsWeight(prog, ctx, m, h, ref, Gain(net.transitions[ref], MutexWeight(m, h)))
  {
    hide IsNetOf, Actions, DestPlace, Home, WaitAt, Weight, IsPoint, Gain, ActionGain, Balanced;
    GainIs(prog, net, ctx, ref, MutexWeight(m, h));
    match ref
    case TransRef(pt, i) =>
      EdgeOfPoint(prog, net, ctx, ref);
      ActionMutexGain(prog, net, ctx, m, h, pt, i);
    case CondvarRef(c, role) =>
      EdgeOfCondvar(prog, net, ctx, ref);
      WaitMutexGain(prog, ctx, m, h, c, role);
    case SkipRef(_, p) =>
      EdgeOfSkip(prog, net, ctx, ref);
      assert WaitBalanced(prog, m, h, ctx.waits[WaitAt(prog, p).value.condvar]);
      DestIsControl(prog, p, WaitAt(prog, p).value.dest);
  }

  lemma MutexAtStart(prog: Program, net: ProgramNet, ctx: Context, m: Point, h: Weighing, m0: multiset<PlaceRef>)
    requires IsNetOf(prog, net, ctx) && IsInitial(net, m0) && IsMutex(prog, m) && Disciplined(prog, ctx, m, h)
    ensures Weight(m0, MutexWeight(m, h)) == 1
  {
    hide IsNetOf, IsPoint, CreatesMutex, Actions, Home, Balanced, WaitBalanced;
    forall p | p in m0 && p != MutexPlace(m) ensures MutexWeight(m, h)(p) == 0 {
      StartTokens(prog, net, ctx, m0, p);
    }
    StartTokens(prog, net, ctx, m0, MutexPlace(m));
    WeightOfOne(m0, MutexWeight(m, h), MutexPlace(m));
  }

  /** MUTEX + the guards held <= 1 in every run of a disciplined program, and = 1 as long as no thread ends with a guard. */
  lemma MutexInvariant(prog: Program, net: ProgramNet, ctx: Context, m0: multiset<PlaceRef>, run: seq<TransRef>, m: Point, h: Weighing)
    requires IsRun(prog, net, ctx, m0, run) && IsMutex(prog, m) && Disciplined(prog, ctx, m, h)
    ensures After(net, m0, run).value[MutexPlace(m)] + Weight(After(net, m0, run).value, h) <= 1
    ensures (forall ref :: ref in run && ref in net.transitions ==> !Forgets(prog, ctx, m, h, ref)) ==>
      After(net, m0, run).value[MutexPlace(m)] + Weight(After(net, m0, run).value, h) == 1
  {
    hide IsNetOf, IsMutex, Disciplined, Weight, Gain, After, Forgets;
    forall ref | ref in net.transitions ensures KeepsWeight(prog, ctx, m, h, ref, Gain(net.transitions[ref], MutexWeight(m, h))) {
      MutexGain(prog, net, ctx, m, h, ref);
    }
    MutexAtStart(prog, net, ctx, m, h, m0);
    WeightNeverGrows(net, m0, run, MutexWeight(m, h));
    var marking := After(net, m0, run).value;
    var token := (p: PlaceRef) => if p == MutexPlace(m) then 1 else 0;
    WeightPlus(marking, MutexWeight(m, h), token, h);
    WeightIsCount(marking, token, MutexPlace(m));
  }

  /** Mutual exclusion: at most one thread is at a place where it holds the mutex, the mutex is then locked, and a place
      reached by locking a mutex twice is never reached. */
  lemma MutualExclusion(prog: Program, net: ProgramNet, ctx: Context, m0: multiset<PlaceRef>, run: seq<TransRef>, m: Point, h: Weighing,
                        p: PlaceRef, q: PlaceRef)
    requires IsRun(prog, net, ctx, m0, run) && IsMutex(prog, m) && Disciplined(prog, ctx, m, h)
    requires p in After(net, m0, run).value && h(p) >= 1
    ensures After(net, m0, run).value[MutexPlace(m)] == 0 && After(net, m0, run).value[p] == 1 && h(p) == 1
    ensures q in After(net, m0, run).value && h(q) >= 1 ==> q == p
  {
    hide IsNetOf, IsMutex, Weight, After, Balanced, WaitBalanced, IsPoint, Actions;
    var marking := After(net, m0, run).value;
    MutexInvariant(prog, net, ctx, m0, run, m, h);
    WeightRemove(marking, h, p);
    var rest := marking - multiset{p};
    WeightNonNegative(rest, h);
    if other :| other in rest && h(other) >= 1 {
      WeightRemove(rest, h, other);
      WeightNonNegative(rest - multiset{other}, h);
    }
  }

  /** The transitions that unlock a mutex: drops of its guards, and waits that release it. */
  ghost predicate Unlocks(prog: Program, ctx: Context, m: Point, ref: TransRef) {
    match ref
    case TransRef(pt, i) => i < |Actions(prog, pt)| && Actions(prog, pt)[i].Release? && Actions(prog, pt)[i].mutex == m
    case CondvarRef(c, WaitStart) => c in ctx.waits && ctx.waits[c].wait.mutex == m
    case _ => false
  }

  /** The mutex can be unlocked: a thread is at a drop of a guard, or can start a wait that releases it. */
  ghost predicate CanUnlock(prog: Program, ctx: Context, m: multiset<PlaceRef>, mutex: Point) {
    || (exists pt: Point, i: nat :: IsPoint(prog, pt) && Unlocks(prog, ctx, mutex, TransRef(pt, i)) && PlaceOf(pt.thread, pt.stack) in m)
    || (exists c: Point :: Unlocks(prog, ctx, mutex, CondvarRef(c, WaitStart)) && CanStart(ctx, m, c))
  }

  /** The wait linked to a condvar can start: nobody waits, a thread is there, and its condition is not set. */
  ghost predicate CanStart(ctx: Context, m: multiset<PlaceRef>, c: Point)
    requires c in ctx.waits
  {
    var at := ctx.waits[c].at;
    WaitEnabled(c) in m && PlaceOf(at.thread, at.stack) in m && forall p :: p in NotSetOfWait(ctx, at) ==> p in m
  }

  lemma StartGuard(prog: Program, net: ProgramNet, ctx: Context, m: multiset<PlaceRef>, c: Point)
    requires IsNetOf(prog, net, ctx) && c in ctx.waits
    ensures Enabled(net, m, CondvarRef(c, WaitStart)) <==> CanStart(ctx, m, c)
  {
    hide EdgeOf, Tokens, IsPlaceOf, IsPoint, IsThread, CreatesMutex, DestPlace, Home, EffectAt;
    var ref, at := CondvarRef(c, WaitStart), ctx.waits[c].at;
    AliasSoundness(prog, net, ctx, at);
    assert ref in net.transitions;
    EdgeOfCondvar(prog, net, ctx, ref);
    forall q ensures net.transitions[ref].pre[q] == One(q == WaitEnabled(c)) + One(q == PlaceOf(at.thread, at.stack)) + One(q in NotSetOfWait(ctx, at)) {
    }
  }

  lemma DropGuard(prog: Program, net: ProgramNet, ctx: Context, m: multiset<PlaceRef>, mutex: Point, pt: Point, i: nat)
    requires IsNetOf(prog, net, ctx) && Unlocks(prog, ctx, mutex, TransRef(pt, i))
    ensures Enabled(net, m, TransRef(pt, i)) <==> IsPoint(prog, pt) && PlaceOf(pt.thread, pt.stack) in m
  {
    hide EdgeOf, Tokens, IsPlaceOf, IsPoint, IsContext, DestPlace, Home, Actions;
    if TransRef(pt, i) in net.transitions {
      EdgeOfPoint(prog, net, ctx, TransRef(pt, i));
    }
  }

  lemma UnlockGuard(prog: Program, net: ProgramNet, ctx: Context, m: multiset<PlaceRef>, mutex: Point)
    requires IsNetOf(prog, net, ctx)
    ensures CanUnlock(prog, ctx, m, mutex) <==> exists ref: TransRef :: Unlocks(prog, ctx, mutex, ref) && Enabled(net, m, ref)
  {
    hide IsNetOf, IsPoint, Actions, Enabled, CanStart;
    forall pt: Point, i: nat | Unlocks(prog, ctx, mutex, TransRef(pt, i))
      ensures Enabled(net, m, TransRef(pt, i)) <==> IsPoint(prog, pt) && PlaceOf(pt.thread, pt.stack) in m
    {
      DropGuard(prog, net, ctx, m, mutex, pt, i);
    }
    forall c: Point | c in ctx.waits ensures Enabled(net, m, CondvarRef(c, WaitStart)) <==> CanStart(ctx, m, c) {
      StartGuard(prog, net, ctx, m, c);
    }
    hide Unlocks;
    if ref: TransRef :| Unlocks(prog, ctx, mutex, ref) && Enabled(net, m, ref) {
      UnlocksHow(prog, ctx, mutex, ref);
    }
  }

  lemma UnlocksHow(prog: Program, ctx: Context, m: Point, ref: TransRef)
    requires Unlocks(prog, ctx, m, ref)
    ensures ref.TransRef? || (ref.CondvarRef? && ref.role == WaitStart && ref.condvar in ctx.waits)
  {
  }

  lemma FilledByUnlocking(prog: Program, net: ProgramNet, ctx: Context, m: Point)
    requires IsNetOf(prog, net, ctx)
    ensures FilledBy(net, MutexPlace(m), ref => Unlocks(prog, ctx, m, ref))
  {
    hide EdgeOf, IsPlaceOf, IsContext, Actions, IsPoint;
    forall ref | ref in net.transitions ensures SharedArcs(prog, ctx, ref, net.transitions[ref], MutexPlace(m)) {
      SharedArcsOf(prog, net, ctx, ref, MutexPlace(m));
    }
  }

  /** MUTEX <= 1 is not guaranteed: it holds in every marking the net can reach exactly if in none of them a free mutex can
      be unlocked. */
  lemma MutexBound(prog: Program, net: ProgramNet, ctx: Context, mutex: Point)
    requires IsNetOf(prog, net, ctx)
    ensures Bounded(net, MutexPlace(mutex)) <==>
      forall m: multiset<PlaceRef> :: Reachable(net, m) && MutexPlace(mutex) in m ==> !CanUnlock(prog, ctx, m, mutex)
  {
    hide IsNetOf, Bounded, FilledBy, Reachable, Enabled, CanUnlock, Unlocks;
    var unlocks := ref => Unlocks(prog, ctx, mutex, ref);
    FilledByUnlocking(prog, net, ctx, mutex);
    BoundedIff(net, MutexPlace(mutex), unlocks);
    forall m: multiset<PlaceRef> ensures CanUnlock(prog, ctx, m, mutex) <==> exists ref: TransRef :: unlocks(ref) && Enabled(net, m, ref) {
      UnlockGuard(prog, net, ctx, m, mutex);
    }
  }

  /** In a disciplined program the mutex is never unlocked when it is not locked. */
  lemma DisciplinedIsSafe(prog: Program, net: ProgramNet, ctx: Context, m0: multiset<PlaceRef>, run: seq<TransRef>, m: Point, h: Weighing)
    requires IsRun(prog, net, ctx, m0, run) && IsMutex(prog, m) && Disciplined(prog, ctx, m, h)
    ensures After(net, m0, run).value[MutexPlace(m)] <= 1
  {
    hide IsNetOf, IsMutex, Weight, After, Balanced, WaitBalanced, IsPoint, Actions;
    MutexInvariant(prog, net, ctx, m0, run, m, h);
    WeightNonNegative(After(net, m0, run).value, h);
  }
}
