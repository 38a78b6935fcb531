/** Sequential code with locks: a program without spawns, joins, waits and diverging calls that never locks a mutex it
    holds is never reported as deadlocked. */
module SequentialCode {
  import opened Wrappers
  import opened PetriNets
  import opened Mir
  import opened ControlPoints
  import opened AliasMemory
  import opened Blueprint
  import opened Worlds
  import opened Progress
  import opened Points
  import opened Aliases
  import opened NetLaws
  import opened Condvars
  import opened Arcs
  import opened Control
  import opened Mutexes

  /** Every mutex has a held-count, and is not held where it is locked. */
  ghost predicate LocksInOrder(prog: Program, ctx: Context, held: Point -> Weighing) {
    && (forall m: Point :: IsMutex(prog, m) ==> Disciplined(prog, ctx, m, held(m)))
    && forall pt: Point, i: nat :: IsPoint(prog, pt) && i < |Actions(prog, pt)| && Actions(prog, pt)[i].Acquire? ==>
         held(Actions(prog, pt)[i].mutex)(PlaceOf(pt.thread, pt.stack)) == 0
  }

  lemma OnlyMainThread(prog: Program, t: ThreadName)
    requires Sequential(prog) && IsThread(prog, t)
    ensures t.MainThread?
  {
    hide Actions, IsPoint, WaitAt;
    if t.Spawned? {
      SpawnerIsThere(prog, t);
    }
  }

  lemma SpawnerIsThere(prog: Program, t: ThreadName)
    requires IsThread(prog, t) && t.Spawned?
    ensures var spawner := Point(t.parent, t.stack);
      IsPoint(prog, spawner) && Actions(prog, spawner) != [] && Actions(prog, spawner)[0].SpawnThread?
  {
    hide EffectAt;
  }

  lemma NoWaits(prog: Program, net: ProgramNet, ctx: Context)
    requires IsNetOf(prog, net, ctx) && Sequential(prog)
    ensures ctx.waits == map[] && ctx.conditions == {}
  {
    hide IsPoint, Actions, WaitAt, EdgeOf, Tokens, IsPlaceOf, IsThread, CreatesMutex, Sets;
    assert forall c :: c in ctx.conditions ==> (c.0, c.1) in ctx.conditions && IsConditionPair(prog, c.0, c.1);
  }

  // ---------------------------------------------------------------------------------------------
  // The end of the program

  function EndWeight(p: PlaceRef): int {
    if p.ProgramEnd? || p.ProgramPanic? then 1 else 0
  }

  ghost predicate EndsProgram(prog: Program, ref: TransRef) {
    && ref.TransRef? && ref.pt.stack != [] && ref.i < |Actions(prog, ref.pt)| && !Actions(prog, ref.pt)[ref.i].Vanish?
    && EndWeight(DestPlace(prog, ref.pt, Actions(prog, ref.pt)[ref.i].dest)) == 1
  }

  lemma ActionEndGain(prog: Program, ctx: Context, pt: Point, a: Action)
    requires pt.stack != []
    ensures ActionGain(prog, ctx, pt, a, EndWeight) == One(!a.Vanish? && EndWeight(DestPlace(prog, pt, a.dest)) == 1)
  {
    hide DestPlace, Home;
  }

  lemma EndGain(prog: Program, net: ProgramNet, ctx: Context, ref: TransRef)
    requires IsNetOf(prog, net, ctx) && Sequential(prog) && ref in net.transitions
    ensures Gain(net.transitions[ref], EndWeight) == One(EndsProgram(prog, ref))
  {
    hide IsNetOf, Sequential, Actions, DestPlace, Home, WaitAt, Gain, IsPoint, ActionGain;
    NoWaits(prog, net, ctx);
    GainIs(prog, net, ctx, ref, EndWeight);
    if ref.TransRef? {
      EdgeOfPoint(prog, net, ctx, ref);
      ActionEndGain(prog, ctx, ref.pt, Actions(prog, ref.pt)[ref.i]);
    } else if ref.SkipRef? {
      EdgeOfSkip(prog, net, ctx, ref);
    }
  }

  /** As long as the program has not ended, no guard was forgotten. */
  lemma NothingForgotten(prog: Program, net: ProgramNet, ctx: Context, m0: multiset<PlaceRef>, run: seq<TransRef>, mutex: Point, h: Weighing)
    requires IsRun(prog, net, ctx, m0, run) && Sequential(prog) && Disciplined(prog, ctx, mutex, h)
    requires After(net, m0, run).value[ProgramEnd] == 0 && After(net, m0, run).value[ProgramPanic] == 0
    ensures forall ref :: ref in run && ref in net.transitions ==> !Forgets(prog, ctx, mutex, h, ref)
  {
    hide IsNetOf, Sequential, Disciplined, EndsProgram, Gain, After, Forgets, Weight;
    var ends, never := ref => EndsProgram(prog, ref), (ref: TransRef) => false;
    forall ref | ref in net.transitions ensures Gain(net.transitions[ref], EndWeight) == One(EndsProgram(prog, ref)) {
      EndGain(prog, net, ctx, ref);
    }
    WeightLedger(net, m0, run, EndWeight, ends, never);
    FiredNone(run, never);
    WeightZero(After(net, m0, run).value, EndWeight);
    WeightNonNegative(m0, EndWeight);
    NoneFired(run, ends);
    forall ref | ref in run && ref in net.transitions ensures !Forgets(prog, ctx, mutex, h, ref) {
      if Forgets(prog, ctx, mutex, h, ref) {
        ForgetsAtEnd(prog, net, ctx, mutex, h, ref);
      }
    }
  }

  lemma ForgetsAtEnd(prog: Program, net: ProgramNet, ctx: Context, mutex: Point, h: Weighing, ref: TransRef)
    requires IsNetOf(prog, net, ctx) && Sequential(prog) && Disciplined(prog, ctx, mutex, h) && ref in net.transitions
    requires Forgets(prog, ctx, mutex, h, ref)
    ensures EndsProgram(prog, ref)
  {
    hide IsNetOf, Actions, Home, WaitAt, IsPoint;
    NoWaits(prog, net, ctx);
    if ref.TransRef? {
      EdgeOfPoint(prog, net, ctx, ref);
      assert Balanced(prog, ctx, mutex, h, ref.pt, Actions(prog, ref.pt)[ref.i]);
      OnlyMainThread(prog, ref.pt.thread) by { PointHasThread(prog, ref.pt); }
    } else if ref.SkipRef? {
      EdgeOfSkip(prog, net, ctx, ref);
    }
  }

  lemma PointHasThread(prog: Program, pt: Point)
    requires IsPoint(prog, pt)
    ensures IsThread(prog, pt.thread)
  {
  }

  // ---------------------------------------------------------------------------------------------
  // The one token can always move

  lemma TheToken(prog: Program, net: ProgramNet, ctx: Context, m0: multiset<PlaceRef>, run: seq<TransRef>) returns (pt: Point)
    requires WellFormed(prog) && IsRun(prog, net, ctx, m0, run) && Sequential(prog) && Translatable(prog)
    requires After(net, m0, run).value[ProgramEnd] == 0 && After(net, m0, run).value[ProgramPanic] == 0
    ensures IsPoint(prog, pt) && PlaceOf(pt.thread, pt.stack) in After(net, m0, run).value
    ensures forall p :: p in After(net, m0, run).value && IsControl(p) ==> p == PlaceOf(pt.thread, pt.stack)
    ensures After(net, m0, run).value[PlaceOf(pt.thread, pt.stack)] == 1
  {
    hide WellFormed, IsNetOf, Sequential, Translatable, After, Weight, IsPoint;
    var m := After(net, m0, run).value;
    OneControlToken(prog, net, ctx, m0, run);
    var p := Heavy(m, ControlWeight);
    TokensOnPlaces(prog, net, ctx, m0, run);
    PlaceIsThere(prog, net, ctx, p);
    if p.ThreadEnd? {
      OnlyMainThread(prog, p.thread);
    }
    pt := Point(p.thread, p.stack);
    WeightRemove(m, ControlWeight, p);
    if q :| q in m - multiset{p} && IsControl(q) {
      WeightRemove(m - multiset{p}, ControlWeight, q);
      WeightNonNegative(m - multiset{p} - multiset{q}, ControlWeight);
    }
  }

  lemma PlaceIsThere(prog: Program, net: ProgramNet, ctx: Context, p: PlaceRef)
    requires IsNetOf(prog, net, ctx) && p in net.places
    ensures p.Control? ==> IsPoint(prog, Point(p.thread, p.stack)) && PlaceOf(p.thread, p.stack) == p
    ensures p.ThreadEnd? ==> IsThread(prog, p.thread) && p.thread.Spawned?
  {
    hide IsContext, EdgeOf, Tokens;
    assert IsPlaceOf(prog, ctx, p);
  }

  lemma MutexIsFree(prog: Program, net: ProgramNet, ctx: Context, m0: multiset<PlaceRef>, run: seq<TransRef>, mutex: Point, h: Weighing, here: PlaceRef)
    requires IsRun(prog, net, ctx, m0, run) && Sequential(prog) && IsMutex(prog, mutex) && Disciplined(prog, ctx, mutex, h)
    requires After(net, m0, run).value[ProgramEnd] == 0 && After(net, m0, run).value[ProgramPanic] == 0
    requires h(here) == 0 && forall p :: p in After(net, m0, run).value && IsControl(p) ==> p == here
    ensures MutexPlace(mutex) in After(net, m0, run).value
  {
    hide IsNetOf, Sequential, After, Weight, Forgets, Balanced, WaitBalanced, IsPoint, Actions, IsMutex;
    NothingForgotten(prog, net, ctx, m0, run, mutex, h);
    MutexInvariant(prog, net, ctx, m0, run, mutex, h);
    WeightZero(After(net, m0, run).value, h);
  }

  /** Such a program is never reported, whatever it locks and unlocks. */
  lemma NeverReported(prog: Program, net: ProgramNet, ctx: Context, held: Point -> Weighing)
    requires Translatable(prog) && IsNetOf(prog, net, ctx) && Sequential(prog) && LocksInOrder(prog, ctx, held)
    ensures !DeadlockReported(net, ProgramEnd, ProgramPanic)
  {
    hide IsNetOf, Sequential, Translatable, LocksInOrder, Enabled, Reachable, After;
    if m: multiset<PlaceRef> :| Reachable(net, m) && Dead(net, m) && m[ProgramEnd] == 0 && m[ProgramPanic] == 0 {
      var m0, run := RunTo(net, m);
      Accepted(prog);
      var pt := TheToken(prog, net, ctx, m0, run);
      var ref := TokenMoves(prog, net, ctx, held, m0, run, pt);
      assert false;
    }
  }

  lemma TokenMoves(prog: Program, net: ProgramNet, ctx: Context, held: Point -> Weighing, m0: multiset<PlaceRef>, run: seq<TransRef>, pt: Point)
    returns (ref: TransRef)
    requires Translatable(prog) && IsRun(prog, net, ctx, m0, run) && Sequential(prog) && LocksInOrder(prog, ctx, held)
    requires After(net, m0, run).value[ProgramEnd] == 0 && After(net, m0, run).value[ProgramPanic] == 0
    requires IsPoint(prog, pt) && PlaceOf(pt.thread, pt.stack) in After(net, m0, run).value
    requires forall p :: p in After(net, m0, run).value && IsControl(p) ==> p == PlaceOf(pt.thread, pt.stack)
    ensures Enabled(net, After(net, m0, run).value, ref)
  {
    hide Translatable, IsPoint, Actions, WaitAt, EdgeOf, Tokens, IsPlaceOf, IsContext, EffectAt, Home, DestPlace, Disciplined, After, CreatesMutex;
    var m := After(net, m0, run).value;
    var q := WayOn(prog, pt);
    ref := TransRef(q, 0);
    var a := Actions(prog, q)[0];
    NoWaits(prog, net, ctx);
    EdgeOfPoint(prog, net, ctx, ref);
    EffectDefined(prog, q);
    AliasSoundness(prog, net, ctx, q);
    FirstAction(prog, q);
    if a.Acquire? {
      MutexIsFree(prog, net, ctx, m0, run, a.mutex, held(a.mutex), PlaceOf(q.thread, q.stack));
    }
    if a.SetCondition? {
      assert NotSetOfMutex(ctx, a.mutex) == {};
    }
  }

  lemma FirstAction(prog: Program, pt: Point)
    requires EffectAt(prog, pt.thread, pt.stack).Some? && Actions(prog, pt) != []
    ensures Actions(prog, pt) == EffectAt(prog, pt.thread, pt.stack).value.actions
  {
  }
}
