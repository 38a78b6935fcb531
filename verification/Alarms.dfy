/** No false alarms: a program whose main thread never blocks is never reported as deadlocked, whatever its other
    threads do. Sequential code without synchronisation is the special case without other threads. */
module Alarms {
  import opened Wrappers
  import opened PetriNets
  import opened Mir
  import opened ControlPoints
  import opened AliasMemory
  import opened Blueprint
  import opened Worlds
  import opened Progress
  import opened Points
  import opened NetLaws
  import opened Condvars
  import opened Arcs
  import opened Control

  /** An action that can always be taken: it waits for nothing, and the token goes on. */
  ghost predicate NeverWaits(ctx: Context, a: Action) {
    match a
    case Flow(_) => true
    case Release(_, _) => true
    case SpawnThread(_, _, _, _) => true
    case NotifyOne(_, _) => true
    case SetCondition(m, _) => forall w: Point :: (m, w) !in ctx.conditions
    case _ => false
  }

  /** The main thread never locks, joins, waits, sets a waited-for condition or calls a diverging function. */
  ghost predicate MainNeverBlocks(prog: Program, ctx: Context) {
    forall pt: Point :: IsPoint(prog, pt) && pt.thread.MainThread? ==>
      WaitAt(prog, pt).None? && forall i :: 0 <= i < |Actions(prog, pt)| ==> NeverWaits(ctx, Actions(prog, pt)[i])
  }

  function MainWeight(p: PlaceRef): int {
    if p.ProgramEnd? || p.ProgramPanic? || (p.Control? && p.thread.MainThread?) then 1 else 0
  }

  /** Control that starts in the main thread stays there, or ends the program. */
  lemma MainStays(prog: Program, pt: Point, dest: Dest)
    requires pt.stack != [] && pt.thread.MainThread?
    ensures MainWeight(DestPlace(prog, pt, dest)) == 1
  {
  }

  lemma ActionMainGain(prog: Program, ctx: Context, pt: Point, a: Action)
    requires pt.stack != [] && (pt.thread.MainThread? ==> NeverWaits(ctx, a))
    ensures ActionGain(prog, ctx, pt, a, MainWeight) >= 0
  {
    hide DestPlace, Home;
    if pt.thread.MainThread? {
      MainStays(prog, pt, a.dest);
    }
  }

  lemma MainDoesNotWait(prog: Program, ctx: Context)
    requires IsContext(prog, ctx) && MainNeverBlocks(prog, ctx)
    ensures forall c: Point :: c in ctx.waits ==> !ctx.waits[c].at.thread.MainThread?
    ensures forall m: Point, w: Point :: (m, w) in ctx.conditions ==> !w.thread.MainThread?
  {
    hide Actions, WaitAt, IsPoint, IsThread, CreatesMutex, Sets, NeverWaits;
    forall m: Point, w: Point | (m, w) in ctx.conditions ensures !w.thread.MainThread? {
      assert IsConditionPair(prog, m, w);
    }
  }

  lemma MainGain(prog: Program, net: ProgramNet, ctx: Context, ref: TransRef)
    requires IsNetOf(prog, net, ctx) && MainNeverBlocks(prog, ctx) && ref in net.transitions
    ensures Gain(net.transitions[ref], MainWeight) >= 0
  {
    hide Actions, DestPlace, Home, WaitAt, Weight, IsPoint, Gain, EdgeOf, Tokens, IsPlaceOf, IsContext, ActionGain, NeverWaits;
    GainIs(prog, net, ctx, ref, MainWeight);
    MainDoesNotWait(prog, ctx);
    match ref
    case TransRef(pt, i) =>
      EdgeOfPoint(prog, net, ctx, ref);
      ActionMainGain(prog, ctx, pt, Actions(prog, pt)[i]);
    case CondvarRef(c, role) =>
    case SkipRef(_, p) =>
      EdgeOfSkip(prog, net, ctx, ref);
  }

  lemma MainAtStart(prog: Program, net: ProgramNet, ctx: Context, m0: multiset<PlaceRef>)
    requires WellFormed(prog) && IsNetOf(prog, net, ctx) && IsInitial(net, m0)
    ensures Weight(m0, MainWeight) == 1
  {
    hide IsNetOf, IsPoint, WellFormed;
    var start := Control(MainThread, [Site(prog.main, 0)]);
    forall p | p in m0 && p != start ensures MainWeight(p) == 0 {
      StartTokens(prog, net, ctx, m0, p);
    }
    OneStart(prog, net, ctx, m0);
    WeightOfOne(m0, MainWeight, start);
  }

  /** A token of the main thread can always move. */
  lemma MainMoves(prog: Program, net: ProgramNet, ctx: Context, m: multiset<PlaceRef>, stack: seq<Site>) returns (ref: TransRef)
    requires Translatable(prog) && IsNetOf(prog, net, ctx) && MainNeverBlocks(prog, ctx)
    requires Control(MainThread, stack) in m && Control(MainThread, stack) in net.places
    ensures Enabled(net, m, ref)
  {
    var pt := Point(MainThread, stack);
    assert IsPoint(prog, pt) && Home(stack) == stack;
    hide IsPoint, Home, Translatable, EdgeOf, Tokens, IsPlaceOf, Actions, WaitAt, DestPlace, IsContext;
    var q := WayOn(prog, pt);
    ref := TransRef(q, 0);
    var a := Actions(prog, q)[0];
    assert NeverWaits(ctx, a);
    EdgeOfPoint(prog, net, ctx, ref);
    if a.SetCondition? {
      assert NotSetOfMutex(ctx, a.mutex) == {};
    }
    assert net.transitions[ref].pre == multiset{PlaceOf(q.thread, q.stack)};
  }

  /** If the main thread never blocks, the deadlock formula is false. */
  lemma NoFalseAlarm(prog: Program, net: ProgramNet, ctx: Context)
    requires Translatable(prog) && IsNetOf(prog, net, ctx) && MainNeverBlocks(prog, ctx)
    ensures !DeadlockReported(net, ProgramEnd, ProgramPanic)
  {
    hide IsNetOf, Translatable, MainNeverBlocks, Enabled, Weight;
    if m: multiset<PlaceRef> :| Reachable(net, m) && Dead(net, m) && m[ProgramEnd] == 0 && m[ProgramPanic] == 0 {
      var m0: multiset<PlaceRef>, run: seq<TransRef> :| IsInitial(net, m0) && After(net, m0, run) == Some(m);
      Accepted(prog);
      MainAtStart(prog, net, ctx, m0);
      forall ref | ref in net.transitions ensures Gain(net.transitions[ref], MainWeight) >= 0 {
        MainGain(prog, net, ctx, ref);
      }
      WeightNeverShrinks(net, m0, run, MainWeight);
      var p := Heavy(m, MainWeight);
      TokensOnPlaces(prog, net, ctx, m0, run);
      var ref := MainMoves(prog, net, ctx, m, p.stack);
      assert false;
    }
  }
}
