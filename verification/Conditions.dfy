/** The condition logic: for every linked mutex and wait, one of the two condition places is marked, which one never
    changes back, and the wait is skipped exactly once the value of the mutex was set. */
module Conditions {
  import opened Wrappers
  import opened PetriNets
  import opened Mir
  import opened ControlPoints
  import opened AliasMemory
  import opened Blueprint
  import opened NetLaws
  import opened Condvars

  ghost predicate IsSetter(prog: Program, m: Point, ref: TransRef) {
    ref.TransRef? && Sets(prog, m, ref.pt, ref.i)
  }

  /** How often the value of a mutex was set in a run. */
  ghost function TimesSet(prog: Program, m: Point, run: seq<TransRef>): nat {
    Fired(run, ref => IsSetter(prog, m, ref))
  }

  lemma ConditionFlow(prog: Program, net: ProgramNet, ctx: Context, m: Point, w: Point, ref: TransRef)
    requires IsNetOf(prog, net, ctx) && (m, w) in ctx.conditions && ref in net.transitions
    ensures net.transitions[ref].post[ConditionSet(m, w)] == net.transitions[ref].pre[ConditionSet(m, w)] + One(IsSetter(prog, m, ref))
    ensures net.transitions[ref].post[ConditionNotSet(m, w)] + One(IsSetter(prog, m, ref)) == net.transitions[ref].pre[ConditionNotSet(m, w)]
  {
    hide IsNetOf, Actions;
    SharedArcsOf(prog, net, ctx, ref, ConditionSet(m, w));
    SharedArcsOf(prog, net, ctx, ref, ConditionNotSet(m, w));
  }

  /** condition_set counts the firings that set the mutex, and condition_not_set holds the token until then. */
  lemma ConditionLedger(prog: Program, net: ProgramNet, ctx: Context, m0: multiset<PlaceRef>, run: seq<TransRef>, m: Point, w: Point)
    requires IsRun(prog, net, ctx, m0, run) && (m, w) in ctx.conditions
    ensures After(net, m0, run).value[ConditionSet(m, w)] == TimesSet(prog, m, run)
    ensures After(net, m0, run).value[ConditionNotSet(m, w)] + TimesSet(prog, m, run) == 1
  {
    hide IsNetOf, Actions, IsSetter;
    StartTokens(prog, net, ctx, m0, ConditionSet(m, w));
    StartTokens(prog, net, ctx, m0, ConditionNotSet(m, w));
    var sets, never := ref => IsSetter(prog, m, ref), (ref: TransRef) => false;
    forall ref | ref in net.transitions
      ensures net.transitions[ref].post[ConditionSet(m, w)] == net.transitions[ref].pre[ConditionSet(m, w)] + One(IsSetter(prog, m, ref))
      ensures net.transitions[ref].post[ConditionNotSet(m, w)] + One(IsSetter(prog, m, ref)) == net.transitions[ref].pre[ConditionNotSet(m, w)]
    {
      ConditionFlow(prog, net, ctx, m, w, ref);
    }
    CountLedger(net, m0, run, ConditionSet(m, w), sets, never);
    CountLedger(net, m0, run, ConditionNotSet(m, w), never, sets);
    FiredNone(run, never);
  }

  /** The wait of a pair needs the condition not to be set; its skip needs it to be set. */
  lemma WaitOrSkip(prog: Program, net: ProgramNet, ctx: Context, marking: multiset<PlaceRef>, m: Point, w: Point)
    requires IsNetOf(prog, net, ctx) && (m, w) in ctx.conditions
    ensures WaitAt(prog, w).Some?
    ensures Enabled(net, marking, CondvarRef(WaitAt(prog, w).value.condvar, WaitStart)) ==> marking[ConditionNotSet(m, w)] >= 1
    ensures Enabled(net, marking, SkipRef(m, w)) ==> marking[ConditionSet(m, w)] >= 1
  {
    hide Actions, IsPoint, EffectAt, EdgeOf, IsThread, Tokens, CreatesMutex;
    assert IsConditionPair(prog, m, w);
    hide IsNetOf;
    var c := WaitAt(prog, w).value.condvar;
    assert c in ctx.waits && ctx.waits[c].at == w;
    if CondvarRef(c, WaitStart) in net.transitions {
      SharedArcsOf(prog, net, ctx, CondvarRef(c, WaitStart), ConditionNotSet(m, w));
    }
    if SkipRef(m, w) in net.transitions {
      SharedArcsOf(prog, net, ctx, SkipRef(m, w), ConditionSet(m, w));
    }
  }

  /** The mutexes and waits with a condition: every mutex whose contents some thread changes through a guard, with every wait
      of the program, related or not. At the start it is not set. */
  lemma WhichConditions(prog: Program, net: ProgramNet, ctx: Context, m: Point, w: Point)
    requires IsNetOf(prog, net, ctx)
    ensures ConditionNotSet(m, w) in net.places <==>
      && IsPoint(prog, m) && m.stack != [] && InRange(prog, m.stack[|m.stack| - 1]) && CreatesAMutex(TerminatorAt(prog, m.stack[|m.stack| - 1]))
      && IsPoint(prog, w) && WaitAt(prog, w).Some?
      && exists pt: Point, i: nat, dest: Dest :: IsPoint(prog, pt) && i < |Actions(prog, pt)| && Actions(prog, pt)[i] == SetCondition(m, dest)
    ensures ConditionSet(m, w) in net.places <==> ConditionNotSet(m, w) in net.places
    ensures ConditionNotSet(m, w) in net.places ==> net.places[ConditionNotSet(m, w)] == 1 && net.places[ConditionSet(m, w)] == 0
  {
    hide IsPoint, Actions, WaitAt, EdgeOf, IsThread;
    if ConditionNotSet(m, w) in net.places {
      var pt: Point, i: nat :| IsPoint(prog, pt) && Sets(prog, m, pt, i);
      assert Actions(prog, pt)[i] == SetCondition(m, Actions(prog, pt)[i].dest);
    }
    if pt: Point, i: nat, dest: Dest :| IsPoint(prog, pt) && i < |Actions(prog, pt)| && Actions(prog, pt)[i] == SetCondition(m, dest) {
      assert Sets(prog, m, pt, i);
    }
  }

  predicate CreatesAMutex(term: Terminator) {
    term.Call? && term.callee.MutexNew? && !(term.returnTo.None? && term.unwind.Continue?)
  }

  /** In every run: exactly one of the two places of a pair is marked; the mutex is set at most once; all pairs of a
      mutex agree; once it is set no wait of the pair starts any more; and a wait and its skip are never both possible. */
  lemma ConditionGadget(prog: Program, net: ProgramNet, ctx: Context, m0: multiset<PlaceRef>, run: seq<TransRef>, m: Point, w: Point)
    requires IsRun(prog, net, ctx, m0, run) && (m, w) in ctx.conditions
    ensures var marking := After(net, m0, run).value;
      && marking[ConditionNotSet(m, w)] + marking[ConditionSet(m, w)] == 1
      && TimesSet(prog, m, run) <= 1
      && (forall w': Point :: (m, w') in ctx.conditions ==> marking[ConditionSet(m, w')] == marking[ConditionSet(m, w)])
      && WaitAt(prog, w).Some?
      && var start := CondvarRef(WaitAt(prog, w).value.condvar, WaitStart);
         && (TimesSet(prog, m, run) == 1 ==> !Enabled(net, marking, start))
         && !(Enabled(net, marking, start) && Enabled(net, marking, SkipRef(m, w)))
  {
    hide IsNetOf, TimesSet, WaitAt, Enabled;
    var marking := After(net, m0, run).value;
    ConditionLedger(prog, net, ctx, m0, run, m, w);
    forall w': Point | (m, w') in ctx.conditions ensures marking[ConditionSet(m, w')] == marking[ConditionSet(m, w)] {
      ConditionLedger(prog, net, ctx, m0, run, m, w');
    }
    WaitOrSkip(prog, net, ctx, marking, m, w);
  }

  /** A condition that is set stays set in every continuation. */
  lemma SetIsPermanent(prog: Program, net: ProgramNet, ctx: Context, m0: multiset<PlaceRef>, run: seq<TransRef>, more: seq<TransRef>, m: Point, w: Point)
    requires IsRun(prog, net, ctx, m0, run) && IsRun(prog, net, ctx, m0, run + more) && (m, w) in ctx.conditions
    requires After(net, m0, run).value[ConditionSet(m, w)] == 1
    ensures After(net, m0, run + more).value[ConditionSet(m, w)] == 1
    ensures TimesSet(prog, m, more) == 0
  {
    hide IsNetOf, IsSetter;
    ConditionLedger(prog, net, ctx, m0, run, m, w);
    ConditionLedger(prog, net, ctx, m0, run + more, m, w);
    FiredAdd(run, more, ref => IsSetter(prog, m, ref));
  }
}
