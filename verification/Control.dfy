/** The flow of control: how the number of control tokens changes over a run, and that sequential code has one control
    token at all times. */
module Control {
  import opened Wrappers
  import opened PetriNets
  import opened Mir
  import opened ControlPoints
  import opened AliasMemory
  import opened Blueprint
  import opened Worlds
  import opened Progress
  import opened Points
  import opened NetLaws
  import opened Condvars

  function ControlWeight(p: PlaceRef): int {
    if IsControl(p) then 1 else 0
  }

  /** The tokens that stand for threads, running or ended. */
  ghost function ControlTokens(m: multiset<PlaceRef>): int {
    Weight(m, ControlWeight)
  }

  ghost predicate Spawns(prog: Program, ref: TransRef) {
    ref.TransRef? && ref.i < |Actions(prog, ref.pt)| && Actions(prog, ref.pt)[ref.i].SpawnThread?
  }

  ghost predicate Diverges(prog: Program, ref: TransRef) {
    ref.TransRef? && ref.i < |Actions(prog, ref.pt)| && Actions(prog, ref.pt)[ref.i].Vanish?
  }

  ghost predicate JoinsLinked(prog: Program, ctx: Context, ref: TransRef) {
    && ref.TransRef? && ref.i < |Actions(prog, ref.pt)|
    && Actions(prog, ref.pt)[ref.i].JoinThread? && LinkedJoin(ctx, ref.pt.thread, Actions(prog, ref.pt)[ref.i].thread)
  }

  ghost predicate StartsWait(ctx: Context, ref: TransRef) {
    ref.CondvarRef? && ref.role == WaitStart && ref.condvar in ctx.waits
  }

  ghost predicate EndsWait(ctx: Context, ref: TransRef) {
    ref.CondvarRef? && ref.role == NotifyReceived && ref.condvar in ctx.waits
  }

  /** A spawn is the first action of its point, and its thread is a thread of the program. */
  lemma SpawnIsPrepared(prog: Program, net: ProgramNet, ctx: Context, pt: Point, i: nat)
    requires IsNetOf(prog, net, ctx) && IsPoint(prog, pt) && i < |Actions(prog, pt)| && Actions(prog, pt)[i].SpawnThread?
    ensures i == 0 && Actions(prog, pt)[0].thread == Spawned(pt.thread, pt.stack) && Actions(prog, pt)[0].thread in ctx.prepared
  {
    hide EffectAt, EdgeOf, Tokens, IsPlaceOf, IsConditionPair;
    EffectShape(prog, pt);
  }

  lemma ActionControlGain(prog: Program, net: ProgramNet, ctx: Context, pt: Point, i: nat)
    requires IsNetOf(prog, net, ctx) && IsPoint(prog, pt) && pt.stack != [] && i < |Actions(prog, pt)|
    ensures ActionGain(prog, ctx, pt, Actions(prog, pt)[i], ControlWeight)
         == One(Spawns(prog, TransRef(pt, i))) - One(JoinsLinked(prog, ctx, TransRef(pt, i)) || Diverges(prog, TransRef(pt, i)))
  {
    hide IsNetOf, Actions, DestPlace, Home, IsPoint;
    var a := Actions(prog, pt)[i];
    if !a.Vanish? {
      DestIsControl(prog, pt, a.dest);
    }
    if a.SpawnThread? {
      SpawnIsPrepared(prog, net, ctx, pt, i);
    }
  }

  lemma ControlGain(prog: Program, net: ProgramNet, ctx: Context, ref: TransRef)
    requires IsNetOf(prog, net, ctx) && ref in net.transitions
    ensures Gain(net.transitions[ref], ControlWeight)
         == One(Spawns(prog, ref) || EndsWait(ctx, ref)) - One(JoinsLinked(prog, ctx, ref) || Diverges(prog, ref) || StartsWait(ctx, ref))
  {
    hide IsNetOf, Actions, WaitAt, IsPoint, ActionGain, Gain;
    match ref
    case TransRef(pt, i) =>
      GainIs(prog, net, ctx, ref, ControlWeight);
      EdgeOfPoint(prog, net, ctx, ref);
      ActionControlGain(prog, net, ctx, pt, i);
    case CondvarRef(_, _) => CondvarControlGain(prog, net, ctx, ref);
    case SkipRef(_, _) => SkipControlGain(prog, net, ctx, ref);
  }

  lemma CondvarControlGain(prog: Program, net: ProgramNet, ctx: Context, ref: TransRef)
    requires IsNetOf(prog, net, ctx) && ref in net.transitions && ref.CondvarRef?
    ensures Gain(net.transitions[ref], ControlWeight) == One(EndsWait(ctx, ref)) - One(StartsWait(ctx, ref))
  {
    hide IsNetOf, DestPlace, Home, Weight, Gain;
    GainIs(prog, net, ctx, ref, ControlWeight);
    EdgeOfCondvar(prog, net, ctx, ref);
    if ref.condvar in ctx.waits {
      DestIsControl(prog, ctx.waits[ref.condvar].at, ctx.waits[ref.condvar].wait.dest);
    }
  }

  lemma SkipControlGain(prog: Program, net: ProgramNet, ctx: Context, ref: TransRef)
    requires IsNetOf(prog, net, ctx) && ref in net.transitions && ref.SkipRef?
    ensures Gain(net.transitions[ref], ControlWeight) == 0
  {
    hide IsNetOf, DestPlace, Home, WaitAt, Weight, Gain;
    GainIs(prog, net, ctx, ref, ControlWeight);
    EdgeOfSkip(prog, net, ctx, ref);
    DestIsControl(prog, ref.wait, WaitAt(prog, ref.wait).value.dest);
  }

  /** The start place of the program holds one token. */
  lemma OneStart(prog: Program, net: ProgramNet, ctx: Context, m0: multiset<PlaceRef>)
    requires WellFormed(prog) && IsNetOf(prog, net, ctx) && IsInitial(net, m0)
    ensures m0[Control(MainThread, [Site(prog.main, 0)])] == 1
  {
    hide IsNetOf;
    assert FunctionOk(prog, prog.main);
    assert IsPoint(prog, Point(MainThread, [Site(prog.main, 0)]));
    StartTokens(prog, net, ctx, m0, Control(MainThread, [Site(prog.main, 0)]));
  }

  lemma InitialControl(prog: Program, net: ProgramNet, ctx: Context, m0: multiset<PlaceRef>)
    requires WellFormed(prog) && IsNetOf(prog, net, ctx) && IsInitial(net, m0)
    ensures ControlTokens(m0) == 1
  {
    hide IsNetOf, IsPoint, WellFormed;
    var start := Control(MainThread, [Site(prog.main, 0)]);
    forall p | p in m0 && p != start ensures ControlWeight(p) == 0 {
      StartTokens(prog, net, ctx, m0, p);
    }
    OneStart(prog, net, ctx, m0);
    WeightOfOne(m0, ControlWeight, start);
  }

  /** In every run of every translated net: control tokens = 1 + spawns - linked joins - diverging calls - linked waits
      that started + linked waits that ended. */
  lemma ControlConservation(prog: Program, net: ProgramNet, ctx: Context, m0: multiset<PlaceRef>, run: seq<TransRef>)
    requires WellFormed(prog) && IsRun(prog, net, ctx, m0, run)
    ensures ControlTokens(After(net, m0, run).value)
         == 1 + Fired(run, ref => Spawns(prog, ref)) + Fired(run, ref => EndsWait(ctx, ref))
              - Fired(run, ref => JoinsLinked(prog, ctx, ref)) - Fired(run, ref => Diverges(prog, ref)) - Fired(run, ref => StartsWait(ctx, ref))
  {
    hide IsNetOf, WellFormed, Spawns, EndsWait, JoinsLinked, Diverges, StartsWait, Weight, After, Gain;
    var spawns, ends, joins, diverges, starts := ref => Spawns(prog, ref), ref => EndsWait(ctx, ref), ref => JoinsLinked(prog, ctx, ref),
      ref => Diverges(prog, ref), ref => StartsWait(ctx, ref);
    InitialControl(prog, net, ctx, m0);
    forall ref | ref in net.transitions
      ensures Gain(net.transitions[ref], ControlWeight) == One(spawns(ref) || ends(ref)) - One((joins(ref) || diverges(ref)) || starts(ref))
    {
      ControlGain(prog, net, ctx, ref);
    }
    var gone := ref => joins(ref) || diverges(ref);
    var up, down := ref => spawns(ref) || ends(ref), ref => gone(ref) || starts(ref);
    WeightLedger(net, m0, run, ControlWeight, up, down);
    Exclusive(prog, ctx);
    FiredOneOf(run, up, spawns, ends);
    FiredOneOf(run, down, gone, starts);
    FiredOneOf(run, gone, joins, diverges);
  }

  lemma Exclusive(prog: Program, ctx: Context)
    ensures forall ref :: !(Spawns(prog, ref) && EndsWait(ctx, ref))
    ensures forall ref :: !((JoinsLinked(prog, ctx, ref) || Diverges(prog, ref)) && StartsWait(ctx, ref))
    ensures forall ref :: !(JoinsLinked(prog, ctx, ref) && Diverges(prog, ref))
  {
    hide Actions;
  }

  /** No block spawns, joins, waits or calls a diverging function. */
  ghost predicate Sequential(prog: Program) {
    forall pt: Point :: IsPoint(prog, pt) ==>
      && WaitAt(prog, pt).None?
      && forall i :: 0 <= i < |Actions(prog, pt)| ==>
           !Actions(prog, pt)[i].SpawnThread? && !Actions(prog, pt)[i].JoinThread? && !Actions(prog, pt)[i].Vanish?
  }

  /** Sequential code: exactly one control token, in every marking of every run. */
  lemma OneControlToken(prog: Program, net: ProgramNet, ctx: Context, m0: multiset<PlaceRef>, run: seq<TransRef>)
    requires WellFormed(prog) && IsRun(prog, net, ctx, m0, run) && Sequential(prog)
    ensures ControlTokens(After(net, m0, run).value) == 1
  {
    hide WellFormed, Weight, Gain, Spawns, EndsWait, JoinsLinked, Diverges, StartsWait, IsNetOf;
    InitialControl(prog, net, ctx, m0);
    forall ref | ref in net.transitions ensures Gain(net.transitions[ref], ControlWeight) == 0 {
      ControlGain(prog, net, ctx, ref);
      NoGain(prog, net, ctx, ref);
    }
    var never := (ref: TransRef) => false;
    WeightLedger(net, m0, run, ControlWeight, never, never);
  }

  lemma NoGain(prog: Program, net: ProgramNet, ctx: Context, ref: TransRef)
    requires IsNetOf(prog, net, ctx) && Sequential(prog) && ref in net.transitions
    ensures !Spawns(prog, ref) && !EndsWait(ctx, ref) && !JoinsLinked(prog, ctx, ref) && !Diverges(prog, ref) && !StartsWait(ctx, ref)
  {
    hide IsPoint, Actions, WaitAt, EdgeOf, Tokens, IsPlaceOf, IsThread, IsConditionPair;
    if ref.TransRef? {
      EdgeOfPoint(prog, net, ctx, ref);
    }
  }
}
