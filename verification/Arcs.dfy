/** The net of an accepted program is well built: every arc connects a transition to a place of the net, so that the
    tokens of every run stay on the places of the net. */
module Arcs {
  import opened Wrappers
  import opened PetriNets
  import opened Mir
  import opened ControlPoints
  import opened AliasMemory
  import opened Blueprint
  import opened Worlds
  import opened Progress
  import opened Points
  import opened Aliases
  import opened NetLaws

  lemma {:induction false} HomeIsPoint(prog: Program, t: ThreadName, stack: seq<Site>)
    requires IsPoint(prog, Point(t, stack))
    ensures IsPoint(prog, Point(t, Home(stack))) && Home(Home(stack)) == Home(stack)
    decreases |stack|
  {
    hide IsPoint;
    if |stack| > 1 && stack[|stack| - 1].b == 0 {
      CallerIsPoint(prog, Point(t, stack));
      HomeIsPoint(prog, t, stack[..|stack| - 1]);
    }
  }

  lemma StartIsPlace(prog: Program, net: ProgramNet, ctx: Context, pt: Point)
    requires WellFormed(prog) && IsNetOf(prog, net, ctx) && IsPoint(prog, pt)
    requires Actions(prog, pt) != [] && Actions(prog, pt)[0].SpawnThread?
    ensures var spawn := Actions(prog, pt)[0];
      && spawn.thread == Spawned(pt.thread, pt.stack) && spawn.thread in ctx.prepared
      && IsPoint(prog, Point(spawn.thread, [Site(spawn.f, 0)]))
      && IsPlaceOf(prog, ctx, Control(spawn.thread, [Site(spawn.f, 0)]))
  {
    hide EffectAt, EdgeOf, Tokens, IsConditionPair;
    EffectShape(prog, pt);
    var site := pt.stack[|pt.stack| - 1];
    LastSite(prog, pt);
    CalleeSmaller(prog, site.f, site.b);
    assert FunctionOk(prog, Actions(prog, pt)[0].f);
  }

  ghost predicate AllPlaces(prog: Program, ctx: Context, m: multiset<PlaceRef>) {
    forall p :: p in m ==> IsPlaceOf(prog, ctx, p)
  }

  lemma ActionPlaces(prog: Program, ctx: Context, pt: Point, a: Action)
    requires pt.stack != [] && IsPlaceOf(prog, ctx, PlaceOf(pt.thread, pt.stack)) && SoundAction(prog, a)
    requires a.Vanish? || IsPlaceOf(prog, ctx, DestPlace(prog, pt, a.dest))
    requires a.SpawnThread? ==> IsPlaceOf(prog, ctx, Control(a.thread, [Site(a.f, 0)]))
    ensures AllPlaces(prog, ctx, EdgeOfAction(prog, ctx, pt, a).pre) && AllPlaces(prog, ctx, EdgeOfAction(prog, ctx, pt, a).post)
  {
    hide PlaceOf, DestPlace, IsPlaceOf, AllPlaces, NotSetOfMutex, SetOfMutex;
    var here := PlaceOf(pt.thread, pt.stack);
    SharedPlaces(prog, ctx, pt, a);
    PlaceAlone(prog, ctx, here);
    if !a.Vanish? {
      PlaceAlone(prog, ctx, DestPlace(prog, pt, a.dest));
    }
    match a
    case SetCondition(m, d) =>
      ConditionPlaces(prog, ctx, here, NotSetOfMutex(ctx, m));
      ConditionPlaces(prog, ctx, DestPlace(prog, pt, d), SetOfMutex(ctx, m));
    case Acquire(m, _) => TwoPlaces(prog, ctx, here, MutexPlace(m));
    case Release(m, d) => TwoPlaces(prog, ctx, DestPlace(prog, pt, d), MutexPlace(m));
    case NotifyOne(c, d) => TwoPlaces(prog, ctx, DestPlace(prog, pt, d), Notify(c));
    case SpawnThread(t, f, _, d) => TwoPlaces(prog, ctx, DestPlace(prog, pt, d), Control(t, [Site(f, 0)]));
    case JoinThread(t, _) => TwoPlaces(prog, ctx, here, ThreadEnd(t));
    case _ =>
  }

  /** The places of the objects an action is about. */
  lemma SharedPlaces(prog: Program, ctx: Context, pt: Point, a: Action)
    requires SoundAction(prog, a)
    ensures match a
      case Acquire(m, _) => IsPlaceOf(prog, ctx, MutexPlace(m))
      case Release(m, _) => IsPlaceOf(prog, ctx, MutexPlace(m))
      case NotifyOne(c, _) => IsPlaceOf(prog, ctx, Notify(c))
      case JoinThread(t, _) => IsPlaceOf(prog, ctx, ThreadEnd(t))
      case SetCondition(m, _) => forall q :: q in NotSetOfMutex(ctx, m) || q in SetOfMutex(ctx, m) ==> IsPlaceOf(prog, ctx, q)
      case _ => true
  {
    hide IsPoint, IsThread, CreatesMutex, CreatesCondvar;
  }

  lemma PlaceAlone(prog: Program, ctx: Context, p: PlaceRef)
    requires IsPlaceOf(prog, ctx, p)
    ensures AllPlaces(prog, ctx, multiset{p}) && AllPlaces(prog, ctx, multiset{p} + multiset{}) && AllPlaces(prog, ctx, multiset{})
  {
    hide IsPlaceOf;
  }

  lemma TwoPlaces(prog: Program, ctx: Context, p: PlaceRef, q: PlaceRef)
    requires IsPlaceOf(prog, ctx, p) && IsPlaceOf(prog, ctx, q)
    ensures AllPlaces(prog, ctx, multiset{p} + multiset{q})
  {
    hide IsPlaceOf;
  }

  lemma ConditionPlaces(prog: Program, ctx: Context, p: PlaceRef, places: set<PlaceRef>)
    requires IsPlaceOf(prog, ctx, p) && forall q :: q in places ==> IsPlaceOf(prog, ctx, q)
    ensures AllPlaces(prog, ctx, multiset{p} + multiset(places))
  {
    hide IsPlaceOf;
  }

  lemma WaitPlaces(prog: Program, ctx: Context, c: Point, role: Role)
    requires IsPlaceOf(prog, ctx, WaitEnabled(c)) && IsPlaceOf(prog, ctx, Notify(c))
    requires c in ctx.waits ==>
      var link := ctx.waits[c];
      && link.at.stack != [] && IsPlaceOf(prog, ctx, PlaceOf(link.at.thread, link.at.stack))
      && IsPlaceOf(prog, ctx, DestPlace(prog, link.at, link.wait.dest)) && IsPlaceOf(prog, ctx, MutexPlace(link.wait.mutex))
    ensures AllPlaces(prog, ctx, CondvarEdge(prog, ctx, c, role).pre) && AllPlaces(prog, ctx, CondvarEdge(prog, ctx, c, role).post)
  {
    hide PlaceOf, DestPlace, IsPoint, IsThread, CreatesMutex, CreatesCondvar, Home;
  }

  lemma ActionArcs(prog: Program, net: ProgramNet, ctx: Context, pt: Point, i: nat)
    requires Translatable(prog) && IsNetOf(prog, net, ctx) && IsPoint(prog, pt) && pt.stack != [] && i < |Actions(prog, pt)|
    ensures AllPlaces(prog, ctx, EdgeOfAction(prog, ctx, pt, Actions(prog, pt)[i]).pre)
    ensures AllPlaces(prog, ctx, EdgeOfAction(prog, ctx, pt, Actions(prog, pt)[i]).post)
  {
    hide EffectAt, IsPoint, Home, DestPlace, Faulty, WellFormed, EdgeOf, EdgeOfAction, Tokens, IsConditionPair, IsContext, SoundAction, AllPlaces;
    var a := Actions(prog, pt)[i];
    EffectDefined(prog, pt);
    EffectDests(prog, pt);
    AliasSoundness(prog, net, ctx, pt);
    HomeIsPoint(prog, pt.thread, pt.stack);
    if !a.Vanish? {
      DestIsPlace(prog, ctx, pt, a.dest);
    }
    if a.SpawnThread? {
      EffectShape(prog, pt);
      StartIsPlace(prog, net, ctx, pt);
    }
    ActionPlaces(prog, ctx, pt, a);
  }

  lemma CondvarArcs(prog: Program, net: ProgramNet, ctx: Context, c: Point, role: Role)
    requires Translatable(prog) && IsNetOf(prog, net, ctx) && CondvarRef(c, role) in net.transitions
    ensures AllPlaces(prog, ctx, CondvarEdge(prog, ctx, c, role).pre) && AllPlaces(prog, ctx, CondvarEdge(prog, ctx, c, role).post)
  {
    hide EffectAt, IsPoint, IsThread, Home, DestPlace, CreatesMutex, CreatesCondvar, Faulty, WellFormed, EdgeOf, CondvarEdge, Tokens, IsConditionPair, TargetOk,
      AllPlaces;
    if c in ctx.waits {
      var link := ctx.waits[c];
      EffectDefined(prog, link.at);
      EffectDests(prog, link.at);
      AliasSoundness(prog, net, ctx, link.at);
      HomeIsPoint(prog, link.at.thread, link.at.stack);
      DestIsPlace(prog, ctx, link.at, link.wait.dest);
    }
    WaitPlaces(prog, ctx, c, role);
  }

  lemma SkipArcs(prog: Program, net: ProgramNet, ctx: Context, m: Point, w: Point)
    requires Translatable(prog) && IsNetOf(prog, net, ctx) && SkipRef(m, w) in net.transitions
    ensures AllPlaces(prog, ctx, net.transitions[SkipRef(m, w)].pre) && AllPlaces(prog, ctx, net.transitions[SkipRef(m, w)].post)
  {
    hide EffectAt, IsPoint, IsThread, Home, DestPlace, CreatesMutex, Faulty, WellFormed, EdgeOf, Tokens, TargetOk;
    EdgeOfSkip(prog, net, ctx, SkipRef(m, w));
    assert IsConditionPair(prog, m, w);
    EffectDefined(prog, w);
    EffectDests(prog, w);
    HomeIsPoint(prog, w.thread, w.stack);
    DestIsPlace(prog, ctx, w, WaitAt(prog, w).value.dest);
  }

  /** Every arc of every transition connects it to a place of the net. */
  lemma ArcsHaveEnds(prog: Program, net: ProgramNet, ctx: Context, ref: TransRef, p: PlaceRef)
    requires Translatable(prog) && IsNetOf(prog, net, ctx) && ref in net.transitions
    requires p in net.transitions[ref].pre || p in net.transitions[ref].post
    ensures p in net.places
  {
    assert p in net.places <==> IsPlaceOf(prog, ctx, p);
    hide IsNetOf, Translatable, EdgeOfAction, CondvarEdge, IsPlaceOf, Actions;
    match ref
    case TransRef(pt, i) =>
      EdgeOfPoint(prog, net, ctx, ref);
      ActionArcs(prog, net, ctx, pt, i);
    case CondvarRef(c, role) =>
      EdgeOfCondvar(prog, net, ctx, ref);
      CondvarArcs(prog, net, ctx, c, role);
    case SkipRef(m, w) =>
      SkipArcs(prog, net, ctx, m, w);
  }

  /** Tokens never leave the places of the net. */
  lemma {:induction false} TokensOnPlaces(prog: Program, net: ProgramNet, ctx: Context, m0: multiset<PlaceRef>, run: seq<TransRef>)
    requires Translatable(prog) && IsNetOf(prog, net, ctx) && IsInitial(net, m0) && After(net, m0, run).Some?
    ensures forall p :: p in After(net, m0, run).value ==> p in net.places
  {
    hide IsNetOf, Translatable;
    if run != [] {
      LastFiring(net, m0, run);
      TokensOnPlaces(prog, net, ctx, m0, run[..|run| - 1]);
      var last := run[|run| - 1];
      forall p | p in net.transitions[last].post ensures p in net.places {
        ArcsHaveEnds(prog, net, ctx, last, p);
      }
    }
  }
}
