/** A program has one net: whatever order the postprocessing tasks of equal priority come in, and whatever order the
    condition places are linked in, the translation ends with the same places, transitions and arcs. */
module Uniqueness {
  import opened Wrappers
  import opened PetriNets
  import opened Mir
  import opened ControlPoints
  import opened AliasMemory
  import opened Blueprint

  lemma OneContext(prog: Program, ctx: Context, ctx': Context)
    requires IsContext(prog, ctx) && IsContext(prog, ctx')
    ensures ctx == ctx'
  {
    hide IsPoint, IsThread, WaitAt, IsConditionPair;
    assert forall c: Point :: c in ctx.waits <==> c in ctx'.waits;
    assert ctx.waits == ctx'.waits;
    assert ctx.prepared == ctx'.prepared;
    forall c: (Point, Point) ensures c in ctx.conditions <==> c in ctx'.conditions {
      var (m, w) := c;
      assert (m, w) in ctx.conditions <==> IsConditionPair(prog, m, w);
      assert (m, w) in ctx'.conditions <==> IsConditionPair(prog, m, w);
    }
    assert ctx.conditions == ctx'.conditions;
  }

  lemma SameTransitions(prog: Program, ctx: Context, net: ProgramNet, net': ProgramNet, ref: TransRef)
    requires IsNetOf(prog, net, ctx) && IsNetOf(prog, net', ctx)
    ensures ref in net.transitions <==> ref in net'.transitions
    ensures ref in net.transitions ==> net.transitions[ref] == net'.transitions[ref]
  {
    hide IsPoint, Actions, CreatesCondvar, IsContext, EdgeOf, Tokens, IsPlaceOf;
    match ref
    case TransRef(pt, i) =>
    case CondvarRef(c, role) =>
    case SkipRef(m, w) =>
  }

  /** The net of a program is unique. */
  lemma OneNet(prog: Program, net: ProgramNet, ctx: Context, net': ProgramNet, ctx': Context)
    requires IsNetOf(prog, net, ctx) && IsNetOf(prog, net', ctx')
    ensures net == net' && ctx == ctx'
  {
    hide IsContext, EdgeOf, Tokens, IsPlaceOf, IsPoint, Actions, CreatesCondvar;
    OneContext(prog, ctx, ctx');
    forall ref: TransRef
      ensures ref in net.transitions <==> ref in net'.transitions
      ensures ref in net.transitions ==> net.transitions[ref] == net'.transitions[ref]
    {
      SameTransitions(prog, ctx, net, net', ref);
    }
    assert net.places == net'.places;
    assert net.transitions == net'.transitions;
  }
}
