/** Arc by arc, what the transitions of the net of a program take from a place and add to it. */
module NetLaws {
  import opened Wrappers
  import opened PetriNets
  import opened Mir
  import opened ControlPoints
  import opened AliasMemory
  import opened Blueprint

  /** The places that hold the control of a thread, or its end. */
  predicate IsControl(p: PlaceRef) {
    p.Control? || p.ProgramEnd? || p.ProgramPanic? || p.ThreadEnd?
  }

  function One(b: bool): nat {
    if b then 1 else 0
  }

  lemma DestIsControl(prog: Program, pt: Point, dest: Dest)
    requires pt.stack != []
    ensures IsControl(DestPlace(prog, pt, dest))
  {
  }

  lemma ConditionCounts(ctx: Context, m: Point, p: PlaceRef)
    ensures multiset(NotSetOfMutex(ctx, m))[p] == One(p.ConditionNotSet? && p.mutex == m && (m, p.wait) in ctx.conditions)
    ensures multiset(SetOfMutex(ctx, m))[p] == One(p.ConditionSet? && p.mutex == m && (m, p.wait) in ctx.conditions)
  {
    if p.ConditionNotSet? && p.mutex == m && (m, p.wait) in ctx.conditions {
      assert p in NotSetOfMutex(ctx, m);
    }
    if p.ConditionSet? && p.mutex == m && (m, p.wait) in ctx.conditions {
      assert p in SetOfMutex(ctx, m);
    }
  }

  lemma WaitConditionCounts(ctx: Context, w: Point, p: PlaceRef)
    ensures multiset(NotSetOfWait(ctx, w))[p] == One(p.ConditionNotSet? && p.wait == w && (p.mutex, w) in ctx.conditions)
  {
    if p.ConditionNotSet? && p.wait == w && (p.mutex, w) in ctx.conditions {
      assert p in NotSetOfWait(ctx, w);
    }
  }

  /** The tokens an action takes from a place that holds no control, and those it puts there. */
  ghost function Takes(ctx: Context, a: Action, p: PlaceRef): nat {
    match a
    case Acquire(m, _) => One(p == MutexPlace(m))
    case SetCondition(m, _) => One(p.ConditionNotSet? && p.mutex == m && (m, p.wait) in ctx.conditions)
    case _ => 0
  }

  ghost function Puts(ctx: Context, a: Action, p: PlaceRef): nat {
    match a
    case Release(m, _) => One(p == MutexPlace(m))
    case SetCondition(m, _) => One(p.ConditionSet? && p.mutex == m && (m, p.wait) in ctx.conditions)
    case NotifyOne(c, _) => One(p == Notify(c))
    case _ => 0
  }

  lemma SharedCounts(prog: Program, ctx: Context, pt: Point, a: Action, p: PlaceRef)
    requires pt.stack != [] && !IsControl(p)
    ensures EdgeOfAction(prog, ctx, pt, a).pre[p] == Takes(ctx, a, p)
    ensures EdgeOfAction(prog, ctx, pt, a).post[p] == Puts(ctx, a, p)
  {
    hide Home, DestPlace, NotSetOfMutex, SetOfMutex;
    match a
    case Flow(d) => DestIsControl(prog, pt, d);
    case Vanish =>
    case Acquire(_, d) => DestIsControl(prog, pt, d);
    case Release(_, d) => DestIsControl(prog, pt, d);
    case SpawnThread(_, _, _, d) => DestIsControl(prog, pt, d);
    case JoinThread(_, d) => DestIsControl(prog, pt, d);
    case SetCondition(m, d) =>
      DestIsControl(prog, pt, d);
      ConditionCounts(ctx, m, p);
    case NotifyOne(_, d) => DestIsControl(prog, pt, d);
  }

  /** The tokens an action takes from a control place, and those it puts there. */
  lemma ControlCounts(prog: Program, ctx: Context, pt: Point, a: Action, p: PlaceRef)
    requires pt.stack != [] && IsControl(p)
    ensures EdgeOfAction(prog, ctx, pt, a).pre[p]
         == One(p == PlaceOf(pt.thread, pt.stack)) + One(a.JoinThread? && LinkedJoin(ctx, pt.thread, a.thread) && p == ThreadEnd(a.thread))
    ensures EdgeOfAction(prog, ctx, pt, a).post[p]
         == One(!a.Vanish? && p == DestPlace(prog, pt, a.dest)) + One(a.SpawnThread? && a.thread in ctx.prepared && p == Control(a.thread, [Site(a.f, 0)]))
  {
    hide Home, DestPlace, NotSetOfMutex, SetOfMutex;
    if a.SetCondition? {
      ConditionCounts(ctx, a.mutex, p);
    }
  }

  // ---------------------------------------------------------------------------------------------
  // Which transition is which

  lemma EdgeOfPoint(prog: Program, net: ProgramNet, ctx: Context, ref: TransRef)
    requires IsNetOf(prog, net, ctx) && ref in net.transitions && ref.TransRef?
    ensures IsPoint(prog, ref.pt) && ref.pt.stack != [] && ref.i < |Actions(prog, ref.pt)|
    ensures net.transitions[ref] == EdgeOfAction(prog, ctx, ref.pt, Actions(prog, ref.pt)[ref.i])
  {
    hide EffectAt, EdgeOfAction, IsContext, IsThread, Root, IsPlaceOf;
    assert ref == TransRef(ref.pt, ref.i);
  }

  lemma EdgeOfCondvar(prog: Program, net: ProgramNet, ctx: Context, ref: TransRef)
    requires IsNetOf(prog, net, ctx) && ref in net.transitions && ref.CondvarRef?
    ensures net.transitions[ref] == CondvarEdge(prog, ctx, ref.condvar, ref.role)
    ensures ref.condvar in ctx.waits ==> ctx.waits[ref.condvar].at.stack != [] && ctx.waits[ref.condvar].wait.condvar == ref.condvar
  {
    hide EffectAt, EdgeOfAction, IsThread, Root, IsPlaceOf, CondvarEdge;
  }

  lemma EdgeOfSkip(prog: Program, net: ProgramNet, ctx: Context, ref: TransRef)
    requires IsNetOf(prog, net, ctx) && ref in net.transitions && ref.SkipRef?
    ensures (ref.mutex, ref.wait) in ctx.conditions && ref.wait.stack != [] && WaitAt(prog, ref.wait).Some?
    ensures var wait := WaitAt(prog, ref.wait).value; wait.condvar in ctx.waits && ctx.waits[wait.condvar] == WaitLink(ref.wait, wait)
    ensures net.transitions[ref] ==
      Transition(multiset{PlaceOf(ref.wait.thread, ref.wait.stack)} + multiset{ConditionSet(ref.mutex, ref.wait)},
                 multiset{DestPlace(prog, ref.wait, WaitAt(prog, ref.wait).value.dest)} + multiset{ConditionSet(ref.mutex, ref.wait)})
  {
    hide EffectAt, EdgeOfAction, IsThread, Root, IsPlaceOf, CondvarEdge, WaitAt;
    assert ref == SkipRef(ref.mutex, ref.wait);
    assert IsConditionPair(prog, ref.mutex, ref.wait);
  }

  /** The tokens a transition takes from a place that holds no control and the tokens it puts there. */
  ghost predicate SharedArcs(prog: Program, ctx: Context, ref: TransRef, edge: Edge, p: PlaceRef) {
    match ref
    case TransRef(pt, i) =>
      && i < |Actions(prog, pt)|
      && edge.pre[p] == Takes(ctx, Actions(prog, pt)[i], p)
      && edge.post[p] == Puts(ctx, Actions(prog, pt)[i], p)
    case CondvarRef(c, LostSignal) =>
      edge.pre[p] == One(p == WaitEnabled(c)) + One(p == Notify(c)) && edge.post[p] == One(p == WaitEnabled(c))
    case CondvarRef(c, WaitStart) =>
      var linked := c in ctx.waits;
      var notSet := One(linked && p.ConditionNotSet? && p.wait == ctx.waits[c].at && (p.mutex, p.wait) in ctx.conditions);
      && edge.pre[p] == One(p == WaitEnabled(c)) + notSet
      && edge.post[p] == One(linked && p == MutexPlace(ctx.waits[c].wait.mutex)) + notSet
    case CondvarRef(c, NotifyReceived) =>
      && edge.pre[p] == One(p == Notify(c)) + One(c in ctx.waits && p == MutexPlace(ctx.waits[c].wait.mutex))
      && edge.post[p] == One(p == WaitEnabled(c))
    case SkipRef(m, w) => edge.pre[p] == One(p == ConditionSet(m, w)) && edge.post[p] == One(p == ConditionSet(m, w))
  }

  lemma CondvarCounts(prog: Program, ctx: Context, c: Point, role: Role, p: PlaceRef)
    requires !IsControl(p)
    requires c in ctx.waits ==> ctx.waits[c].at.stack != []
    ensures SharedArcs(prog, ctx, CondvarRef(c, role), CondvarEdge(prog, ctx, c, role), p)
  {
    hide Home, DestPlace, NotSetOfWait;
    if c in ctx.waits {
      DestIsControl(prog, ctx.waits[c].at, ctx.waits[c].wait.dest);
      WaitConditionCounts(ctx, ctx.waits[c].at, p);
    }
  }

  lemma SharedArcsOf(prog: Program, net: ProgramNet, ctx: Context, ref: TransRef, p: PlaceRef)
    requires IsNetOf(prog, net, ctx) && ref in net.transitions && !IsControl(p)
    ensures SharedArcs(prog, ctx, ref, net.transitions[ref], p)
  {
    hide IsNetOf, EdgeOfAction, CondvarEdge, Actions, DestPlace, Home, Takes, Puts, WaitAt;
    match ref
    case TransRef(pt, i) =>
      EdgeOfPoint(prog, net, ctx, ref);
      SharedCounts(prog, ctx, pt, Actions(prog, pt)[i], p);
    case CondvarRef(c, role) =>
      EdgeOfCondvar(prog, net, ctx, ref);
      CondvarCounts(prog, ctx, c, role, p);
    case SkipRef(m, w) =>
      EdgeOfSkip(prog, net, ctx, ref);
      DestIsControl(prog, w, WaitAt(prog, w).value.dest);
  }

  // ---------------------------------------------------------------------------------------------
  // What a firing adds to a weighted sum of tokens

  type Weighing = PlaceRef -> int

  /** A weighing that does not see the condition places. */
  ghost predicate Blind(w: Weighing) {
    forall p: PlaceRef :: p.ConditionSet? || p.ConditionNotSet? ==> w(p) == 0
  }

  ghost predicate LinkedJoin(ctx: Context, joiner: ThreadName, joined: ThreadName) {
    joined.Spawned? && joined.parent == joiner && joined in ctx.prepared
  }

  ghost function ActionGain(prog: Program, ctx: Context, pt: Point, a: Action, w: Weighing): int
    requires pt.stack != []
  {
    (if a.Vanish? then 0 else w(DestPlace(prog, pt, a.dest)))
    - w(PlaceOf(pt.thread, pt.stack))
    + match a
      case Acquire(m, _) => -w(MutexPlace(m))
      case Release(m, _) => w(MutexPlace(m))
      case SpawnThread(t, f, _, _) => if t in ctx.prepared then w(Control(t, [Site(f, 0)])) else 0
      case JoinThread(t, _) => if LinkedJoin(ctx, pt.thread, t) then -w(ThreadEnd(t)) else 0
      case NotifyOne(c, _) => w(Notify(c))
      case _ => 0
  }

  lemma WeightTwo(p: PlaceRef, q: PlaceRef, w: Weighing)
    ensures Weight(multiset{p} + multiset{q}, w) == w(p) + w(q)
  {
    WeightSum(multiset{p}, multiset{q}, w);
    WeightOne(p, w);
    WeightOne(q, w);
  }

  lemma WeightWithConditions(p: PlaceRef, places: set<PlaceRef>, w: Weighing)
    requires Blind(w) && forall q :: q in places ==> q.ConditionSet? || q.ConditionNotSet?
    ensures Weight(multiset{p} + multiset(places), w) == w(p)
  {
    WeightSum(multiset{p}, multiset(places), w);
    WeightOne(p, w);
    WeightZero(multiset(places), w);
  }

  lemma ActionGainIs(prog: Program, ctx: Context, pt: Point, a: Action, w: Weighing)
    requires pt.stack != [] && Blind(w)
    ensures Gain(EdgeOfAction(prog, ctx, pt, a), w) == ActionGain(prog, ctx, pt, a, w)
  {
    hide Home, DestPlace, Weight;
    var here := PlaceOf(pt.thread, pt.stack);
    WeightOne(here, w);
    if a.Vanish? {
      WeightZero(multiset{}, w);
    } else {
      var dest := DestPlace(prog, pt, a.dest);
      WeightOne(dest, w);
      match a
      case Flow(_) =>
      case Acquire(m, _) => WeightTwo(here, MutexPlace(m), w);
      case Release(m, _) => WeightTwo(dest, MutexPlace(m), w);
      case SpawnThread(t, f, _, _) =>
        WeightTwo(dest, Control(t, [Site(f, 0)]), w);
        assert multiset{dest} + multiset{} == multiset{dest};
      case JoinThread(t, _) =>
        WeightTwo(here, ThreadEnd(t), w);
        assert multiset{here} + multiset{} == multiset{here};
      case SetCondition(m, _) =>
        WeightWithConditions(here, NotSetOfMutex(ctx, m), w);
        WeightWithConditions(dest, SetOfMutex(ctx, m), w);
      case NotifyOne(c, _) => WeightTwo(dest, Notify(c), w);
    }
  }

  /** What one firing of a transition adds to a weighing. */
  ghost function GainAt(prog: Program, ctx: Context, ref: TransRef, w: Weighing): int {
    match ref
    case TransRef(pt, i) => if pt.stack == [] || i >= |Actions(prog, pt)| then 0 else ActionGain(prog, ctx, pt, Actions(prog, pt)[i], w)
    case CondvarRef(c, LostSignal) => -w(Notify(c))
    case CondvarRef(c, WaitStart) =>
      if c !in ctx.waits then -w(WaitEnabled(c))
      else
        var link := ctx.waits[c];
        w(MutexPlace(link.wait.mutex)) - w(PlaceOf(link.at.thread, link.at.stack)) - w(WaitEnabled(c))
    case CondvarRef(c, NotifyReceived) =>
      if c !in ctx.waits || ctx.waits[c].at.stack == [] then w(WaitEnabled(c)) - w(Notify(c))
      else
        var link := ctx.waits[c];
        w(WaitEnabled(c)) + w(DestPlace(prog, link.at, link.wait.dest)) - w(Notify(c)) - w(MutexPlace(link.wait.mutex))
    case SkipRef(m, p) =>
      if p.stack == [] || WaitAt(prog, p).None? then 0
      else w(DestPlace(prog, p, WaitAt(prog, p).value.dest)) - w(PlaceOf(p.thread, p.stack))
  }

  lemma CondvarGainIs(prog: Program, ctx: Context, c: Point, role: Role, w: Weighing)
    requires Blind(w) && (c in ctx.waits ==> ctx.waits[c].at.stack != [])
    ensures Gain(CondvarEdge(prog, ctx, c, role), w) == GainAt(prog, ctx, CondvarRef(c, role), w)
  {
    hide Home, DestPlace, Weight;
    WeightOne(WaitEnabled(c), w);
    WeightOne(Notify(c), w);
    match role
    case LostSignal => WeightTwo(WaitEnabled(c), Notify(c), w);
    case WaitStart =>
      if c !in ctx.waits {
        WeightZero(multiset{}, w);
      } else {
        var link := ctx.waits[c];
        var start, notSet := PlaceOf(link.at.thread, link.at.stack), multiset(NotSetOfWait(ctx, link.at));
        WeightSum(multiset{WaitEnabled(c)} + multiset{start}, notSet, w);
        WeightTwo(WaitEnabled(c), start, w);
        WeightZero(notSet, w);
        WeightWithConditions(MutexPlace(link.wait.mutex), NotSetOfWait(ctx, link.at), w);
      }
    case NotifyReceived =>
      if c in ctx.waits {
        var link := ctx.waits[c];
        WeightTwo(Notify(c), MutexPlace(link.wait.mutex), w);
        WeightTwo(WaitEnabled(c), DestPlace(prog, link.at, link.wait.dest), w);
      }
  }

  lemma GainIs(prog: Program, net: ProgramNet, ctx: Context, ref: TransRef, w: Weighing)
    requires IsNetOf(prog, net, ctx) && ref in net.transitions && Blind(w)
    ensures Gain(net.transitions[ref], w) == GainAt(prog, ctx, ref, w)
  {
    hide IsNetOf, EdgeOfAction, CondvarEdge, Actions, DestPlace, Home, WaitAt, ActionGain, Weight, Blind;
    match ref
    case TransRef(pt, i) =>
      EdgeOfPoint(prog, net, ctx, ref);
      ActionGainIs(prog, ctx, pt, Actions(prog, pt)[i], w);
    case CondvarRef(c, role) =>
      EdgeOfCondvar(prog, net, ctx, ref);
      CondvarGainIs(prog, ctx, c, role, w);
    case SkipRef(m, p) =>
      EdgeOfSkip(prog, net, ctx, ref);
      WeightTwo(PlaceOf(p.thread, p.stack), ConditionSet(m, p), w);
      WeightTwo(DestPlace(prog, p, WaitAt(prog, p).value.dest), ConditionSet(m, p), w);
  }
}
