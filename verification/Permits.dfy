/** A condition on programs under which wait_enabled <= 1 in every run: signals are sent with a permit, and a permit is
    only there once the waiting thread holds the mutex of the wait. Permits are counted for every place, like guards. */
module Permits {
  import opened Wrappers
  import opened PetriNets
  import opened Mir
  import opened ControlPoints
  import opened AliasMemory
  import opened Blueprint
  import opened NetLaws
  import opened Condvars

  /** The mutex of the wait linked to a condvar. */
  function MutexOf(ctx: Context, c: Point): Option<Point> {
    if c in ctx.waits then Some(ctx.waits[c].wait.mutex) else None
  }

  /** Locking the mutex gives a permit; unlocking it and sending a signal take one each. A thread passes permits on when
      it spawns a thread, and gets back what a joined thread has left. */
  ghost predicate Pays(prog: Program, ctx: Context, c: Point, g: Weighing, pt: Point, a: Action)
    requires pt.stack != []
  {
    a.Vanish? ||
    g(DestPlace(prog, pt, a.dest))
    + One(a.Release? && MutexOf(ctx, c) == Some(a.mutex)) + One(a.NotifyOne? && a.condvar == c)
    + (if a.SpawnThread? then g(Control(a.thread, [Site(a.f, 0)])) else 0)
    <= g(PlaceOf(pt.thread, pt.stack)) + One(a.Acquire? && MutexOf(ctx, c) == Some(a.mutex))
       + (if a.JoinThread? && LinkedJoin(ctx, pt.thread, a.thread) then g(ThreadEnd(a.thread)) else 0)
  }

  /** A wait on `c` goes on with at most one permit. Any other wait that unlocks the mutex has one, and gets it back. A wait
      that can be skipped has the permits it goes on with. */
  ghost predicate WaitPays(prog: Program, ctx: Context, c: Point, g: Weighing, d: Point)
    requires d in ctx.waits && ctx.waits[d].at.stack != []
  {
    var link := ctx.waits[d];
    var here, there, same := g(PlaceOf(link.at.thread, link.at.stack)), g(DestPlace(prog, link.at, link.wait.dest)), MutexOf(ctx, c) == Some(link.wait.mutex);
    there <= One(same) && (d != c ==> One(same) <= here) && (forall m: Point :: (m, link.at) in ctx.conditions ==> there <= here)
  }

  ghost predicate Permitted(prog: Program, ctx: Context, c: Point, g: Weighing) {
    && (forall p: PlaceRef :: g(p) >= 0)
    && (forall p: PlaceRef :: !IsControl(p) ==> g(p) == 0)
    && g(Control(MainThread, [Site(prog.main, 0)])) == 0
    && (forall pt: Point, i: nat :: IsPoint(prog, pt) && pt.stack != [] && i < |Actions(prog, pt)| ==> Pays(prog, ctx, c, g, pt, Actions(prog, pt)[i]))
    && (forall d: Point :: d in ctx.waits && ctx.waits[d].at.stack != [] ==> WaitPays(prog, ctx, c, g, d))
  }

  /** Weighs wait_enabled, pending signals, the free mutex and the permits. */
  function PermitWeight(ctx: Context, c: Point, g: Weighing): Weighing {
    (p: PlaceRef) => g(p) + One(p == WaitEnabled(c) || p == Notify(c) || (p.MutexPlace? && MutexOf(ctx, c) == Some(p.id)))
  }

  lemma ActionPermits(prog: Program, net: ProgramNet, ctx: Context, c: Point, g: Weighing, pt: Point, i: nat)
    requires IsNetOf(prog, net, ctx) && Permitted(prog, ctx, c, g) && IsPoint(prog, pt) && pt.stack != [] && i < |Actions(prog, pt)|
    ensures ActionGain(prog, ctx, pt, Actions(prog, pt)[i], PermitWeight(ctx, c, g)) <= 0
  {
    hide IsNetOf, Actions, DestPlace, Home, IsPoint;
    var a := Actions(prog, pt)[i];
    assert Pays(prog, ctx, c, g, pt, a);
    if !a.Vanish? {
      DestIsControl(prog, pt, a.dest);
    }
  }

  lemma WaitPermits(prog: Program, ctx: Context, c: Point, g: Weighing, d: Point, role: Role)
    requires Permitted(prog, ctx, c, g) && (d in ctx.waits ==> ctx.waits[d].at.stack != [])
    ensures GainAt(prog, ctx, CondvarRef(d, role), PermitWeight(ctx, c, g)) <= 0
  {
    hide Actions, DestPlace, Home, WaitAt, IsPoint, Pays;
    if d in ctx.waits {
      assert WaitPays(prog, ctx, c, g, d);
      DestIsControl(prog, ctx.waits[d].at, ctx.waits[d].wait.dest);
    }
  }

  lemma PermitsNeverGrow(prog: Program, net: ProgramNet, ctx: Context, c: Point, g: Weighing, ref: TransRef)
    requires IsNetOf(prog, net, ctx) && Permitted(prog, ctx, c, g) && ref in net.transitions
    ensures Gain(net.transitions[ref], PermitWeight(ctx, c, g)) <= 0
  {
    hide IsNetOf, Actions, DestPlace, Home, WaitAt, Weight, IsPoint, Gain, ActionGain, Pays;
    GainIs(prog, net, ctx, ref, PermitWeight(ctx, c, g));
    match ref
    case TransRef(pt, i) =>
      EdgeOfPoint(prog, net, ctx, ref);
      ActionPermits(prog, net, ctx, c, g, pt, i);
    case CondvarRef(d, role) =>
      EdgeOfCondvar(prog, net, ctx, ref);
      WaitPermits(prog, ctx, c, g, d, role);
    case SkipRef(_, p) =>
      EdgeOfSkip(prog, net, ctx, ref);
      assert WaitPays(prog, ctx, c, g, WaitAt(prog, p).value.condvar);
      DestIsControl(prog, p, WaitAt(prog, p).value.dest);
  }

  lemma PermitsAtStart(prog: Program, net: ProgramNet, ctx: Context, c: Point, g: Weighing, m0: multiset<PlaceRef>)
    requires IsNetOf(prog, net, ctx) && IsInitial(net, m0) && Permitted(prog, ctx, c, g)
    ensures Weight(m0, PermitWeight(ctx, c, g)) <= 1 + One(c in ctx.waits)
  {
    hide IsNetOf, IsPoint, Actions, Home, Pays, WaitPays, IsPlaceOf;
    var w := PermitWeight(ctx, c, g);
    forall p ensures m0[p] <= 1 && (p in m0 && p != WaitEnabled(c) && !(p.MutexPlace? && MutexOf(ctx, c) == Some(p.id)) ==> w(p) == 0) {
      StartTokens(prog, net, ctx, m0, p);
    }
    AtMostTwo(m0, w, WaitEnabled(c), if c in ctx.waits then MutexPlace(ctx.waits[c].wait.mutex) else WaitEnabled(c));
  }

  lemma AtMostTwo(m: multiset<PlaceRef>, w: Weighing, p: PlaceRef, q: PlaceRef)
    requires m[p] <= 1 && m[q] <= 1 && w(p) == 1 && w(q) == 1 && forall r :: r in m && r != p && r != q ==> w(r) == 0
    ensures Weight(m, w) <= if p == q then 1 else 2
  {
    hide Weight;
    var m1 := if p in m then m - multiset{p} else m;
    if p in m {
      WeightRemove(m, w, p);
    }
    var m2 := if q in m1 then m1 - multiset{q} else m1;
    if q in m1 {
      WeightRemove(m1, w, q);
    }
    WeightZero(m2, w);
  }

  lemma ReceivingWeighs(ctx: Context, c: Point, g: Weighing, m: multiset<PlaceRef>)
    requires (forall p: PlaceRef :: g(p) >= 0) && WaitEnabled(c) in m && CanReceive(ctx, m, c)
    ensures Weight(m, PermitWeight(ctx, c, g)) >= 2 + One(c in ctx.waits)
  {
    hide Weight;
    var w := PermitWeight(ctx, c, g);
    var pair := multiset{WaitEnabled(c)} + multiset{Notify(c)};
    WeightTwo(WaitEnabled(c), Notify(c), w);
    if c in ctx.waits {
      var mutex := MutexPlace(ctx.waits[c].wait.mutex);
      WeightSum(pair, multiset{mutex}, w);
      WeightOne(mutex, w);
      WeightPart(pair + multiset{mutex}, m, w);
    } else {
      WeightPart(pair, m, w);
    }
  }

  /** With permits, a signal is only received while a thread waits: wait_enabled <= 1 in every marking the net can reach. */
  lemma PermittedIsBounded(prog: Program, net: ProgramNet, ctx: Context, c: Point, g: Weighing)
    requires IsNetOf(prog, net, ctx) && IsCondvar(prog, c) && Permitted(prog, ctx, c, g)
    ensures Bounded(net, WaitEnabled(c))
  {
    hide IsNetOf, IsCondvar, Reachable, CanReceive, Weight, Gain, After, Bounded, Pays, WaitPays;
    WaitEnabledBound(prog, net, ctx, c);
    forall m: multiset<PlaceRef> | Reachable(net, m) && WaitEnabled(c) in m ensures !CanReceive(ctx, m, c) {
      var m0, run := RunTo(net, m);
      forall ref | ref in net.transitions ensures Gain(net.transitions[ref], PermitWeight(ctx, c, g)) <= 0 {
        PermitsNeverGrow(prog, net, ctx, c, g, ref);
      }
      PermitsAtStart(prog, net, ctx, c, g, m0);
      WeightNeverGrows(net, m0, run, PermitWeight(ctx, c, g));
      if CanReceive(ctx, m, c) {
        ReceivingWeighs(ctx, c, g, m);
      }
    }
  }
}
