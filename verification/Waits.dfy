/** Entering a wait never blocks: in a thread that is started at most once and contains a single wait, the wait can
    start or be skipped whenever it is reached. */
module Waits {
  import opened Wrappers
  import opened PetriNets
  import opened Mir
  import opened ControlPoints
  import opened AliasMemory
  import opened Blueprint
  import opened Aliases
  import opened NetLaws
  import opened Condvars
  import opened Conditions
  import opened Control

  /** Weighs the tokens on the places of a thread, other than its end. */
  function InThread(t: ThreadName): Weighing {
    (p: PlaceRef) => if p.Control? && p.thread == t then 1 else 0
  }

  /** The wait at `p` is the only wait of its thread. */
  ghost predicate OnlyWait(prog: Program, p: Point) {
    && IsPoint(prog, p) && WaitAt(prog, p).Some?
    && forall q: Point :: IsPoint(prog, q) && WaitAt(prog, q).Some? && q.thread == p.thread ==> q == p
  }

  ghost predicate StartsThread(t: ThreadName, ref: TransRef) {
    t.Spawned? && ref == TransRef(Point(t.parent, t.stack), 0)
  }

  /** How often a thread was started in a run; the main thread is started with the program. */
  ghost function TimesStarted(t: ThreadName, run: seq<TransRef>): nat {
    One(t.MainThread?) + Fired(run, ref => StartsThread(t, ref))
  }

  lemma DestInThread(prog: Program, pt: Point, dest: Dest, t: ThreadName)
    requires pt.stack != []
    ensures 0 <= InThread(t)(DestPlace(prog, pt, dest)) <= One(pt.thread == t)
  {
  }

  lemma ActionInThread(prog: Program, net: ProgramNet, ctx: Context, pt: Point, i: nat, t: ThreadName)
    requires IsNetOf(prog, net, ctx) && IsPoint(prog, pt) && pt.stack != [] && i < |Actions(prog, pt)|
    ensures ActionGain(prog, ctx, pt, Actions(prog, pt)[i], InThread(t)) <= One(StartsThread(t, TransRef(pt, i)))
  {
    hide IsNetOf, Actions, DestPlace, Home, IsPoint;
    var a := Actions(prog, pt)[i];
    if !a.Vanish? {
      DestInThread(prog, pt, a.dest, t);
    }
    if a.SpawnThread? {
      SpawnIsPrepared(prog, net, ctx, pt, i);
    }
  }

  lemma OnlyLink(prog: Program, ctx: Context, p: Point)
    requires IsContext(prog, ctx) && OnlyWait(prog, p)
    ensures var c := WaitAt(prog, p).value.condvar;
      && c in ctx.waits && ctx.waits[c] == WaitLink(p, WaitAt(prog, p).value)
      && forall d: Point :: d in ctx.waits && d != c ==> ctx.waits[d].at.thread != p.thread
  {
    hide IsPoint, WaitAt, IsConditionPair, IsThread;
  }

  /** A firing adds at most as much to the tokens of the thread as it adds to wait_enabled, unless it starts the thread. */
  lemma EntryStep(prog: Program, net: ProgramNet, ctx: Context, ref: TransRef, p: Point)
    requires IsNetOf(prog, net, ctx) && ref in net.transitions && OnlyWait(prog, p)
    ensures var c := WaitAt(prog, p).value.condvar;
      Gain(net.transitions[ref], InThread(p.thread))
      <= One(ref == CondvarRef(c, NotifyReceived)) - One(ref == CondvarRef(c, WaitStart)) + One(StartsThread(p.thread, ref))
  {
    hide EdgeOf, Tokens, IsPlaceOf, IsContext, IsPoint, Actions, ActionGain, DestPlace, Home, WaitAt, Gain, StartsThread;
    var c := WaitAt(prog, p).value.condvar;
    GainIs(prog, net, ctx, ref, InThread(p.thread));
    OnlyLink(prog, ctx, p);
    match ref
    case TransRef(pt, i) =>
      EdgeOfPoint(prog, net, ctx, ref);
      ActionInThread(prog, net, ctx, pt, i, p.thread);
    case CondvarRef(d, role) =>
      NotAStart(p.thread, ref);
      EdgeOfCondvar(prog, net, ctx, ref);
      if d in ctx.waits {
        DestInThread(prog, ctx.waits[d].at, ctx.waits[d].wait.dest, p.thread);
      }
    case SkipRef(_, w) =>
      NotAStart(p.thread, ref);
      EdgeOfSkip(prog, net, ctx, ref);
      DestInThread(prog, w, WaitAt(prog, w).value.dest, p.thread);
  }

  lemma NotAStart(t: ThreadName, ref: TransRef)
    requires !ref.TransRef?
    ensures !StartsThread(t, ref)
  {
  }

  /** The tokens of the thread never outnumber wait_enabled, but for the times the thread was started again. */
  lemma {:induction false} WaitEnabledForAll(prog: Program, net: ProgramNet, ctx: Context, m0: multiset<PlaceRef>, run: seq<TransRef>, p: Point)
    requires IsRun(prog, net, ctx, m0, run) && OnlyWait(prog, p) && IsCondvar(prog, WaitAt(prog, p).value.condvar)
    ensures Weight(After(net, m0, run).value, InThread(p.thread)) + 1
         <= After(net, m0, run).value[WaitEnabled(WaitAt(prog, p).value.condvar)] + TimesStarted(p.thread, run)
  {
    hide IsNetOf, IsPoint, IsCondvar, WaitAt, Weight, Gain, Fire, Enabled, InThread, StartsThread;
    var c := WaitAt(prog, p).value.condvar;
    if run == [] {
      OneAtStart(prog, net, ctx, m0, c);
      ThreadAtStart(prog, net, ctx, m0, p.thread);
    } else {
      var before, last := run[..|run| - 1], run[|run| - 1];
      LastFiring(net, m0, run);
      WaitEnabledForAll(prog, net, ctx, m0, before, p);
      var m := After(net, m0, before).value;
      assert last in net.transitions by { FiredIsThere(net, m, last); }
      FireWeight(net, m, last, InThread(p.thread));
      EntryStep(prog, net, ctx, last, p);
      WaitEnabledStep(prog, net, ctx, m, last, c);
    }
  }

  lemma FiredIsThere(net: ProgramNet, m: multiset<PlaceRef>, ref: TransRef)
    requires Enabled(net, m, ref)
    ensures ref in net.transitions
  {
  }

  lemma ThreadAtStart(prog: Program, net: ProgramNet, ctx: Context, m0: multiset<PlaceRef>, t: ThreadName)
    requires IsNetOf(prog, net, ctx) && IsInitial(net, m0)
    ensures Weight(m0, InThread(t)) <= One(t.MainThread?)
  {
    hide IsNetOf, IsPoint, Home;
    var start := Control(MainThread, [Site(prog.main, 0)]);
    forall p | p in m0 && p != start ensures InThread(t)(p) == 0 {
      StartTokens(prog, net, ctx, m0, p);
    }
    StartTokens(prog, net, ctx, m0, start);
    if start in m0 {
      WeightOfOne(m0, InThread(t), start);
    } else {
      WeightZero(m0, InThread(t));
    }
  }

  lemma AtLeast(m: multiset<PlaceRef>, w: Weighing, p: PlaceRef)
    requires p in m && w(p) == 1 && forall q :: w(q) >= 0
    ensures Weight(m, w) >= 1
  {
    WeightOne(p, w);
    WeightPart(multiset{p}, m, w);
  }

  /** Whenever the wait is reached in such a run, it can start or be skipped. */
  lemma WaitEntryNeverBlocks(prog: Program, net: ProgramNet, ctx: Context, m0: multiset<PlaceRef>, run: seq<TransRef>, p: Point)
    requires IsRun(prog, net, ctx, m0, run) && OnlyWait(prog, p) && TimesStarted(p.thread, run) <= 1
    requires PlaceOf(p.thread, p.stack) in After(net, m0, run).value
    ensures var m := After(net, m0, run).value;
      || Enabled(net, m, CondvarRef(WaitAt(prog, p).value.condvar, WaitStart))
      || exists mutex: Point :: Enabled(net, m, SkipRef(mutex, p))
  {
    hide Weight, TimesStarted, EdgeOf, Tokens, IsPlaceOf, DestPlace, Home, IsThread, Root, After;
    var c, m, here := WaitAt(prog, p).value.condvar, After(net, m0, run).value, PlaceOf(p.thread, p.stack);
    WaitIsLinked(prog, net, ctx, p);
    WaitEnabledForAll(prog, net, ctx, m0, run, p);
    AtLeast(m, InThread(p.thread), here);
    if mutex: Point :| (mutex, p) in ctx.conditions && m[ConditionNotSet(mutex, p)] == 0 {
      ConditionLedger(prog, net, ctx, m0, run, mutex, p);
      SkipIsEnabled(prog, net, ctx, m, mutex, p);
    } else {
      StartIsEnabled(prog, net, ctx, m, p);
    }
  }

  lemma WaitIsLinked(prog: Program, net: ProgramNet, ctx: Context, p: Point)
    requires IsNetOf(prog, net, ctx) && OnlyWait(prog, p)
    ensures IsCondvar(prog, WaitAt(prog, p).value.condvar) && p.stack != []
    ensures WaitAt(prog, p).value.condvar in ctx.waits && ctx.waits[WaitAt(prog, p).value.condvar].at == p
    ensures forall role: Role :: CondvarRef(WaitAt(prog, p).value.condvar, role) in net.transitions
  {
    hide EdgeOf, Tokens, IsPlaceOf, IsThread, Root, CreatesCondvar, CreatesMutex;
    OnlyLink(prog, ctx, p);
    AliasSoundness(prog, net, ctx, p);
  }

  lemma SkipIsEnabled(prog: Program, net: ProgramNet, ctx: Context, m: multiset<PlaceRef>, mutex: Point, p: Point)
    requires IsNetOf(prog, net, ctx) && (mutex, p) in ctx.conditions && PlaceOf(p.thread, p.stack) in m && ConditionSet(mutex, p) in m
    ensures Enabled(net, m, SkipRef(mutex, p))
  {
    hide EdgeOf, Tokens, IsPlaceOf, IsContext, Home, DestPlace, WaitAt;
    EdgeOfSkip(prog, net, ctx, SkipRef(mutex, p));
  }

  lemma StartIsEnabled(prog: Program, net: ProgramNet, ctx: Context, m: multiset<PlaceRef>, p: Point)
    requires IsNetOf(prog, net, ctx) && OnlyWait(prog, p) && PlaceOf(p.thread, p.stack) in m
    requires m[WaitEnabled(WaitAt(prog, p).value.condvar)] >= 1
    requires forall mutex: Point :: (mutex, p) in ctx.conditions ==> m[ConditionNotSet(mutex, p)] >= 1
    ensures Enabled(net, m, CondvarRef(WaitAt(prog, p).value.condvar, WaitStart))
  {
    hide IsNetOf, Home, DestPlace, WaitAt, IsPoint, IsCondvar;
    WaitIsLinked(prog, net, ctx, p);
    var ref := CondvarRef(WaitAt(prog, p).value.condvar, WaitStart);
    EdgeOfCondvar(prog, net, ctx, ref);
    var pre := net.transitions[ref].pre;
    forall q ensures pre[q] <= m[q] {
      WaitConditionCounts(ctx, p, q);
    }
  }
}
