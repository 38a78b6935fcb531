/** What every run keeps of a condition variable: the ledger of its two places, signals that are never lost once a
    thread waits, and the two-state condition variable that the places stand for. */
module Condvars {
  import opened Wrappers
  import opened PetriNets
  import opened Mir
  import opened ControlPoints
  import opened AliasMemory
  import opened Blueprint
  import opened NetLaws

  ghost predicate IsCondvar(prog: Program, c: Point) {
    IsPoint(prog, c) && CreatesCondvar(prog, c)
  }

  ghost predicate Notifies(prog: Program, c: Point, ref: TransRef) {
    && ref.TransRef? && ref.i < |Actions(prog, ref.pt)|
    && Actions(prog, ref.pt)[ref.i].NotifyOne? && Actions(prog, ref.pt)[ref.i].condvar == c
  }

  /** The run of the net of a program, from its initial marking. */
  ghost predicate IsRun(prog: Program, net: ProgramNet, ctx: Context, m0: multiset<PlaceRef>, run: seq<TransRef>) {
    IsNetOf(prog, net, ctx) && IsInitial(net, m0) && After(net, m0, run).Some?
  }

  lemma StartTokens(prog: Program, net: ProgramNet, ctx: Context, m0: multiset<PlaceRef>, p: PlaceRef)
    requires IsNetOf(prog, net, ctx) && IsInitial(net, m0)
    ensures m0[p] == if IsPlaceOf(prog, ctx, p) then Tokens(prog, p) else 0
  {
    hide IsContext, EdgeOf, Tokens, IsPlaceOf, IsPoint;
  }

  /** wait_enabled = 1 + #notify_received - #wait_start, in every run. */
  lemma WaitEnabledLedger(prog: Program, net: ProgramNet, ctx: Context, m0: multiset<PlaceRef>, run: seq<TransRef>, c: Point)
    requires IsRun(prog, net, ctx, m0, run) && IsCondvar(prog, c)
    ensures After(net, m0, run).value[WaitEnabled(c)] + Fired(run, ref => ref == CondvarRef(c, WaitStart))
         == 1 + Fired(run, ref => ref == CondvarRef(c, NotifyReceived))
  {
    hide IsNetOf, IsPoint, CreatesCondvar, Actions;
    StartTokens(prog, net, ctx, m0, WaitEnabled(c));
    forall ref | ref in net.transitions
      ensures net.transitions[ref].post[WaitEnabled(c)] + One(ref == CondvarRef(c, WaitStart))
           == net.transitions[ref].pre[WaitEnabled(c)] + One(ref == CondvarRef(c, NotifyReceived))
    {
      SharedArcsOf(prog, net, ctx, ref, WaitEnabled(c));
    }
    CountLedger(net, m0, run, WaitEnabled(c), ref => ref == CondvarRef(c, NotifyReceived), ref => ref == CondvarRef(c, WaitStart));
  }

  /** notify = #notify_one - #lost_signal - #notify_received, in every run. */
  lemma NotifyLedger(prog: Program, net: ProgramNet, ctx: Context, m0: multiset<PlaceRef>, run: seq<TransRef>, c: Point)
    requires IsRun(prog, net, ctx, m0, run) && IsCondvar(prog, c)
    ensures After(net, m0, run).value[Notify(c)]
          + Fired(run, ref => ref == CondvarRef(c, LostSignal)) + Fired(run, ref => ref == CondvarRef(c, NotifyReceived))
         == Fired(run, ref => Notifies(prog, c, ref))
  {
    hide IsNetOf, IsPoint, CreatesCondvar, Actions;
    var lost, received := ref => ref == CondvarRef(c, LostSignal), ref => ref == CondvarRef(c, NotifyReceived);
    StartTokens(prog, net, ctx, m0, Notify(c));
    forall ref | ref in net.transitions
      ensures net.transitions[ref].post[Notify(c)] + One(lost(ref) || received(ref))
           == net.transitions[ref].pre[Notify(c)] + One(Notifies(prog, c, ref))
    {
      SharedArcsOf(prog, net, ctx, ref, Notify(c));
    }
    var either := ref => lost(ref) || received(ref);
    CountLedger(net, m0, run, Notify(c), ref => Notifies(prog, c, ref), either);
    FiredOneOf(run, either, lost, received);
  }

  // ---------------------------------------------------------------------------------------------
  // A signal sent to a waiting thread

  /** A thread waits, and a signal was sent to it. */
  ghost predicate Signalled(m: multiset<PlaceRef>, c: Point) {
    m[WaitEnabled(c)] == 0 && m[Notify(c)] >= 1
  }

  lemma SignalStep(prog: Program, net: ProgramNet, ctx: Context, m: multiset<PlaceRef>, c: Point, ref: TransRef)
    requires IsNetOf(prog, net, ctx) && Signalled(m, c) && Enabled(net, m, ref) && ref != CondvarRef(c, NotifyReceived)
    ensures Signalled(Fire(net, m, ref), c)
  {
    hide IsNetOf, Actions;
    SharedArcsOf(prog, net, ctx, ref, WaitEnabled(c));
    SharedArcsOf(prog, net, ctx, ref, Notify(c));
  }

  /** From any marking in which a signalled thread waits, every continuation that does not deliver the signal keeps
      it: in all that time it cannot be lost, and no other wait can start. */
  lemma {:induction false} SignalIsKept(prog: Program, net: ProgramNet, ctx: Context, m: multiset<PlaceRef>, run: seq<TransRef>, c: Point)
    requires IsNetOf(prog, net, ctx) && Signalled(m, c) && After(net, m, run).Some? && CondvarRef(c, NotifyReceived) !in run
    ensures Signalled(After(net, m, run).value, c)
    ensures !Enabled(net, After(net, m, run).value, CondvarRef(c, LostSignal))
    ensures !Enabled(net, After(net, m, run).value, CondvarRef(c, WaitStart))
  {
    hide IsNetOf;
    if run != [] {
      LastFiring(net, m, run);
      SignalIsKept(prog, net, ctx, m, run[..|run| - 1], c);
      SignalStep(prog, net, ctx, After(net, m, run[..|run| - 1]).value, c, run[|run| - 1]);
    }
    NeedsWaitEnabled(prog, net, ctx, After(net, m, run).value, c);
  }

  lemma NeedsWaitEnabled(prog: Program, net: ProgramNet, ctx: Context, m: multiset<PlaceRef>, c: Point)
    requires IsNetOf(prog, net, ctx)
    ensures Enabled(net, m, CondvarRef(c, LostSignal)) ==> m[WaitEnabled(c)] >= 1
    ensures Enabled(net, m, CondvarRef(c, WaitStart)) ==> m[WaitEnabled(c)] >= 1
  {
    hide IsNetOf, Actions;
    forall role | CondvarRef(c, role) in net.transitions {
      SharedArcsOf(prog, net, ctx, CondvarRef(c, role), WaitEnabled(c));
    }
  }

  // ---------------------------------------------------------------------------------------------
  // The condition variable the places stand for

  datatype CondvarState = Idle | Waiting

  /** A condition variable with one waiter: a wait can only start when nobody waits, a signal wakes the waiter and
      is lost if there is none. `None` if the run does not follow these rules. */
  function Follow(c: Point, run: seq<TransRef>): Option<CondvarState> {
    if run == [] then Some(Idle)
    else
      match Follow(c, run[..|run| - 1])
      case None => None
      case Some(state) =>
        var last := run[|run| - 1];
        if last == CondvarRef(c, WaitStart) then (if state == Idle then Some(Waiting) else None)
        else if last == CondvarRef(c, NotifyReceived) then (if state == Waiting then Some(Idle) else None)
        else if last == CondvarRef(c, LostSignal) then (if state == Idle then Some(Idle) else None)
        else Some(state)
  }

  /** How one firing changes wait_enabled. */
  lemma WaitEnabledStep(prog: Program, net: ProgramNet, ctx: Context, m: multiset<PlaceRef>, ref: TransRef, c: Point)
    requires IsNetOf(prog, net, ctx) && Enabled(net, m, ref)
    ensures Fire(net, m, ref)[WaitEnabled(c)] + One(ref == CondvarRef(c, WaitStart))
         == m[WaitEnabled(c)] + One(ref == CondvarRef(c, NotifyReceived))
    ensures ref == CondvarRef(c, WaitStart) || ref == CondvarRef(c, LostSignal) ==> m[WaitEnabled(c)] >= 1
  {
    hide IsNetOf, Actions;
    SharedArcsOf(prog, net, ctx, ref, WaitEnabled(c));
  }

  lemma OneAtStart(prog: Program, net: ProgramNet, ctx: Context, m0: multiset<PlaceRef>, c: Point)
    requires IsNetOf(prog, net, ctx) && IsInitial(net, m0) && IsCondvar(prog, c)
    ensures m0[WaitEnabled(c)] == 1
  {
    hide IsNetOf, IsPoint, CreatesCondvar;
    StartTokens(prog, net, ctx, m0, WaitEnabled(c));
  }

  /** The gadget behaves like the two-state condition variable exactly in the runs in which wait_enabled never holds
      two tokens; then wait_enabled tells its state. */
  lemma {:induction false} GadgetRefines(prog: Program, net: ProgramNet, ctx: Context, m0: multiset<PlaceRef>, run: seq<TransRef>, c: Point)
    requires IsRun(prog, net, ctx, m0, run) && IsCondvar(prog, c)
    ensures Follow(c, run).Some? <==> Safe(net, m0, run, WaitEnabled(c))
    ensures Follow(c, run).Some? ==> After(net, m0, run).value[WaitEnabled(c)] == One(Follow(c, run).value == Idle)
  {
    hide IsNetOf, IsCondvar, Safe, Enabled, Fire;
    if run == [] {
      OneAtStart(prog, net, ctx, m0, c);
      SafeAtStart(net, m0, WaitEnabled(c));
    } else {
      LastFiring(net, m0, run);
      SafeBefore(net, m0, run, WaitEnabled(c));
      GadgetRefines(prog, net, ctx, m0, run[..|run| - 1], c);
      WaitEnabledStep(prog, net, ctx, After(net, m0, run[..|run| - 1]).value, run[|run| - 1], c);
    }
  }

  // ---------------------------------------------------------------------------------------------
  // When wait_enabled holds at most one token

  /** A signal can be received: one is pending, and the mutex of the wait is free. */
  ghost predicate CanReceive(ctx: Context, m: multiset<PlaceRef>, c: Point) {
    Notify(c) in m && (c in ctx.waits ==> MutexPlace(ctx.waits[c].wait.mutex) in m)
  }

  lemma ReceiveGuard(prog: Program, net: ProgramNet, ctx: Context, m: multiset<PlaceRef>, c: Point)
    requires IsNetOf(prog, net, ctx) && IsCondvar(prog, c)
    ensures Enabled(net, m, CondvarRef(c, NotifyReceived)) <==> CanReceive(ctx, m, c)
  {
    hide EdgeOf, Tokens, IsPlaceOf, IsPoint, CreatesCondvar, IsContext, DestPlace;
    EdgeOfCondvar(prog, net, ctx, CondvarRef(c, NotifyReceived));
  }

  lemma FilledByReceiving(prog: Program, net: ProgramNet, ctx: Context, c: Point)
    requires IsNetOf(prog, net, ctx)
    ensures FilledBy(net, WaitEnabled(c), ref => ref == CondvarRef(c, NotifyReceived))
  {
    hide EdgeOf, IsPlaceOf, IsContext, Actions, IsPoint, SharedArcs;
    forall ref | ref in net.transitions
      ensures var edge := net.transitions[ref];
        if ref == CondvarRef(c, NotifyReceived) then edge.pre[WaitEnabled(c)] == 0 && edge.post[WaitEnabled(c)] == 1
        else edge.post[WaitEnabled(c)] <= edge.pre[WaitEnabled(c)]
    {
      SharedArcsOf(prog, net, ctx, ref, WaitEnabled(c));
      OnlyReceivingFills(prog, ctx, ref, net.transitions[ref], c);
    }
  }

  lemma OnlyReceivingFills(prog: Program, ctx: Context, ref: TransRef, edge: Edge, c: Point)
    requires SharedArcs(prog, ctx, ref, edge, WaitEnabled(c))
    ensures if ref == CondvarRef(c, NotifyReceived) then edge.pre[WaitEnabled(c)] == 0 && edge.post[WaitEnabled(c)] == 1
      else edge.post[WaitEnabled(c)] <= edge.pre[WaitEnabled(c)]
  {
    hide Actions;
  }

  /** wait_enabled <= 1 is not guaranteed: it holds in every marking the net can reach exactly if in none of them a
      signal can be received while nobody waits. */
  lemma WaitEnabledBound(prog: Program, net: ProgramNet, ctx: Context, c: Point)
    requires IsNetOf(prog, net, ctx) && IsCondvar(prog, c)
    ensures Bounded(net, WaitEnabled(c)) <==>
      forall m: multiset<PlaceRef> :: Reachable(net, m) && WaitEnabled(c) in m ==> !CanReceive(ctx, m, c)
  {
    hide IsNetOf, IsCondvar, Bounded, FilledBy, Reachable, Enabled, CanReceive;
    var received := ref => ref == CondvarRef(c, NotifyReceived);
    FilledByReceiving(prog, net, ctx, c);
    BoundedIff(net, WaitEnabled(c), received);
    forall m: multiset<PlaceRef> ensures Enabled(net, m, CondvarRef(c, NotifyReceived)) <==> CanReceive(ctx, m, c) {
      ReceiveGuard(prog, net, ctx, m, c);
    }
    assert received(CondvarRef(c, NotifyReceived));
  }
}
