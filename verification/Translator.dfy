/** The translator: walks the bodies of the program, inlining calls through a call stack, queueing spawned
    threads and postprocessing tasks, and building the net as it goes. */
module Translation {
  import opened Wrappers
  import opened PetriNets
  import opened PetriNetInterface
  import opened Mir
  import opened ControlPoints
  import opened AliasMemory
  import opened Blueprint
  import opened CallEffects
  import opened Worlds
  import opened Provenance
  import opened Frames
  import opened SyncVariables
  import opened MirFunctions
  import opened Progress
  import opened ThreadQueue
  import opened Postprocess

  function JumpDest(term: Terminator): Dest
    requires term.Goto? || term.UnwindResume? || term.UnwindTerminate? || term.Return? || term.Unreachable?
  {
    match term
    case Goto(target) => ToBlock(target)
    case Return => ToReturn
    case Unreachable => ToEnd
    case _ => ToPanic
  }

  /** Adds the edges, one or two, of a point. */
  function WithEdges(transitions: map<TransRef, Edge>, pt: Point, edges: seq<Edge>): map<TransRef, Edge> {
    if |edges| == 1 then transitions[TransRef(pt, 0) := edges[0]]
    else if |edges| == 2 then transitions[TransRef(pt, 0) := edges[0]][TransRef(pt, 1) := edges[1]]
    else transitions
  }

  lemma OtherNames(transitions: map<TransRef, Edge>, pt: Point, edges: seq<Edge>)
    ensures forall ref: TransRef :: ref.CondvarRef? ==> (ref in WithEdges(transitions, pt, edges) <==> ref in transitions)
  {
  }

  lemma EdgesReplaced(transitions: map<TransRef, Edge>, pt: Point, edges: seq<Edge>, edges': seq<Edge>)
    requires |edges| == |edges'|
    ensures WithEdges(WithEdges(transitions, pt, edges), pt, edges') == WithEdges(transitions, pt, edges')
  {
  }

  /** The places of a function call. */
  datatype Places = Places(start: PlaceRef, end: PlaceRef, cleanup: Option<PlaceRef>)

  function CallEdges(places: Places): seq<Edge> {
    [Transition(multiset{places.start}, multiset{places.end})]
    + if places.cleanup.None? then [] else [Transition(multiset{places.start}, multiset{places.cleanup.value})]
  }

  function UnlockEdges(guard: Option<Point>, places: Places): (edges: seq<Edge>)
    ensures |edges| == |CallEdges(places)|
  {
    var edges := CallEdges(places);
    if guard.None? then edges
    else seq(|edges|, i requires 0 <= i < |edges| => Transition(edges[i].pre, edges[i].post + multiset{MutexPlace(guard.value)}))
  }

  class Translator {
    const prog: Program
    const net: TheNet
    var callStack: seq<MirFunction>
    var threads: seq<Thread>
    var postprocessing: multiset<Task>
    var mutexes: map<Point, seq<TransRef>>
    var condvars: map<Point, Option<WaitLink>>
    var joins: map<ThreadName, TransRef>
    var programPanic: PlaceRef
    ghost var prepared: set<ThreadName>
    ghost var conditions: set<(Point, Point)>
    ghost var visited: iset<Point>

    /** The net of a new translator holds the places of the start, the end and the panic of the program. */
    constructor (prog: Program)
      ensures this.prog == prog && fresh(net)
      ensures W() == InitialWorld(prog) && callStack == [] && programPanic == ProgramPanic
    {
      this.prog := prog;
      this.net := new PetriNet();
      this.callStack, this.threads, this.postprocessing := [], [], multiset{};
      this.mutexes, this.condvars, this.joins := map[], map[], map[];
      this.programPanic := ProgramPanic;
      this.prepared, this.conditions, this.visited := {}, {}, iset{};
      new;
      net.AddPlace(ProgramPanic);
      net.AddPlace(ProgramEnd);
      net.AddPlace(ProgramStart(prog));
      net.AddToken(ProgramStart(prog), 1);
    }

    ghost function W(): World
      reads this, net
    {
      World(net.places, net.transitions, mutexes, condvars, joins, threads, postprocessing, prepared, conditions, visited)
    }

    function FunctionOf(fr: MirFunction): Function
      requires fr.f < |prog.functions|
    {
      prog.functions[fr.f]
    }

    function TerminatorOf(fr: MirFunction): Terminator
      reads fr`activeBlock
      requires fr.f < |prog.functions| && fr.activeBlock.Some? && fr.activeBlock.value < |FunctionOf(fr).blocks|
    {
      FunctionOf(fr).blocks[fr.activeBlock.value].terminator
    }

    /** What the translation of one block needs of the state. */
    ghost predicate Poised(fr: MirFunction)
      reads this, net, fr
    {
      && fr.f < |prog.functions|
      && fr.Ready(net)
      && fr.activeBlock.value < |FunctionOf(fr).blocks|
      && ProgramEnd in net.places && programPanic in net.places
      && programPanic == PanicPlace(fr.thread) && fr.endPlace == ReturnPlace(prog, fr.thread, fr.callers)
      && TerminatorOk(prog, fr.f, TerminatorOf(fr))
      && forall b :: b in fr.basicBlocks ==> b < |FunctionOf(fr).blocks|
    }

    lemma PoisedRange(fr: MirFunction)
      requires Poised(fr)
      ensures fr.f < |prog.functions| && fr.activeBlock.Some? && fr.activeBlock.value < |FunctionOf(fr).blocks|
      ensures fr.activeBlock.value in fr.basicBlocks && fr.Valid() && fr.InStep(net.places)
      ensures programPanic == PanicPlace(fr.thread) && programPanic in net.places && fr.endPlace == ReturnPlace(prog, fr.thread, fr.callers)
      ensures forall ref :: ref in net.transitions ==> !(ref.TransRef? && ref.pt == fr.Here())
    {
      hide ReturnPlace;
    }

    // -------------------------------------------------------------------------------------------
    // Terminators other than calls

    /** What translating the active block must have done. */
    ghost predicate DidVisit(w: World, fr: MirFunction, e: Effect)
      reads this, net, fr`activeBlock
      requires fr.activeBlock.Some?
    {
      W() == Visited(prog, w, fr.Here(), e, net.places)
    }

    /** The block table after a visit: nothing lost, nothing outside the body. */
    ghost predicate TableOk(fr: MirFunction, before: map<nat, PlaceRef>, places: map<PlaceRef, nat>)
      reads net, fr
    {
      && fr.f < |prog.functions|
      && fr.Valid() && fr.InStep(net.places)
      && fr.Grown(places, net.places)
      && (forall b :: b in fr.basicBlocks ==> b < |FunctionOf(fr).blocks|)
      && before.Keys <= fr.basicBlocks.Keys
    }

    ghost function PlaceFor(fr: MirFunction, dest: Dest): PlaceRef {
      if dest.ToReturn? then ReturnPlace(prog, fr.thread, fr.callers) else DestPlaceInFrame(fr.thread, fr.callers, fr.f, dest)
    }

    /** The edge of an action that only moves control, and unlocks a mutex if it drops a guard. */
    ghost function PlainEdge(fr: MirFunction, a: Action): Edge
      reads fr`activeBlock
      requires fr.activeBlock.Some? && (a.Flow? || a.Release?)
    {
      var edge := fr.EdgeTo(PlaceFor(fr, a.dest));
      if a.Flow? then edge else Transition(edge.pre, edge.post + multiset{MutexPlace(a.mutex)})
    }

    lemma PlainEdgeOf(ctx: Context, fr: MirFunction, a: Action)
      requires fr.activeBlock.Some? && (a.Flow? || a.Release?)
      ensures EdgeOfAction(prog, ctx, fr.Here(), a) == PlainEdge(fr, a)
    {
      hide Home, ReturnPlace;
      DestPlaceAt(prog, fr.thread, fr.callers, fr.f, fr.activeBlock.value, a.dest);
    }

    lemma PlainDone(w: World, fr: MirFunction, e: Effect)
      requires fr.activeBlock.Some?
      requires 1 <= |e.actions| <= 2 && forall i :: 0 <= i < |e.actions| ==> e.actions[i].Flow? || e.actions[i].Release?
      requires e.wait.None? && !CreatesMutex(prog, fr.Here()) && !CreatesCondvar(prog, fr.Here())
      requires W() == w.(places := net.places, visited := w.visited + iset{fr.Here()},
        transitions := WithEdges(w.transitions, fr.Here(),
          if |e.actions| == 1 then [PlainEdge(fr, e.actions[0])] else [PlainEdge(fr, e.actions[0]), PlainEdge(fr, e.actions[1])]))
      ensures DidVisit(w, fr, e)
    {
      hide EdgeOfAction, CreatesMutex, CreatesCondvar;
      PlainEdgeOf(Ctx(w), fr, e.actions[0]);
      if |e.actions| == 1 {
        PlainOne(prog, w, fr.Here(), e, e.actions[0], net.places);
      } else {
        PlainEdgeOf(Ctx(w), fr, e.actions[1]);
        PlainTwo(prog, w, fr.Here(), e, e.actions[0], e.actions[1], net.places);
      }
    }

    ghost function EffectOf(fr: MirFunction): Option<Effect>
      reads fr`activeBlock, fr.memory
      requires fr.f < |prog.functions| && fr.activeBlock.Some? && fr.activeBlock.value < |FunctionOf(fr).blocks|
    {
      TerminatorEffect(FunctionOf(fr), fr.Here(), fr.memory.cells, TerminatorOf(fr))
    }

    lemma NotACall(fr: MirFunction)
      requires Poised(fr) && !TerminatorOf(fr).Call?
      ensures !CreatesMutex(prog, fr.Here()) && !CreatesCondvar(prog, fr.Here())
    {
      hide Inv, WellFormed;
    }

    /** The edge of a drop: it unlocks the mutex of a dropped guard. */
    ghost function DropEdge(fr: MirFunction, place: Place, dest: Dest): Edge
      reads fr`activeBlock, fr.memory
      requires fr.activeBlock.Some?
    {
      PlainEdge(fr, DropAction(fr.memory.cells, place, dest))
    }

    /** The edges of the terminators that are not calls and have at most two targets. */
    ghost function NonCallEdges(fr: MirFunction, term: Terminator): seq<Edge>
      reads fr`activeBlock, fr.memory
      requires fr.activeBlock.Some?
      requires term.Drop? || term.Assert? || term.Goto? || term.Return? || term.Unreachable? || term.UnwindResume? || term.UnwindTerminate?
    {
      match term
      case Drop(place, target, Cleanup(c)) => [DropEdge(fr, place, ToBlock(target)), DropEdge(fr, place, ToBlock(c))]
      case Drop(place, target, Impossible) => [fr.EdgeTo(ProgramEnd), DropEdge(fr, place, ToBlock(target))]
      case Drop(place, target, _) => [DropEdge(fr, place, ToBlock(target))]
      case Assert(target, Cleanup(c)) => [fr.EdgeTo(fr.BlockPlace(target)), fr.EdgeTo(fr.BlockPlace(c))]
      case Assert(target, Impossible) => [fr.EdgeTo(fr.BlockPlace(target)), fr.EdgeTo(ProgramEnd)]
      case Assert(target, _) => [fr.EdgeTo(fr.BlockPlace(target))]
      case _ => [fr.EdgeTo(PlaceFor(fr, JumpDest(term)))]
    }

    /** Goto, return, unwinding, and code that cannot be reached. */
    method VisitJump(fr: MirFunction, term: Terminator)
      requires Poised(fr) && term == TerminatorOf(fr)
      requires term.Goto? || term.UnwindResume? || term.UnwindTerminate? || term.Return? || term.Unreachable?
      modifies net, fr`basicBlocks
      ensures TableOk(fr, old(fr.basicBlocks), old(net.places))
      ensures net.transitions == WithEdges(old(net.transitions), fr.Here(), NonCallEdges(fr, term))
    {
      hide Home, ReturnPlace, MirFunction.InStep, MirFunction.Valid;
      match term
      case Goto(target) => fr.Goto(target, net);
      case UnwindResume => fr.Unwind(programPanic, net);
      case UnwindTerminate => fr.Unwind(programPanic, net);
      case Return => fr.ReturnStatement(net);
      case Unreachable => fr.UnreachableStatement(0, ProgramEnd, net);
    }

    method VisitSwitch(fr: MirFunction, term: Terminator)
      requires Poised(fr) && term == TerminatorOf(fr) && term.SwitchInt?
      modifies this`visited, net, fr`basicBlocks
      ensures TableOk(fr, old(fr.basicBlocks), old(net.places))
      ensures EffectOf(fr).Some? && DidVisit(old(W()), fr, EffectOf(fr).value)
    {
      NotACall(fr);
      hide Home, CreatesMutex, CreatesCondvar, Numbered, EdgesOf, CallEffect;
      ghost var w := W();
      ghost var e := EffectOf(fr).value;
      visited := visited + iset{fr.Here()};
      var targets := TerminatorOf(fr).targets;
      fr.SwitchInt(targets, net);
      PlainVisit(prog, w, fr.Here(), e, net.places);
      FanOutIsSwitch(prog, Ctx(w), fr.thread, fr.callers, fr.f, fr.activeBlock.value, targets, e.actions);
    }

    /** Dropping a mutex guard unlocks its mutex, on the unwind path as well. */
    method HandleMutexGuardDrop(fr: MirFunction, place: Place, t: TransRef)
      requires t in net.transitions
      requires GetGuard(fr.memory.cells, place).Some? ==> MutexPlace(GetGuard(fr.memory.cells, place).value) in net.places
      modifies net
      ensures net.places == old(net.places)
      ensures net.transitions == match GetGuard(fr.memory.cells, place)
        case None => old(net.transitions)
        case Some(m) => old(net.transitions)[t :=
          Transition(old(net.transitions)[t].pre, old(net.transitions)[t].post + multiset{MutexPlace(m)})]
    {
      var guard := GetGuard(fr.memory.cells, place);
      if guard.Some? {
        net.AddArcTransitionPlace(t, MutexPlace(guard.value));
      }
    }

    method ConnectDrop(fr: MirFunction, i: nat, place: Place, target: nat)
      requires fr.Valid() && fr.InStep(net.places) && fr.activeBlock.Some? && target > 0
      requires TransRef(fr.Here(), i) !in net.transitions
      requires GetGuard(fr.memory.cells, place).Some? ==> MutexPlace(GetGuard(fr.memory.cells, place).value) in net.places
      modifies net, fr`basicBlocks
      ensures fr.Valid() && fr.InStep(net.places) && fr.Grown(old(net.places), net.places)
      ensures forall p :: p in old(net.places) ==> p in net.places
      ensures fr.basicBlocks == old(fr.basicBlocks)[target := fr.BlockPlace(target)]
      ensures net.transitions == old(net.transitions)[TransRef(fr.Here(), i) := DropEdge(fr, place, ToBlock(target))]
    {
      hide Home, GetGuard, MirFunction.InStep, MirFunction.Valid;
      fr.ConnectToBlock(i, target, net);
      HandleMutexGuardDrop(fr, place, TransRef(fr.Here(), i));
    }

    method VisitDrop(fr: MirFunction, place: Place, target: nat, unwind: UnwindAction)
      requires Poised(fr) && TerminatorOf(fr) == Drop(place, target, unwind)
      requires GetGuard(fr.memory.cells, place).Some? ==> MutexPlace(GetGuard(fr.memory.cells, place).value) in net.places
      modifies net, fr`basicBlocks
      ensures TableOk(fr, old(fr.basicBlocks), old(net.places))
      ensures net.transitions == WithEdges(old(net.transitions), fr.Here(), NonCallEdges(fr, Drop(place, target, unwind)))
    {
      hide Home, GetGuard, ReturnPlace, MirFunction.InStep, MirFunction.Valid, MirFunction.Grown, PlainEdge, DropAction;
      match unwind
      case Cleanup(c) =>
        ConnectDrop(fr, 0, place, target);
        ghost var between := net.places;
        ConnectDrop(fr, 1, place, c);
        fr.GrownTwice(old(net.places), between, net.places);
      case Impossible =>
        fr.UnreachableStatement(0, ProgramEnd, net);
        ConnectDrop(fr, 1, place, target);
      case _ =>
        ConnectDrop(fr, 0, place, target);
    }

    method VisitAssert(fr: MirFunction, target: nat, unwind: UnwindAction)
      requires Poised(fr) && TerminatorOf(fr) == Assert(target, unwind)
      modifies net, fr`basicBlocks
      ensures TableOk(fr, old(fr.basicBlocks), old(net.places))
      ensures net.transitions == WithEdges(old(net.transitions), fr.Here(), NonCallEdges(fr, Assert(target, unwind)))
    {
      hide Home, ReturnPlace, MirFunction.InStep, MirFunction.Valid;
      match unwind
      case Cleanup(c) =>
        fr.ConnectWithCleanup(0, target, Some(c), net);
      case Impossible =>
        AssertWithoutUnwinding(fr, target);
      case _ =>
        fr.ConnectWithCleanup(0, target, None, net);
    }

    method AssertWithoutUnwinding(fr: MirFunction, target: nat)
      requires Poised(fr) && TerminatorOf(fr) == Assert(target, Impossible)
      modifies net, fr`basicBlocks
      ensures TableOk(fr, old(fr.basicBlocks), old(net.places))
      ensures net.transitions == WithEdges(old(net.transitions), fr.Here(), NonCallEdges(fr, Assert(target, Impossible)))
    {
      hide Home, ReturnPlace, MirFunction.InStep, MirFunction.Valid;
      fr.ConnectWithCleanup(0, target, None, net);
      fr.UnreachableStatement(1, ProgramEnd, net);
    }

    // -------------------------------------------------------------------------------------------
    // Calls

    /** The places of a call are those the blueprint assigns to its ends. */
    ghost predicate PlacesFit(fr: MirFunction, places: Places, ends: Ends)
      reads fr`activeBlock
      requires fr.activeBlock.Some? && ends.Ends?
    {
      && places.start == fr.BlockPlace(fr.activeBlock.value)
      && places.end == PlaceFor(fr, ends.end)
      && places.cleanup == match ends.cleanup case None => None case Some(d) => Some(PlaceFor(fr, d))
    }

    ghost predicate CanCall(fr: MirFunction, places: Places)
      reads this, net, fr`activeBlock
    {
      && fr.activeBlock.Some?
      && places.start in net.places && places.end in net.places
      && (places.cleanup.Some? ==> places.cleanup.value in net.places)
      && forall ref :: ref in net.transitions ==> !(ref.TransRef? && ref.pt == fr.Here())
    }

    method PlaceOfBlock(fr: MirFunction, b: nat, ghost before: map<nat, PlaceRef>, ghost places: map<PlaceRef, nat>) returns (place: PlaceRef)
      requires TableOk(fr, before, places) && fr.activeBlock.Some? && TargetOk(FunctionOf(fr), b)
      modifies net, fr`basicBlocks
      ensures TableOk(fr, before, places)
      ensures net.transitions == old(net.transitions)
      ensures place == PlaceFor(fr, ToBlock(b)) && place in net.places
      ensures forall p :: p in old(net.places) ==> p in net.places
    {
      hide Home, MirFunction.InStep, MirFunction.Grown, WithPlace;
      fr.GrownByBlock(net.places, b);
      fr.GrownTwice(places, net.places, WithPlace(net.places, fr.BlockPlace(b)));
      ghost var table := fr.basicBlocks;
      place := fr.GetOrAddBasicBlock(b, net);
      assert table.Keys <= fr.basicBlocks.Keys;
    }

    /** The places of the call that ends the active block; `None` for a call that does not return. */
    method PlacesOfCall(fr: MirFunction, returnTo: Option<nat>, unwind: UnwindAction) returns (places: Option<Places>)
      requires Poised(fr) && TerminatorOf(fr).Call?
      requires TerminatorOf(fr).returnTo == returnTo && TerminatorOf(fr).unwind == unwind
      modifies net, fr`basicBlocks
      ensures TableOk(fr, old(fr.basicBlocks), old(net.places)) && Poised(fr)
      ensures net.transitions == old(net.transitions)
      ensures places.Some? <==> CallEnds(returnTo, unwind).Ends?
      ensures places.Some? ==> PlacesFit(fr, places.value, CallEnds(returnTo, unwind)) && CanCall(fr, places.value)
    {
      hide Poised, TableOk, PlacesFit, CanCall;
      match returnTo
      case Some(r) =>
        var found := PlacesOfReturn(fr, r, unwind);
        places := Some(found);
      case None =>
        places := PlacesWithoutReturn(fr, unwind);
    }

    method PlacesOfReturn(fr: MirFunction, r: nat, unwind: UnwindAction) returns (places: Places)
      requires Poised(fr) && TerminatorOf(fr).Call? && TerminatorOf(fr).returnTo == Some(r) && TerminatorOf(fr).unwind == unwind
      modifies net, fr`basicBlocks
      ensures TableOk(fr, old(fr.basicBlocks), old(net.places)) && Poised(fr)
      ensures net.transitions == old(net.transitions)
      ensures PlacesFit(fr, places, CallEnds(Some(r), unwind)) && CanCall(fr, places)
    {
      fr.ActiveInNet(net.places);
      var start := fr.basicBlocks[fr.activeBlock.value];
      ghost var table, known := fr.basicBlocks, net.places;
      assert TableOk(fr, table, known);
      hide Home, ReturnPlace, TableOk;
      var end := PlaceOfBlock(fr, r, table, known);
      match unwind
      case Continue => places := Places(start, end, None);
      case Cleanup(c) =>
        var cleanup := PlaceOfBlock(fr, c, table, known);
        places := Places(start, end, Some(cleanup));
      case Terminate => places := Places(start, end, Some(programPanic));
      case Impossible => places := Places(start, end, Some(ProgramEnd));
    }

    method PlacesWithoutReturn(fr: MirFunction, unwind: UnwindAction) returns (places: Option<Places>)
      requires Poised(fr) && TerminatorOf(fr).Call? && TerminatorOf(fr).returnTo == None && TerminatorOf(fr).unwind == unwind
      modifies net, fr`basicBlocks
      ensures TableOk(fr, old(fr.basicBlocks), old(net.places)) && Poised(fr)
      ensures net.transitions == old(net.transitions)
      ensures places.Some? <==> CallEnds(None, unwind).Ends?
      ensures places.Some? ==> PlacesFit(fr, places.value, CallEnds(None, unwind)) && CanCall(fr, places.value)
    {
      fr.ActiveInNet(net.places);
      var start := fr.basicBlocks[fr.activeBlock.value];
      ghost var table, known := fr.basicBlocks, net.places;
      assert TableOk(fr, table, known);
      hide Home, ReturnPlace, TableOk;
      match unwind
      case Terminate => places := Some(Places(start, programPanic, None));
      case Cleanup(c) =>
        var end := PlaceOfBlock(fr, c, table, known);
        places := Some(Places(start, end, None));
      case Impossible => places := Some(Places(start, ProgramEnd, None));
      case Continue => places := None;
    }

    /** The abridged form of a call. */
    method ConnectCall(fr: MirFunction, places: Places)
      requires CanCall(fr, places)
      modifies net
      ensures net.places == old(net.places)
      ensures net.transitions == WithEdges(old(net.transitions), fr.Here(), CallEdges(places))
    {
      net.ConnectPlaces(places.start, places.end, TransRef(fr.Here(), 0));
      if places.cleanup.Some? {
        net.ConnectPlaces(places.start, places.cleanup.value, TransRef(fr.Here(), 1));
      }
    }

    ghost predicate CallFits(fr: MirFunction, places: Places)
      reads fr`activeBlock
    {
      && fr.f < |prog.functions| && fr.activeBlock.Some? && fr.activeBlock.value < |FunctionOf(fr).blocks|
      && TerminatorOf(fr).Call?
      && CallEnds(TerminatorOf(fr).returnTo, TerminatorOf(fr).unwind).Ends?
      && PlacesFit(fr, places, CallEnds(TerminatorOf(fr).returnTo, TerminatorOf(fr).unwind))
    }

    ghost predicate Calling(fr: MirFunction, places: Places)
      reads this, net, fr`activeBlock
    {
      CallFits(fr, places) && CanCall(fr, places)
    }

    /** The call was translated as the blueprint says, or it panicked as the blueprint says. */
    ghost predicate Handled(w: World, fr: MirFunction, cells: Cells, ok: bool)
      reads this, net, fr`activeBlock, fr.memory
      requires fr.f < |prog.functions| && fr.activeBlock.Some? && fr.activeBlock.value < |FunctionOf(fr).blocks|
      requires TerminatorOf(fr).Call?
    {
      var e := CallEffect(FunctionOf(fr), fr.Here(), cells, TerminatorOf(fr));
      && (ok <==> e.Some? && NoConflict(w, e.value))
      && (ok ==> DidVisit(w, fr, e.value) && fr.memory.cells == e.value.cells)
    }

    ghost function TheEnds(fr: MirFunction): Ends
      reads fr`activeBlock
      requires fr.f < |prog.functions| && fr.activeBlock.Some? && fr.activeBlock.value < |FunctionOf(fr).blocks|
      requires TerminatorOf(fr).Call?
    {
      CallEnds(TerminatorOf(fr).returnTo, TerminatorOf(fr).unwind)
    }

    lemma ShortCallEdges(ctx: Context, fr: MirFunction, places: Places)
      requires CallFits(fr, places)
      ensures EdgesOf(prog, ctx, fr.Here(), ShortCall(TheEnds(fr))) == CallEdges(places)
      ensures EdgesOf(prog, ctx, fr.Here(), [Flow(TheEnds(fr).end)]) == CallEdges(places.(cleanup := None))
    {
      hide Home, ReturnPlace;
      var ends := TheEnds(fr);
      PlainEdgeOf(ctx, fr, Flow(ends.end));
      if ends.cleanup.Some? {
        PlainEdgeOf(ctx, fr, Flow(ends.cleanup.value));
      }
    }

    lemma EdgesDone(w: World, pt: Point, e: Effect, edges: seq<Edge>)
      requires pt.stack != [] && e.wait.None? && !CreatesCondvar(prog, pt)
      requires |edges| <= 2 && EdgesOf(prog, Ctx(w), pt, e.actions) == edges
      ensures NextTransitions(prog, w, pt, e) == WithEdges(w.transitions, pt, edges)
    {
      hide CreatesCondvar, EdgeOfAction;
      if |edges| == 1 {
        NumberedOne(pt, edges[0]);
        assert edges == [edges[0]];
      } else if |edges| == 2 {
        NumberedTwo(pt, edges[0], edges[1]);
        assert edges == [edges[0], edges[1]];
      }
    }

    /** Call in short form that links its result to its first argument. */
    method CallForeignFunction(fr: MirFunction, places: Places, args: seq<Operand>, destination: Place) returns (ok: bool)
      requires CanCall(fr, places) && fr.f < |prog.functions|
      modifies net, fr.memory
      ensures net.places == old(net.places)
      ensures net.transitions == WithEdges(old(net.transitions), fr.Here(), CallEdges(places))
      ensures ok == LinkedReturn(FunctionOf(fr), old(fr.memory.cells), args, destination).Some?
      ensures ok ==> Some(fr.memory.cells) == LinkedReturn(FunctionOf(fr), old(fr.memory.cells), args, destination)
    {
      ConnectCall(fr, places);
      ok := LinkReturnValueIfSyncVariable(FunctionOf(fr), fr.memory, args, destination);
    }

    /** Foreign functions, and calls on mutexes that are not allowed to unwind. */
    method CallShort(fr: MirFunction, term: Terminator, places: Places) returns (ok: bool)
      requires Calling(fr, places) && term == TerminatorOf(fr)
      requires term.callee.Foreign? || term.callee.PanicFunction? || term.callee.DerefFn? || term.callee.ResultUnwrap?
      modifies this`visited, net, fr.memory
      ensures net.places == old(net.places)
      ensures Handled(old(W()), fr, old(fr.memory.cells), ok)
    {
      hide Home, ReturnPlace, CallEffect, PlacesFit, DidVisit, LinkedReturn, CallEdges, WithEdges;
      ghost var w, pt := W(), fr.Here();
      ShortIs(FunctionOf(fr), pt, fr.memory.cells, term);
      var self := NthArgument(term.args, 0);
      if (term.callee.DerefFn? || term.callee.ResultUnwrap?) && self.None? {
        return false;
      }
      var used := places;
      if (term.callee.DerefFn? || term.callee.ResultUnwrap?) && self.value in FunctionOf(fr).mutexPlaces {
        used := places.(cleanup := None);
      }
      ok := CallForeignFunction(fr, used, term.args, term.destination);
      visited := visited + iset{pt};
      if ok {
        ShortCallDone(w, fr, places, used, CallEffect(FunctionOf(fr), pt, old(fr.memory.cells), term).value);
      }
    }

    /** A call that does not return ends in the panic place, or its token disappears. */
    method CallWithoutReturn(fr: MirFunction, term: Terminator)
      requires Poised(fr) && term == TerminatorOf(fr) && term.Call? && CallEnds(term.returnTo, term.unwind).NoReturn?
      modifies this`visited, net
      ensures net.places == old(net.places)
      ensures Handled(old(W()), fr, old(fr.memory.cells), true)
    {
      hide Home, ReturnPlace, CallEffect, DidVisit, MirFunction.InStep, MirFunction.Valid, EdgeOfAction, CreatesMutex, CreatesCondvar, Poised;
      ghost var w := W();
      PoisedRange(fr);
      var pt := fr.Here();
      NoReturnIs(FunctionOf(fr), pt, fr.memory.cells, term);
      fr.ActiveInNet(net.places);
      visited := visited + iset{pt};
      var start := fr.basicBlocks[fr.activeBlock.value];
      if term.callee.PanicFunction? {
        net.ConnectPlaces(start, programPanic, TransRef(pt, 0));
      } else {
        net.AddTransition(TransRef(pt, 0));
        net.AddArcPlaceTransition(start, TransRef(pt, 0));
      }
      NoReturnDone(w, fr, CallEffect(FunctionOf(fr), pt, fr.memory.cells, term).value);
    }

    lemma NoReturnDone(w: World, fr: MirFunction, e: Effect)
      requires fr.f < |prog.functions| && fr.activeBlock.Some? && fr.activeBlock.value < |FunctionOf(fr).blocks|
      requires TerminatorOf(fr).Call? && CallEnds(TerminatorOf(fr).returnTo, TerminatorOf(fr).unwind).NoReturn?
      requires e.wait.None? && (e.actions == [Flow(ToPanic)] || e.actions == [Vanish])
      requires var start := multiset{fr.BlockPlace(fr.activeBlock.value)};
        W() == w.(places := net.places, visited := w.visited + iset{fr.Here()},
          transitions := w.transitions[TransRef(fr.Here(), 0) :=
            if e.actions == [Vanish] then Transition(multiset{} + start, multiset{}) else Transition(start, multiset{PanicPlace(fr.thread)})])
      ensures DidVisit(w, fr, e)
    {
      hide Home, ReturnPlace, CreatesMutex, CreatesCondvar;
      CreatesOnly(prog, fr.Here(), fr.callers, Site(fr.f, fr.activeBlock.value), TerminatorOf(fr));
      PlainEdgeOf(Ctx(w), fr, Flow(ToPanic));
      assert multiset{} + multiset{fr.BlockPlace(fr.activeBlock.value)} == multiset{fr.BlockPlace(fr.activeBlock.value)};
      PlainOne(prog, w, fr.Here(), e, e.actions[0], net.places);
    }

    /** Unlocks the mutex of a dropped guard on both paths of a call. */
    method UnlockBoth(fr: MirFunction, place: Place, places: Places)
      requires fr.activeBlock.Some?
      requires GetGuard(fr.memory.cells, place).Some? ==> MutexPlace(GetGuard(fr.memory.cells, place).value) in net.places
      requires TransRef(fr.Here(), 0) in net.transitions && net.transitions[TransRef(fr.Here(), 0)] == CallEdges(places)[0]
      requires places.cleanup.Some? ==>
        TransRef(fr.Here(), 1) in net.transitions && net.transitions[TransRef(fr.Here(), 1)] == CallEdges(places)[1]
      modifies net
      ensures net.places == old(net.places)
      ensures net.transitions == WithEdges(old(net.transitions), fr.Here(), UnlockEdges(GetGuard(fr.memory.cells, place), places))
    {
      hide GetGuard;
      HandleMutexGuardDrop(fr, place, TransRef(fr.Here(), 0));
      if places.cleanup.Some? {
        HandleMutexGuardDrop(fr, place, TransRef(fr.Here(), 1));
      }
    }

    lemma UnlockEdgesFit(fr: MirFunction, places: Places, cells: Cells, place: Place)
      requires CallFits(fr, places)
      ensures UnlockEdges(GetGuard(cells, place), places) ==
        var ends := TheEnds(fr);
        [PlainEdge(fr, DropAction(cells, place, ends.end))]
        + if ends.cleanup.None? then [] else [PlainEdge(fr, DropAction(cells, place, ends.cleanup.value))]
    {
      hide Home, ReturnPlace;
    }

    lemma DropDone(w: World, fr: MirFunction, places: Places, e: Effect, place: Place)
      requires CallFits(fr, places) && TerminatorOf(fr).callee.MemDrop? && e.wait.None?
      requires e.actions == [DropAction(e.cells, place, TheEnds(fr).end)]
        + if TheEnds(fr).cleanup.None? then [] else [DropAction(e.cells, place, TheEnds(fr).cleanup.value)]
      requires W() == w.(places := net.places, visited := w.visited + iset{fr.Here()},
        transitions := WithEdges(w.transitions, fr.Here(), UnlockEdges(GetGuard(e.cells, place), places)))
      ensures DidVisit(w, fr, e)
    {
      UnlockEdgesFit(fr, places, e.cells, place);
      assert !CreatesMutex(prog, fr.Here()) && !CreatesCondvar(prog, fr.Here());
      hide Home, ReturnPlace, DidVisit, PlacesFit, PlainEdge, UnlockEdges, CreatesMutex, CreatesCondvar;
      PlainDone(w, fr, e);
    }

    /** `std::mem::drop` unlocks the mutex of a dropped guard on both paths. */
    method CallMemDrop(fr: MirFunction, term: Terminator, places: Places) returns (ok: bool)
      requires Calling(fr, places) && term == TerminatorOf(fr) && term.callee.MemDrop?
      requires forall m: Point :: MutexPlace(m) in net.places <==> m in mutexes
      requires KnownCells(W(), fr.thread, fr.memory.cells)
      modifies this`visited, net, fr.memory
      ensures net.places == old(net.places)
      ensures Handled(old(W()), fr, old(fr.memory.cells), ok)
    {
      hide Home, ReturnPlace, LinkedReturn, DidVisit, CallEffect, PlacesFit, UnlockEdges;
      ghost var w := W();
      var pt := fr.Here();
      MemDropIs(FunctionOf(fr), pt, fr.memory.cells, term);
      ok := CallForeignFunction(fr, places, term.args, term.destination);
      var dropped := NthArgument(term.args, 0);
      visited := visited + iset{pt};
      if !ok || dropped.None? {
        return false;
      }
      KnownReturn(w, fr.thread, FunctionOf(fr), old(fr.memory.cells), term.args, term.destination);
      KnownGuard(w, fr.thread, fr.memory.cells, dropped.value);
      hide KnownCells, GetGuard, DropAction;
      UnlockBoth(fr, dropped.value, places);
      EdgesReplaced(w.transitions, pt, CallEdges(places), UnlockEdges(GetGuard(fr.memory.cells, dropped.value), places));
      DropDone(w, fr, places, CallEffect(FunctionOf(fr), pt, old(fr.memory.cells), term).value, dropped.value);
    }

    /** A visit that adds one transition, and possibly a join, a thread or a condition setter. */
    lemma SingleDone(w: World, fr: MirFunction, e: Effect, edge: Edge)
      requires fr.activeBlock.Some? && |e.actions| == 1 && e.wait.None?
      requires !CreatesMutex(prog, fr.Here()) && !CreatesCondvar(prog, fr.Here())
      requires EdgeOfAction(prog, Ctx(w), fr.Here(), e.actions[0]) == edge
      requires W() == w.(places := net.places, visited := w.visited + iset{fr.Here()},
        transitions := w.transitions[TransRef(fr.Here(), 0) := edge],
        mutexes := NextMutexes(prog, w.mutexes, fr.Here(), e),
        joins := NextJoins(w.joins, fr.Here(), e))
      requires !e.actions[0].SpawnThread?
      ensures DidVisit(w, fr, e)
    {
      hide EdgeOfAction, CreatesMutex, CreatesCondvar, NextTransitions;
      assert e.actions == [e.actions[0]];
      OneAction(prog, w, fr.Here(), e, e.actions[0]);
    }

    /** A call that creates nothing and only adds one transition. */
    lemma OnlyDone(w: World, fr: MirFunction, e: Effect, edge: Edge)
      requires fr.f < |prog.functions| && fr.activeBlock.Some? && fr.activeBlock.value < |FunctionOf(fr).blocks|
      requires TerminatorOf(fr).Call? && !TerminatorOf(fr).callee.MutexNew? && !TerminatorOf(fr).callee.CondvarNew?
      requires |e.actions| == 1 && e.wait.None? && (e.actions[0].Acquire? || e.actions[0].NotifyOne? || e.actions[0].JoinThread?)
      requires EdgeOfAction(prog, Ctx(w), fr.Here(), e.actions[0]) == edge
      requires net.transitions == w.transitions[TransRef(fr.Here(), 0) := edge]
      requires W() == w.(places := net.places, visited := w.visited + iset{fr.Here()}, transitions := net.transitions,
        joins := NextJoins(w.joins, fr.Here(), e))
      ensures DidVisit(w, fr, e)
    {
      hide EdgeOfAction, CreatesMutex, CreatesCondvar, DidVisit;
      CreatesOnly(prog, fr.Here(), fr.callers, Site(fr.f, fr.activeBlock.value), TerminatorOf(fr));
      SingleDone(w, fr, e, edge);
    }

    /** The transition of a call that is assumed not to unwind, and the arcs its handler adds. */
    lemma CallEdgeOf(ctx: Context, fr: MirFunction, places: Places)
      requires CallFits(fr, places)
      ensures CallEdges(places.(cleanup := None)) == [CallEdges(places)[0]]
      ensures EdgeOfAction(prog, ctx, fr.Here(), Flow(TheEnds(fr).end)) == CallEdges(places)[0]
      ensures forall m: Point ::
        EdgeOfAction(prog, ctx, fr.Here(), Acquire(m, TheEnds(fr).end))
        == Transition(CallEdges(places)[0].pre + multiset{MutexPlace(m)}, CallEdges(places)[0].post)
      ensures forall c: Point ::
        EdgeOfAction(prog, ctx, fr.Here(), NotifyOne(c, TheEnds(fr).end))
        == Transition(CallEdges(places)[0].pre, CallEdges(places)[0].post + multiset{Notify(c)})
      ensures forall t: ThreadName :: JoinArcs(ctx, fr.thread, t) == multiset{} ==>
        EdgeOfAction(prog, ctx, fr.Here(), JoinThread(t, TheEnds(fr).end)) == CallEdges(places)[0]
      ensures forall m: Point :: NotSetOfMutex(ctx, m) == {} && SetOfMutex(ctx, m) == {} ==>
        EdgeOfAction(prog, ctx, fr.Here(), SetCondition(m, TheEnds(fr).end)) == CallEdges(places)[0]
    {
      hide Home, ReturnPlace;
      PlainEdgeOf(ctx, fr, Flow(TheEnds(fr).end));
    }

    /** `Mutex::lock` takes the token of the mutex; it is assumed not to unwind. */
    method CallLock(fr: MirFunction, term: Terminator, places: Places) returns (ok: bool)
      requires Calling(fr, places) && term == TerminatorOf(fr) && term.callee.MutexLock?
      requires forall m: Point :: MutexPlace(m) in net.places <==> m in mutexes
      requires KnownCells(W(), fr.thread, fr.memory.cells)
      modifies this`visited, net, fr.memory
      ensures net.places == old(net.places)
      ensures Handled(old(W()), fr, old(fr.memory.cells), ok)
    {
      hide Home, ReturnPlace, CallEffect, DestPlace, PlacesFit, DidVisit, KnownCells, EdgeOfAction, CallEdges, CreatesMutex, CreatesCondvar;
      ghost var w := W();
      var pt := fr.Here();
      LockIs(FunctionOf(fr), pt, fr.memory.cells, term);
      var self := NthArgument(term.args, 0);
      if self.None? || GetMutex(fr.memory.cells, self.value).None? {
        return false;
      }
      KnownObject(w, fr.thread, fr.memory.cells, self.value);
      var m := GetMutex(fr.memory.cells, self.value).value;
      CallEdgeOf(Ctx(w), fr, places);
      ConnectCall(fr, places.(cleanup := None));
      net.AddArcPlaceTransition(MutexPlace(m), TransRef(pt, 0));
      fr.memory.LinkMutexGuard(term.destination, m);
      visited := visited + iset{pt};
      ok := true;
      OnlyDone(w, fr, CallEffect(FunctionOf(fr), pt, old(fr.memory.cells), term).value, net.transitions[TransRef(pt, 0)]);
    }

    /** `Condvar::notify_one` puts a token in the notify place of the condvar. */
    method CallNotifyOne(fr: MirFunction, term: Terminator, places: Places) returns (ok: bool)
      requires Calling(fr, places) && term == TerminatorOf(fr) && term.callee.CondvarNotifyOne?
      requires forall c: Point :: Notify(c) in net.places <==> c in condvars
      requires KnownCells(W(), fr.thread, fr.memory.cells)
      modifies this`visited, net
      ensures net.places == old(net.places)
      ensures Handled(old(W()), fr, old(fr.memory.cells), ok)
    {
      hide Home, ReturnPlace, CallEffect, DestPlace, PlacesFit, DidVisit, KnownCells, EdgeOfAction, CallEdges, CreatesMutex, CreatesCondvar;
      ghost var w := W();
      var pt := fr.Here();
      NotifyOneIs(FunctionOf(fr), pt, fr.memory.cells, term);
      var self := NthArgument(term.args, 0);
      if self.None? || GetCondvar(fr.memory.cells, self.value).None? {
        return false;
      }
      KnownObject(w, fr.thread, fr.memory.cells, self.value);
      var c := GetCondvar(fr.memory.cells, self.value).value;
      CallEdgeOf(Ctx(w), fr, places);
      ConnectCall(fr, places.(cleanup := None));
      net.AddArcTransitionPlace(TransRef(pt, 0), Notify(c));
      visited := visited + iset{pt};
      ok := true;
      OnlyDone(w, fr, CallEffect(FunctionOf(fr), pt, old(fr.memory.cells), term).value, net.transitions[TransRef(pt, 0)]);
    }

    /** `JoinHandle::join` becomes the join transition of its thread; joining a thread twice is a panic. */
    method CallJoin(fr: MirFunction, term: Terminator, places: Places) returns (ok: bool)
      requires Calling(fr, places) && term == TerminatorOf(fr) && term.callee.ThreadJoin?
      requires forall t: ThreadName :: t in prepared ==> t.Spawned? && t.parent != fr.thread
      modifies this`visited, this`joins, net
      ensures net.places == old(net.places)
      ensures Handled(old(W()), fr, old(fr.memory.cells), ok)
    {
      hide Home, ReturnPlace, CallEffect, DestPlace, PlacesFit, DidVisit, EdgeOfAction, CallEdges, CreatesMutex, CreatesCondvar;
      ghost var w := W();
      var pt := fr.Here();
      JoinIs(FunctionOf(fr), pt, fr.memory.cells, term);
      var self := NthArgument(term.args, 0);
      if self.None? || GetHandle(fr.memory.cells, self.value).None? {
        return false;
      }
      var t := GetHandle(fr.memory.cells, self.value).value;
      CallEdgeOf(Ctx(w), fr, places);
      ConnectCall(fr, places.(cleanup := None));
      visited := visited + iset{pt};
      if t in joins {
        return false;
      }
      joins := joins[t := TransRef(pt, 0)];
      ok := true;
      assert JoinArcs(Ctx(w), fr.thread, t) == multiset{};
      OnlyDone(w, fr, CallEffect(FunctionOf(fr), pt, old(fr.memory.cells), term).value, net.transitions[TransRef(pt, 0)]);
    }

    /** A mutable dereference of a guard is recorded with the mutex; other calls are short calls. */
    method CallDerefMut(fr: MirFunction, term: Terminator, places: Places) returns (ok: bool)
      requires Calling(fr, places) && term == TerminatorOf(fr) && term.callee.DerefMutFn?
      requires KnownCells(W(), fr.thread, fr.memory.cells) && conditions == {}
      modifies this`visited, this`mutexes, net, fr.memory
      ensures net.places == old(net.places)
      ensures Handled(old(W()), fr, old(fr.memory.cells), ok)
    {
      hide Home, ReturnPlace, CallEffect, DestPlace, PlacesFit, DidVisit, LinkedReturn, KnownCells, EdgeOfAction, CallEdges;
      ghost var w := W();
      var pt := fr.Here();
      DerefMutIs(FunctionOf(fr), pt, fr.memory.cells, term);
      var self := NthArgument(term.args, 0);
      if self.None? {
        return false;
      }
      if self.value !in FunctionOf(fr).mutexPlaces {
        ok := CallForeignFunction(fr, places, term.args, term.destination);
        visited := visited + iset{pt};
        if ok {
          ShortCallDone(w, fr, places, places, CallEffect(FunctionOf(fr), pt, old(fr.memory.cells), term).value);
        }
        return;
      }
      CallEdgeOf(Ctx(w), fr, places);
      ok := CallForeignFunction(fr, places.(cleanup := None), term.args, term.destination);
      visited := visited + iset{pt};
      if !ok || GetGuard(fr.memory.cells, self.value).None? {
        return false;
      }
      KnownReturn(w, fr.thread, FunctionOf(fr), old(fr.memory.cells), term.args, term.destination);
      KnownGuard(w, fr.thread, fr.memory.cells, self.value);
      var m := GetGuard(fr.memory.cells, self.value).value;
      mutexes := mutexes[m := mutexes[m] + [TransRef(pt, 0)]];
      assert NotSetOfMutex(Ctx(w), m) == {} && SetOfMutex(Ctx(w), m) == {};
      SingleDone(w, fr, CallEffect(FunctionOf(fr), pt, old(fr.memory.cells), term).value, net.transitions[TransRef(pt, 0)]);
    }

    lemma ShortCallDone(w: World, fr: MirFunction, places: Places, used: Places, e: Effect)
      requires CallFits(fr, places) && e.wait.None? && !TerminatorOf(fr).callee.MutexNew? && !TerminatorOf(fr).callee.CondvarNew?
      requires || (used == places && e.actions == ShortCall(TheEnds(fr)))
               || (used == places.(cleanup := None) && e.actions == [Flow(TheEnds(fr).end)])
      requires W() == w.(places := net.places, visited := w.visited + iset{fr.Here()},
        transitions := WithEdges(w.transitions, fr.Here(), CallEdges(used)))
      ensures DidVisit(w, fr, e)
    {
      hide Home, ReturnPlace, EdgesOf, CreatesMutex, CreatesCondvar, NextTransitions, PlacesFit;
      CreatesOnly(prog, fr.Here(), fr.callers, Site(fr.f, fr.activeBlock.value), TerminatorOf(fr));
      ShortCallEdges(Ctx(w), fr, places);
      EdgesDone(w, fr.Here(), e, CallEdges(used));
      PlainVisit(prog, w, fr.Here(), e, net.places);
    }

    /** `Mutex::new`: a place with one token, and a task so that waits can be linked to it later. */
    method CallMutexNew(fr: MirFunction, term: Terminator, places: Places) returns (ok: bool)
      requires Calling(fr, places) && term == TerminatorOf(fr) && term.callee.MutexNew?
      requires MutexPlace(fr.Here()) !in net.places
      modifies this`visited, this`mutexes, this`postprocessing, net, fr.memory
      ensures net.places == old(net.places)[MutexPlace(fr.Here()) := 1]
      ensures Handled(old(W()), fr, old(fr.memory.cells), ok)
    {
      hide Home, ReturnPlace, CallEffect, PlacesFit, CallEdges, WithEdges, DidVisit;
      ghost var w := W();
      var pt := fr.Here();
      MutexNewIs(FunctionOf(fr), pt, fr.memory.cells, term);
      ConnectCall(fr, places);
      net.AddPlace(MutexPlace(pt));
      net.AddToken(MutexPlace(pt), 1);
      fr.memory.LinkMutex(term.destination, pt);
      mutexes := mutexes[pt := []];
      postprocessing := postprocessing + multiset{NewMutexTask(pt)};
      visited := visited + iset{pt};
      ok := true;
      NewDone(w, fr, places, CallEffect(FunctionOf(fr), pt, old(fr.memory.cells), term).value);
    }

    /** A call that creates an object. */
    lemma NewDone(w: World, fr: MirFunction, places: Places, e: Effect)
      requires CallFits(fr, places) && e.wait.None? && e.actions == ShortCall(TheEnds(fr))
      requires var pt, edges := fr.Here(), WithEdges(w.transitions, fr.Here(), CallEdges(places));
        if TerminatorOf(fr).callee.MutexNew? then
          W() == w.(places := net.places, visited := w.visited + iset{pt}, transitions := edges,
                    mutexes := w.mutexes[pt := []], tasks := w.tasks + multiset{NewMutexTask(pt)})
        else
          && TerminatorOf(fr).callee.CondvarNew?
          && W() == w.(places := net.places, visited := w.visited + iset{pt}, transitions := WithCondvar(edges, pt),
                       condvars := w.condvars[pt := None])
      ensures DidVisit(w, fr, e)
    {
      hide Home, ReturnPlace, EdgesOf, CreatesMutex, CreatesCondvar, PlacesFit, WithEdges, WithCondvar, CondvarEdges, Numbered;
      var pt := fr.Here();
      CreatesOnly(prog, pt, fr.callers, Site(fr.f, fr.activeBlock.value), TerminatorOf(fr));
      ShortCallEdges(Ctx(w), fr, places);
      EdgesAdded(w.transitions, pt, CallEdges(places));
      if TerminatorOf(fr).callee.CondvarNew? {
        UnlinkedCondvarEdges(prog, Ctx(W()), pt, WithEdges(w.transitions, pt, CallEdges(places)));
      }
    }

    method AddCondvarNodes(c: Point)
      requires WaitEnabled(c) !in net.places && Notify(c) !in net.places
      requires forall role :: CondvarRef(c, role) !in net.transitions
      modifies net
      ensures net.places == old(net.places)[WaitEnabled(c) := 1][Notify(c) := 0]
      ensures net.transitions == old(net.transitions)
        [CondvarRef(c, WaitStart) := Transition(multiset{}, multiset{})]
        [CondvarRef(c, LostSignal) := Transition(multiset{}, multiset{})]
        [CondvarRef(c, NotifyReceived) := Transition(multiset{}, multiset{})]
    {
      net.AddPlace(WaitEnabled(c));
      net.AddPlace(Notify(c));
      net.AddToken(WaitEnabled(c), 1);
      net.AddTransition(CondvarRef(c, WaitStart));
      net.AddTransition(CondvarRef(c, LostSignal));
      net.AddTransition(CondvarRef(c, NotifyReceived));
    }

    /** The net of a condvar: `wait_enabled`, `notify`, and the three transitions between them. */
    method NewCondvar(c: Point)
      requires WaitEnabled(c) !in net.places && Notify(c) !in net.places
      requires forall role :: CondvarRef(c, role) !in net.transitions
      modifies net
      ensures net.places == old(net.places)[WaitEnabled(c) := 1][Notify(c) := 0]
      ensures net.transitions == WithCondvar(old(net.transitions), c)
    {
      AddCondvarNodes(c);
      net.AddArcPlaceTransition(WaitEnabled(c), CondvarRef(c, LostSignal));
      net.AddArcPlaceTransition(Notify(c), CondvarRef(c, LostSignal));
      net.AddArcTransitionPlace(CondvarRef(c, LostSignal), WaitEnabled(c));
      net.AddArcPlaceTransition(WaitEnabled(c), CondvarRef(c, WaitStart));
      net.AddArcPlaceTransition(Notify(c), CondvarRef(c, NotifyReceived));
      net.AddArcTransitionPlace(CondvarRef(c, NotifyReceived), WaitEnabled(c));
      assert multiset{} + multiset{WaitEnabled(c)} == multiset{WaitEnabled(c)};
      assert multiset{} + multiset{Notify(c)} == multiset{Notify(c)};
    }

    method CallCondvarNew(fr: MirFunction, term: Terminator, places: Places) returns (ok: bool)
      requires Calling(fr, places) && term == TerminatorOf(fr) && term.callee.CondvarNew?
      requires WaitEnabled(fr.Here()) !in net.places && Notify(fr.Here()) !in net.places
      requires forall role :: CondvarRef(fr.Here(), role) !in net.transitions
      modifies this`visited, this`condvars, net, fr.memory
      ensures net.places == old(net.places)[WaitEnabled(fr.Here()) := 1][Notify(fr.Here()) := 0]
      ensures Handled(old(W()), fr, old(fr.memory.cells), ok)
    {
      hide Home, ReturnPlace, CallEffect, PlacesFit, CallEdges, WithEdges, WithCondvar, DidVisit;
      ghost var w := W();
      var pt := fr.Here();
      CondvarNewIs(FunctionOf(fr), pt, fr.memory.cells, term);
      ConnectCall(fr, places);
      OtherNames(w.transitions, pt, CallEdges(places));
      NewCondvar(pt);
      fr.memory.LinkCondvar(term.destination, pt);
      condvars := condvars[pt := None];
      visited := visited + iset{pt};
      ok := true;
      NewDone(w, fr, places, CallEffect(FunctionOf(fr), pt, old(fr.memory.cells), term).value);
    }

    /** Links a condvar to the wait call: the wait releases the mutex when it starts and takes it back when
        the notification is received. */
    method LinkToWaitCall(c: Point, start: PlaceRef, end: PlaceRef, m: Point)
      requires start in net.places && end in net.places && MutexPlace(m) in net.places
      requires CondvarRef(c, WaitStart) in net.transitions && CondvarRef(c, NotifyReceived) in net.transitions
      modifies net
      ensures net.places == old(net.places)
      ensures net.transitions == WithWait(old(net.transitions), c, start, end, m)
    {
      net.AddArcPlaceTransition(start, CondvarRef(c, WaitStart));
      net.AddArcTransitionPlace(CondvarRef(c, NotifyReceived), end);
      net.AddArcTransitionPlace(CondvarRef(c, WaitStart), MutexPlace(m));
      net.AddArcPlaceTransition(MutexPlace(m), CondvarRef(c, NotifyReceived));
    }

    lemma WaitDone(w: World, fr: MirFunction, places: Places, e: Effect)
      requires CallFits(fr, places) && (TerminatorOf(fr).callee.CondvarWait? || TerminatorOf(fr).callee.CondvarWaitWhile?)
      requires e.actions == [] && e.wait.Some? && e.wait.value.dest == TheEnds(fr).end && w.conditions == {}
      requires var c := e.wait.value.condvar;
        && c in w.condvars && w.condvars[c].None?
        && (forall role :: CondvarRef(c, role) in w.transitions
              && w.transitions[CondvarRef(c, role)] == CondvarEdge(prog, Ctx(w), c, role))
        && W() == w.(places := net.places, visited := w.visited + iset{fr.Here()},
             transitions := WithWait(w.transitions, c, places.start, places.end, e.wait.value.mutex),
             condvars := w.condvars[c := Some(WaitLink(fr.Here(), e.wait.value))],
             tasks := w.tasks + multiset{LinkMutexToCondvar(fr.Here(), places.start, places.end, CondvarRef(c, WaitStart))})
      ensures DidVisit(w, fr, e)
    {
      hide Home, ReturnPlace, EdgesOf, EdgeOfAction, WithWait, CondvarEdges, DestPlace, CondvarEdge;
      var pt := fr.Here();
      DestPlaceAt(prog, fr.thread, fr.callers, fr.f, fr.activeBlock.value, e.wait.value.dest);
      CreatesOnly(prog, pt, fr.callers, Site(fr.f, fr.activeBlock.value), TerminatorOf(fr));
      hide CreatesMutex, CreatesCondvar;
      LinkedCondvarEdges(prog, Ctx(w), Ctx(W()), e.wait.value.condvar, w.transitions);
      NothingToNumber(prog, Ctx(w), pt);
    }

    /** `Condvar::wait` and `wait_while`; a second wait on the same condvar is not supported. */
    method CallWait(fr: MirFunction, term: Terminator, places: Places) returns (ok: bool)
      requires Calling(fr, places) && term == TerminatorOf(fr) && (term.callee.CondvarWait? || term.callee.CondvarWaitWhile?)
      requires KnownCells(W(), fr.thread, fr.memory.cells) && conditions == {}
      requires forall m: Point :: MutexPlace(m) in net.places <==> m in mutexes
      requires forall c: Point, role: Role :: CondvarRef(c, role) in net.transitions <==> c in condvars
      requires forall c: Point, role: Role :: CondvarRef(c, role) in net.transitions ==>
        net.transitions[CondvarRef(c, role)] == CondvarEdge(prog, Ctx(W()), c, role)
      modifies this`visited, this`condvars, this`postprocessing, net, fr.memory
      ensures net.places == old(net.places)
      ensures Handled(old(W()), fr, old(fr.memory.cells), ok)
    {
      hide Home, ReturnPlace, CallEffect, CondvarEdge, WithWait, DidVisit, PlacesFit;
      ghost var w := W();
      var pt := fr.Here();
      WaitIs(FunctionOf(fr), pt, fr.memory.cells, term);
      var self, guard := NthArgument(term.args, 0), NthArgument(term.args, 1);
      if self.None? || guard.None? {
        return false;
      }
      var c, m := GetCondvar(fr.memory.cells, self.value), GetGuard(fr.memory.cells, guard.value);
      if c.None? || m.None? {
        return false;
      }
      assert Known(w, fr.thread, |w.threads|, fr.memory.cells[self.value]);
      assert Known(w, fr.thread, |w.threads|, fr.memory.cells[guard.value]);
      if condvars[c.value].Some? {
        return false;
      }
      LinkToWaitCall(c.value, places.start, places.end, m.value);
      var link := WaitLink(pt, Wait(c.value, m.value, CallEnds(term.returnTo, term.unwind).end));
      condvars := condvars[c.value := Some(link)];
      ok := fr.memory.LinkPlaceToSameValue(term.destination, guard.value);
      postprocessing := postprocessing + multiset{LinkMutexToCondvar(pt, places.start, places.end, CondvarRef(c.value, WaitStart))};
      visited := visited + iset{pt};
      WaitDone(w, fr, places, CallEffect(FunctionOf(fr), pt, old(fr.memory.cells), term).value);
    }

    lemma SpawnDone(w: World, fr: MirFunction, places: Places, e: Effect, spawn: Action)
      requires CallFits(fr, places) && TerminatorOf(fr).callee.ThreadSpawn?
      requires spawn.SpawnThread? && spawn.dest == TheEnds(fr).end && spawn.thread !in w.prepared
      requires e.wait.None? && e.actions == [spawn] + CleanupActions(TheEnds(fr))
      requires W() == w.(places := net.places, visited := w.visited + iset{fr.Here()},
        transitions := WithEdges(w.transitions, fr.Here(), CallEdges(places)),
        threads := w.threads + [Thread(spawn.thread, TransRef(fr.Here(), 0), spawn.f, spawn.aggregate)])
      ensures DidVisit(w, fr, e)
    {
      hide Home, ReturnPlace, NextTransitions;
      var pt := fr.Here();
      CreatesOnly(prog, pt, fr.callers, Site(fr.f, fr.activeBlock.value), TerminatorOf(fr));
      hide CreatesMutex, CreatesCondvar;
      CallEdgeOf(Ctx(w), fr, places);
      assert SpawnArcs(Ctx(w), spawn.thread, spawn.f) == multiset{};
      assert EdgeOfAction(prog, Ctx(w), pt, spawn) == CallEdges(places)[0];
      if TheEnds(fr).cleanup.Some? {
        PlainEdgeOf(Ctx(w), fr, Flow(TheEnds(fr).cleanup.value));
      }
      assert EdgesOf(prog, Ctx(w), pt, e.actions) == CallEdges(places);
      EdgesDone(w, pt, e, CallEdges(places));
    }

    /** `thread::spawn`: the thread is queued, with the variables its closure captured. */
    method CallThreadSpawn(fr: MirFunction, term: Terminator, places: Places) returns (ok: bool)
      requires Calling(fr, places) && term == TerminatorOf(fr) && term.callee.ThreadSpawn?
      requires Spawned(fr.thread, fr.Here().stack) !in prepared
      modifies this`visited, this`threads, net, fr.memory
      ensures net.places == old(net.places)
      ensures Handled(old(W()), fr, old(fr.memory.cells), ok)
    {
      hide Home, ReturnPlace, CallEffect, LinkedReturn, DidVisit, PlacesFit;
      ghost var w := W();
      var pt := fr.Here();
      SpawnIs(FunctionOf(fr), pt, fr.memory.cells, term);
      ok := CallForeignFunction(fr, places, term.args, term.destination);
      visited := visited + iset{pt};
      if !ok || term.args == [] {
        return false;
      }
      var aggregate: seq<Value> := [];
      if !term.args[0].Constant? {
        var values := GetBundle(fr.memory.cells, term.args[0].place);
        if values.None? {
          return false;
        }
        aggregate := values.value;
      }
      var name := Spawned(pt.thread, pt.stack);
      fr.memory.LinkJoinHandle(term.destination, name);
      threads := threads + [Thread(name, TransRef(pt, 0), term.callee.f, aggregate)];
      ghost var e := CallEffect(FunctionOf(fr), pt, old(fr.memory.cells), term).value;
      SpawnDone(w, fr, places, e, e.actions[0]);
    }

    /** What the handlers rely on, taken from the invariant. */
    ghost predicate Ledgers(fr: MirFunction)
      reads this, net, fr`activeBlock
    {
      fr.activeBlock.Some? && Tally(prog, W(), fr.Here())
    }

    /** Dispatch on the called function. */
    method StartFunctionCall(fr: MirFunction, term: Terminator, places: Places) returns (ok: bool)
      requires Calling(fr, places) && term == TerminatorOf(fr) && !term.callee.User?
      requires Ledgers(fr) && KnownCells(W(), fr.thread, fr.memory.cells)
      modifies this`visited, this`mutexes, this`condvars, this`joins, this`threads, this`postprocessing, net, fr.memory
      ensures net.places == WithObjects(prog, old(net.places), fr.Here()) || !ok
      ensures Handled(old(W()), fr, old(fr.memory.cells), ok)
    {
      CreatesOnly(prog, fr.Here(), fr.callers, Site(fr.f, fr.activeBlock.value), term);
      hide Handled, Calling, KnownCells, CondvarEdge, CreatesMutex, CreatesCondvar;
      match term.callee
      case MemDrop => ok := CallMemDrop(fr, term, places);
      case DerefFn => ok := CallShort(fr, term, places);
      case DerefMutFn => ok := CallDerefMut(fr, term, places);
      case ResultUnwrap => ok := CallShort(fr, term, places);
      case ThreadSpawn(_) => ok := CallThreadSpawn(fr, term, places);
      case CondvarNew => ok := CallCondvarNew(fr, term, places);
      case CondvarNotifyOne => ok := CallNotifyOne(fr, term, places);
      case CondvarWait => ok := CallWait(fr, term, places);
      case CondvarWaitWhile => ok := CallWait(fr, term, places);
      case MutexLock => ok := CallLock(fr, term, places);
      case MutexNew => ok := CallMutexNew(fr, term, places);
      case ThreadJoin => ok := CallJoin(fr, term, places);
      case PanicFunction(_) => ok := CallShort(fr, term, places);
      case Foreign(_) => ok := CallShort(fr, term, places);
    }

    // -------------------------------------------------------------------------------------------
    // Visiting one block

    lemma NonCallEdgesFit(fr: MirFunction, term: Terminator)
      requires fr.f < |prog.functions| && fr.activeBlock.Some? && fr.activeBlock.value < |FunctionOf(fr).blocks|
      requires term == TerminatorOf(fr) && !term.Call? && !term.SwitchInt?
      ensures var e := EffectOf(fr);
        && e.Some? && e.value.wait.None? && 1 <= |e.value.actions| <= 2
        && (forall i :: 0 <= i < |e.value.actions| ==> e.value.actions[i].Flow? || e.value.actions[i].Release?)
        && NonCallEdges(fr, term) ==
           if |e.value.actions| == 1 then [PlainEdge(fr, e.value.actions[0])]
           else [PlainEdge(fr, e.value.actions[0]), PlainEdge(fr, e.value.actions[1])]
    {
      hide EffectOf, NonCallEdges, PlainEdge;
      match term
      case Drop(_, _, _) => DropEdgesFit(fr, term);
      case Assert(_, _) => AssertEdgesFit(fr, term);
      case _ => JumpEdgesFit(fr, term);
    }

    lemma DropEdgesFit(fr: MirFunction, term: Terminator)
      requires fr.f < |prog.functions| && fr.activeBlock.Some? && fr.activeBlock.value < |FunctionOf(fr).blocks| && term == TerminatorOf(fr) && term.Drop?
      ensures var e := EffectOf(fr);
        && e.Some? && e.value.wait.None? && 1 <= |e.value.actions| <= 2
        && (forall i :: 0 <= i < |e.value.actions| ==> e.value.actions[i].Flow? || e.value.actions[i].Release?)
        && NonCallEdges(fr, term) ==
           if |e.value.actions| == 1 then [PlainEdge(fr, e.value.actions[0])]
           else [PlainEdge(fr, e.value.actions[0]), PlainEdge(fr, e.value.actions[1])]
    {
      hide CallEffect, ReturnPlace, Home, GetGuard, MirFunction.EdgeTo, DestPlaceInFrame;
      EndIsPlaceFor(fr);
    }

    lemma EndIsPlaceFor(fr: MirFunction)
      ensures PlaceFor(fr, ToEnd) == ProgramEnd && forall b: nat :: PlaceFor(fr, ToBlock(b)) == fr.BlockPlace(b)
    {
      hide Home;
    }

    lemma AssertEdgesFit(fr: MirFunction, term: Terminator)
      requires fr.f < |prog.functions| && fr.activeBlock.Some? && fr.activeBlock.value < |FunctionOf(fr).blocks| && term == TerminatorOf(fr) && term.Assert?
      ensures var e := EffectOf(fr);
        && e.Some? && e.value.wait.None? && 1 <= |e.value.actions| <= 2
        && (forall i :: 0 <= i < |e.value.actions| ==> e.value.actions[i].Flow?)
        && NonCallEdges(fr, term) ==
           if |e.value.actions| == 1 then [PlainEdge(fr, e.value.actions[0])]
           else [PlainEdge(fr, e.value.actions[0]), PlainEdge(fr, e.value.actions[1])]
    {
      hide CallEffect, PlaceFor, MirFunction.EdgeTo, MirFunction.BlockPlace;
      EndIsPlaceFor(fr);
    }

    lemma JumpEdgesFit(fr: MirFunction, term: Terminator)
      requires fr.f < |prog.functions| && fr.activeBlock.Some? && fr.activeBlock.value < |FunctionOf(fr).blocks|
      requires term == TerminatorOf(fr) && !term.Call? && !term.SwitchInt? && !term.Drop? && !term.Assert?
      ensures var e := EffectOf(fr);
        && e.Some? && e.value.wait.None? && |e.value.actions| == 1 && e.value.actions[0].Flow?
        && NonCallEdges(fr, term) == [PlainEdge(fr, e.value.actions[0])]
    {
      hide CallEffect, PlaceFor, MirFunction.EdgeTo;
    }

    lemma NonCallDone(w: World, fr: MirFunction, term: Terminator)
      requires fr.f < |prog.functions| && fr.activeBlock.Some? && fr.activeBlock.value < |FunctionOf(fr).blocks|
      requires term == TerminatorOf(fr) && !term.Call? && !term.SwitchInt?
      requires W() == w.(places := net.places, visited := w.visited + iset{fr.Here()},
        transitions := WithEdges(w.transitions, fr.Here(), NonCallEdges(fr, term)))
      ensures EffectOf(fr).Some? && DidVisit(w, fr, EffectOf(fr).value)
    {
      NonCallEdgesFit(fr, term);
      CreatesOnly(prog, fr.Here(), fr.callers, Site(fr.f, fr.activeBlock.value), term);
      hide EffectOf, DidVisit, NonCallEdges, PlainEdge, CreatesMutex, CreatesCondvar, WithEdges;
      PlainDone(w, fr, EffectOf(fr).value);
    }

    method ConnectNonCall(fr: MirFunction, term: Terminator)
      requires Poised(fr) && term == TerminatorOf(fr) && !term.Call? && !term.SwitchInt?
      requires forall m: Point :: MutexPlace(m) in net.places <==> m in mutexes
      requires KnownCells(W(), fr.thread, fr.memory.cells)
      modifies net, fr`basicBlocks
      ensures TableOk(fr, old(fr.basicBlocks), old(net.places))
      ensures net.transitions == WithEdges(old(net.transitions), fr.Here(), NonCallEdges(fr, term))
    {
      hide Poised, TableOk, KnownCells, GetGuard, NonCallEdges, WithEdges;
      if term.Drop? {
        KnownGuard(W(), fr.thread, fr.memory.cells, term.place);
      }
      if term.Drop? {
        VisitDrop(fr, term.place, term.target, term.unwind);
      } else if term.Assert? {
        VisitAssert(fr, term.target, term.unwind);
      } else {
        VisitJump(fr, term);
      }
    }

    method VisitNonCall(fr: MirFunction, term: Terminator)
      requires Poised(fr) && Ledgers(fr) && KnownCells(W(), fr.thread, fr.memory.cells) && term == TerminatorOf(fr) && !term.Call?
      modifies this`visited, net, fr`basicBlocks
      ensures TableOk(fr, old(fr.basicBlocks), old(net.places))
      ensures EffectOf(fr).Some? && DidVisit(old(W()), fr, EffectOf(fr).value)
    {
      hide Poised, TableOk, EffectOf, DidVisit, KnownCells, NonCallEdges, WithEdges, CondvarEdge;
      ghost var w := W();
      PoisedRange(fr);
      if term.SwitchInt? {
        VisitSwitch(fr, term);
      } else {
        ConnectNonCall(fr, term);
        visited := visited + iset{fr.Here()};
        NonCallDone(w, fr, term);
      }
    }

    /** The frame after one of its blocks was translated. */
    ghost predicate FrameIn(fr: MirFunction, places: map<PlaceRef, nat>, before: map<nat, PlaceRef>)
      reads fr
    {
      && fr.f < |prog.functions|
      && fr.Valid() && fr.InStep(places)
      && (forall b :: b in fr.basicBlocks ==> b < |FunctionOf(fr).blocks|)
      && before.Keys <= fr.basicBlocks.Keys
    }

    /** The places gained: blocks of this frame, and the objects the block creates. */
    ghost predicate Gained(fr: MirFunction, before: map<PlaceRef, nat>, after: map<PlaceRef, nat>)
      reads fr`activeBlock
      requires fr.activeBlock.Some?
    {
      exists between :: fr.Grown(before, between) && after == WithObjects(prog, between, fr.Here())
    }

    lemma LedgersKept(w: World, fr: MirFunction)
      requires W() == w.(places := net.places) && fr.Grown(w.places, net.places)
      requires fr.activeBlock.Some? && Tally(prog, w, fr.Here()) && KnownCells(w, fr.thread, fr.memory.cells)
      ensures Ledgers(fr) && KnownCells(W(), fr.thread, fr.memory.cells)
    {
      hide CondvarEdge;
      assert Ctx(W()) == Ctx(w);
      StillKnownCells(w, W(), fr.thread, fr.memory.cells);
    }

    lemma GrownKeeps(fr: MirFunction, before: map<PlaceRef, nat>, after: map<PlaceRef, nat>)
      requires fr.Grown(before, after)
      ensures forall p :: p in before ==> p in after
    {
    }

    lemma TableIsFrame(fr: MirFunction, table: map<nat, PlaceRef>, places: map<PlaceRef, nat>)
      requires TableOk(fr, table, places)
      ensures FrameIn(fr, net.places, table) && fr.Grown(places, net.places)
    {
      hide MirFunction.Valid, MirFunction.InStep, MirFunction.Grown;
    }

    lemma WithObjectsIn(fr: MirFunction, between: map<PlaceRef, nat>, table: map<nat, PlaceRef>, pt: Point)
      requires FrameIn(fr, between, table)
      ensures FrameIn(fr, WithObjects(prog, between, pt), table)
    {
      hide Home, CreatesMutex, CreatesCondvar;
    }

    lemma HandledSame(w: World, w': World, fr: MirFunction, cells: Cells, ok: bool)
      requires fr.f < |prog.functions| && fr.activeBlock.Some? && fr.activeBlock.value < |FunctionOf(fr).blocks|
      requires TerminatorOf(fr).Call? && Handled(w', fr, cells, ok) && w' == w.(places := w'.places)
      ensures Handled(w, fr, cells, ok)
    {
      hide CallEffect, Visited, NoConflict;
      var e := CallEffect(FunctionOf(fr), fr.Here(), cells, TerminatorOf(fr));
      if e.Some? {
        SameVisit(prog, w, w', fr.Here(), e.value, net.places);
      }
    }

    /** Every call but a call into a user function. */
    method VisitCall(fr: MirFunction, term: Terminator) returns (ok: bool)
      requires Poised(fr) && Ledgers(fr) && KnownCells(W(), fr.thread, fr.memory.cells)
      requires term == TerminatorOf(fr) && term.Call? && (term.callee.User? ==> CallEnds(term.returnTo, term.unwind).NoReturn?)
      modifies this`visited, this`mutexes, this`condvars, this`joins, this`threads, this`postprocessing
      modifies net, fr`basicBlocks, fr.memory
      ensures ok ==> FrameIn(fr, net.places, old(fr.basicBlocks)) && Gained(fr, old(net.places), net.places)
      ensures ok && TheEnds(fr).Ends? ==> PlaceFor(fr, TheEnds(fr).end) in net.places
      ensures Handled(old(W()), fr, old(fr.memory.cells), ok)
    {
      hide CallEffect, CondvarEdge, Home, ReturnPlace, KnownCells, Handled, CreatesMutex, CreatesCondvar, PlaceFor, Poised, FrameIn, MirFunction.Grown, TableOk;
      ghost var w := W();
      PoisedRange(fr);
      var places := PlacesOfCall(fr, term.returnTo, term.unwind);
      ghost var between := net.places;
      TableIsFrame(fr, old(fr.basicBlocks), w.places);
      if places.None? {
        CreatesOnly(prog, fr.Here(), fr.callers, Site(fr.f, fr.activeBlock.value), term);
        assert WithObjects(prog, between, fr.Here()) == between;
        CallWithoutReturn(fr, term);
        ok := true;
      } else {
        LedgersKept(w, fr);
        ok := StartFunctionCall(fr, term, places.value);
      }
      WithObjectsIn(fr, between, old(fr.basicBlocks), fr.Here());
      HandledSame(w, w.(places := between), fr, old(fr.memory.cells), ok);
    }

    function Key(fr: MirFunction): Frame {
      Frame(fr.thread, fr.callers, fr.f)
    }

    /** The frame agrees with the net and the blueprint. */
    ghost predicate FrameAt(fr: MirFunction)
      reads this`programPanic, net, fr
    {
      && FrameIn(fr, net.places, map[])
      && fr.endPlace == ReturnPlace(prog, fr.thread, fr.callers)
      && programPanic == PanicPlace(fr.thread) && programPanic in net.places
    }

    lemma GainedBlocks(w: World, fr: MirFunction, between: map<PlaceRef, nat>, table: map<nat, PlaceRef>)
      requires fr.activeBlock.Some? && fr.Grown(w.places, between) && FrameIn(fr, net.places, table)
      requires net.places == WithObjects(prog, between, fr.Here())
      ensures OwnBlocks(prog, w, Key(fr), net.places)
    {
      hide CreatesMutex, CreatesCondvar, Home, MirFunction.Valid;
      forall t: ThreadName, stack: seq<Site> | Control(t, stack) in net.places && Control(t, stack) !in w.places
        ensures t == fr.thread && stack != [] && stack == Key(fr).At(stack[|stack| - 1].b).stack
        ensures stack[|stack| - 1].b > 0 && InRange(prog, stack[|stack| - 1])
      {
        assert fr.IsBlockOf(Control(t, stack));
        var b := stack[|stack| - 1].b;
        assert stack == fr.callers + [Site(fr.f, b)];
        HomeOfLaterBlock(fr.callers, fr.f, b);
        assert fr.BlockPlace(b) in net.places;
      }
    }

    lemma GainedPlaces(w: World, fr: MirFunction, between: map<PlaceRef, nat>, e: Effect)
      requires fr.activeBlock.Some? && InvPlaces(prog, w) && fr.Grown(w.places, between) && fr.Valid() && fr.InStep(net.places)
      requires net.places == WithObjects(prog, between, fr.Here())
      requires e.wait.Some? ==> DestPlace(prog, fr.Here(), e.wait.value.dest) in net.places
      ensures PlacesAfter(prog, w, fr.Here(), e, net.places)
    {
      hide CreatesMutex, CreatesCondvar, DestPlace, Home, MirFunction.Valid, MirFunction.InStep;
      fr.ActiveInNet(net.places);
      CreatesOneThing(prog, fr.Here());
      assert PlaceOf(fr.Here().thread, fr.Here().stack) in net.places;
      forall p | p in net.places ensures net.places[p] == Tokens(prog, p) {
        if p !in w.places && p.Control? {
          assert fr.IsBlockOf(p);
        }
      }
    }

    method ActivateAt(fr: MirFunction, b: nat)
      requires FrameAt(fr) && b < |FunctionOf(fr).blocks| && (fr.basicBlocks == map[] ==> b == 0)
      requires TerminatorOk(prog, fr.f, FunctionOf(fr).blocks[b].terminator)
      requires ProgramEnd in net.places && forall ref :: ref in net.transitions ==> !(ref.TransRef? && ref.pt == Key(fr).At(b))
      modifies net, fr`activeBlock, fr`basicBlocks
      ensures fr.activeBlock == Some(b) && old(fr.basicBlocks).Keys <= fr.basicBlocks.Keys
      ensures net.transitions == old(net.transitions) && fr.Grown(old(net.places), net.places)
      ensures Poised(fr)
    {
      hide ReturnPlace, TerminatorOk, MirFunction.InStep, Home;
      assert fr.startPlace in net.places && fr.startPlace == fr.BlockPlace(0) by { FrameStart(fr); }
      if b > 0 {
        HomeOfLaterBlock(fr.callers, fr.f, b);
      }
      fr.ActivateBlock(b, net);
    }

    lemma FrameInRange(fr: MirFunction)
      requires FrameAt(fr)
      ensures fr.f < |prog.functions|
    {
    }

    lemma FrameStart(fr: MirFunction)
      requires FrameAt(fr)
      ensures fr.startPlace in net.places && fr.startPlace == fr.BlockPlace(0)
    {
    }

    /** Activates a block and follows its statements. */
    method EnterBlock(fr: MirFunction, b: nat) returns (ok: bool)
      requires WellFormed(prog) && FrameAt(fr) && b < |FunctionOf(fr).blocks| && (fr.basicBlocks == map[] ==> b == 0)
      requires Inv(prog, W(), fr.thread) && Key(fr).At(b) !in visited
      requires KnownCells(W(), fr.thread, fr.memory.cells)
      modifies net, fr`activeBlock, fr`basicBlocks, fr.memory
      ensures fr.activeBlock == Some(b) && old(fr.basicBlocks).Keys <= fr.basicBlocks.Keys
      ensures W() == old(W()).(places := net.places) && fr.Grown(old(net.places), net.places)
      ensures var next := StatementsCells(FunctionOf(fr), old(fr.memory.cells), FunctionOf(fr).blocks[b].statements);
        && (ok <==> next.Some?)
        && (ok ==> next == Some(fr.memory.cells) && Poised(fr) && Ledgers(fr) && KnownCells(W(), fr.thread, fr.memory.cells))
    {
      hide Inv, Tally, StatementsCells, KnownCells, FrameIn, Poised, MirFunction.Grown, WellFormed, TerminatorOk;
      ghost var w := W();
      FrameInRange(fr);
      BlockIsOk(prog, fr.f, b);
      TallyOf(prog, w, Key(fr).At(b));
      ActivateAt(fr, b);
      ok := VisitStatements(FunctionOf(fr), fr.memory, FunctionOf(fr).blocks[b].statements);
      if ok {
        KnownStatements(w, fr.thread, FunctionOf(fr), old(fr.memory.cells), FunctionOf(fr).blocks[b].statements);
        LedgersKept(w, fr);
      }
    }

    /** The block was translated as the blueprint says, and nothing else changed; or it panicked as the blueprint says. */
    ghost predicate Done(w: World, fr: MirFunction, table: map<nat, PlaceRef>, e: Option<Effect>, ok: bool)
      reads this, net, fr, fr.memory
      requires fr.activeBlock.Some?
    {
      && (ok <==> e.Some? && NoConflict(w, e.value))
      && (ok ==>
            && DidVisit(w, fr, e.value) && fr.memory.cells == e.value.cells
            && PlacesAfter(prog, w, fr.Here(), e.value, net.places)
            && OwnBlocks(prog, w, Key(fr), net.places)
            && FrameIn(fr, net.places, table))
    }

    lemma CallIsDone(w: World, fr: MirFunction, cells: Cells, table: map<nat, PlaceRef>, known: map<PlaceRef, nat>)
      requires fr.f < |prog.functions| && fr.activeBlock.Some? && fr.activeBlock.value < |FunctionOf(fr).blocks|
      requires TerminatorOf(fr).Call? && Handled(w, fr, cells, true)
      requires InvPlaces(prog, w) && fr.Grown(w.places, known) && Gained(fr, known, net.places) && FrameIn(fr, net.places, table)
      requires TheEnds(fr).Ends? ==> PlaceFor(fr, TheEnds(fr).end) in net.places
      ensures Done(w, fr, table, CallEffect(FunctionOf(fr), fr.Here(), cells, TerminatorOf(fr)), true)
    {
      var term := TerminatorOf(fr);
      if CallEffect(FunctionOf(fr), fr.Here(), cells, term).value.wait.Some? {
        WaitEnds(FunctionOf(fr), fr.Here(), cells, term);
      }
      if TheEnds(fr).Ends? {
        DestPlaceAt(prog, fr.thread, fr.callers, fr.f, fr.activeBlock.value, TheEnds(fr).end);
      }
      hide CallEffect, InvPlaces, PlacesAfter, OwnBlocks, DidVisit, NoConflict, WithObjects, DestPlace;
      assert fr.Valid() && fr.InStep(net.places);
      hide FrameIn, MirFunction.Valid, MirFunction.InStep;
      var between :| fr.Grown(known, between) && net.places == WithObjects(prog, between, fr.Here());
      fr.GrownTwice(w.places, known, between);
      GainedBlocks(w, fr, between, table);
      GainedPlaces(w, fr, between, CallEffect(FunctionOf(fr), fr.Here(), cells, term).value);
    }

    lemma NonCallIsDone(w: World, fr: MirFunction, table: map<nat, PlaceRef>, known: map<PlaceRef, nat>)
      requires fr.f < |prog.functions| && fr.activeBlock.Some? && fr.activeBlock.value < |FunctionOf(fr).blocks|
      requires !TerminatorOf(fr).Call? && EffectOf(fr).Some? && DidVisit(w, fr, EffectOf(fr).value)
      requires InvPlaces(prog, w) && fr.Grown(w.places, known) && TableOk(fr, table, known)
      ensures Done(w, fr, table, TerminatorEffect(FunctionOf(fr), fr.Here(), fr.memory.cells, TerminatorOf(fr)), true)
    {
      hide TerminatorEffect, InvPlaces, PlacesAfter, OwnBlocks, DidVisit, NoConflict, CreatesMutex, CreatesCondvar;
      var e := EffectOf(fr).value;
      JumpsOnly(w, FunctionOf(fr), fr.Here(), fr.memory.cells, TerminatorOf(fr));
      CreatesOnly(prog, fr.Here(), fr.callers, Site(fr.f, fr.activeBlock.value), TerminatorOf(fr));
      fr.GrownTwice(w.places, known, net.places);
      assert FrameIn(fr, net.places, table) && WithObjects(prog, net.places, fr.Here()) == net.places;
      hide WithObjects, MirFunction.Grown;
      GainedBlocks(w, fr, net.places, table);
      GainedPlaces(w, fr, net.places, e);
    }

    lemma EffectOfCall(fr: MirFunction, cells: Cells)
      requires fr.f < |prog.functions| && fr.activeBlock.Some? && fr.activeBlock.value < |FunctionOf(fr).blocks|
      requires TerminatorOf(fr).Call?
      ensures TerminatorEffect(FunctionOf(fr), fr.Here(), cells, TerminatorOf(fr)) == CallEffect(FunctionOf(fr), fr.Here(), cells, TerminatorOf(fr))
    {
    }

    /** Every terminator but a call into a user function. */
    method VisitTerminator(fr: MirFunction, ghost w: World) returns (ok: bool)
      requires Poised(fr) && Ledgers(fr) && KnownCells(W(), fr.thread, fr.memory.cells)
      requires InvPlaces(prog, w) && W() == w.(places := net.places) && fr.Grown(w.places, net.places)
      requires Calls(prog, Site(fr.f, fr.activeBlock.value)).None?
      modifies this`visited, this`mutexes, this`condvars, this`joins, this`threads, this`postprocessing
      modifies net, fr`basicBlocks, fr.memory
      ensures Done(w, fr, old(fr.basicBlocks), TerminatorEffect(FunctionOf(fr), fr.Here(), old(fr.memory.cells), TerminatorOf(fr)), ok)
    {
      hide Poised, Ledgers, KnownCells, InvPlaces, MirFunction.Grown, DidVisit, Handled, Done, Gained, CallEffect, TerminatorEffect, FrameIn, TableOk, EffectOf;
      PoisedRange(fr);
      ghost var known := net.places;
      var term := TerminatorOf(fr);
      if term.Call? {
        ok := VisitCall(fr, term);
        HandledSame(w, w.(places := known), fr, old(fr.memory.cells), ok);
        EffectOfCall(fr, old(fr.memory.cells));
        if ok {
          CallIsDone(w, fr, old(fr.memory.cells), old(fr.basicBlocks), known);
        } else {
          NotDone(w, fr, old(fr.memory.cells), old(fr.basicBlocks));
        }
      } else {
        VisitNonCall(fr, term);
        DidVisitSame(w, w.(places := known), fr, EffectOf(fr).value);
        NonCallIsDone(w, fr, old(fr.basicBlocks), known);
        ok := true;
      }
    }

    lemma NotDone(w: World, fr: MirFunction, cells: Cells, table: map<nat, PlaceRef>)
      requires fr.f < |prog.functions| && fr.activeBlock.Some? && fr.activeBlock.value < |FunctionOf(fr).blocks|
      requires TerminatorOf(fr).Call? && Handled(w, fr, cells, false)
      ensures Done(w, fr, table, CallEffect(FunctionOf(fr), fr.Here(), cells, TerminatorOf(fr)), false)
    {
      hide CallEffect;
    }

    lemma DidVisitSame(w: World, w': World, fr: MirFunction, e: Effect)
      requires fr.activeBlock.Some? && DidVisit(w', fr, e) && w' == w.(places := w'.places)
      ensures DidVisit(w, fr, e)
    {
      hide Visited;
      SameVisit(prog, w, w', fr.Here(), e, net.places);
    }

    // -------------------------------------------------------------------------------------------
    // Calls into user functions, and the translation of whole bodies

    method ConnectCleanup(fr: MirFunction, places: Places)
      requires CanCall(fr, places)
      modifies net
      ensures net.places == old(net.places)
      ensures net.transitions == WithEdges(old(net.transitions), fr.Here(), CallEdges(places)[1..])
    {
      if places.cleanup.Some? {
        net.ConnectPlaces(places.start, places.cleanup.value, TransRef(fr.Here(), 0));
      }
    }

    lemma UserCallDone(w: World, fr: MirFunction, places: Places, e: Effect)
      requires CallFits(fr, places) && TerminatorOf(fr).callee.User? && e.actions == CleanupActions(TheEnds(fr)) && e.wait.None?
      requires W() == w.(places := net.places, visited := w.visited + iset{fr.Here()},
        transitions := WithEdges(w.transitions, fr.Here(), CallEdges(places)[1..]))
      ensures DidVisit(w, fr, e)
    {
      hide Home, ReturnPlace;
      CreatesOnly(prog, fr.Here(), fr.callers, Site(fr.f, fr.activeBlock.value), TerminatorOf(fr));
      hide CreatesMutex, CreatesCondvar;
      if TheEnds(fr).cleanup.Some? {
        PlainEdgeOf(Ctx(w), fr, Flow(TheEnds(fr).cleanup.value));
        PlainOne(prog, w, fr.Here(), e, e.actions[0], net.places);
      } else {
        NoAction(prog, w, fr.Here(), e);
        PlainVisit(prog, w, fr.Here(), e, net.places);
      }
    }

    lemma UserCallIsDone(w: World, fr: MirFunction, places: Places, term: Terminator, table: map<nat, PlaceRef>)
      requires CallFits(fr, places) && term == TerminatorOf(fr) && term.callee.User?
      requires W() == w.(places := net.places, visited := w.visited + iset{fr.Here()},
        transitions := WithEdges(w.transitions, fr.Here(), CallEdges(places)[1..]))
      requires InvPlaces(prog, w) && fr.Grown(w.places, net.places) && FrameIn(fr, net.places, table)
      ensures Done(w, fr, table, TerminatorEffect(FunctionOf(fr), fr.Here(), fr.memory.cells, term), true)
    {
      hide CallEffect, CallEdges, WithEdges, DidVisit, InvPlaces, PlacesAfter, OwnBlocks, CreatesMutex, CreatesCondvar, CallEnds, MirFunction.Grown,
        PlacesFit, MirFunction.InStep, MirFunction.Valid;
      UserIs(FunctionOf(fr), fr.Here(), fr.memory.cells, term);
      var e := TerminatorEffect(FunctionOf(fr), fr.Here(), fr.memory.cells, term).value;
      UserCallDone(w, fr, places, e);
      CreatesOnly(prog, fr.Here(), fr.callers, Site(fr.f, fr.activeBlock.value), term);
      GainedBlocks(w, fr, net.places, table);
      GainedPlaces(w, fr, net.places, e);
    }

    /** The calling side of a call into a user function: only its cleanup path becomes a transition. */
    method StartUserCall(fr: MirFunction, term: Terminator, ghost w: World) returns (places: Places)
      requires Poised(fr) && term == TerminatorOf(fr) && Calls(prog, Site(fr.f, fr.activeBlock.value)).Some?
      requires InvPlaces(prog, w) && W() == w.(places := net.places) && fr.Grown(w.places, net.places)
      modifies this`visited, net, fr`basicBlocks
      ensures Done(w, fr, old(fr.basicBlocks), TerminatorEffect(FunctionOf(fr), fr.Here(), fr.memory.cells, term), true)
      ensures places.start == fr.BlockPlace(fr.activeBlock.value) && places.end == ReturnPlace(prog, fr.thread, fr.Here().stack)
      ensures places.start in net.places && places.end in net.places
      ensures forall p :: p in old(net.places) ==> p in net.places
    {
      hide Home, ReturnPlace, Poised, TableOk, FrameIn, MirFunction.Grown, Done, InvPlaces, DestPlace, PlaceOf, CallEdges, WithEdges;
      ghost var known := net.places;
      PoisedRange(fr);
      var found := PlacesOfCall(fr, term.returnTo, term.unwind);
      places := found.value;
      TableIsFrame(fr, old(fr.basicBlocks), known);
      fr.GrownTwice(w.places, known, net.places);
      GrownKeeps(fr, known, net.places);
      ReturnPlaceOfCall(prog, fr.thread, fr.callers, Site(fr.f, fr.activeBlock.value));
      DestPlaceAt(prog, fr.thread, fr.callers, fr.f, fr.activeBlock.value, CallEnds(term.returnTo, term.unwind).end);
      ConnectCleanup(fr, places);
      visited := visited + iset{fr.Here()};
      UserCallIsDone(w, fr, places, term, old(fr.basicBlocks));
    }

    /** A function called from block `b` leaves the places of the blocks of this frame alone. */
    lemma InStepAfterCall(w: World, fr: MirFunction, b: nat, g: nat, table: map<nat, PlaceRef>)
      requires FrameIn(fr, w.places, table) && Extends(w, W(), Key(fr).Callee(b, g).From(prog, 0))
      ensures FrameIn(fr, net.places, table)
    {
      hide Home, Calls, Chain;
      forall c: nat | c > 0 ensures c in fr.basicBlocks <==> fr.BlockPlace(c) in net.places {
        HomeOfLaterBlock(fr.callers, fr.f, c);
      }
    }

    /** The frame of a called function, before its first block. */
    lemma CalleeAt(fr: MirFunction, callee: MirFunction, b: nat, g: nat)
      requires Real(prog, W()) && Vacant(prog, net.places, Key(fr).Callee(b, g)) && g < |prog.functions|
      requires Key(callee) == Key(fr).Callee(b, g) && callee.basicBlocks == map[] && callee.activeBlock.None?
      requires callee.startPlace == fr.BlockPlace(b) && callee.endPlace == ReturnPlace(prog, fr.thread, fr.callers + [Site(fr.f, b)])
      requires callee.startPlace in net.places && callee.endPlace in net.places
      requires programPanic == PanicPlace(fr.thread) && programPanic in net.places
      ensures FrameAt(callee)
    {
      StartPlaceOfCall(fr.thread, fr.callers + [Site(fr.f, b)], g);
      hide Real, Vacant, ReturnPlace, Home;
      forall c: nat | c > 0 ensures callee.BlockPlace(c) !in net.places {
        HomeOfLaterBlock(callee.callers, g, c);
        VacantBlocks(prog, W(), Key(callee), c);
      }
    }

    /** The blocks of the frame before `b` are translated; `b` is next. */
    ghost predicate AtBlock(fr: MirFunction, b: nat)
      reads this, net, fr, fr.memory
    {
      && WellFormed(prog) && FrameAt(fr) && (fr.basicBlocks == map[] ==> b == 0)
      && Open(prog, W(), Key(fr), b, fr.memory.cells)
    }

    lemma EnteredOpen(w: World, fr: MirFunction, b: nat, g: nat, cells: Cells, table: map<nat, PlaceRef>)
      requires WellFormed(prog) && Open(prog, w, Key(fr), b, cells) && InRange(prog, Site(fr.f, b)) && fr.activeBlock == Some(b)
      requires Calls(prog, Site(fr.f, b)) == Some(g)
      requires Done(w, fr, table, EffectAt(prog, fr.thread, fr.Here().stack), true)
      ensures Entered(prog, w, W(), Key(fr), b, fr.memory.cells) && FrameIn(fr, net.places, table)
      ensures Open(prog, W(), Key(fr).Callee(b, g), 0, map[]) && Vacant(prog, net.places, Key(fr).Callee(b, g))
    {
      hide Inv, Real, Shallow, Vacant, CellsBefore, EffectAt, KnownCells, IsPoint, FramePoints, FrameIn, PlacesAfter, OwnBlocks, NoConflict,
        NextTransitions, SpawnCost, QueueCost, Extends, WellFormed, Calls, SpawnsAt;
      var e := EffectAt(prog, fr.thread, fr.Here().stack).value;
      CalleeOpen(prog, w, W(), Key(fr), b, g, cells, e, net.places);
      VisitCost(prog, w, Key(fr).At(b), e, net.places);
      CallsOrSpawns(prog, Site(fr.f, b));
    }

    /** Connects the call of a user function. */
    method BeginCall(fr: MirFunction, term: Terminator, b: nat, ghost w: World, ghost cells: Cells) returns (places: Places)
      requires WellFormed(prog) && Poised(fr) && fr.activeBlock == Some(b) && term == TerminatorOf(fr) && Calls(prog, Site(fr.f, b)).Some?
      requires Open(prog, w, Key(fr), b, cells) && W() == w.(places := net.places) && fr.Grown(w.places, net.places)
      requires EffectAt(prog, fr.thread, fr.Here().stack) == TerminatorEffect(FunctionOf(fr), fr.Here(), fr.memory.cells, term)
      modifies this`visited, net, fr`basicBlocks
      ensures places.start == fr.BlockPlace(b) && places.end == ReturnPlace(prog, fr.thread, fr.callers + [Site(fr.f, b)])
      ensures places.start in net.places && places.end in net.places && programPanic in net.places
      ensures Open(prog, W(), Key(fr).Callee(b, term.callee.f), 0, map[]) && Vacant(prog, net.places, Key(fr).Callee(b, term.callee.f))
      ensures Entered(prog, w, W(), Key(fr), b, fr.memory.cells) && FrameIn(fr, net.places, old(fr.basicBlocks))
    {
      hide Real, Vacant, EffectAt, TerminatorEffect, IsPoint, InvPlaces, MirFunction.Grown, ReturnPlace, Home, Done, Open, FrameAt, Entered, WellFormed;
      OpenIsReal(prog, w, Key(fr), b, cells);
      places := StartUserCall(fr, term, w);
      EnteredOpen(w, fr, b, term.callee.f, cells, old(fr.basicBlocks));
    }

    /** Connects the call and pushes the frame of the called function. */
    method PushCallee(fr: MirFunction, term: Terminator, b: nat, ghost w: World, ghost cells: Cells) returns (callee: MirFunction)
      requires WellFormed(prog) && Poised(fr) && fr.activeBlock == Some(b) && term == TerminatorOf(fr) && Calls(prog, Site(fr.f, b)).Some?
      requires Open(prog, w, Key(fr), b, cells) && W() == w.(places := net.places) && fr.Grown(w.places, net.places)
      requires EffectAt(prog, fr.thread, fr.Here().stack) == TerminatorEffect(FunctionOf(fr), fr.Here(), fr.memory.cells, term)
      modifies this`callStack, this`visited, net, fr`basicBlocks
      ensures fresh(callee) && fresh(callee.memory) && callStack == old(callStack) + [callee]
      ensures Key(callee) == Key(fr).Callee(b, term.callee.f) && AtBlock(callee, 0) && callee.basicBlocks == map[]
      ensures programPanic == PanicPlace(fr.thread) && programPanic in net.places && fr.endPlace == ReturnPlace(prog, fr.thread, fr.callers)
      ensures Entered(prog, w, W(), Key(fr), b, fr.memory.cells) && FrameIn(fr, net.places, old(fr.basicBlocks))
    {
      hide Real, Vacant, EffectAt, TerminatorEffect, MirFunction.Grown, MirFunction.InStep, MirFunction.Valid, ReturnPlace, Home, Open, FrameAt, FrameIn, Entered,
        WellFormed;
      CalleeSmaller(prog, fr.f, b);
      var places := BeginCall(fr, term, b, w, cells);
      callee := new MirFunction(fr.thread, fr.callers + [Site(fr.f, b)], term.callee.f, places.start, places.end);
      callStack := callStack + [callee];
      OpenIsReal(prog, W(), Key(callee), 0, map[]);
      CalleeAt(fr, callee, b, term.callee.f);
    }

    /** A call into a user function: its body is translated in place of the call. */
    method CallMirFunction(fr: MirFunction, term: Terminator, b: nat, ghost w: World, ghost cells: Cells) returns (ok: bool)
      requires WellFormed(prog) && Poised(fr) && fr.activeBlock == Some(b) && term == TerminatorOf(fr) && Calls(prog, Site(fr.f, b)).Some?
      requires Open(prog, w, Key(fr), b, cells) && W() == w.(places := net.places) && fr.Grown(w.places, net.places)
      requires EffectAt(prog, fr.thread, fr.Here().stack) == TerminatorEffect(FunctionOf(fr), fr.Here(), fr.memory.cells, term)
      modifies this`callStack, this`visited, this`mutexes, this`condvars, this`joins, this`threads, this`postprocessing
      modifies net, fr`basicBlocks
      ensures ok ==> callStack == old(callStack)
      ensures ok ==> AtBlock(fr, b + 1) && old(fr.basicBlocks).Keys <= fr.basicBlocks.Keys
      ensures ok ==> Extends(w, W(), Key(fr).From(prog, 0)) && visited + Key(fr).From(prog, b + 1) == w.visited + Key(fr).From(prog, b)
      ensures ok ==> QueueCost(prog, threads) == QueueCost(prog, w.threads) + SpawnCost(prog, term.callee.f, 0)
      ensures !ok ==> Faulty(prog, w.visited + Key(fr).From(prog, b))
      decreases fr.f, 0
    {
      hide Open, FrameAt, EffectAt, TerminatorEffect, MirFunction.Grown, FramePoints, SpawnCost, QueueCost, Faulty, Extends, WellFormed,
        Real, Inv, ReturnPlace, MirFunction.InStep, KnownCells, IsPoint, Shallow, FrameIn;
      CalleeSmaller(prog, fr.f, b);
      ghost var table := fr.basicBlocks;
      var callee := PushCallee(fr, term, b, w, cells);
      ghost var entered := W();
      ok := TranslateTopCallStack();
      if ok {
        Resumed(w, entered, fr, b, term.callee.f, table);
      } else {
        CalleeFaulty(prog, w.visited, Key(fr), b, term.callee.f);
      }
    }

    lemma Resumed(w: World, entered: World, fr: MirFunction, b: nat, g: nat, table: map<nat, PlaceRef>)
      requires Entered(prog, w, entered, Key(fr), b, fr.memory.cells) && FrameIn(fr, entered.places, table)
      requires Translated(prog, entered, W(), Key(fr).Callee(b, g)) && WellFormed(prog)
      requires b in table && InRange(prog, Site(fr.f, b)) && Calls(prog, Site(fr.f, b)) == Some(g)
      requires programPanic == PanicPlace(fr.thread) && programPanic in entered.places && fr.endPlace == ReturnPlace(prog, fr.thread, fr.callers)
      ensures AtBlock(fr, b + 1) && table.Keys <= fr.basicBlocks.Keys
      ensures Extends(w, W(), Key(fr).From(prog, 0)) && visited + Key(fr).From(prog, b + 1) == w.visited + Key(fr).From(prog, b)
      ensures QueueCost(prog, threads) == QueueCost(prog, w.threads) + SpawnCost(prog, g, 0)
    {
      hide Inv, Real, Shallow, CellsBefore, EffectAt, KnownCells, IsPoint, FramePoints, ReturnPlace, Home, SpawnCost, QueueCost;
      assert programPanic in net.places;
      InStepAfterCall(entered, fr, b, g, table);
      hide Extends, WellFormed, Open;
      CallDone(prog, w, entered, W(), Key(fr), b, g, EffectAt(prog, fr.thread, Key(fr).At(b).stack).value);
    }

    lemma BlockFinished(w: World, fr: MirFunction, b: nat, cells: Cells, table: map<nat, PlaceRef>)
      requires WellFormed(prog) && Open(prog, w, Key(fr), b, cells) && InRange(prog, Site(fr.f, b)) && fr.activeBlock == Some(b)
      requires Calls(prog, Site(fr.f, b)).None? && b in table
      requires Done(w, fr, table, EffectAt(prog, fr.thread, fr.Here().stack), true)
      requires programPanic == PanicPlace(fr.thread) && programPanic in w.places && fr.endPlace == ReturnPlace(prog, fr.thread, fr.callers)
      ensures AtBlock(fr, b + 1) && table.Keys <= fr.basicBlocks.Keys
      ensures Extends(w, W(), Key(fr).From(prog, 0))
      ensures visited + Key(fr).From(prog, b + 1) == w.visited + Key(fr).From(prog, b)
      ensures QueueCost(prog, threads) + SpawnCost(prog, fr.f, b + 1) == QueueCost(prog, w.threads) + SpawnCost(prog, fr.f, b)
    {
      hide Open, EffectAt, FramePoints, PlacesAfter, OwnBlocks, NoConflict, NextTransitions, SpawnCost, QueueCost, Extends, WellFormed, ReturnPlace,
        MirFunction.InStep;
      var e := EffectAt(prog, fr.thread, fr.Here().stack).value;
      BlockDone(prog, w, W(), Key(fr), b, cells, e, net.places);
      VisitCost(prog, w, Key(fr).At(b), e, net.places);
      CostOfBlock(prog, fr.f, b);
      PlacesKept(prog, w, fr.Here(), e, net.places);
    }

    /** Translates one block of the function on top of the call stack. */
    method VisitBasicBlock(fr: MirFunction, b: nat) returns (ok: bool)
      requires AtBlock(fr, b) && b < |FunctionOf(fr).blocks|
      modifies this`callStack, this`visited, this`mutexes, this`condvars, this`joins, this`threads, this`postprocessing
      modifies net, fr`activeBlock, fr`basicBlocks, fr.memory
      ensures ok ==> callStack == old(callStack)
      ensures ok ==> AtBlock(fr, b + 1)
      ensures ok ==> Extends(old(W()), W(), Key(fr).From(prog, 0))
      ensures ok ==> visited + Key(fr).From(prog, b + 1) == old(visited) + Key(fr).From(prog, b)
      ensures ok ==> QueueCost(prog, threads) + SpawnCost(prog, fr.f, b + 1) == QueueCost(prog, old(threads)) + SpawnCost(prog, fr.f, b)
      ensures !ok ==> Faulty(prog, old(visited) + Key(fr).From(prog, b))
      decreases fr.f, 1
    {
      hide Open, Inv, EffectAt, TerminatorEffect, StatementsCells, MirFunction.Grown, FramePoints, SpawnCost, QueueCost, Faulty, Extends, WellFormed,
        ReturnPlace, MirFunction.InStep, MirFunction.Valid, KnownCells, IsPoint, CellsBefore, Ledgers, NoConflict, InvPlaces, DidVisit, PlacesAfter, OwnBlocks,
        Poised, FrameIn;
      ghost var w := W();
      ghost var cells := fr.memory.cells;
      FrameInRange(fr);
      OpenGives(prog, w, Key(fr), b, cells);
      OpenIsReal(prog, w, Key(fr), b, cells);
      EffectIs(prog, Key(fr), b, cells);
      CostOfBlock(prog, fr.f, b);
      CallsOrSpawns(prog, Site(fr.f, b));
      ok := EnterBlock(fr, b);
      if !ok {
        BlockFaulty(prog, w, Key(fr), b);
        return;
      }
      PoisedRange(fr);
      var term := TerminatorOf(fr);
      if Calls(prog, Site(fr.f, b)).Some? {
        ok := CallMirFunction(fr, term, b, w, cells);
      } else {
        ghost var table := fr.basicBlocks;
        ok := VisitTerminator(fr, w);
        if ok {
          BlockFinished(w, fr, b, cells, table);
        } else {
          BlockFaulty(prog, w, Key(fr), b);
        }
      }
    }

    /** Translates the function on top of the call stack, block by block, and pops it. */
    method TranslateTopCallStack() returns (ok: bool)
      requires callStack != []
      requires var fr := callStack[|callStack| - 1]; AtBlock(fr, 0) && fr.basicBlocks == map[]
      modifies this`callStack, this`visited, this`mutexes, this`condvars, this`joins, this`threads, this`postprocessing
      modifies net, callStack[|callStack| - 1], callStack[|callStack| - 1].memory
      ensures ok ==> callStack == old(callStack[..|callStack| - 1])
      ensures ok ==> Translated(prog, old(W()), W(), Key(old(callStack[|callStack| - 1])))
      ensures !ok ==> Faulty(prog, old(visited) + Key(old(callStack[|callStack| - 1])).From(prog, 0))
      decreases callStack[|callStack| - 1].f, 2
    {
      hide Open, Inv, Real, EffectAt, FramePoints, SpawnCost, QueueCost, Faulty, WellFormed, ReturnPlace, MirFunction.InStep, MirFunction.Valid,
        KnownCells, IsPoint, CellsBefore, Extends;
      var fr := callStack[|callStack| - 1];
      ghost var w, stack := W(), callStack;
      var n := |FunctionOf(fr).blocks|;
      ExtendsNot(w, Key(fr).From(prog, 0));
      for b := 0 to n
        invariant AtBlock(fr, b) && callStack == stack
        invariant Extends(w, W(), Key(fr).From(prog, 0))
        invariant visited + Key(fr).From(prog, b) == w.visited + Key(fr).From(prog, 0)
        invariant QueueCost(prog, threads) + SpawnCost(prog, fr.f, b) == QueueCost(prog, w.threads) + SpawnCost(prog, fr.f, 0)
      {
        ghost var before := W();
        ok := VisitBasicBlock(fr, b);
        if !ok {
          return;
        }
        ExtendsTwice(w, before, W(), Key(fr).From(prog, 0), Key(fr).From(prog, 0), Key(fr).From(prog, 0));
      }
      FrameEmpty(prog, fr.thread, fr.callers, fr.f, n);
      NoCostAfter(prog, fr.f, n);
      OpenIsReal(prog, W(), Key(fr), n, fr.memory.cells);
      ok := true;
      callStack := callStack[..|callStack| - 1];
    }

    // -------------------------------------------------------------------------------------------
    // Threads

    /** Takes the next thread from the queue and connects it to its spawn, and to its join if it has one by now. */
    method PrepareForTranslation() returns (thread: Thread)
      requires CanPrepare(W()) && StartOf(threads[0]) !in net.places && ThreadEnd(threads[0].name) !in net.places
      modifies this`threads, this`prepared, net
      ensures thread == old(threads[0]) && W() == Prepared(old(W()))
    {
      thread := threads[0];
      threads := threads[1..];
      net.AddPlace(StartOf(thread));
      net.AddPlace(ThreadEnd(thread.name));
      net.AddArcTransitionPlace(thread.spawn, StartOf(thread));
      if thread.name in joins {
        net.AddArcPlaceTransition(ThreadEnd(thread.name), joins[thread.name]);
      }
      prepared := prepared + {thread.name};
    }

    /** The frame of a thread or of the main function, before its first block. */
    lemma RootAt(fr: MirFunction)
      requires Real(prog, W()) && Vacant(prog, net.places, Key(fr)) && fr.f < |prog.functions|
      requires fr.callers == [] && fr.basicBlocks == map[] && fr.activeBlock.None?
      requires fr.startPlace == Control(fr.thread, [Site(fr.f, 0)]) && fr.endPlace == ThreadEndPlace(fr.thread)
      requires fr.startPlace in net.places && fr.endPlace in net.places && programPanic == PanicPlace(fr.thread) && programPanic in net.places
      ensures FrameAt(fr)
    {
      hide Real, Vacant;
      assert fr.callers + [Site(fr.f, 0)] == [Site(fr.f, 0)];
      forall c: nat | c > 0 ensures fr.BlockPlace(c) !in net.places {
        HomeOfLaterBlock(fr.callers, fr.f, c);
        VacantBlocks(prog, W(), Key(fr), c);
      }
    }

    /** Translates the next thread of the queue. */
    method TranslateThread(ghost current: ThreadName) returns (ok: bool)
      requires WellFormed(prog) && Inv(prog, W(), current) && Real(prog, W()) && AllDone(prog, W()) && callStack == [] && threads != []
      modifies this, net
      ensures ok ==> Inv(prog, W(), old(threads[0].name)) && Real(prog, W()) && AllDone(prog, W()) && callStack == []
      ensures ok ==> QueueCost(prog, threads) < QueueCost(prog, old(threads))
      ensures !ok ==> Faulty(prog, AllPoints(prog))
    {
      hide Inv, Real, AllDone, WellFormed, Open, Vacant, ThreadCells, SpawnCost, QueueCost, Faulty, AllPoints, IsThread, Root, FramePoints,
        PreparedTransitions, Extends;
      ghost var w := W();
      NewPlaces(prog, w, current);
      ThreadStuck(prog, w, current);
      QueueCostHead(prog, threads);
      var thread := PrepareForTranslation();
      programPanic := ThreadEnd(thread.name);
      var fr := new MirFunction(thread.name, [], thread.f, StartOf(thread), ThreadEnd(thread.name));
      callStack := callStack + [fr];
      ok := MoveSyncVariables(FunctionOf(fr), fr.memory, thread.aggregate);
      if ok {
        ThreadOpen(prog, w, current);
        OpenIsReal(prog, W(), Key(fr), 0, fr.memory.cells);
        RootAt(fr);
        InAllPoints(prog, W(), Key(fr));
        ok := TranslateTopCallStack();
        if ok {
          NextDone(prog, w, W());
        } else {
          FaultyGrows(prog, w.visited + Key(fr).From(prog, 0), AllPoints(prog));
        }
      }
    }

    /** Translates the threads in the order in which they were spawned, including those spawned meanwhile. */
    method TranslateThreads(ghost main: ThreadName) returns (ok: bool, ghost last: ThreadName)
      requires WellFormed(prog) && Inv(prog, W(), main) && Real(prog, W()) && AllDone(prog, W()) && callStack == []
      modifies this, net
      ensures ok ==> Inv(prog, W(), last) && Real(prog, W()) && AllDone(prog, W()) && threads == [] && visited == AllPoints(prog)
      ensures !ok ==> Faulty(prog, AllPoints(prog))
    {
      hide Real, AllDone, WellFormed, SpawnCost, QueueCost, Faulty, AllPoints, InvKeys, InvEdges, InvMutexes, InvCondvars, InvJoins, InvPlaces, InvHomes,
        InvTasks, InvCaptures, InvPoints, InvThreads;
      last := main;
      while threads != []
        invariant Inv(prog, W(), last) && Real(prog, W()) && AllDone(prog, W()) && callStack == []
        decreases QueueCost(prog, threads)
      {
        ghost var next := threads[0].name;
        ok := TranslateThread(last);
        if !ok {
          return;
        }
        last := next;
      }
      AllVisited(prog, W(), last);
      ok := true;
    }

    // -------------------------------------------------------------------------------------------
    // Postprocessing

    /** Each setter of the condition moves the token from the first place to the second. */
    method ConnectSetters(refs: seq<TransRef>, notSet: PlaceRef, isSet: PlaceRef)
      requires notSet in net.places && isSet in net.places
      requires forall i :: 0 <= i < |refs| ==> refs[i] in net.transitions
      requires forall i, j :: 0 <= i < j < |refs| ==> refs[i] != refs[j]
      modifies net
      ensures net.places == old(net.places)
      ensures net.transitions == SetterArcs(old(net.transitions), refs, notSet, isSet)
    {
      hide SetterArcs;
      NoSetters(net.transitions, notSet, isSet);
      assert refs[..0] == [];
      for i := 0 to |refs|
        invariant net.places == old(net.places)
        invariant net.transitions == SetterArcs(old(net.transitions), refs[..i], notSet, isSet)
      {
        assert refs[..i + 1] == refs[..i] + [refs[i]];
        assert refs[i] !in refs[..i];
        NextSetter(old(net.transitions), refs[..i], refs[i], notSet, isSet);
        net.AddArcPlaceTransition(notSet, refs[i]);
        net.AddArcTransitionPlace(refs[i], isSet);
      }
      assert refs[..|refs|] == refs;
    }

    /** Links a mutex to a wait: the wait is skipped once the value of the mutex was set. */
    method LinkToCondvar(m: Point, task: Task)
      requires task.LinkMutexToCondvar? && m in mutexes && task.waitStart.CondvarRef? && task.waitStart in net.transitions
      requires task.startPlace in net.places && task.endPlace in net.places
      requires ConditionNotSet(m, task.at) !in net.places && ConditionSet(m, task.at) !in net.places && SkipRef(m, task.at) !in net.transitions
      requires forall i :: 0 <= i < |mutexes[m]| ==> mutexes[m][i].TransRef? && mutexes[m][i] in net.transitions
      requires forall i, j :: 0 <= i < j < |mutexes[m]| ==> mutexes[m][i] != mutexes[m][j]
      modifies net, this`conditions
      ensures W() == LinkedWorld(old(W()), m, task)
    {
      hide ConditionArcs, SetterArcs;
      if mutexes[m] == [] {
        return;
      }
      assert task.waitStart !in mutexes[m] && SkipRef(m, task.at) !in mutexes[m];
      var notSet, isSet := ConditionNotSet(m, task.at), ConditionSet(m, task.at);
      ArcsInOrder(net.transitions, mutexes[m], m, task);
      NotASetter(net.transitions, mutexes[m], notSet, isSet, task.waitStart);
      NotASetter(net.transitions, mutexes[m], notSet, isSet, SkipRef(m, task.at));
      net.AddPlace(notSet);
      net.AddPlace(isSet);
      net.AddToken(notSet, 1);
      ConnectSetters(mutexes[m], notSet, isSet);
      ConnectSkip(task, notSet, isSet, SkipRef(m, task.at));
      conditions := conditions + {(m, task.at)};
    }

    /** The wait needs the condition not to be set; the skip needs it to be set. Both leave it as it is. */
    method ConnectSkip(task: Task, notSet: PlaceRef, isSet: PlaceRef, skip: TransRef)
      requires task.LinkMutexToCondvar? && notSet in net.places && isSet in net.places
      requires task.startPlace in net.places && task.endPlace in net.places
      requires task.waitStart in net.transitions && skip !in net.transitions
      modifies net
      ensures net.places == old(net.places)
      ensures var wait := old(net.transitions)[task.waitStart];
        net.transitions == old(net.transitions)
          [task.waitStart := Transition(wait.pre + multiset{notSet}, wait.post + multiset{notSet})]
          [skip := Transition(multiset{task.startPlace} + multiset{isSet}, multiset{task.endPlace} + multiset{isSet})]
    {
      net.AddArcPlaceTransition(notSet, task.waitStart);
      net.AddArcTransitionPlace(task.waitStart, notSet);
      net.ConnectPlaces(task.startPlace, task.endPlace, skip);
      net.AddArcPlaceTransition(isSet, skip);
      net.AddArcTransitionPlace(skip, isSet);
    }

    /** Links a wait to every mutex seen. */
    method LinkWait(task: Task, seen: seq<Point>, ghost linked: set<Point>)
      requires PostInv(prog, W()) && task.LinkMutexToCondvar? && Expected(prog, W(), task)
      requires Drained(prog, W().(tasks := postprocessing + multiset{task}), seen, linked)
      modifies net, this`conditions
      ensures PostInv(prog, W()) && Linking(prog, old(W()), W(), seen, |seen|, task)
    {
      hide PostInv, Drained, Expected, Linking;
      ghost var w := W();
      NothingLinked(prog, w, seen, task);
      for i := 0 to |seen|
        invariant PostInv(prog, W()) && Linking(prog, w, W(), seen, i, task)
      {
        LinkingCan(prog, w, W(), seen, linked, i, task);
        LinkReady(prog, W(), seen[i], task);
        LinkedInv(prog, W(), seen[i], task);
        LinkingNext(prog, w, W(), seen, i, task);
        LinkToCondvar(seen[i], task);
      }
    }

    /** Runs the postprocessing tasks: the mutexes come first, then each wait is linked to each of them. */
    method TranslationPostprocessing()
      requires PostInv(prog, W()) && Drained(prog, W(), [], {})
      modifies net, this`conditions, this`postprocessing
      ensures IsNetOf(prog, net.Value(), Ctx(W()))
    {
      hide PostInv, Drained, Expected, Linking, IsNetOf, Ctx;
      var seen: seq<Point> := [];
      ghost var linked: set<Point> := {};
      while postprocessing != multiset{}
        invariant PostInv(prog, W()) && Drained(prog, W(), seen, linked)
        decreases |postprocessing|
      {
        HighestPriority(postprocessing);
        ghost var w := W();
        var task :| task in postprocessing && forall other :: other in postprocessing ==> Priority(other) <= Priority(task);
        postprocessing := postprocessing - multiset{task};
        TaskTaken(prog, w, W(), seen, linked, task);
        match task {
          case NewMutexTask(m) =>
            TookMutex(prog, w, m, seen, linked);
            seen := seen + [m];
          case LinkMutexToCondvar(at, _, _, _) =>
            assert forall m: Point :: NewMutexTask(m) in w.tasks ==> Priority(NewMutexTask(m)) <= Priority(task);
            LinkWait(task, seen, linked);
            TookWait(prog, w, W(), seen, linked, task);
            linked := linked + {at};
        }
      }
      IsTheNet(prog, W(), seen, linked);
    }

    // -------------------------------------------------------------------------------------------
    // The whole translation

    /** Translates the main function. */
    method TranslateMain() returns (ok: bool)
      requires WellFormed(prog) && W() == InitialWorld(prog) && callStack == [] && programPanic == ProgramPanic
      modifies this, net
      ensures ok ==> Inv(prog, W(), MainThread) && Real(prog, W()) && AllDone(prog, W()) && callStack == []
      ensures !ok ==> Faulty(prog, AllPoints(prog))
    {
      hide Inv, Real, AllDone, Open, Vacant, SpawnCost, QueueCost, Faulty, AllPoints, FramePoints, Extends, FrameAt;
      MainOpen(prog);
      var fr := new MirFunction(MainThread, [], prog.main, ProgramStart(prog), ProgramEnd);
      callStack := callStack + [fr];
      OpenIsReal(prog, W(), Key(fr), 0, fr.memory.cells);
      RootAt(fr);
      InAllPoints(prog, W(), Key(fr));
      ok := TranslateTopCallStack();
      if ok {
        MainDone(prog, W());
      } else {
        FaultyGrows(prog, InitialWorld(prog).visited + Key(fr).From(prog, 0), AllPoints(prog));
      }
    }

    /** Translates the main function, then the threads, then runs the postprocessing tasks. */
    method Run() returns (ok: bool)
      requires WellFormed(prog) && W() == InitialWorld(prog) && callStack == [] && programPanic == ProgramPanic
      modifies this, net
      ensures ok <==> !Faulty(prog, AllPoints(prog))
      ensures ok ==> IsNetOf(prog, net.Value(), Ctx(W()))
    {
      hide Inv, Real, AllDone, Faulty, AllPoints, WellFormed, IsNetOf, PostInv, Drained, Ctx;
      ok := TranslateMain();
      if ok {
        ghost var last;
        ok, last := TranslateThreads(MainThread);
        if ok {
          NotFaulty(prog, W(), last);
          Completed(prog, W(), last);
          TranslationPostprocessing();
        }
      }
    }
  }

  // Edges and states before and after a handler.

  function WithCondvar(transitions: map<TransRef, Edge>, c: Point): map<TransRef, Edge> {
    transitions[CondvarRef(c, WaitStart) := Transition(multiset{WaitEnabled(c)}, multiset{})]
               [CondvarRef(c, LostSignal) := Transition(multiset{WaitEnabled(c)} + multiset{Notify(c)}, multiset{WaitEnabled(c)})]
               [CondvarRef(c, NotifyReceived) := Transition(multiset{Notify(c)}, multiset{WaitEnabled(c)})]
  }

  lemma UnlinkedCondvarEdges(prog: Program, ctx: Context, c: Point, transitions: map<TransRef, Edge>)
    requires c !in ctx.waits
    ensures transitions + CondvarEdges(prog, ctx, c) == WithCondvar(transitions, c)
  {
  }

  lemma CreatesOnly(prog: Program, pt: Point, callers: seq<Site>, site: Site, term: Terminator)
    requires pt.stack == callers + [site] && InRange(prog, site) && TerminatorAt(prog, site) == term
    ensures CreatesMutex(prog, pt) <==> term.Call? && term.callee.MutexNew? && CallEnds(term.returnTo, term.unwind).Ends?
    ensures CreatesCondvar(prog, pt) <==> term.Call? && term.callee.CondvarNew? && CallEnds(term.returnTo, term.unwind).Ends?
  {
  }

  lemma BlockIsOk(prog: Program, f: nat, b: nat)
    requires WellFormed(prog) && InRange(prog, Site(f, b))
    ensures TerminatorOk(prog, f, prog.functions[f].blocks[b].terminator)
  {
    assert FunctionOk(prog, f);
  }

  lemma CreatesOneThing(prog: Program, pt: Point)
    ensures !(CreatesMutex(prog, pt) && CreatesCondvar(prog, pt))
  {
  }

  lemma EdgesAdded(transitions: map<TransRef, Edge>, pt: Point, edges: seq<Edge>)
    requires |edges| <= 2
    ensures WithEdges(transitions, pt, edges) == transitions + Numbered(pt, edges)
  {
    if |edges| == 1 {
      NumberedOne(pt, edges[0]);
      assert edges == [edges[0]];
    } else if |edges| == 2 {
      NumberedTwo(pt, edges[0], edges[1]);
      assert edges == [edges[0], edges[1]];
    }
  }

  function WithWait(transitions: map<TransRef, Edge>, c: Point, start: PlaceRef, end: PlaceRef, m: Point): map<TransRef, Edge>
    requires CondvarRef(c, WaitStart) in transitions && CondvarRef(c, NotifyReceived) in transitions
  {
    var ws, nr := transitions[CondvarRef(c, WaitStart)], transitions[CondvarRef(c, NotifyReceived)];
    transitions[CondvarRef(c, WaitStart) := Transition(ws.pre + multiset{start}, ws.post + multiset{MutexPlace(m)})]
               [CondvarRef(c, NotifyReceived) := Transition(nr.pre + multiset{MutexPlace(m)}, nr.post + multiset{end})]
  }

  lemma LinkedCondvarEdges(prog: Program, ctx: Context, ctx': Context, c: Point, transitions: map<TransRef, Edge>)
    requires c !in ctx.waits && c in ctx'.waits && ctx'.conditions == {} && ctx'.waits[c].at.stack != []
    requires forall role :: CondvarRef(c, role) in transitions && transitions[CondvarRef(c, role)] == CondvarEdge(prog, ctx, c, role)
    ensures var link := ctx'.waits[c];
      transitions + CondvarEdges(prog, ctx', c)
      == WithWait(transitions, c, PlaceOf(link.at.thread, link.at.stack), DestPlace(prog, link.at, link.wait.dest), link.wait.mutex)
  {
    hide Home, ReturnPlace, DestPlace, PlaceOf;
    var link := ctx'.waits[c];
    assert NotSetOfWait(ctx', link.at) == {};
    assert multiset(NotSetOfWait(ctx', link.at)) == multiset{};
    var start, mutex := multiset{PlaceOf(link.at.thread, link.at.stack)}, multiset{MutexPlace(link.wait.mutex)};
    assert multiset{WaitEnabled(c)} + start + multiset{} == multiset{WaitEnabled(c)} + start;
    assert mutex + multiset{} == mutex && multiset{} + mutex == mutex;
  }

  lemma NothingToNumber(prog: Program, ctx: Context, pt: Point)
    requires pt.stack != []
    ensures Numbered(pt, EdgesOf(prog, ctx, pt, [])) == map[]
  {
  }

  function WithObjects(prog: Program, places: map<PlaceRef, nat>, pt: Point): map<PlaceRef, nat> {
    if CreatesMutex(prog, pt) then places[MutexPlace(pt) := 1]
    else if CreatesCondvar(prog, pt) then places[WaitEnabled(pt) := 1][Notify(pt) := 0]
    else places
  }

  /** Terminators that are not calls leave the memory alone and share nothing. */
  lemma JumpsOnly(w: World, fn: Function, pt: Point, cells: Cells, term: Terminator)
    requires !term.Call? && TerminatorEffect(fn, pt, cells, term).Some?
    ensures var e := TerminatorEffect(fn, pt, cells, term).value;
      NoConflict(w, e) && e.cells == cells && e.wait.None?
  {
  }

  ghost predicate Tally(prog: Program, w: World, pt: Point) {
    && (forall m: Point :: MutexPlace(m) in w.places <==> m in w.mutexes)
    && (forall c: Point :: WaitEnabled(c) in w.places <==> c in w.condvars)
    && (forall c: Point :: Notify(c) in w.places <==> c in w.condvars)
    && (forall c: Point, role: Role :: CondvarRef(c, role) in w.transitions <==> c in w.condvars)
    && (forall c: Point, role: Role :: CondvarRef(c, role) in w.transitions ==>
          w.transitions[CondvarRef(c, role)] == CondvarEdge(prog, Ctx(w), c, role))
    && (forall t: ThreadName :: t in w.prepared ==> t.Spawned? && t.parent != pt.thread)
    && pt !in w.mutexes && pt !in w.condvars
    && w.conditions == {}
  }

  lemma TallyOf(prog: Program, w: World, pt: Point)
    requires Inv(prog, w, pt.thread) && pt !in w.visited
    ensures Tally(prog, w, pt)
    ensures forall ref :: ref in w.transitions ==> !(ref.TransRef? && ref.pt == pt)
    ensures ProgramEnd in w.places
  {
    hide EffectAt, CondvarEdge, EdgeOfAction;
    assert forall ref: TransRef :: ref.TransRef? ==> ref == TransRef(ref.pt, ref.i);
  }

  /** Block `b` of the frame was translated up to the body of the function it calls. */
  ghost predicate Entered(prog: Program, w: World, w': World, fr: Frame, b: nat, cells: Cells) {
    var e := EffectAt(prog, fr.t, fr.At(b).stack);
    && e.Some? && cells == e.value.cells && KnownCells(w', fr.t, cells)
    && IsPoint(prog, fr.At(0)) && Begun(w, fr.t)
    && (forall pt :: pt in fr.From(prog, b) ==> pt !in w.visited)
    && Extends(w, w', fr.From(prog, 0)) && Shallow(prog, w'.places, fr, b)
    && w'.visited == w.visited + iset{fr.At(b)}
    && QueueCost(prog, w'.threads) == QueueCost(prog, w.threads)
  }

  /** What a visit does does not depend on the places there were. */
  lemma SameVisit(prog: Program, w: World, w': World, pt: Point, e: Effect, places: map<PlaceRef, nat>)
    requires pt.stack != [] && w' == w.(places := w'.places)
    ensures Visited(prog, w, pt, e, places) == Visited(prog, w', pt, e, places)
    ensures NoConflict(w, e) == NoConflict(w', e)
  {
    hide EdgesOf, Numbered, CondvarEdges, CreatesMutex, CreatesCondvar;
  }

  lemma KnownObject(w: World, owner: ThreadName, cells: Cells, place: Place)
    requires KnownCells(w, owner, cells)
    ensures GetMutex(cells, place).Some? ==> GetMutex(cells, place).value in w.mutexes
    ensures GetCondvar(cells, place).Some? ==> GetCondvar(cells, place).value in w.condvars
  {
    if place in cells {
      assert Known(w, owner, |w.threads|, cells[place]);
    }
  }

  lemma KnownGuard(w: World, owner: ThreadName, cells: Cells, place: Place)
    requires KnownCells(w, owner, cells)
    ensures GetGuard(cells, place).Some? ==> GetGuard(cells, place).value in w.mutexes
  {
    if place in cells {
      assert Known(w, owner, |w.threads|, cells[place]);
    }
  }

  lemma FanOutIsSwitch(prog: Program, ctx: Context, t: ThreadName, callers: seq<Site>, f: nat, b: nat, targets: seq<nat>, actions: seq<Action>)
    requires |actions| == |targets| && forall i :: 0 <= i < |targets| ==> actions[i] == Flow(ToBlock(targets[i]))
    ensures EdgesOf(prog, ctx, Point(t, callers + [Site(f, b)]), actions) == FanOut(t, callers, f, b, targets)
  {
    forall i | 0 <= i < |targets| {
      DestPlaceAt(prog, t, callers, f, b, actions[i].dest);
    }
  }

  // ---------------------------------------------------------------------------------------------
  // Start and end of the translation

  function ProgramStart(prog: Program): PlaceRef {
    Control(MainThread, [Site(prog.main, 0)])
  }

  ghost function InitialWorld(prog: Program): World {
    World(map[ProgramPanic := 0, ProgramEnd := 0, ProgramStart(prog) := 1], map[], map[], map[], map[], [], multiset{}, {}, {}, iset{})
  }

  lemma InitialInv(prog: Program)
    ensures Inv(prog, InitialWorld(prog), MainThread)
  {
    hide EffectAt, Actions, WaitAt, CreatesMutex, CreatesCondvar;
  }

  lemma MainIsPoint(prog: Program)
    requires WellFormed(prog)
    ensures IsPoint(prog, Point(MainThread, [Site(prog.main, 0)])) && Root(prog, MainThread) == prog.main && IsThread(prog, MainThread)
  {
    assert FunctionOk(prog, prog.main);
  }

  lemma MainOpen(prog: Program)
    requires WellFormed(prog)
    ensures Open(prog, InitialWorld(prog), Frame(MainThread, [], prog.main), 0, map[])
    ensures Vacant(prog, InitialWorld(prog).places, Frame(MainThread, [], prog.main))
    ensures IsThread(prog, MainThread) && Root(prog, MainThread) == prog.main
  {
    hide Inv, WellFormed, IsPoint, IsThread, Root, Chain;
    InitialInv(prog);
    MainIsPoint(prog);
    var fr := Frame(MainThread, [], prog.main);
    assert fr.At(0).stack == [Site(prog.main, 0)];
    assert CellsBefore(prog, MainThread, [], prog.main, 0) == Some(map[]);
  }

  lemma MainDone(prog: Program, w: World)
    requires Extends(InitialWorld(prog), w, Frame(MainThread, [], prog.main).From(prog, 0)) && Root(prog, MainThread) == prog.main
    requires w.visited == InitialWorld(prog).visited + Frame(MainThread, [], prog.main).From(prog, 0)
    ensures AllDone(prog, w)
  {
    hide InFrame, Root;
    forall t: ThreadName, pt: Point | Begun(w, t) && InFrame(prog, pt, t, [], Root(prog, t), 0) ensures pt in w.visited {
      assert pt in Frame(MainThread, [], prog.main).From(prog, 0);
    }
  }

  lemma ThreadsPrepared(prog: Program, w: World, current: ThreadName)
    requires InvThreads(prog, w, current) && Real(prog, w) && AllDone(prog, w) && w.threads == []
    ensures forall t: ThreadName :: t in w.prepared <==> t.Spawned? && IsThread(prog, t)
  {
    hide AllDone, InFrame, Home, Root;
    forall t: ThreadName ensures t in w.prepared <==> t.Spawned? && IsThread(prog, t) {
      if t.Spawned? && IsThread(prog, t) {
        AllBegun(prog, w, current, t);
      }
      if t in w.prepared {
        assert Point(t.parent, t.stack) in w.visited && SpawnsThread(prog, Point(t.parent, t.stack));
      }
    }
  }

  lemma PointsPlaced(prog: Program, w: World)
    requires Real(prog, w) && InvHomes(w) && w.visited == AllPoints(prog)
    ensures forall t: ThreadName, stack: seq<Site> :: Control(t, stack) in w.places <==> IsPoint(prog, Point(t, stack)) && Home(stack) == stack
  {
    hide IsPoint, Home;
    forall t: ThreadName, stack: seq<Site> | IsPoint(prog, Point(t, stack)) && Home(stack) == stack ensures Control(t, stack) in w.places {
      assert Point(t, stack) in w.visited;
    }
  }

  lemma Completed(prog: Program, w: World, current: ThreadName)
    requires Inv(prog, w, current) && Real(prog, w) && AllDone(prog, w) && w.threads == [] && w.visited == AllPoints(prog)
    ensures PostInv(prog, w) && Drained(prog, w, [], {})
  {
    hide InvPoints, InvKeys, InvEdges, InvMutexes, InvCondvars, InvJoins, InvThreads, InvCaptures, InvPlaces, InvHomes, InvTasks, Real, AllDone, AllPoints,
      Drained, IsPoint, IsThread, Home;
    ThreadsPrepared(prog, w, current);
    PointsPlaced(prog, w);
    NothingDrained(prog, w);
  }

  /** Translating a program: the net, or `None` where the translator panics. */
  method Translate(prog: Program) returns (net: Option<TheNet>, ghost ctx: Context)
    requires WellFormed(prog)
    ensures net.Some? <==> !Faulty(prog, AllPoints(prog))
    ensures net.Some? ==> IsNetOf(prog, net.value.Value(), ctx)
  {
    hide Faulty, AllPoints, WellFormed, IsNetOf, Ctx;
    var translator := new Translator(prog);
    var ok := translator.Run();
    ctx := Ctx(translator.W());
    net := if ok then Some(translator.net) else None;
  }
}
