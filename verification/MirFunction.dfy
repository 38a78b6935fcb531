/** A function frame of the translation: the table of its basic blocks, created on first reference, the
    block being translated, and its alias memory. */
module MirFunctions {
  import opened Wrappers
  import opened PetriNets
  import opened PetriNetInterface
  import opened Mir
  import opened ControlPoints
  import opened AliasMemory
  import opened Blueprint

  type TheNet = PetriNet<PlaceRef, TransRef>

  function WithPlace(places: map<PlaceRef, nat>, p: PlaceRef): map<PlaceRef, nat> {
    if p in places then places else places[p := 0]
  }

  lemma HomeOfLaterBlock(callers: seq<Site>, f: nat, b: nat)
    requires b > 0
    ensures Home(callers + [Site(f, b)]) == callers + [Site(f, b)]
  {
  }

  /** The transitions from block `b` to each of the targets. */
  function FanOut(t: ThreadName, callers: seq<Site>, f: nat, b: nat, targets: seq<nat>): seq<Edge> {
    seq(|targets|, i requires 0 <= i < |targets| =>
      Transition(multiset{PlaceOf(t, callers + [Site(f, b)])}, multiset{PlaceOf(t, callers + [Site(f, targets[i])])}))
  }

  lemma FanOutNothing(pt: Point, t: ThreadName, callers: seq<Site>, f: nat, b: nat)
    ensures Numbered(pt, FanOut(t, callers, f, b, [])) == map[]
  {
  }

  lemma FanOutNext(pt: Point, t: ThreadName, callers: seq<Site>, f: nat, b: nat, targets: seq<nat>, target: nat)
    ensures TransRef(pt, |targets|) !in Numbered(pt, FanOut(t, callers, f, b, targets))
    ensures Numbered(pt, FanOut(t, callers, f, b, targets + [target]))
      == Numbered(pt, FanOut(t, callers, f, b, targets))[TransRef(pt, |targets|) :=
           Transition(multiset{PlaceOf(t, callers + [Site(f, b)])}, multiset{PlaceOf(t, callers + [Site(f, target)])})]
  {
    var edges := FanOut(t, callers, f, b, targets + [target]);
    assert edges[..|targets|] == FanOut(t, callers, f, b, targets);
    NumberedAre(pt, FanOut(t, callers, f, b, targets));
  }

  class MirFunction {
    const thread: ThreadName
    const callers: seq<Site>
    const f: nat
    const startPlace: PlaceRef
    const endPlace: PlaceRef
    const memory: Memory
    var activeBlock: Option<nat>
    var basicBlocks: map<nat, PlaceRef>

    constructor (thread: ThreadName, callers: seq<Site>, f: nat, startPlace: PlaceRef, endPlace: PlaceRef)
      ensures this.thread == thread && this.callers == callers && this.f == f
      ensures this.startPlace == startPlace && this.endPlace == endPlace
      ensures activeBlock == None && basicBlocks == map[]
      ensures fresh(memory) && memory.cells == map[]
    {
      this.thread, this.callers, this.f := thread, callers, f;
      this.startPlace, this.endPlace := startPlace, endPlace;
      this.activeBlock, this.basicBlocks := None, map[];
      this.memory := new Memory();
    }

    function BlockPlace(b: nat): PlaceRef {
      PlaceOf(thread, callers + [Site(f, b)])
    }

    /** Every block in the table has the place of its control point; the first block added is block 0,
        which takes the start place of the function; the active block is in the table. */
    ghost predicate Valid()
      reads this
    {
      && startPlace == BlockPlace(0)
      && (basicBlocks != map[] ==> 0 in basicBlocks)
      && (forall b :: b in basicBlocks ==> basicBlocks[b] == BlockPlace(b))
      && (activeBlock.Some? ==> activeBlock.value in basicBlocks)
    }

    /** The net holds the places of the blocks in the table and of no other block of this frame. */
    ghost predicate InStep(places: map<PlaceRef, nat>)
      reads this
    {
      && startPlace in places
      && endPlace in places
      && forall b: nat :: b > 0 ==> (b in basicBlocks <==> BlockPlace(b) in places)
    }

    method AddBasicBlock(b: nat, net: TheNet)
      requires Valid() && InStep(net.places)
      requires b !in basicBlocks
      requires basicBlocks == map[] ==> b == 0
      modifies this`basicBlocks, net
      ensures Valid() && InStep(net.places)
      ensures basicBlocks == old(basicBlocks)[b := BlockPlace(b)]
      ensures net.places == WithPlace(old(net.places), BlockPlace(b))
      ensures net.transitions == old(net.transitions)
    {
      var place := startPlace;
      if basicBlocks != map[] {
        HomeOfLaterBlock(callers, f, b);
        place := Control(thread, callers + [Site(f, b)]);
        net.AddPlace(place);
      }
      assert forall c: nat :: c > 0 && c != b ==> BlockPlace(c) != BlockPlace(b) by {
        forall c: nat | c > 0 && c != b ensures BlockPlace(c) != BlockPlace(b) {
          DistinctBlocks(callers, f, c, b);
        }
      }
      basicBlocks := basicBlocks[b := place];
    }

    method GetOrAddBasicBlock(b: nat, net: TheNet) returns (place: PlaceRef)
      requires Valid() && InStep(net.places)
      requires basicBlocks == map[] ==> b == 0
      modifies this`basicBlocks, net
      ensures Valid() && InStep(net.places)
      ensures place == BlockPlace(b) && place in net.places
      ensures basicBlocks == old(basicBlocks)[b := BlockPlace(b)]
      ensures net.places == WithPlace(old(net.places), BlockPlace(b))
      ensures net.transitions == old(net.transitions)
    {
      if b !in basicBlocks {
        AddBasicBlock(b, net);
      }
      place := basicBlocks[b];
    }

    method ActivateBlock(b: nat, net: TheNet)
      requires Valid() && InStep(net.places)
      requires basicBlocks == map[] ==> b == 0
      modifies this`basicBlocks, this`activeBlock, net
      ensures Valid() && InStep(net.places)
      ensures activeBlock == Some(b)
      ensures basicBlocks == old(basicBlocks)[b := BlockPlace(b)]
      ensures net.places == WithPlace(old(net.places), BlockPlace(b))
      ensures net.transitions == old(net.transitions)
    {
      if b !in basicBlocks {
        AddBasicBlock(b, net);
      }
      activeBlock := Some(b);
    }

    // -------------------------------------------------------------------------------------------
    // Terminators. The active block is connected to each of its targets through a new transition.

    function Here(): Point
      reads this`activeBlock
      requires activeBlock.Some?
    {
      Point(thread, callers + [Site(f, activeBlock.value)])
    }

    lemma ActiveInNet(places: map<PlaceRef, nat>)
      requires Valid() && InStep(places) && activeBlock.Some?
      ensures basicBlocks[activeBlock.value] in places && basicBlocks[activeBlock.value] == BlockPlace(activeBlock.value)
    {
      if activeBlock.value == 0 {
        assert basicBlocks[0] == startPlace;
      }
    }

    ghost predicate Ready(net: TheNet)
      reads this, net
    {
      && Valid() && InStep(net.places) && activeBlock.Some?
      && forall ref :: ref in net.transitions ==> !(ref.TransRef? && ref.pt == Here())
    }

    /** A place of one of the blocks of this frame, other than block 0. */
    ghost predicate IsBlockOf(p: PlaceRef) {
      && p.Control? && p.thread == thread
      && |p.stack| == |callers| + 1 && p.stack[..|callers|] == callers
      && var site := p.stack[|callers|];
         site.f == f && site.b > 0
    }

    /** The net gained no places but those of blocks of this frame. */
    ghost predicate Grown(before: map<PlaceRef, nat>, after: map<PlaceRef, nat>) {
      && (forall p :: p in before ==> p in after && after[p] == before[p])
      && (forall p :: p in after && p !in before ==> after[p] == 0 && IsBlockOf(p))
    }

    lemma GrownByBlock(before: map<PlaceRef, nat>, b: nat)
      requires b > 0
      ensures Grown(before, WithPlace(before, BlockPlace(b)))
      ensures forall p :: p in before ==> p in WithPlace(before, BlockPlace(b))
    {
      HomeOfLaterBlock(callers, f, b);
    }

    lemma GrownTwice(before: map<PlaceRef, nat>, between: map<PlaceRef, nat>, after: map<PlaceRef, nat>)
      requires Grown(before, between) && Grown(between, after)
      ensures Grown(before, after)
    {
    }

    function EdgeTo(place: PlaceRef): Edge
      reads this`activeBlock
      requires activeBlock.Some?
    {
      Transition(multiset{BlockPlace(activeBlock.value)}, multiset{place})
    }

    method ConnectTo(i: nat, place: PlaceRef, net: TheNet)
      requires Valid() && InStep(net.places) && activeBlock.Some?
      requires TransRef(Here(), i) !in net.transitions && place in net.places
      modifies net
      ensures net.places == old(net.places)
      ensures net.transitions == old(net.transitions)[TransRef(Here(), i) := EdgeTo(place)]
    {
      if activeBlock.value == 0 {
        assert basicBlocks[0] == startPlace;
      }
      net.ConnectPlaces(basicBlocks[activeBlock.value], place, TransRef(Here(), i));
    }

    method ConnectToBlock(i: nat, target: nat, net: TheNet)
      requires Valid() && InStep(net.places) && activeBlock.Some? && target > 0
      requires TransRef(Here(), i) !in net.transitions
      modifies this`basicBlocks, net
      ensures Valid() && InStep(net.places) && Grown(old(net.places), net.places)
      ensures basicBlocks == old(basicBlocks)[target := BlockPlace(target)]
      ensures net.transitions == old(net.transitions)[TransRef(Here(), i) := EdgeTo(BlockPlace(target))]
    {
      var place := GetOrAddBasicBlock(target, net);
      HomeOfLaterBlock(callers, f, target);
      ConnectTo(i, place, net);
    }

    method Goto(target: nat, net: TheNet)
      requires Ready(net) && target > 0
      modifies this`basicBlocks, net
      ensures Valid() && InStep(net.places) && Grown(old(net.places), net.places)
      ensures basicBlocks == old(basicBlocks)[target := BlockPlace(target)]
      ensures net.transitions == old(net.transitions)[TransRef(Here(), 0) := EdgeTo(BlockPlace(target))]
    {
      ConnectToBlock(0, target, net);
    }

    method SwitchInt(targets: seq<nat>, net: TheNet)
      requires Ready(net) && forall i :: 0 <= i < |targets| ==> targets[i] > 0
      modifies this`basicBlocks, net
      ensures Valid() && InStep(net.places) && Grown(old(net.places), net.places)
      ensures forall b :: b in basicBlocks <==> b in old(basicBlocks) || b in targets
      ensures net.transitions
           == old(net.transitions) + Numbered(Here(), FanOut(thread, callers, f, activeBlock.value, targets))
    {
      hide Home, Numbered, FanOut, Valid, InStep, PlaceOf;
      var pt := Here();
      ghost var edges: map<TransRef, Edge> := map[];
      FanOutNothing(pt, thread, callers, f, activeBlock.value);
      assert targets[..0] == [];
      for i := 0 to |targets|
        invariant Valid() && InStep(net.places) && Grown(old(net.places), net.places)
        invariant forall b :: b in basicBlocks <==> b in old(basicBlocks) || b in targets[..i]
        invariant edges == Numbered(pt, FanOut(thread, callers, f, activeBlock.value, targets[..i]))
        invariant net.transitions == old(net.transitions) + edges
      {
        FanOutNext(pt, thread, callers, f, activeBlock.value, targets[..i], targets[i]);
        assert targets[..i + 1] == targets[..i] + [targets[i]];
        edges := edges[TransRef(pt, i) := EdgeTo(BlockPlace(targets[i]))];
        ConnectToBlock(i, targets[i], net);
      }
      assert targets[..|targets|] == targets;
    }

    method Unwind(unwindPlace: PlaceRef, net: TheNet)
      requires Ready(net) && unwindPlace in net.places
      modifies net
      ensures net.places == old(net.places)
      ensures net.transitions == old(net.transitions)[TransRef(Here(), 0) := EdgeTo(unwindPlace)]
    {
      ConnectTo(0, unwindPlace, net);
    }

    method ReturnStatement(net: TheNet)
      requires Ready(net)
      modifies net
      ensures net.places == old(net.places)
      ensures net.transitions == old(net.transitions)[TransRef(Here(), 0) := EdgeTo(endPlace)]
    {
      ConnectTo(0, endPlace, net);
    }

    method UnreachableStatement(i: nat, end: PlaceRef, net: TheNet)
      requires Valid() && InStep(net.places) && activeBlock.Some?
      requires TransRef(Here(), i) !in net.transitions && end in net.places
      modifies net
      ensures net.places == old(net.places)
      ensures net.transitions == old(net.transitions)[TransRef(Here(), i) := EdgeTo(end)]
    {
      ConnectTo(i, end, net);
    }

    /** A drop or an assert: one transition to the target, one to the cleanup block if there is one. */
    method ConnectWithCleanup(i: nat, target: nat, cleanup: Option<nat>, net: TheNet)
      requires Valid() && InStep(net.places) && activeBlock.Some? && target > 0 && (cleanup.Some? ==> cleanup.value > 0)
      requires TransRef(Here(), i) !in net.transitions && TransRef(Here(), i + 1) !in net.transitions
      modifies this`basicBlocks, net
      ensures Valid() && InStep(net.places) && Grown(old(net.places), net.places)
      ensures forall b :: b in basicBlocks <==> b in old(basicBlocks) || b == target || cleanup == Some(b)
      ensures var one := old(net.transitions)[TransRef(Here(), i) := EdgeTo(BlockPlace(target))];
        net.transitions ==
          if cleanup.None? then one else one[TransRef(Here(), i + 1) := EdgeTo(BlockPlace(cleanup.value))]
    {
      ConnectToBlock(i, target, net);
      if cleanup.Some? {
        ConnectToBlock(i + 1, cleanup.value, net);
      }
    }
  }

  /** Different blocks of a frame have different places. */
  lemma DistinctBlocks(callers: seq<Site>, f: nat, b: nat, c: nat)
    requires b > 0 && b != c
    ensures Home(callers + [Site(f, b)]) != Home(callers + [Site(f, c)])
  {
    if c == 0 {
      HomeIsNotLonger(callers);
      assert (callers + [Site(f, c)])[..|callers|] == callers;
      assert (callers + [Site(f, b)])[|callers|] == Site(f, b);
      if callers == [] {
        assert Home(callers + [Site(f, c)])[0] == Site(f, c);
      }
    } else {
      assert (callers + [Site(f, b)])[|callers|] != (callers + [Site(f, c)])[|callers|];
    }
  }

  lemma {:induction false} HomeIsNotLonger(stack: seq<Site>)
    ensures |Home(stack)| <= |stack|
  {
    if |stack| > 1 && stack[|stack| - 1].b == 0 {
      HomeIsNotLonger(stack[..|stack| - 1]);
    }
  }
}
