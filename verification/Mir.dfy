/** The part of the Mid-level Intermediate Representation the translator looks at.

    Functions are numbered so that calls and spawns go from higher to lower numbers; every
    non-recursive program has such a numbering. Types are reduced to two questions the translator
    asks of a place: does its type mention a synchronisation type, and does it mention a mutex.
 */
module Mir {
  import opened Wrappers

  datatype Projection = Deref | Field(index: nat) | OtherProjection

  datatype Place = Place(local: nat, projection: seq<Projection>)

  datatype Operand = Copy(place: Place) | Move(place: Place) | Constant

  datatype Rvalue = Use(operand: Operand) | Ref(place: Place) | Aggregate(operands: seq<Operand>) | OtherRvalue

  datatype Statement = Assign(place: Place, rvalue: Rvalue) | OtherStatement

  datatype UnwindAction = Continue | Cleanup(block: nat) | Terminate | Impossible

  /** The called function, by the cases the translator tells apart. `PanicFunction` stands for the
      functions that start a panic, `Foreign` for every other function translated in short form. */
  datatype Callee =
    | MemDrop
    | DerefFn
    | DerefMutFn
    | ResultUnwrap
    | ThreadSpawn(f: nat)
    | CondvarNew
    | CondvarNotifyOne
    | CondvarWait
    | CondvarWaitWhile
    | MutexLock
    | MutexNew
    | ThreadJoin
    | PanicFunction(name: string)
    | Foreign(name: string)
    | User(f: nat)

  datatype Terminator =
    | Goto(target: nat)
    | SwitchInt(targets: seq<nat>)
    | UnwindResume
    | UnwindTerminate
    | Return
    | Unreachable
    | Drop(place: Place, target: nat, unwind: UnwindAction)
    | Assert(target: nat, unwind: UnwindAction)
    | Call(callee: Callee, args: seq<Operand>, destination: Place, returnTo: Option<nat>, unwind: UnwindAction)

  datatype Block = Block(statements: seq<Statement>, terminator: Terminator)

  /** `syncPlaces`: places whose type mentions a mutex, mutex guard, join handle or condvar.
      `mutexPlaces`: places whose type mentions a mutex or a mutex guard.
      `debugPlaces`: the places of the debug information, in order. */
  datatype Function = Function(
    name: string,
    blocks: seq<Block>,
    syncPlaces: set<Place>,
    mutexPlaces: set<Place>,
    debugPlaces: seq<Place>)

  datatype Program = Program(functions: seq<Function>, main: nat)

  function NthArgument(args: seq<Operand>, n: nat): Option<Place> {
    if n < |args| && !args[n].Constant? then Some(args[n].place) else None
  }

  predicate IsIndirect(place: Place) {
    Deref in place.projection
  }

  function FirstField(projection: seq<Projection>): Option<nat> {
    if projection == [] then None
    else if projection[0].Field? then Some(projection[0].index)
    else FirstField(projection[1..])
  }

  function FieldNumber(place: Place): Option<nat> {
    FirstField(place.projection)
  }

  /** Element `i` of a projection is its first field, and has number `n`. */
  predicate IsFirstField(projection: seq<Projection>, i: nat, n: nat) {
    i < |projection| && projection[i] == Field(n) && forall j :: 0 <= j < i ==> !projection[j].Field?
  }

  predicate NoField(projection: seq<Projection>) {
    forall j :: 0 <= j < |projection| ==> !projection[j].Field?
  }

  lemma {:induction false} FirstFieldIs(projection: seq<Projection>, i: nat, n: nat)
    requires IsFirstField(projection, i, n)
    ensures FirstField(projection) == Some(n)
    decreases |projection|
  {
    if i > 0 {
      assert !projection[0].Field?;
      FirstFieldIs(projection[1..], i - 1, n);
    }
  }

  lemma {:induction false} NoFirstField(projection: seq<Projection>)
    requires NoField(projection)
    ensures FirstField(projection) == None
    decreases |projection|
  {
    if projection != [] {
      NoFirstField(projection[1..]);
    }
  }

  lemma {:induction false} FindField(projection: seq<Projection>) returns (i: nat, n: nat)
    requires !NoField(projection)
    ensures IsFirstField(projection, i, n)
    decreases |projection|
  {
    var init := projection[..|projection| - 1];
    if NoField(init) {
      i, n := |init|, projection[|init|].index;
    } else {
      i, n := FindField(init);
    }
  }

  // ---------------------------------------------------------------------------------------------
  // Well-formed bodies: not empty, targets in range, block 0 without predecessors, no recursion.

  predicate TargetOk(fn: Function, target: nat) {
    0 < target < |fn.blocks|
  }

  predicate UnwindOk(fn: Function, unwind: UnwindAction) {
    unwind.Cleanup? ==> TargetOk(fn, unwind.block)
  }

  predicate TerminatorOk(prog: Program, f: nat, term: Terminator)
    requires f < |prog.functions|
  {
    var fn := prog.functions[f];
    match term
    case Goto(target) => TargetOk(fn, target)
    case SwitchInt(targets) => targets != [] && forall i :: 0 <= i < |targets| ==> TargetOk(fn, targets[i])
    case UnwindResume => true
    case UnwindTerminate => true
    case Return => true
    case Unreachable => true
    case Drop(_, target, unwind) => TargetOk(fn, target) && UnwindOk(fn, unwind)
    case Assert(target, unwind) => TargetOk(fn, target) && UnwindOk(fn, unwind)
    case Call(callee, _, _, returnTo, unwind) =>
      && (returnTo.Some? ==> TargetOk(fn, returnTo.value))
      && UnwindOk(fn, unwind)
      && (callee.User? ==> callee.f < f)
      && (callee.ThreadSpawn? ==> callee.f < f)
  }

  ghost predicate FunctionOk(prog: Program, f: nat)
    requires f < |prog.functions|
  {
    var fn := prog.functions[f];
    && fn.blocks != []
    && forall b :: 0 <= b < |fn.blocks| ==> TerminatorOk(prog, f, fn.blocks[b].terminator)
  }

  ghost predicate WellFormed(prog: Program) {
    && prog.main < |prog.functions|
    && forall f :: 0 <= f < |prog.functions| ==> FunctionOk(prog, f)
  }
}
