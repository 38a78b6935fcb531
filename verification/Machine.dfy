/** The programs themselves, as interleaved threads with call stacks: what the net is meant to simulate. A thread is at a
    block of the function on top of its stack. Every frame has a memory of its own, which follows the links of the blocks
    the thread passes, and every lock, drop, join and spawn looks its operands up there. */
module Machine {
  import opened Wrappers
  import opened PetriNets
  import opened Mir
  import opened ControlPoints
  import opened AliasMemory
  import opened Blueprint
  import opened Links

  // ---------------------------------------------------------------------------------------------
  // What a terminator can do

  /** The values a spawned thread gets from the closure that is passed to it. */
  function Captured(cells: Cells, args: seq<Operand>): seq<Value> {
    if args == [] || args[0].Constant? then []
    else
      match Lookup(cells, args[0].place)
      case Some(Bundle(values)) => values
      case _ => []
  }

  /** A drop unlocks the mutex of a guard. */
  function Drops(cells: Cells, place: Place, dest: Dest): Action {
    match Lookup(cells, place)
    case Some(MutexGuard(m)) => Release(m, dest)
    case _ => Flow(dest)
  }

  /** Where a terminator with an unwinding edge goes when it unwinds: to its cleanup, to the panic if it must not unwind, and
      to the end if it is taken not to. */
  function UnwindDest(unwind: UnwindAction): Dest {
    match unwind
    case Cleanup(c) => ToBlock(c)
    case Impossible => ToEnd
    case _ => ToPanic
  }

  /** Where a call goes when it returns. One without a block to return to comes back where it unwinds. */
  function ReturnDest(term: Terminator): Dest
    requires term.Call?
  {
    match term.returnTo
    case Some(r) => ToBlock(r)
    case None => UnwindDest(term.unwind)
  }

  /** Whether a call can unwind besides returning. */
  predicate MayUnwind(term: Terminator)
    requires term.Call?
  {
    term.returnTo.Some? && !term.unwind.Continue?
  }

  function UnwindMoves(term: Terminator): seq<Action>
    requires term.Call?
  {
    if MayUnwind(term) then [Flow(UnwindDest(term.unwind))] else []
  }

  /** The moves of a call. A drop, a mutable dereference and a spawn look at their operand once the result is linked. A
      lock or join of a place without such an object has no move. A user function that has a cleanup may unwind before it
      has done anything. */
  function CallMoves(fn: Function, pt: Point, cells: Cells, term: Terminator): seq<Action>
    requires term.Call?
  {
    if NeverComesBack(term) then [if term.callee.PanicFunction? then Flow(ToPanic) else Vanish]
    else
      var self, back, plain := NthArgument(term.args, 0), ReturnDest(term), [Flow(ReturnDest(term))] + UnwindMoves(term);
      var linked := AfterLinks(cells, ReturnLinks(fn, term));
      var ofMutex := self.Some? && self.value in fn.mutexPlaces;
      match term.callee
      case MemDrop =>
        if self.None? then []
        else [Drops(linked, self.value, back)] + if MayUnwind(term) then [Drops(linked, self.value, UnwindDest(term.unwind))] else []
      case DerefFn => if ofMutex then [Flow(back)] else plain
      case ResultUnwrap => if ofMutex then [Flow(back)] else plain
      case DerefMutFn =>
        if !ofMutex then plain
        else
          (match Lookup(linked, self.value)
           case Some(MutexGuard(m)) => [SetCondition(m, back)]
           case _ => [Flow(back)])
      case ThreadSpawn(f) => [SpawnThread(Spawned(pt.thread, pt.stack), f, Captured(linked, term.args), back)] + UnwindMoves(term)
      case MutexLock =>
        if self.None? then []
        else
          (match Lookup(cells, self.value)
           case Some(Mutex(m)) => [Acquire(m, back)]
           case _ => [])
      case ThreadJoin =>
        if self.None? then []
        else
          (match Lookup(cells, self.value)
           case Some(JoinHandle(t)) => [JoinThread(t, back)]
           case _ => [])
      case CondvarNotifyOne =>
        if self.None? then []
        else
          (match Lookup(cells, self.value)
           case Some(Condvar(c)) => [NotifyOne(c, back)]
           case _ => [])
      case CondvarWait => []
      case CondvarWaitWhile => []
      case User(_) => UnwindMoves(term)
      case _ => plain
  }

  function Moves(fn: Function, pt: Point, cells: Cells, term: Terminator): seq<Action> {
    match term
    case Goto(target) => [Flow(ToBlock(target))]
    case SwitchInt(targets) => seq(|targets|, i requires 0 <= i < |targets| => Flow(ToBlock(targets[i])))
    case UnwindResume => [Flow(ToPanic)]
    case UnwindTerminate => [Flow(ToPanic)]
    case Return => [Flow(ToReturn)]
    case Unreachable => [Flow(ToEnd)]
    case Drop(place, target, Cleanup(c)) => [Drops(cells, place, ToBlock(target)), Drops(cells, place, ToBlock(c))]
    case Drop(place, target, Impossible) => [Flow(ToEnd), Drops(cells, place, ToBlock(target))]
    case Drop(place, target, _) => [Drops(cells, place, ToBlock(target))]
    case Assert(target, Cleanup(c)) => [Flow(ToBlock(target)), Flow(ToBlock(c))]
    case Assert(target, Impossible) => [Flow(ToBlock(target)), Flow(ToEnd)]
    case Assert(target, _) => [Flow(ToBlock(target))]
    case Call(_, _, _, _, _) => CallMoves(fn, pt, cells, term)
  }

  /** Only a call that returns links its result; a way that unwinds leaves the memory as it is. */
  predicate Returned(term: Terminator, i: nat) {
    term.Call? ==> i == 0 && term.returnTo.Some? && !term.callee.User?
  }

  function ExitLinks(fn: Function, pt: Point, term: Terminator, returned: bool): seq<Link> {
    if returned then TerminatorLinks(fn, pt, term) else []
  }

  predicate Located(prog: Program, pt: Point) {
    pt.stack != [] && InRange(prog, pt.stack[|pt.stack| - 1])
  }

  function FunctionAt(prog: Program, pt: Point): Function
    requires Located(prog, pt)
  {
    prog.functions[pt.stack[|pt.stack| - 1].f]
  }

  function EndOf(prog: Program, pt: Point): Terminator
    requires Located(prog, pt)
  {
    TerminatorAt(prog, pt.stack[|pt.stack| - 1])
  }

  /** The links of the statements of a block. */
  function BlockLinks(prog: Program, pt: Point): seq<Link>
    requires Located(prog, pt)
  {
    StatementsLinks(FunctionAt(prog, pt), FunctionAt(prog, pt).blocks[pt.stack[|pt.stack| - 1].b].statements)
  }

  /** The memory at the end of a block, before its terminator. */
  function AtEnd(prog: Program, pt: Point, cells: Cells): Cells
    requires Located(prog, pt)
  {
    AfterLinks(cells, BlockLinks(prog, pt))
  }

  function MovesAt(prog: Program, pt: Point, cells: Cells): seq<Action>
    requires Located(prog, pt)
  {
    Moves(FunctionAt(prog, pt), pt, AtEnd(prog, pt, cells), EndOf(prog, pt))
  }

  /** The memory a thread leaves a block with. */
  function Passed(prog: Program, pt: Point, cells: Cells, returned: bool): Cells
    requires Located(prog, pt)
  {
    AfterLinks(AtEnd(prog, pt, cells), ExitLinks(FunctionAt(prog, pt), pt, EndOf(prog, pt), returned))
  }

  // ---------------------------------------------------------------------------------------------
  // Threads and states

  /** A running thread: where it is, the memories of its callers, the memory of the frame on top, and whether it cleans up
      after a called function that resumed unwinding. A thread in a call that never returns is busy for ever. */
  datatype Activity =
    | At(pt: Point, below: seq<Cells>, cells: Cells, unwinding: bool)
    | Busy(t: ThreadName)
    | Ended
    | Panicked
    | Finished(t: ThreadName)

  /** The threads, running or not, the mutexes that are locked, and the calls that created an object so far. */
  datatype State = State(running: multiset<Activity>, held: set<Point>, made: multiset<Point>)

  function ThreadMemory(prog: Program, f: nat, captured: seq<Value>): Cells {
    AfterLinks(map[Place(1, []) := Bundle(captured)], if f < |prog.functions| then CaptureLinks(prog.functions[f].debugPlaces) else [])
  }

  function Starts(t: ThreadName, f: nat, cells: Cells): Activity {
    At(Point(t, [Site(f, 0)]), [], cells, false)
  }

  function Initial(prog: Program): State {
    State(multiset{Starts(MainThread, prog.main, map[])}, {}, multiset{})
  }

  /** A thread that returns from the function it started with. */
  function ThreadOver(t: ThreadName): Activity {
    if t.MainThread? then Ended else Finished(t)
  }

  /** A panic that does not unwind aborts the whole program. */
  function GoesTo(t: ThreadName, callers: seq<Site>, f: nat, dest: Dest, below: seq<Cells>, cells: Cells, unwinding: bool): Activity {
    match dest
    case ToBlock(b) => At(Point(t, callers + [Site(f, b)]), below, cells, unwinding)
    case ToPanic => Panicked
    case ToEnd => Ended
    case ToReturn => ThreadOver(t)
  }

  const RESULT := Place(0, [])

  /** The memory of a caller once it has the result of a called function. */
  function Received(cells: Cells, place: Place, result: Option<Value>): Cells {
    if result.Some? then cells[place := result.value] else cells - {place}
  }

  /** A return pops the frame and goes on where the call ends, with the memory of the caller. */
  function Returns(prog: Program, t: ThreadName, callers: seq<Site>, below: seq<Cells>, result: Option<Value>, unwinding: bool): Activity
    requires |below| == |callers|
  {
    if callers == [] then ThreadOver(t)
    else
      var top := |callers| - 1;
      if !InRange(prog, callers[top]) || !TerminatorAt(prog, callers[top]).Call? then ThreadOver(t)
      else
        var call := TerminatorAt(prog, callers[top]);
        if NeverComesBack(call) then ThreadOver(t)
        else GoesTo(t, callers[..top], callers[top].f, ReturnDest(call), below[..top], Received(below[top], call.destination, result), unwinding)
  }

  /** Where unwinding goes on when it leaves a called function: in the cleanup of the next call that has one. A call that
      must not unwind, or is taken not to, aborts the program. */
  datatype Landing = InCleanup(depth: nat, block: nat) | OutOfThread | Aborted

  function Lands(prog: Program, callers: seq<Site>): (landing: Landing)
    ensures landing.InCleanup? ==> landing.depth < |callers|
  {
    if callers == [] then OutOfThread
    else
      var top := |callers| - 1;
      if !InRange(prog, callers[top]) || !TerminatorAt(prog, callers[top]).Call? then OutOfThread
      else
        match TerminatorAt(prog, callers[top]).unwind
        case Continue => Lands(prog, callers[..top])
        case Cleanup(c) => InCleanup(top, c)
        case Terminate => Aborted
        case Impossible => Aborted
  }

  function Resumes(prog: Program, t: ThreadName, callers: seq<Site>, below: seq<Cells>): Activity
    requires |below| == |callers|
  {
    match Lands(prog, callers)
    case InCleanup(j, c) => At(Point(t, callers[..j] + [Site(callers[j].f, c)]), below[..j], below[j], true)
    case OutOfThread => if t.MainThread? then Panicked else Finished(t)
    case Aborted => Panicked
  }

  /** The terminators that unwind the frame they are in: a resume, and a call that panics and has no cleanup. */
  predicate Resuming(term: Terminator) {
    term.UnwindResume? || (term.Call? && NeverComesBack(term))
  }

  function Arrives(prog: Program, who: Activity, dest: Dest, cells: Cells): Activity
    requires who.At? && Located(prog, who.pt) && |who.pt.stack| == |who.below| + 1
  {
    var t, callers := who.pt.thread, who.pt.stack[..|who.pt.stack| - 1];
    if dest.ToReturn? then Returns(prog, t, callers, who.below, Lookup(cells, RESULT), who.unwinding)
    else if dest.ToPanic? && Resuming(EndOf(prog, who.pt)) then Resumes(prog, t, callers, who.below)
    else GoesTo(t, callers, who.pt.stack[|who.pt.stack| - 1].f, dest, who.below, cells, who.unwinding)
  }

  // ---------------------------------------------------------------------------------------------
  // Steps

  ghost predicate Runs(prog: Program, s: State, who: Activity) {
    who in s.running && who.At? && Located(prog, who.pt) && |who.pt.stack| == |who.below| + 1
  }

  ghost predicate CanEnter(prog: Program, s: State, who: Activity) {
    Runs(prog, s, who) && Calls(prog, who.pt.stack[|who.pt.stack| - 1]).Some?
  }

  /** The memory a called function starts with: its parameters are `_1`, `_2` and so on. */
  function Passing(cells: Cells, args: seq<Operand>): Cells {
    map i | 0 <= i < |args| && !args[i].Constant? && args[i].place in cells :: Place(i + 1, []) := cells[args[i].place]
  }

  function Enters(prog: Program, who: Activity): Activity
    requires who.At? && Located(prog, who.pt) && Calls(prog, who.pt.stack[|who.pt.stack| - 1]).Some?
  {
    At(Point(who.pt.thread, who.pt.stack + [Site(Calls(prog, who.pt.stack[|who.pt.stack| - 1]).value, 0)]),
       who.below + [AtEnd(prog, who.pt, who.cells)], Passing(AtEnd(prog, who.pt, who.cells), EndOf(prog, who.pt).args), who.unwinding)
  }

  function Replaced(s: State, was: Activity, becomes: Activity): State {
    s.(running := s.running - multiset{was} + multiset{becomes})
  }

  /** A lock waits for the mutex to be free, a join for the thread to be finished. */
  ghost predicate Unblocked(s: State, a: Action) {
    match a
    case Acquire(m, _) => m !in s.held
    case JoinThread(t, _) => Finished(t) in s.running
    case _ => true
  }

  ghost predicate CanAct(prog: Program, s: State, who: Activity, i: nat) {
    Runs(prog, s, who) && i < |MovesAt(prog, who.pt, who.cells)| && Unblocked(s, MovesAt(prog, who.pt, who.cells)[i])
  }

  /** A call that creates a mutex, a condvar or a thread, which is named after it. */
  predicate Creates(term: Terminator) {
    term.Call? && (term.callee.MutexNew? || term.callee.CondvarNew? || term.callee.ThreadSpawn?)
  }

  function Made(prog: Program, s: State, pt: Point, returned: bool): multiset<Point>
    requires Located(prog, pt)
  {
    if returned && Creates(EndOf(prog, pt)) then s.made + multiset{pt} else s.made
  }

  function Acts(prog: Program, s: State, who: Activity, a: Action, returned: bool): State
    requires who.At? && Located(prog, who.pt) && |who.pt.stack| == |who.below| + 1
  {
    if a.Vanish? then Replaced(s, who, Busy(who.pt.thread))
    else
      var next := Arrives(prog, who, a.dest, Passed(prog, who.pt, who.cells, returned));
      var moved := Replaced(s, who, next).(made := Made(prog, s, who.pt, returned));
      match a
      case Acquire(m, _) => moved.(held := s.held + {m})
      case Release(m, _) => moved.(held := s.held - {m})
      case SpawnThread(t, f, captured, _) => moved.(running := moved.running + multiset{Starts(t, f, ThreadMemory(prog, f, captured))})
      case JoinThread(t, _) => moved.(running := moved.running - multiset{Finished(t)})
      case _ => moved
  }

  /** The state after the `i`-th move of a thread. */
  function Taken(prog: Program, s: State, who: Activity, i: nat): State
    requires who.At? && Located(prog, who.pt) && |who.pt.stack| == |who.below| + 1 && i < |MovesAt(prog, who.pt, who.cells)|
  {
    Acts(prog, s, who, MovesAt(prog, who.pt, who.cells)[i], Returned(EndOf(prog, who.pt), i))
  }

  ghost predicate Step(prog: Program, s: State, s': State) {
    || (exists who: Activity :: CanEnter(prog, s, who) && s' == Replaced(s, who, Enters(prog, who)))
    || (exists who: Activity, i: nat :: CanAct(prog, s, who, i) && s' == Taken(prog, s, who, i))
  }

  /** The states of an execution, one after the other. */
  ghost predicate Execution(prog: Program, states: seq<State>) {
    && states != [] && states[0] == Initial(prog)
    && forall i :: 0 <= i < |states| - 1 ==> Step(prog, states[i], states[i + 1])
  }

  ghost predicate CanReach(prog: Program, s: State) {
    exists states: seq<State> :: Execution(prog, states) && states[|states| - 1] == s
  }

  lemma StartReached(prog: Program)
    ensures CanReach(prog, Initial(prog))
  {
    assert Execution(prog, [Initial(prog)]);
  }

  lemma StepReached(prog: Program, s: State, s': State)
    requires CanReach(prog, s) && Step(prog, s, s')
    ensures CanReach(prog, s')
  {
    hide Step, Initial;
    var states: seq<State> :| Execution(prog, states) && states[|states| - 1] == s;
    assert Execution(prog, states + [s']);
  }

  /** No thread can go on, other than those that are busy for ever, and the main thread neither ended nor panicked. */
  ghost predicate Stalled(prog: Program, s: State) {
    && (forall s': State :: !Step(prog, s, s'))
    && Ended !in s.running && Panicked !in s.running
  }

  ghost predicate CanStall(prog: Program) {
    exists s: State :: CanReach(prog, s) && Stalled(prog, s)
  }

  /** The threads are stuck: none of them is busy either. */
  ghost predicate Deadlocked(prog: Program, s: State) {
    Stalled(prog, s) && forall t: ThreadName :: Busy(t) !in s.running
  }

  ghost predicate CanDeadlock(prog: Program) {
    exists s: State :: CanReach(prog, s) && Deadlocked(prog, s)
  }
}
