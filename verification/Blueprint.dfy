/** What the translation of every control point must contribute to the net, stated point by point and
    without any state: the actions of a point, the places they connect, and the whole net of a program. */
module Blueprint {
  import opened Wrappers
  import opened PetriNets
  import opened Mir
  import opened ControlPoints
  import opened AliasMemory

  // ---------------------------------------------------------------------------------------------
  // Actions of a block

  /** Where control goes: a block of the same frame, the panic or end place, or back to the caller. */
  datatype Dest = ToBlock(b: nat) | ToPanic | ToEnd | ToReturn

  /** Each action becomes one transition. */
  datatype Action =
    | Flow(dest: Dest)
    | Vanish
    | Acquire(mutex: Point, dest: Dest)
    | Release(mutex: Point, dest: Dest)
    | SpawnThread(thread: ThreadName, f: nat, aggregate: seq<Value>, dest: Dest)
    | JoinThread(thread: ThreadName, dest: Dest)
    | SetCondition(mutex: Point, dest: Dest)
    | NotifyOne(condvar: Point, dest: Dest)

  datatype Wait = Wait(condvar: Point, mutex: Point, dest: Dest)

  datatype Effect = Effect(actions: seq<Action>, cells: Cells, wait: Option<Wait>)

  datatype Ends = Ends(end: Dest, cleanup: Option<Dest>) | NoReturn

  function CallEnds(returnTo: Option<nat>, unwind: UnwindAction): Ends {
    match (returnTo, unwind)
    case (Some(r), Continue) => Ends(ToBlock(r), None)
    case (Some(r), Cleanup(c)) => Ends(ToBlock(r), Some(ToBlock(c)))
    case (Some(r), Terminate) => Ends(ToBlock(r), Some(ToPanic))
    case (Some(r), Impossible) => Ends(ToBlock(r), Some(ToEnd))
    case (None, Continue) => NoReturn
    case (None, Cleanup(c)) => Ends(ToBlock(c), None)
    case (None, Terminate) => Ends(ToPanic, None)
    case (None, Impossible) => Ends(ToEnd, None)
  }

  function CleanupActions(ends: Ends): seq<Action>
    requires ends.Ends?
  {
    if ends.cleanup.Some? then [Flow(ends.cleanup.value)] else []
  }

  /** A call in short form: one transition to the end place, one to the cleanup place if there is one. */
  function ShortCall(ends: Ends): seq<Action>
    requires ends.Ends?
  {
    [Flow(ends.end)] + CleanupActions(ends)
  }

  function DropAction(cells: Cells, place: Place, dest: Dest): Action {
    match GetGuard(cells, place)
    case Some(m) => Release(m, dest)
    case None => Flow(dest)
  }

  function LinkedIfSync(fn: Function, cells: Cells, place: Place, linked: Place): Option<Cells> {
    if place !in fn.syncPlaces then Some(cells)
    else if IsIndirect(linked) then
      match FieldNumber(linked)
      case None => None
      case Some(n) => LinkedField(cells, place, Place(linked.local, []), n)
    else LinkedAlias(cells, place, linked)
  }

  function LinkedReturn(fn: Function, cells: Cells, args: seq<Operand>, destination: Place): Option<Cells> {
    match NthArgument(args, 0)
    case None => Some(cells)
    case Some(place) => LinkedIfSync(fn, cells, destination, place)
  }

  /** The operands of an aggregate that hold synchronisation objects, in order. */
  function SyncOperands(fn: Function, operands: seq<Operand>): seq<Place> {
    if operands == [] then []
    else
      var last := operands[|operands| - 1];
      SyncOperands(fn, operands[..|operands| - 1])
      + if !last.Constant? && last.place in fn.syncPlaces then [last.place] else []
  }

  function StatementCells(fn: Function, cells: Cells, statement: Statement): Option<Cells> {
    match statement
    case Assign(place, Use(Copy(rhs))) => LinkedIfSync(fn, cells, place, rhs)
    case Assign(place, Use(Move(rhs))) => LinkedIfSync(fn, cells, place, rhs)
    case Assign(place, Ref(rhs)) => LinkedIfSync(fn, cells, place, rhs)
    case Assign(place, Aggregate(operands)) =>
      var places := SyncOperands(fn, operands);
      if places == [] then Some(cells) else CreatedBundle(cells, place, places)
    case _ => Some(cells)
  }

  function StatementsCells(fn: Function, cells: Cells, statements: seq<Statement>): Option<Cells> {
    if statements == [] then Some(cells)
    else
      match StatementsCells(fn, cells, statements[..|statements| - 1])
      case None => None
      case Some(c) => StatementCells(fn, c, statements[|statements| - 1])
  }

  function WithCells(actions: seq<Action>, cells: Option<Cells>): Option<Effect> {
    match cells
    case None => None
    case Some(c) => Some(Effect(actions, c, None))
  }

  function SpawnEffect(fn: Function, pt: Point, cells: Cells, term: Terminator, ends: Ends): Option<Effect>
    requires term.Call? && term.callee.ThreadSpawn? && ends.Ends?
  {
    match LinkedReturn(fn, cells, term.args, term.destination)
    case None => None
    case Some(c) =>
      if term.args == [] then None
      else
        var aggregate := if term.args[0].Constant? then Some([]) else GetBundle(c, term.args[0].place);
        var thread := Spawned(pt.thread, pt.stack);
        match aggregate
        case None => None
        case Some(values) =>
          Some(Effect([SpawnThread(thread, term.callee.f, values, ends.end)] + CleanupActions(ends),
                      c[term.destination := JoinHandle(thread)], None))
  }

  function DerefMutEffect(fn: Function, cells: Cells, term: Terminator, place: Place, ends: Ends): Option<Effect>
    requires term.Call? && ends.Ends?
  {
    match LinkedReturn(fn, cells, term.args, term.destination)
    case None => None
    case Some(c) =>
      match GetGuard(c, place)
      case None => None
      case Some(m) => Some(Effect([SetCondition(m, ends.end)], c, None))
  }

  function MemDropEffect(fn: Function, cells: Cells, term: Terminator, ends: Ends): Option<Effect>
    requires term.Call? && ends.Ends?
  {
    match (LinkedReturn(fn, cells, term.args, term.destination), NthArgument(term.args, 0))
    case (Some(c), Some(place)) =>
      Some(Effect([DropAction(c, place, ends.end)]
                  + (if ends.cleanup.Some? then [DropAction(c, place, ends.cleanup.value)] else []), c, None))
    case _ => None
  }

  function WaitEffect(cells: Cells, term: Terminator, ends: Ends): Option<Effect>
    requires term.Call? && ends.Ends?
  {
    match (NthArgument(term.args, 0), NthArgument(term.args, 1))
    case (Some(self), Some(guard)) =>
      (match (GetCondvar(cells, self), GetGuard(cells, guard))
       case (Some(c), Some(m)) =>
         Some(Effect([], cells[term.destination := cells[guard]], Some(Wait(c, m, ends.end))))
       case _ => None)
    case _ => None
  }

  /** A call whose callee is linked to its first argument and that is not allowed to unwind. */
  function MutexCallEffect(fn: Function, cells: Cells, term: Terminator, place: Place, ends: Ends): Option<Effect>
    requires term.Call? && ends.Ends?
  {
    var actions := if place in fn.mutexPlaces then [Flow(ends.end)] else ShortCall(ends);
    WithCells(actions, LinkedReturn(fn, cells, term.args, term.destination))
  }

  function CallEffect(fn: Function, pt: Point, cells: Cells, term: Terminator): Option<Effect>
    requires term.Call?
  {
    var ends := CallEnds(term.returnTo, term.unwind);
    if ends.NoReturn? then
      Some(Effect([if term.callee.PanicFunction? then Flow(ToPanic) else Vanish], cells, None))
    else
      var self := NthArgument(term.args, 0);
      match term.callee
      case MemDrop => MemDropEffect(fn, cells, term, ends)
      case DerefFn => if self.None? then None else MutexCallEffect(fn, cells, term, self.value, ends)
      case ResultUnwrap => if self.None? then None else MutexCallEffect(fn, cells, term, self.value, ends)
      case DerefMutFn =>
        if self.None? then None
        else if self.value in fn.mutexPlaces then DerefMutEffect(fn, cells, term, self.value, ends)
        else MutexCallEffect(fn, cells, term, self.value, ends)
      case ThreadSpawn(_) => SpawnEffect(fn, pt, cells, term, ends)
      case CondvarNew =>
        Some(Effect(ShortCall(ends), cells[term.destination := Condvar(pt)], None))
      case CondvarNotifyOne =>
        if self.None? || GetCondvar(cells, self.value).None? then None
        else Some(Effect([NotifyOne(GetCondvar(cells, self.value).value, ends.end)], cells, None))
      case CondvarWait => WaitEffect(cells, term, ends)
      case CondvarWaitWhile => WaitEffect(cells, term, ends)
      case MutexLock =>
        if self.None? || GetMutex(cells, self.value).None? then None
        else
          var m := GetMutex(cells, self.value).value;
          Some(Effect([Acquire(m, ends.end)], cells[term.destination := MutexGuard(m)], None))
      case MutexNew => Some(Effect(ShortCall(ends), cells[term.destination := Mutex(pt)], None))
      case ThreadJoin =>
        if self.None? || GetHandle(cells, self.value).None? then None
        else Some(Effect([JoinThread(GetHandle(cells, self.value).value, ends.end)], cells, None))
      case PanicFunction(_) => WithCells(ShortCall(ends), LinkedReturn(fn, cells, term.args, term.destination))
      case Foreign(_) => WithCells(ShortCall(ends), LinkedReturn(fn, cells, term.args, term.destination))
      case User(_) => Some(Effect(CleanupActions(ends), cells, None))
  }

  function TerminatorEffect(fn: Function, pt: Point, cells: Cells, term: Terminator): Option<Effect> {
    match term
    case Goto(target) => Some(Effect([Flow(ToBlock(target))], cells, None))
    case SwitchInt(targets) =>
      Some(Effect(seq(|targets|, i requires 0 <= i < |targets| => Flow(ToBlock(targets[i]))), cells, None))
    case UnwindResume => Some(Effect([Flow(ToPanic)], cells, None))
    case UnwindTerminate => Some(Effect([Flow(ToPanic)], cells, None))
    case Return => Some(Effect([Flow(ToReturn)], cells, None))
    case Unreachable => Some(Effect([Flow(ToEnd)], cells, None))
    case Drop(place, target, unwind) =>
      var drop := DropAction(cells, place, ToBlock(target));
      (match unwind
       case Cleanup(c) => Some(Effect([drop, DropAction(cells, place, ToBlock(c))], cells, None))
       case Impossible => Some(Effect([Flow(ToEnd), drop], cells, None))
       case _ => Some(Effect([drop], cells, None)))
    case Assert(target, unwind) =>
      (match unwind
       case Cleanup(c) => Some(Effect([Flow(ToBlock(target)), Flow(ToBlock(c))], cells, None))
       case Impossible => Some(Effect([Flow(ToBlock(target)), Flow(ToEnd)], cells, None))
       case _ => Some(Effect([Flow(ToBlock(target))], cells, None)))
    case Call(_, _, _, _, _) => CallEffect(fn, pt, cells, term)
  }

  // ---------------------------------------------------------------------------------------------
  // The memory of a frame and the effect of a point

  const CLOSURE := Place(1, [])

  /** Links the captured fields `_1.k` named by the debug information. */
  function CapturesLinked(cells: Cells, places: seq<Place>): Option<Cells> {
    if places == [] then Some(cells)
    else
      var place := places[|places| - 1];
      match CapturesLinked(cells, places[..|places| - 1])
      case None => None
      case Some(c) =>
        if place.local != 1 then Some(c)
        else
          match FieldNumber(place)
          case None => None
          case Some(n) => LinkedField(c, place, CLOSURE, n)
  }

  function ThreadCells(fn: Function, aggregate: seq<Value>): Option<Cells> {
    CapturesLinked(map[CLOSURE := Bundle(aggregate)], fn.debugPlaces)
  }

  predicate InRange(prog: Program, site: Site) {
    site.f < |prog.functions| && site.b < |prog.functions[site.f].blocks|
  }

  function TerminatorAt(prog: Program, site: Site): Terminator
    requires InRange(prog, site)
  {
    prog.functions[site.f].blocks[site.b].terminator
  }

  /** The effect of translating the last block of `stack` in thread `t`; `None` if the translator panics. */
  function EffectAt(prog: Program, t: ThreadName, stack: seq<Site>): Option<Effect>
    decreases t, if stack == [] then 0 else stack[|stack| - 1].b, 1
  {
    if stack == [] || !InRange(prog, stack[|stack| - 1]) then None
    else
      var site := stack[|stack| - 1];
      var fn := prog.functions[site.f];
      match CellsBefore(prog, t, stack[..|stack| - 1], site.f, site.b)
      case None => None
      case Some(before) =>
        match StatementsCells(fn, before, fn.blocks[site.b].statements)
        case None => None
        case Some(cells) => TerminatorEffect(fn, Point(t, stack), cells, fn.blocks[site.b].terminator)
  }

  /** The memory of the frame of `f`, called from `callers`, when its block `b` is reached by the translation,
      which visits blocks in index order. A called function starts with an empty memory. */
  function CellsBefore(prog: Program, t: ThreadName, callers: seq<Site>, f: nat, b: nat): Option<Cells>
    decreases t, b, 0
  {
    if b > 0 then
      match EffectAt(prog, t, callers + [Site(f, b - 1)])
      case None => None
      case Some(effect) => Some(effect.cells)
    else if callers != [] || t.MainThread? then Some(map[])
    else if f >= |prog.functions| then None
    else
      match EffectAt(prog, t.parent, t.stack)
      case None => None
      case Some(effect) =>
        if effect.actions != [] && effect.actions[0].SpawnThread?
        then ThreadCells(prog.functions[f], effect.actions[0].aggregate)
        else None
  }

  function Actions(prog: Program, pt: Point): seq<Action> {
    match EffectAt(prog, pt.thread, pt.stack)
    case None => []
    case Some(effect) => effect.actions
  }

  function WaitAt(prog: Program, pt: Point): Option<Wait> {
    match EffectAt(prog, pt.thread, pt.stack)
    case None => None
    case Some(effect) => effect.wait
  }

  predicate CreatesWith(prog: Program, pt: Point, callee: Callee) {
    && pt.stack != []
    && InRange(prog, pt.stack[|pt.stack| - 1])
    && var term := TerminatorAt(prog, pt.stack[|pt.stack| - 1]);
       term.Call? && term.callee == callee && CallEnds(term.returnTo, term.unwind).Ends?
  }

  predicate CreatesMutex(prog: Program, pt: Point) {
    CreatesWith(prog, pt, MutexNew)
  }

  predicate CreatesCondvar(prog: Program, pt: Point) {
    CreatesWith(prog, pt, CondvarNew)
  }

  // ---------------------------------------------------------------------------------------------
  // Which points a program has

  /** The user function a block calls into, if it does. */
  function Calls(prog: Program, site: Site): Option<nat> {
    if !InRange(prog, site) then None
    else
      var term := TerminatorAt(prog, site);
      if term.Call? && term.callee.User? && CallEnds(term.returnTo, term.unwind).Ends?
      then Some(term.callee.f) else None
  }

  /** The function a block spawns a thread for, if it does. */
  function SpawnsAt(prog: Program, site: Site): Option<nat> {
    if !InRange(prog, site) then None
    else
      var term := TerminatorAt(prog, site);
      if term.Call? && term.callee.ThreadSpawn? && CallEnds(term.returnTo, term.unwind).Ends?
      then Some(term.callee.f) else None
  }

  ghost predicate Chain(prog: Program, stack: seq<Site>, from: nat) {
    && (forall j :: from <= j < |stack| ==> InRange(prog, stack[j]))
    && (forall j :: from <= j < |stack| - 1 ==> Calls(prog, stack[j]) == Some(stack[j + 1].f))
  }

  /** `pt` lies in the frame of `f` called from `callers`, or in a frame below it, at block `b` or later. */
  ghost predicate InFrame(prog: Program, pt: Point, t: ThreadName, callers: seq<Site>, f: nat, b: nat) {
    && pt.thread == t
    && |callers| < |pt.stack|
    && pt.stack[..|callers|] == callers
    && pt.stack[|callers|].f == f
    && pt.stack[|callers|].b >= b
    && Chain(prog, pt.stack, |callers|)
  }

  ghost function FramePoints(prog: Program, t: ThreadName, callers: seq<Site>, f: nat, b: nat): iset<Point> {
    iset pt: Point | InFrame(prog, pt, t, callers, f, b)
  }

  /** The function a thread runs. */
  function Root(prog: Program, t: ThreadName): nat {
    match t
    case MainThread => prog.main
    case Spawned(parent, stack) =>
      var actions := Actions(prog, Point(parent, stack));
      if actions != [] && actions[0].SpawnThread? then actions[0].f else 0
  }

  ghost predicate IsThread(prog: Program, t: ThreadName)
    decreases t, 0
  {
    match t
    case MainThread => true
    case Spawned(parent, stack) =>
      && IsThread(prog, parent)
      && InFrame(prog, Point(parent, stack), parent, [], Root(prog, parent), 0)
      && var actions := Actions(prog, Point(parent, stack));
         actions != [] && actions[0].SpawnThread?
  }

  ghost predicate IsPoint(prog: Program, pt: Point) {
    IsThread(prog, pt.thread) && InFrame(prog, pt, pt.thread, [], Root(prog, pt.thread), 0)
  }

  // ---------------------------------------------------------------------------------------------
  // Places and transitions

  datatype PlaceRef =
    | Control(thread: ThreadName, stack: seq<Site>)
    | ProgramEnd
    | ProgramPanic
    | ThreadEnd(thread: ThreadName)
    | MutexPlace(id: Point)
    | WaitEnabled(id: Point)
    | Notify(id: Point)
    | ConditionNotSet(mutex: Point, wait: Point)
    | ConditionSet(mutex: Point, wait: Point)

  datatype Role = WaitStart | LostSignal | NotifyReceived

  /** The `i`-th transition of a point, a transition of the condvar created at a point,
      or the skip transition of a mutex and a wait. */
  datatype TransRef =
    | TransRef(pt: Point, i: nat)
    | CondvarRef(condvar: Point, role: Role)
    | SkipRef(mutex: Point, wait: Point)

  type Edge = Transition<PlaceRef>

  /** The first block of a called function shares the place of the calling block. */
  function Home(stack: seq<Site>): seq<Site> {
    if |stack| > 1 && stack[|stack| - 1].b == 0 then Home(stack[..|stack| - 1]) else stack
  }

  function PlaceOf(t: ThreadName, stack: seq<Site>): PlaceRef {
    Control(t, Home(stack))
  }

  function PanicPlace(t: ThreadName): PlaceRef {
    if t.MainThread? then ProgramPanic else ThreadEnd(t)
  }

  function ThreadEndPlace(t: ThreadName): PlaceRef {
    if t.MainThread? then ProgramEnd else ThreadEnd(t)
  }

  function DestPlaceInFrame(t: ThreadName, callers: seq<Site>, f: nat, dest: Dest): PlaceRef {
    match dest
    case ToBlock(b) => PlaceOf(t, callers + [Site(f, b)])
    case ToPanic => PanicPlace(t)
    case ToEnd => ProgramEnd
    case ToReturn => ThreadEndPlace(t)
  }

  /** The end place of the frame called from `callers`. */
  function ReturnPlace(prog: Program, t: ThreadName, callers: seq<Site>): PlaceRef {
    if callers == [] then ThreadEndPlace(t)
    else
      var site := callers[|callers| - 1];
      if !InRange(prog, site) || !TerminatorAt(prog, site).Call? then ThreadEndPlace(t)
      else
        var ends := CallEnds(TerminatorAt(prog, site).returnTo, TerminatorAt(prog, site).unwind);
        if ends.NoReturn? then ThreadEndPlace(t)
        else DestPlaceInFrame(t, callers[..|callers| - 1], site.f, ends.end)
  }

  function DestPlace(prog: Program, pt: Point, dest: Dest): PlaceRef
    requires pt.stack != []
  {
    var callers := pt.stack[..|pt.stack| - 1];
    if dest.ToReturn? then ReturnPlace(prog, pt.thread, callers)
    else DestPlaceInFrame(pt.thread, callers, pt.stack[|pt.stack| - 1].f, dest)
  }

  datatype WaitLink = WaitLink(at: Point, wait: Wait)

  /** What earlier or later translation steps add to a transition: threads already prepared, waits linked
      to their condvar, and mutex/wait pairs linked by the condition logic. */
  datatype Context = Context(prepared: set<ThreadName>, waits: map<Point, WaitLink>, conditions: set<(Point, Point)>)

  function NotSetOfMutex(ctx: Context, m: Point): set<PlaceRef> {
    set c | c in ctx.conditions && c.0 == m :: ConditionNotSet(c.0, c.1)
  }

  function SetOfMutex(ctx: Context, m: Point): set<PlaceRef> {
    set c | c in ctx.conditions && c.0 == m :: ConditionSet(c.0, c.1)
  }

  function NotSetOfWait(ctx: Context, w: Point): set<PlaceRef> {
    set c | c in ctx.conditions && c.1 == w :: ConditionNotSet(c.0, c.1)
  }

  /** A join waits for the thread it names only if it is translated before that thread is. */
  function JoinArcs(ctx: Context, joiner: ThreadName, joined: ThreadName): multiset<PlaceRef> {
    if joined.Spawned? && joined.parent == joiner && joined in ctx.prepared
    then multiset{ThreadEnd(joined)} else multiset{}
  }

  function SpawnArcs(ctx: Context, spawned: ThreadName, f: nat): multiset<PlaceRef> {
    if spawned in ctx.prepared then multiset{Control(spawned, [Site(f, 0)])} else multiset{}
  }

  function EdgeOfAction(prog: Program, ctx: Context, pt: Point, action: Action): Edge
    requires pt.stack != []
  {
    var here := multiset{PlaceOf(pt.thread, pt.stack)};
    match action
    case Flow(d) => Transition(here, multiset{DestPlace(prog, pt, d)})
    case Vanish => Transition(here, multiset{})
    case Acquire(m, d) => Transition(here + multiset{MutexPlace(m)}, multiset{DestPlace(prog, pt, d)})
    case Release(m, d) => Transition(here, multiset{DestPlace(prog, pt, d)} + multiset{MutexPlace(m)})
    case SpawnThread(t, f, _, d) =>
      Transition(here, multiset{DestPlace(prog, pt, d)} + SpawnArcs(ctx, t, f))
    case JoinThread(t, d) =>
      Transition(here + JoinArcs(ctx, pt.thread, t), multiset{DestPlace(prog, pt, d)})
    case SetCondition(m, d) =>
      Transition(here + multiset(NotSetOfMutex(ctx, m)), multiset{DestPlace(prog, pt, d)} + multiset(SetOfMutex(ctx, m)))
    case NotifyOne(c, d) => Transition(here, multiset{DestPlace(prog, pt, d)} + multiset{Notify(c)})
  }

  function CondvarEdge(prog: Program, ctx: Context, c: Point, role: Role): Edge {
    match role
    case LostSignal => Transition(multiset{WaitEnabled(c)} + multiset{Notify(c)}, multiset{WaitEnabled(c)})
    case WaitStart =>
      if c !in ctx.waits then Transition(multiset{WaitEnabled(c)}, multiset{})
      else
        var link := ctx.waits[c];
        var notSet := multiset(NotSetOfWait(ctx, link.at));
        Transition(multiset{WaitEnabled(c)} + multiset{PlaceOf(link.at.thread, link.at.stack)} + notSet,
                   multiset{MutexPlace(link.wait.mutex)} + notSet)
    case NotifyReceived =>
      if c !in ctx.waits || ctx.waits[c].at.stack == [] then Transition(multiset{Notify(c)}, multiset{WaitEnabled(c)})
      else
        var link := ctx.waits[c];
        Transition(multiset{Notify(c)} + multiset{MutexPlace(link.wait.mutex)},
                   multiset{WaitEnabled(c)} + multiset{DestPlace(prog, link.at, link.wait.dest)})
  }

  function SkipEdge(prog: Program, m: Point, w: Point): Edge {
    if w.stack == [] || WaitAt(prog, w).None? then Transition(multiset{}, multiset{})
    else
      Transition(multiset{PlaceOf(w.thread, w.stack)} + multiset{ConditionSet(m, w)},
                 multiset{DestPlace(prog, w, WaitAt(prog, w).value.dest)} + multiset{ConditionSet(m, w)})
  }

  function EdgeOf(prog: Program, ctx: Context, ref: TransRef): Edge {
    match ref
    case SkipRef(m, w) => SkipEdge(prog, m, w)
    case CondvarRef(c, role) => CondvarEdge(prog, ctx, c, role)
    case TransRef(pt, i) =>
      if pt.stack == [] || i >= |Actions(prog, pt)| then Transition(multiset{}, multiset{})
      else EdgeOfAction(prog, ctx, pt, Actions(prog, pt)[i])
  }

  /** The transitions of a point, numbered. */
  function Numbered(pt: Point, edges: seq<Edge>): map<TransRef, Edge> {
    if edges == [] then map[]
    else
      var last := |edges| - 1;
      Numbered(pt, edges[..last])[TransRef(pt, last) := edges[last]]
  }

  lemma {:induction false} NumberedAre(pt: Point, edges: seq<Edge>)
    ensures forall ref :: ref in Numbered(pt, edges) <==> ref.TransRef? && ref.pt == pt && ref.i < |edges|
    ensures forall i: nat :: i < |edges| ==> Numbered(pt, edges)[TransRef(pt, i)] == edges[i]
  {
    if edges != [] {
      NumberedAre(pt, edges[..|edges| - 1]);
    }
  }

  lemma NumberedOne(pt: Point, a: Edge)
    ensures Numbered(pt, [a]) == map[TransRef(pt, 0) := a]
  {
    assert [a][..0] == [];
  }

  lemma NumberedTwo(pt: Point, a: Edge, b: Edge)
    ensures Numbered(pt, [a, b]) == map[TransRef(pt, 0) := a, TransRef(pt, 1) := b]
  {
    assert [a, b][..1] == [a];
    NumberedOne(pt, a);
  }

  function EdgesOf(prog: Program, ctx: Context, pt: Point, actions: seq<Action>): (edges: seq<Edge>)
    requires pt.stack != []
  {
    seq(|actions|, i requires 0 <= i < |actions| => EdgeOfAction(prog, ctx, pt, actions[i]))
  }

  /** Initial tokens. */
  function Tokens(prog: Program, p: PlaceRef): nat {
    match p
    case Control(t, stack) => if t.MainThread? && stack == [Site(prog.main, 0)] then 1 else 0
    case MutexPlace(_) => 1
    case WaitEnabled(_) => 1
    case ConditionNotSet(_, _) => 1
    case _ => 0
  }

  // ---------------------------------------------------------------------------------------------
  // The net of a program

  ghost predicate Sets(prog: Program, m: Point, pt: Point, i: nat) {
    i < |Actions(prog, pt)| && Actions(prog, pt)[i].SetCondition? && Actions(prog, pt)[i].mutex == m
  }

  /** The condition logic is created for each pair of a mutex that is ever set and a wait, related or not. */
  ghost predicate IsConditionPair(prog: Program, m: Point, w: Point) {
    && IsPoint(prog, m) && CreatesMutex(prog, m)
    && IsPoint(prog, w) && WaitAt(prog, w).Some?
    && exists pt: Point, i: nat :: IsPoint(prog, pt) && Sets(prog, m, pt, i)
  }

  ghost predicate IsContext(prog: Program, ctx: Context) {
    && (forall t: ThreadName :: t in ctx.prepared <==> t.Spawned? && IsThread(prog, t))
    && (forall c: Point :: c in ctx.waits ==>
          && IsPoint(prog, ctx.waits[c].at)
          && WaitAt(prog, ctx.waits[c].at) == Some(ctx.waits[c].wait)
          && ctx.waits[c].wait.condvar == c)
    && (forall w: Point :: IsPoint(prog, w) && WaitAt(prog, w).Some? ==>
          var wait := WaitAt(prog, w).value;
          wait.condvar in ctx.waits && ctx.waits[wait.condvar] == WaitLink(w, wait))
    && (forall m: Point, w: Point :: (m, w) in ctx.conditions <==> IsConditionPair(prog, m, w))
  }

  type ProgramNet = Net<PlaceRef, TransRef>

  ghost predicate IsPlaceOf(prog: Program, ctx: Context, p: PlaceRef) {
    match p
    case MutexPlace(m) => IsPoint(prog, m) && CreatesMutex(prog, m)
    case WaitEnabled(c) => IsPoint(prog, c) && CreatesCondvar(prog, c)
    case Notify(c) => IsPoint(prog, c) && CreatesCondvar(prog, c)
    case ConditionNotSet(m, w) => (m, w) in ctx.conditions
    case ConditionSet(m, w) => (m, w) in ctx.conditions
    case ThreadEnd(t) => t.Spawned? && IsThread(prog, t)
    case Control(t, stack) => IsPoint(prog, Point(t, stack)) && Home(stack) == stack
    case _ => true
  }

  /** `net` is the net of `prog`: exactly its places and its transitions, each with exactly its arcs. */
  ghost predicate IsNetOf(prog: Program, net: ProgramNet, ctx: Context) {
    && IsContext(prog, ctx)
    && (forall p: PlaceRef :: p in net.places <==> IsPlaceOf(prog, ctx, p))
    && (forall p: PlaceRef :: p in net.places ==> net.places[p] == Tokens(prog, p))
    && (forall pt: Point, i: nat :: TransRef(pt, i) in net.transitions <==> IsPoint(prog, pt) && i < |Actions(prog, pt)|)
    && (forall c: Point, role: Role :: CondvarRef(c, role) in net.transitions <==> IsPoint(prog, c) && CreatesCondvar(prog, c))
    && (forall m: Point, w: Point :: SkipRef(m, w) in net.transitions <==> (m, w) in ctx.conditions)
    && (forall ref: TransRef :: ref in net.transitions ==> net.transitions[ref] == EdgeOf(prog, ctx, ref))
  }

  /** The translator panics on a program with such a point or such a pair of points. */
  ghost predicate Stuck(prog: Program, pt: Point) {
    EffectAt(prog, pt.thread, pt.stack).None?
  }

  ghost predicate JoinsAt(prog: Program, pt: Point, t: ThreadName) {
    var actions := Actions(prog, pt);
    actions != [] && actions[0].JoinThread? && actions[0].thread == t
  }

  ghost predicate WaitsAt(prog: Program, pt: Point, c: Point) {
    WaitAt(prog, pt).Some? && WaitAt(prog, pt).value.condvar == c
  }

  ghost predicate Faulty(prog: Program, points: iset<Point>) {
    || (exists pt :: pt in points && Stuck(prog, pt))
    || (exists p, q, t: ThreadName :: p in points && q in points && p != q && JoinsAt(prog, p, t) && JoinsAt(prog, q, t))
    || (exists p, q, c: Point :: p in points && q in points && p != q && WaitsAt(prog, p, c) && WaitsAt(prog, q, c))
  }

  ghost function AllPoints(prog: Program): iset<Point> {
    iset pt: Point | IsPoint(prog, pt)
  }
}
