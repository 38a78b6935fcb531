/** What the blocks of a body do to the objects in places: each assignment, reference, aggregate and call is a sequence of
    links, and a memory follows them one by one. The memory of the translator does so in the order of the blocks, a thread
    of the program in the order of its path. */
module Links {
  import opened Wrappers
  import opened Mir
  import opened ControlPoints
  import opened AliasMemory
  import opened Blueprint
  import opened CallEffects

  /** One assignment of an object to a place. */
  datatype Link =
    | CopyOf(place: Place, from: Place)
    | FieldOf(place: Place, base: Place, index: nat)
    | BundleOf(place: Place, fields: seq<Option<Place>>)
    | GuardOf(place: Place, mutex: Place)
    | NewObject(place: Place, value: Value)
    | Forget(place: Place)

  /** Stands for a field of an aggregate that holds no synchronisation object. */
  const NOTHING := Bundle([])

  function FieldValue(cells: Cells, field: Option<Place>): Value {
    if field.Some? && field.value in cells then cells[field.value] else NOTHING
  }

  function FieldValues(cells: Cells, fields: seq<Option<Place>>): seq<Value> {
    seq(|fields|, i requires 0 <= i < |fields| => FieldValue(cells, fields[i]))
  }

  /** The object a link assigns; `None` if none is known. */
  function Linked(cells: Cells, l: Link): Option<Value> {
    match l
    case CopyOf(_, from) => Lookup(cells, from)
    case FieldOf(_, base, index) =>
      (match Lookup(cells, base)
       case Some(Bundle(values)) => if index < |values| then Some(values[index]) else None
       case _ => None)
    case BundleOf(_, fields) => Some(Bundle(FieldValues(cells, fields)))
    case GuardOf(_, mutex) =>
      (match Lookup(cells, mutex)
       case Some(Mutex(m)) => Some(MutexGuard(m))
       case _ => None)
    case NewObject(_, value) => Some(value)
    case Forget(_) => None
  }

  function Lookup(cells: Cells, p: Place): Option<Value> {
    if p in cells then Some(cells[p]) else None
  }

  /** A place that is assigned something unknown holds nothing known. */
  function Assigned(cells: Cells, l: Link): Cells {
    match Linked(cells, l)
    case Some(value) => cells[l.place := value]
    case None => cells - {l.place}
  }

  function AfterLinks(cells: Cells, links: seq<Link>): Cells {
    if links == [] then cells else Assigned(AfterLinks(cells, links[..|links| - 1]), links[|links| - 1])
  }

  lemma AfterOne(cells: Cells, l: Link)
    ensures AfterLinks(cells, [l]) == Assigned(cells, l)
  {
    assert [l][..0] == [];
  }

  lemma {:induction false} AfterBoth(cells: Cells, links: seq<Link>, more: seq<Link>)
    ensures AfterLinks(cells, links + more) == AfterLinks(AfterLinks(cells, links), more)
    decreases |more|
  {
    hide Assigned;
    if more == [] {
      assert links + more == links;
    } else {
      assert (links + more)[..|links + more| - 1] == links + more[..|more| - 1];
      AfterBoth(cells, links, more[..|more| - 1]);
    }
  }

  // ---------------------------------------------------------------------------------------------
  // Which places matter

  ghost predicate Agree(a: Cells, b: Cells, places: iset<Place>) {
    forall p :: p in places ==> Lookup(a, p) == Lookup(b, p)
  }

  ghost function Reads(l: Link): iset<Place> {
    match l
    case CopyOf(_, from) => iset{from}
    case FieldOf(_, base, _) => iset{base}
    case BundleOf(_, fields) => iset p | Some(p) in fields
    case GuardOf(_, mutex) => iset{mutex}
    case NewObject(_, _) => iset{}
    case Forget(_) => iset{}
  }

  /** The places that decide what the places `after` hold once the links were followed. */
  ghost function NeededFor(links: seq<Link>, after: iset<Place>): iset<Place> {
    if links == [] then after
    else
      var last := links[|links| - 1];
      NeededFor(links[..|links| - 1], (after - iset{last.place}) + Reads(last))
  }

  lemma SameObject(a: Cells, b: Cells, l: Link)
    requires Agree(a, b, Reads(l))
    ensures Linked(a, l) == Linked(b, l)
  {
    match l
    case CopyOf(_, from) => assert from in Reads(l);
    case FieldOf(_, base, _) => assert base in Reads(l) && Lookup(a, base) == Lookup(b, base);
    case BundleOf(_, fields) =>
      forall i | 0 <= i < |fields| ensures FieldValue(a, fields[i]) == FieldValue(b, fields[i]) {
        if fields[i].Some? {
          assert fields[i].value in Reads(l) && Lookup(a, fields[i].value) == Lookup(b, fields[i].value);
        }
      }
      assert FieldValues(a, fields) == FieldValues(b, fields);
    case GuardOf(_, mutex) => assert mutex in Reads(l) && Lookup(a, mutex) == Lookup(b, mutex);
    case NewObject(_, _) =>
    case Forget(_) =>
  }

  lemma AgreeAfterOne(a: Cells, b: Cells, l: Link, after: iset<Place>)
    requires Agree(a, b, (after - iset{l.place}) + Reads(l))
    ensures Agree(Assigned(a, l), Assigned(b, l), after)
  {
    hide Linked, Reads;
    assert Agree(a, b, Reads(l));
    SameObject(a, b, l);
    forall p | p in after ensures Lookup(Assigned(a, l), p) == Lookup(Assigned(b, l), p) {
      assert p != l.place ==> Lookup(a, p) == Lookup(b, p);
    }
  }

  /** Memories that agree on the needed places agree after the links. */
  lemma {:induction false} AgreeAfter(a: Cells, b: Cells, links: seq<Link>, after: iset<Place>)
    requires Agree(a, b, NeededFor(links, after))
    ensures Agree(AfterLinks(a, links), AfterLinks(b, links), after)
    decreases |links|
  {
    hide Assigned, Reads, Agree;
    if links != [] {
      var init, last := links[..|links| - 1], links[|links| - 1];
      AgreeAfter(a, b, init, (after - iset{last.place}) + Reads(last));
      AgreeAfterOne(AfterLinks(a, init), AfterLinks(b, init), last, after);
    }
  }

  // ---------------------------------------------------------------------------------------------
  // The links of a block

  predicate IsSyncOperand(fn: Function, operand: Operand) {
    !operand.Constant? && operand.place in fn.syncPlaces
  }

  /** The number of operands up to the last one that holds a synchronisation object. */
  function SyncLength(fn: Function, operands: seq<Operand>): (n: nat)
    ensures n <= |operands|
  {
    if operands == [] then 0
    else if IsSyncOperand(fn, operands[|operands| - 1]) then |operands|
    else SyncLength(fn, operands[..|operands| - 1])
  }

  /** The fields of an aggregate, each in its position. */
  function Fields(fn: Function, operands: seq<Operand>): seq<Option<Place>> {
    seq(SyncLength(fn, operands), i requires 0 <= i < SyncLength(fn, operands) =>
      if IsSyncOperand(fn, operands[i]) then Some(operands[i].place) else None)
  }

  /** A place of a synchronisation type that is assigned something else loses its object. */
  function ForgetLinks(fn: Function, place: Place): seq<Link> {
    if place in fn.syncPlaces then [Forget(place)] else []
  }

  /** The field a projection reads: the first one, wherever the dereferences are. */
  function FieldRead(projection: seq<Projection>): Option<nat> {
    if projection == [] then None
    else
      match FieldRead(projection[..|projection| - 1])
      case Some(n) => Some(n)
      case None =>
        match projection[|projection| - 1]
        case Field(n) => Some(n)
        case _ => None
  }

  function SyncLinks(fn: Function, place: Place, from: Place): seq<Link> {
    if place !in fn.syncPlaces then []
    else if forall i :: 0 <= i < |from.projection| ==> !from.projection[i].Deref? then [CopyOf(place, from)]
    else
      match FieldRead(from.projection)
      case Some(n) => [FieldOf(place, Place(from.local, []), n)]
      case None => [Forget(place)]
  }

  function StatementLinks(fn: Function, statement: Statement): seq<Link> {
    match statement
    case Assign(place, Use(Copy(rhs))) => SyncLinks(fn, place, rhs)
    case Assign(place, Use(Move(rhs))) => SyncLinks(fn, place, rhs)
    case Assign(place, Ref(rhs)) => SyncLinks(fn, place, rhs)
    case Assign(place, Aggregate(operands)) =>
      if Fields(fn, operands) == [] then ForgetLinks(fn, place) else [BundleOf(place, Fields(fn, operands))]
    case Assign(place, _) => ForgetLinks(fn, place)
    case OtherStatement => []
  }

  function StatementsLinks(fn: Function, statements: seq<Statement>): seq<Link> {
    if statements == [] then []
    else StatementsLinks(fn, statements[..|statements| - 1]) + StatementLinks(fn, statements[|statements| - 1])
  }

  /** A call without a block to go on at, neither when it returns nor when it unwinds. */
  predicate NeverComesBack(term: Terminator)
    requires term.Call?
  {
    term.returnTo.None? && term.unwind.Continue?
  }

  /** Library functions return what they get as their first argument. */
  function ReturnLinks(fn: Function, term: Terminator): seq<Link>
    requires term.Call?
  {
    match NthArgument(term.args, 0)
    case Some(from) => SyncLinks(fn, term.destination, from)
    case None => ForgetLinks(fn, term.destination)
  }

  /** The links of a call that returns. The result of a user function is linked when it returns. */
  function TerminatorLinks(fn: Function, pt: Point, term: Terminator): seq<Link> {
    if !term.Call? || NeverComesBack(term) then []
    else
      match term.callee
      case ThreadSpawn(_) => ReturnLinks(fn, term) + [NewObject(term.destination, JoinHandle(Spawned(pt.thread, pt.stack)))]
      case CondvarNew => [NewObject(term.destination, Condvar(pt))]
      case MutexNew => [NewObject(term.destination, Mutex(pt))]
      case MutexLock => [if NthArgument(term.args, 0).Some? then GuardOf(term.destination, NthArgument(term.args, 0).value) else Forget(term.destination)]
      case CondvarWait => [if NthArgument(term.args, 1).Some? then CopyOf(term.destination, NthArgument(term.args, 1).value) else Forget(term.destination)]
      case CondvarWaitWhile => [if NthArgument(term.args, 1).Some? then CopyOf(term.destination, NthArgument(term.args, 1).value) else Forget(term.destination)]
      case CondvarNotifyOne => ForgetLinks(fn, term.destination)
      case ThreadJoin => ForgetLinks(fn, term.destination)
      case User(_) => []
      case _ => ReturnLinks(fn, term)
  }

  /** The captured fields `_1.k` named by the debug information. */
  function CaptureLinks(places: seq<Place>): seq<Link> {
    if places == [] then []
    else
      var last := places[|places| - 1];
      CaptureLinks(places[..|places| - 1])
      + if last.local == 1 && FieldRead(last.projection).Some? then [FieldOf(last, Place(1, []), FieldRead(last.projection).value)] else []
  }

  // ---------------------------------------------------------------------------------------------
  // Which field is read

  lemma {:induction false} FieldReadIs(projection: seq<Projection>, i: nat, n: nat)
    requires IsFirstField(projection, i, n)
    ensures FieldRead(projection) == Some(n)
    decreases |projection|
  {
    var init := projection[..|projection| - 1];
    if i < |init| {
      FieldReadIs(init, i, n);
    } else {
      NoFieldRead(init);
    }
  }

  lemma {:induction false} NoFieldRead(projection: seq<Projection>)
    requires NoField(projection)
    ensures FieldRead(projection) == None
    decreases |projection|
  {
    if projection != [] {
      NoFieldRead(projection[..|projection| - 1]);
    }
  }

  /** The translator reads the field the program reads. */
  lemma SameField(p: Place)
    ensures FieldNumber(p) == FieldRead(p.projection)
  {
    if NoField(p.projection) {
      NoFirstField(p.projection);
      NoFieldRead(p.projection);
    } else {
      var i, n := FindField(p.projection);
      FirstFieldIs(p.projection, i, n);
      FieldReadIs(p.projection, i, n);
    }
  }

  // ---------------------------------------------------------------------------------------------
  // Where the memory of the translator follows these links

  /** The synchronisation objects of an aggregate come first, and nothing is assigned that has none. */
  predicate PlainStatement(fn: Function, statement: Statement) {
    match statement
    case Assign(place, Aggregate(operands)) =>
      if Fields(fn, operands) == [] then place !in fn.syncPlaces
      else forall i :: 0 <= i < SyncLength(fn, operands) ==> IsSyncOperand(fn, operands[i])
    case Assign(place, Use(Constant)) => place !in fn.syncPlaces
    case Assign(place, OtherRvalue) => place !in fn.syncPlaces
    case _ => true
  }

  predicate PlainTerminator(fn: Function, term: Terminator) {
    term.Call? && term.destination in fn.syncPlaces ==>
      match term.callee
      case ThreadSpawn(_) => true
      case CondvarNew => true
      case MutexNew => true
      case CondvarNotifyOne => false
      case ThreadJoin => false
      case _ => NthArgument(term.args, 0).Some?
  }

  lemma SyncMemory(fn: Function, cells: Cells, place: Place, from: Place)
    requires LinkedIfSync(fn, cells, place, from).Some?
    ensures AfterLinks(cells, SyncLinks(fn, place, from)) == LinkedIfSync(fn, cells, place, from).value
  {
    if place in fn.syncPlaces {
      SameField(from);
      AfterOne(cells, if IsIndirect(from) then FieldOf(place, Place(from.local, []), FieldNumber(from).value) else CopyOf(place, from));
    }
  }

  lemma ReturnMemory(fn: Function, cells: Cells, term: Terminator)
    requires term.Call? && LinkedReturn(fn, cells, term.args, term.destination).Some?
    requires NthArgument(term.args, 0).None? ==> term.destination !in fn.syncPlaces
    ensures AfterLinks(cells, ReturnLinks(fn, term)) == LinkedReturn(fn, cells, term.args, term.destination).value
  {
    hide LinkedIfSync, SyncLinks;
    if NthArgument(term.args, 0).Some? {
      SyncMemory(fn, cells, term.destination, NthArgument(term.args, 0).value);
    }
  }

  lemma {:induction false} FieldsAreOperands(fn: Function, operands: seq<Operand>)
    requires forall i :: 0 <= i < SyncLength(fn, operands) ==> IsSyncOperand(fn, operands[i])
    ensures |Fields(fn, operands)| == |SyncOperands(fn, operands)|
    ensures forall i :: 0 <= i < |Fields(fn, operands)| ==> Fields(fn, operands)[i] == Some(SyncOperands(fn, operands)[i])
  {
    if operands != [] {
      var init := operands[..|operands| - 1];
      if IsSyncOperand(fn, operands[|operands| - 1]) {
        AllSync(fn, init);
      }
      FieldsAreOperands(fn, init);
    }
  }

  lemma {:induction false} AllSync(fn: Function, operands: seq<Operand>)
    requires forall i :: 0 <= i < |operands| ==> IsSyncOperand(fn, operands[i])
    ensures SyncLength(fn, operands) == |operands|
  {
  }

  lemma BundleMemory(fn: Function, cells: Cells, place: Place, operands: seq<Operand>)
    requires forall i :: 0 <= i < SyncLength(fn, operands) ==> IsSyncOperand(fn, operands[i])
    requires CreatedBundle(cells, place, SyncOperands(fn, operands)).Some?
    ensures AfterLinks(cells, [BundleOf(place, Fields(fn, operands))]) == CreatedBundle(cells, place, SyncOperands(fn, operands)).value
  {
    hide SyncOperands, Fields, ValuesOf;
    var fields, places := Fields(fn, operands), SyncOperands(fn, operands);
    FieldsAreOperands(fn, operands);
    ValuesAre(cells, places);
    assert FieldValues(cells, fields) == ValuesOf(cells, places).value;
    AfterOne(cells, BundleOf(place, fields));
  }

  lemma StatementMemory(fn: Function, cells: Cells, statement: Statement)
    requires StatementCells(fn, cells, statement).Some? && PlainStatement(fn, statement)
    ensures AfterLinks(cells, StatementLinks(fn, statement)) == StatementCells(fn, cells, statement).value
  {
    hide LinkedIfSync, SyncLinks, SyncOperands, Fields, CreatedBundle;
    match statement
    case Assign(place, Use(Copy(rhs))) => SyncMemory(fn, cells, place, rhs);
    case Assign(place, Use(Move(rhs))) => SyncMemory(fn, cells, place, rhs);
    case Assign(place, Ref(rhs)) => SyncMemory(fn, cells, place, rhs);
    case Assign(place, Aggregate(operands)) =>
      NoFields(fn, operands);
      if Fields(fn, operands) != [] {
        BundleMemory(fn, cells, place, operands);
      }
    case _ =>
  }

  lemma {:induction false} NoFields(fn: Function, operands: seq<Operand>)
    ensures Fields(fn, operands) == [] <==> SyncOperands(fn, operands) == []
  {
    if operands != [] {
      NoFields(fn, operands[..|operands| - 1]);
    }
  }

  lemma {:induction false} StatementsMemory(fn: Function, cells: Cells, statements: seq<Statement>)
    requires StatementsCells(fn, cells, statements).Some? && forall i :: 0 <= i < |statements| ==> PlainStatement(fn, statements[i])
    ensures AfterLinks(cells, StatementsLinks(fn, statements)) == StatementsCells(fn, cells, statements).value
  {
    hide StatementCells, StatementLinks, PlainStatement;
    if statements != [] {
      var before, last := statements[..|statements| - 1], statements[|statements| - 1];
      StatementsMemory(fn, cells, before);
      StatementMemory(fn, StatementsCells(fn, cells, before).value, last);
      AfterBoth(cells, StatementsLinks(fn, before), StatementLinks(fn, last));
    }
  }

  lemma OneStatement(fn: Function, cells: Cells, statement: Statement)
    ensures StatementsCells(fn, cells, [statement]) == StatementCells(fn, cells, statement)
    ensures StatementsLinks(fn, [statement]) == StatementLinks(fn, statement)
  {
    hide StatementCells, StatementLinks;
    assert [statement][..0] == [];
    assert StatementsLinks(fn, []) + StatementLinks(fn, statement) == StatementLinks(fn, statement);
  }

  lemma SpawnMemory(fn: Function, pt: Point, cells: Cells, term: Terminator)
    requires term.Call? && term.callee.ThreadSpawn? && CallEnds(term.returnTo, term.unwind).Ends?
    requires LinkedReturn(fn, cells, term.args, term.destination).Some?
    ensures AfterLinks(cells, TerminatorLinks(fn, pt, term))
         == LinkedReturn(fn, cells, term.args, term.destination).value[term.destination := JoinHandle(Spawned(pt.thread, pt.stack))]
  {
    var handle := NewObject(term.destination, JoinHandle(Spawned(pt.thread, pt.stack)));
    AfterBoth(cells, ReturnLinks(fn, term), [handle]);
    AfterOne(AfterLinks(cells, ReturnLinks(fn, term)), handle);
    if NthArgument(term.args, 0).Some? {
      ReturnMemory(fn, cells, term);
    } else if term.destination in fn.syncPlaces {
      AfterOne(cells, Forget(term.destination));
    }
  }

  lemma CallMemory(fn: Function, pt: Point, cells: Cells, term: Terminator)
    requires term.Call? && CallEffect(fn, pt, cells, term).Some? && CallEnds(term.returnTo, term.unwind).Ends? && PlainTerminator(fn, term)
    ensures AfterLinks(cells, TerminatorLinks(fn, pt, term)) == CallEffect(fn, pt, cells, term).value.cells
  {
    hide CallEffect, LinkedReturn, ReturnLinks;
    match term.callee
    case ThreadSpawn(_) =>
      SpawnIs(fn, pt, cells, term);
      SpawnMemory(fn, pt, cells, term);
    case CondvarNew =>
      CondvarNewIs(fn, pt, cells, term);
      AfterOne(cells, NewObject(term.destination, Condvar(pt)));
    case MutexNew =>
      MutexNewIs(fn, pt, cells, term);
      AfterOne(cells, NewObject(term.destination, Mutex(pt)));
    case MutexLock =>
      LockIs(fn, pt, cells, term);
      AfterOne(cells, GuardOf(term.destination, NthArgument(term.args, 0).value));
    case CondvarWait =>
      WaitIs(fn, pt, cells, term);
      AfterOne(cells, CopyOf(term.destination, NthArgument(term.args, 1).value));
    case CondvarWaitWhile =>
      WaitIs(fn, pt, cells, term);
      AfterOne(cells, CopyOf(term.destination, NthArgument(term.args, 1).value));
    case CondvarNotifyOne => NotifyOneIs(fn, pt, cells, term);
    case ThreadJoin => JoinIs(fn, pt, cells, term);
    case User(_) => UserIs(fn, pt, cells, term);
    case MemDrop =>
      MemDropIs(fn, pt, cells, term);
      ReturnMemory(fn, cells, term);
    case DerefMutFn =>
      DerefMutIs(fn, pt, cells, term);
      ReturnMemory(fn, cells, term);
    case _ =>
      ShortIs(fn, pt, cells, term);
      ReturnMemory(fn, cells, term);
  }

  lemma TerminatorMemory(fn: Function, pt: Point, cells: Cells, term: Terminator)
    requires TerminatorEffect(fn, pt, cells, term).Some? && PlainTerminator(fn, term)
    ensures AfterLinks(cells, TerminatorLinks(fn, pt, term)) == TerminatorEffect(fn, pt, cells, term).value.cells
  {
    hide CallEffect;
    if term.Call? {
      if CallEnds(term.returnTo, term.unwind).NoReturn? {
        NoReturnIs(fn, pt, cells, term);
      } else {
        CallMemory(fn, pt, cells, term);
      }
    }
  }

  lemma FieldMemory(cells: Cells, place: Place, n: nat)
    requires LinkedField(cells, place, CLOSURE, n).Some?
    ensures AfterLinks(cells, [FieldOf(place, CLOSURE, n)]) == LinkedField(cells, place, CLOSURE, n).value
  {
    AfterOne(cells, FieldOf(place, CLOSURE, n));
  }

  lemma {:induction false} CaptureMemory(cells: Cells, places: seq<Place>)
    requires CapturesLinked(cells, places).Some?
    ensures AfterLinks(cells, CaptureLinks(places)) == CapturesLinked(cells, places).value
  {
    hide AfterLinks, LinkedField, FieldNumber;
    if places == [] {
      AfterNone(cells);
    } else {
      var before, last := places[..|places| - 1], places[|places| - 1];
      CaptureMemory(cells, before);
      if last.local == 1 {
        SameField(last);
        var n := FieldNumber(last).value;
        AfterBoth(cells, CaptureLinks(before), [FieldOf(last, CLOSURE, n)]);
        FieldMemory(CapturesLinked(cells, before).value, last, n);
      } else {
        assert CaptureLinks(before) + [] == CaptureLinks(before);
      }
    }
  }

  lemma AfterNone(cells: Cells)
    ensures AfterLinks(cells, []) == cells
  {
  }
}
