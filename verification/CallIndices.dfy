/** The index of a call: a counter per function name, read before the body of the called function is translated and
    incremented after it. */
module CallIndices {
  import opened Wrappers
  import opened Mir
  import opened Blueprint
  import opened Points
  import opened PlainCode

  type Counts = map<string, nat>

  function CountOf(counts: Counts, key: string): nat {
    if key in counts then counts[key] else 0
  }

  class HashMapCounter {
    var counts: Counts

    constructor ()
      ensures counts == map[]
    {
      counts := map[];
    }

    method Increment(key: string)
      modifies this
      ensures counts == old(counts)[key := CountOf(old(counts), key) + 1]
    {
      if key in counts {
        counts := counts[key := counts[key] + 1];
      } else {
        counts := counts[key := 1];
      }
    }

    /** Reading the count of a new key adds it. */
    method GetCount(key: string) returns (count: nat)
      modifies this
      ensures count == CountOf(old(counts), key)
      ensures counts == old(counts)[key := count]
    {
      if key !in counts {
        counts := counts[key := 0];
      }
      count := counts[key];
    }
  }

  /** The calls of a body in the order of the translation, each with the calls of the called body. */
  datatype CallTree = Node(name: string, calls: seq<CallTree>)

  /** The names of all calls, in the order in which their translation starts. */
  function Names(calls: seq<CallTree>): seq<string> {
    if calls == [] then []
    else
      var last := calls[|calls| - 1];
      Names(calls[..|calls| - 1]) + [last.name] + Names(last.calls)
  }

  function CountsAfter(calls: seq<CallTree>, counts: Counts): Counts {
    if calls == [] then counts
    else
      var last := calls[|calls| - 1];
      var before := CountsAfter(calls[..|calls| - 1], counts);
      var inside := CountsAfter(last.calls, before[last.name := CountOf(before, last.name)]);
      inside[last.name := CountOf(inside, last.name) + 1]
  }

  /** The indices the calls read. */
  function Indices(calls: seq<CallTree>, counts: Counts): seq<nat> {
    if calls == [] then []
    else
      var last := calls[|calls| - 1];
      var before := CountsAfter(calls[..|calls| - 1], counts);
      Indices(calls[..|calls| - 1], counts)
      + [CountOf(before, last.name)]
      + Indices(last.calls, before[last.name := CountOf(before, last.name)])
  }

  // ---------------------------------------------------------------------------------------------
  // The calls of a program

  function CalleeName(prog: Program, callee: Callee): string {
    match callee
    case MemDrop => "std::mem::drop"
    case DerefFn => "std::ops::Deref::deref"
    case DerefMutFn => "std::ops::DerefMut::deref_mut"
    case ResultUnwrap => "std::result::Result::<T, E>::unwrap"
    case ThreadSpawn(_) => "std::thread::spawn"
    case CondvarNew => "std::sync::Condvar::new"
    case CondvarNotifyOne => "std::sync::Condvar::notify_one"
    case CondvarWait => "std::sync::Condvar::wait"
    case CondvarWaitWhile => "std::sync::Condvar::wait_while"
    case MutexLock => "std::sync::Mutex::<T>::lock"
    case MutexNew => "std::sync::Mutex::<T>::new"
    case ThreadJoin => "std::thread::JoinHandle::<T>::join"
    case PanicFunction(name) => name
    case Foreign(name) => name
    case User(f) => if f < |prog.functions| then prog.functions[f].name else ""
  }

  predicate InBody(prog: Program, f: nat, b: nat) {
    f < |prog.functions| && b < |prog.functions[f].blocks|
  }

  function TermAt(prog: Program, f: nat, b: nat): Terminator
    requires InBody(prog, f, b)
  {
    prog.functions[f].blocks[b].terminator
  }

  /** A call that does not return is translated without an index. */
  predicate IsCounted(term: Terminator) {
    term.Call? && CallEnds(term.returnTo, term.unwind).Ends?
  }

  /** The calls of the first `n` blocks of function `f`. */
  function BodyCalls(prog: Program, f: nat, n: nat): seq<CallTree>
    requires f < |prog.functions| && n <= |prog.functions[f].blocks|
    decreases f, n
  {
    if n == 0 then []
    else
      var term := prog.functions[f].blocks[n - 1].terminator;
      BodyCalls(prog, f, n - 1) + if IsCounted(term) then [CallOf(prog, f, term.callee)] else []
  }

  function CallOf(prog: Program, f: nat, callee: Callee): CallTree
    requires f < |prog.functions|
    decreases f, 0
  {
    Node(CalleeName(prog, callee),
         if callee.User? && callee.f < f then BodyCalls(prog, callee.f, |prog.functions[callee.f].blocks|) else [])
  }

  /** The calls of the main function and of the functions of the threads, in whatever order these are translated. */
  function ProgramCalls(prog: Program, roots: seq<nat>): seq<CallTree>
    requires forall i :: 0 <= i < |roots| ==> roots[i] < |prog.functions|
  {
    if roots == [] then []
    else
      var f := roots[|roots| - 1];
      ProgramCalls(prog, roots[..|roots| - 1]) + BodyCalls(prog, f, |prog.functions[f].blocks|)
  }

  lemma UserIsBelow(prog: Program, f: nat, b: nat)
    requires WellFormed(prog) && InBody(prog, f, b) && TermAt(prog, f, b).Call? && TermAt(prog, f, b).callee.User?
    ensures TermAt(prog, f, b).callee.f < f
  {
    assert FunctionOk(prog, f) && TerminatorOk(prog, f, TermAt(prog, f, b));
  }

  /** Translates the calls of a body, and returns the indices they read. */
  method TranslateBody(prog: Program, f: nat, counter: HashMapCounter) returns (indices: seq<nat>)
    requires WellFormed(prog) && f < |prog.functions|
    modifies counter
    ensures indices == Indices(BodyCalls(prog, f, |prog.functions[f].blocks|), old(counter.counts))
    ensures counter.counts == CountsAfter(BodyCalls(prog, f, |prog.functions[f].blocks|), old(counter.counts))
    ensures WellNamed(prog) ==> CountsOn(prog, old(counter.counts), indices, BodyCallees(prog, f, |prog.functions[f].blocks|))
    decreases f
  {
    hide Indices, CountsAfter, BodyCalls, CalleeName, TerminatorOk, WellNamed, CountsOn, BodyCallees;
    var blocks := prog.functions[f].blocks;
    indices := [];
    NoCalls(counter.counts);
    BodyStart(prog, f);
    for b := 0 to |blocks|
      invariant indices == Indices(BodyCalls(prog, f, b), old(counter.counts))
      invariant counter.counts == CountsAfter(BodyCalls(prog, f, b), old(counter.counts))
    {
      ghost var before := BodyCalls(prog, f, b);
      var term := blocks[b].terminator;
      BodyStep(prog, f, b);
      if IsCounted(term) {
        LastCall(before, CallOf(prog, f, term.callee), old(counter.counts));
        var name := CalleeName(prog, term.callee);
        var index := counter.GetCount(name);
        NoCalls(counter.counts);
        var inside: seq<nat> := [];
        if term.callee.User? {
          UserIsBelow(prog, f, b);
          inside := TranslateBody(prog, term.callee.f, counter);
        }
        counter.Increment(name);
        indices := indices + [index] + inside;
      }
    }
    if WellNamed(prog) {
      BodyIndices(prog, f, old(counter.counts));
    }
  }

  lemma BodyStart(prog: Program, f: nat)
    requires f < |prog.functions|
    ensures BodyCalls(prog, f, 0) == []
  {
  }

  lemma BodyStep(prog: Program, f: nat, b: nat)
    requires InBody(prog, f, b)
    ensures BodyCalls(prog, f, b + 1)
         == if IsCounted(TermAt(prog, f, b)) then BodyCalls(prog, f, b) + [CallOf(prog, f, TermAt(prog, f, b).callee)] else BodyCalls(prog, f, b)
  {
  }

  lemma NoCalls(counts: Counts)
    ensures CountsAfter([], counts) == counts && Indices([], counts) == [] && Names([]) == [] && Enclosing([]) == []
  {
  }

  lemma LastCall(calls: seq<CallTree>, call: CallTree, counts: Counts)
    ensures var before := CountsAfter(calls, counts);
      var nested := before[call.name := CountOf(before, call.name)];
      var inside := CountsAfter(call.calls, nested);
      && CountsAfter(calls + [call], counts) == inside[call.name := CountOf(inside, call.name) + 1]
      && Indices(calls + [call], counts) == Indices(calls, counts) + [CountOf(before, call.name)] + Indices(call.calls, nested)
  {
    assert (calls + [call])[..|calls|] == calls;
  }

  /** Translates the calls of the whole program with one counter. */
  method TranslateCalls(prog: Program, roots: seq<nat>) returns (indices: seq<nat>)
    requires WellFormed(prog) && forall i :: 0 <= i < |roots| ==> roots[i] < |prog.functions|
    ensures indices == Indices(ProgramCalls(prog, roots), map[])
    ensures WellNamed(prog) ==> CountsEarlierCalls(indices, ProgramCallees(prog, roots))
  {
    hide WellNamed, CountsEarlierCalls;
    var counter := new HashMapCounter();
    indices := [];
    for i := 0 to |roots|
      invariant fresh(counter)
      invariant indices == Indices(ProgramCalls(prog, roots[..i]), map[])
      invariant counter.counts == CountsAfter(ProgramCalls(prog, roots[..i]), map[])
    {
      assert roots[..i + 1][..i] == roots[..i];
      ghost var body := BodyCalls(prog, roots[i], |prog.functions[roots[i]].blocks|);
      MoreCalls(ProgramCalls(prog, roots[..i]), body, map[]);
      var more := TranslateBody(prog, roots[i], counter);
      indices := indices + more;
    }
    assert roots[..|roots|] == roots;
    if WellNamed(prog) {
      CalleeIndices(prog, roots);
    }
  }

  lemma {:induction false} MoreCalls(calls: seq<CallTree>, more: seq<CallTree>, counts: Counts)
    ensures CountsAfter(calls + more, counts) == CountsAfter(more, CountsAfter(calls, counts))
    ensures Indices(calls + more, counts) == Indices(calls, counts) + Indices(more, CountsAfter(calls, counts))
    decreases |more|
  {
    hide Indices, CountsAfter;
    if more == [] {
      assert calls + more == calls;
      NoCalls(CountsAfter(calls, counts));
    } else {
      var init, last := more[..|more| - 1], more[|more| - 1];
      assert calls + more == (calls + init) + [last] && more == init + [last];
      MoreCalls(calls, init, counts);
      LastCall(calls + init, last, counts);
      LastCall(init, last, CountsAfter(calls, counts));
    }
  }

  // ---------------------------------------------------------------------------------------------
  // Which index a call reads

  function Occurrences(names: seq<string>, key: string): nat {
    if names == [] then 0
    else Occurrences(names[..|names| - 1], key) + if names[|names| - 1] == key then 1 else 0
  }

  lemma {:induction false} OccurrencesAdd(names: seq<string>, more: seq<string>, key: string)
    ensures Occurrences(names + more, key) == Occurrences(names, key) + Occurrences(more, key)
    decreases |more|
  {
    if more == [] {
      assert names + more == names;
    } else {
      assert (names + more)[..|names + more| - 1] == names + more[..|more| - 1];
      OccurrencesAdd(names, more[..|more| - 1], key);
    }
  }

  /** For every call, the number of calls of the same name it is nested in. */
  function Enclosing(calls: seq<CallTree>): (depths: seq<nat>)
    ensures |depths| == |Names(calls)|
  {
    if calls == [] then []
    else
      var last := calls[|calls| - 1];
      var names, depths := Names(last.calls), Enclosing(last.calls);
      Enclosing(calls[..|calls| - 1]) + [0]
      + seq(|names|, i requires 0 <= i < |names| => depths[i] + if names[i] == last.name then 1 else 0)
  }

  lemma {:induction false} CountsCount(calls: seq<CallTree>, counts: Counts, key: string)
    ensures CountOf(CountsAfter(calls, counts), key) == CountOf(counts, key) + Occurrences(Names(calls), key)
    decreases calls
  {
    if calls != [] {
      var init, last := calls[..|calls| - 1], calls[|calls| - 1];
      var before := CountsAfter(init, counts);
      CountsCount(init, counts, key);
      CountsCount(last.calls, before[last.name := CountOf(before, last.name)], key);
      CountsCount(last.calls, before[last.name := CountOf(before, last.name)], last.name);
      CountsCount(init, counts, last.name);
      OccurrencesAdd(Names(init) + [last.name], Names(last.calls), key);
      OccurrencesAdd(Names(init), [last.name], key);
    }
  }

  lemma {:induction false} OneIndexPerCall(calls: seq<CallTree>, counts: Counts)
    ensures |Indices(calls, counts)| == |Names(calls)|
    decreases calls
  {
    if calls != [] {
      var last, before := calls[|calls| - 1], CountsAfter(calls[..|calls| - 1], counts);
      OneIndexPerCall(calls[..|calls| - 1], counts);
      OneIndexPerCall(last.calls, before[last.name := CountOf(before, last.name)]);
    }
  }

  /** The call of index `j` among those nested in the last call. */
  lemma InnerCall(calls: seq<CallTree>, counts: Counts, j: nat)
    requires calls != [] && j < |Names(calls[|calls| - 1].calls)|
    ensures var init, last := calls[..|calls| - 1], calls[|calls| - 1];
      var i, before := |Names(init)| + 1 + j, CountsAfter(init, counts);
      var inner := Indices(last.calls, before[last.name := CountOf(before, last.name)]);
      && i < |Names(calls)| == |Indices(calls, counts)| && |inner| == |Names(last.calls)|
      && Names(calls)[i] == Names(last.calls)[j]
      && Names(calls)[..i] == Names(init) + [last.name] + Names(last.calls)[..j]
      && Indices(calls, counts)[i] == inner[j]
      && Enclosing(calls)[i] == Enclosing(last.calls)[j] + if Names(last.calls)[j] == last.name then 1 else 0
  {
    hide CountsAfter, Occurrences, Names, Indices, Enclosing;
    var init, last := calls[..|calls| - 1], calls[|calls| - 1];
    var before := CountsAfter(init, counts);
    var nested := before[last.name := CountOf(before, last.name)];
    assert calls == init + [last];
    LastCall(init, last, counts);
    LastNames(init, last);
    OneIndexPerCall(init, counts);
    OneIndexPerCall(last.calls, nested);
    InThird(Names(init), last.name, Names(last.calls), j);
    InThird(Indices(init, counts), CountOf(before, last.name), Indices(last.calls, nested), j);
  }

  lemma InThird<T>(first: seq<T>, second: T, third: seq<T>, j: nat)
    requires j < |third|
    ensures (first + [second] + third)[|first| + 1 + j] == third[j]
    ensures (first + [second] + third)[..|first| + 1 + j] == first + [second] + third[..j]
  {
  }

  /** The calls before the last one, and the last one itself. */
  lemma OuterCall(calls: seq<CallTree>, counts: Counts, i: nat)
    requires calls != [] && i <= |Names(calls[..|calls| - 1])|
    ensures var init, last := calls[..|calls| - 1], calls[|calls| - 1];
      && i < |Names(calls)| == |Indices(calls, counts)| && |Indices(init, counts)| == |Names(init)|
      && Names(calls)[..i] == Names(init)[..i]
      && if i < |Names(init)| then
           Names(calls)[i] == Names(init)[i] && Indices(calls, counts)[i] == Indices(init, counts)[i] && Enclosing(calls)[i] == Enclosing(init)[i]
         else
           Names(calls)[i] == last.name && Indices(calls, counts)[i] == CountOf(CountsAfter(init, counts), last.name) && Enclosing(calls)[i] == 0
  {
    OneIndexPerCall(calls, counts);
    OneIndexPerCall(calls[..|calls| - 1], counts);
  }

  /** A call reads the number of earlier calls of its name, less those it is nested in, which are not counted yet. */
  lemma {:induction false} IndexRead(calls: seq<CallTree>, counts: Counts, i: nat)
    requires i < |Names(calls)|
    ensures |Indices(calls, counts)| == |Names(calls)|
    ensures Indices(calls, counts)[i] + Enclosing(calls)[i]
         == CountOf(counts, Names(calls)[i]) + Occurrences(Names(calls)[..i], Names(calls)[i])
    decreases calls
  {
    hide Indices, Enclosing, CountsAfter, Occurrences;
    var init, last := calls[..|calls| - 1], calls[|calls| - 1];
    var names, inner := Names(init), Names(last.calls);
    var before := CountsAfter(init, counts);
    if i < |names| {
      OuterCall(calls, counts, i);
      IndexRead(init, counts, i);
    } else if i == |names| {
      OuterCall(calls, counts, i);
      assert names[..i] == names;
      CountsCount(init, counts, last.name);
    } else {
      var j := i - |names| - 1;
      InnerCall(calls, counts, j);
      IndexRead(last.calls, before[last.name := CountOf(before, last.name)], j);
      CountsCount(init, counts, inner[j]);
      OccurrencesAdd(names + [last.name], inner[..j], inner[j]);
      OccurrencesAdd(names, [last.name], inner[j]);
      OneName(last.name, inner[j]);
    }
  }

  lemma OneName(name: string, key: string)
    ensures Occurrences([name], key) == if name == key then 1 else 0
  {
    assert [name][..0] == [];
  }

  /** Starting from zero, the k-th call of a name reads index k - 1 exactly if it is not nested in a call of that name. */
  lemma CallIndex(calls: seq<CallTree>, i: nat)
    requires i < |Names(calls)|
    ensures |Indices(calls, map[])| == |Names(calls)|
    ensures Indices(calls, map[])[i] == Occurrences(Names(calls)[..i], Names(calls)[i]) <==> Enclosing(calls)[i] == 0
  {
    IndexRead(calls, map[], i);
  }

  // ---------------------------------------------------------------------------------------------
  // Programs without recursion

  /** Functions have different names, and no library function has the name of one of them. */
  ghost predicate DistinctNames(prog: Program) {
    && (forall f, g :: 0 <= f < |prog.functions| && 0 <= g < |prog.functions| && prog.functions[f].name == prog.functions[g].name ==> f == g)
    && forall callee: Callee, f: nat :: !callee.User? && f < |prog.functions| && Called(prog, callee) ==> CalleeName(prog, callee) != prog.functions[f].name
  }

  ghost predicate Called(prog: Program, callee: Callee) {
    exists f: nat, b: nat :: InBody(prog, f, b) && TermAt(prog, f, b).Call? && TermAt(prog, f, b).callee == callee
  }

  /** No name of a call inside the body of `f` is the name of `f` or of a function with a higher number. */
  ghost predicate NamedBelow(prog: Program, f: nat, names: seq<string>)
    requires f < |prog.functions|
  {
    forall g: nat, i: nat :: f <= g < |prog.functions| && i < |names| ==> names[i] != prog.functions[g].name
  }

  /** No call is nested in a call of its name. */
  ghost predicate NoneEnclosed(calls: seq<CallTree>) {
    forall i: nat :: i < |Enclosing(calls)| ==> Enclosing(calls)[i] == 0
  }

  lemma {:induction false} BodyNames(prog: Program, f: nat, n: nat)
    requires WellFormed(prog) && DistinctNames(prog) && f < |prog.functions| && n <= |prog.functions[f].blocks|
    ensures NamedBelow(prog, f, Names(BodyCalls(prog, f, n))) && NoneEnclosed(BodyCalls(prog, f, n))
    decreases f, n
  {
    hide DistinctNames, WellFormed, CalleeName, Names, NoneEnclosed, NamedBelow, BodyCalls, CallOf;
    if n == 0 {
      BodyStart(prog, f);
      NoNames(prog, f);
    } else {
      BodyNames(prog, f, n - 1);
      BodyStep(prog, f, n - 1);
      if IsCounted(TermAt(prog, f, n - 1)) {
        var call := CallOf(prog, f, TermAt(prog, f, n - 1).callee);
        if TermAt(prog, f, n - 1).callee.User? {
          var g := TermAt(prog, f, n - 1).callee.f;
          UserIsBelow(prog, f, n - 1);
          BodyNames(prog, g, |prog.functions[g].blocks|);
        }
        CallNames(prog, f, n - 1);
        NamesAdd(prog, f, BodyCalls(prog, f, n - 1), call);
      }
    }
  }

  lemma NoNames(prog: Program, f: nat)
    requires f < |prog.functions|
    ensures NamedBelow(prog, f, Names([])) && NoneEnclosed([])
  {
  }

  lemma NamesAdd(prog: Program, f: nat, calls: seq<CallTree>, call: CallTree)
    requires f < |prog.functions| && NamedBelow(prog, f, Names(calls)) && NoneEnclosed(calls)
    requires NamedBelow(prog, f, [call.name]) && NamedBelow(prog, f, Names(call.calls)) && NoneEnclosed(call.calls)
    requires call.name !in Names(call.calls)
    ensures NamedBelow(prog, f, Names(calls + [call])) && NoneEnclosed(calls + [call])
  {
    hide Names, Enclosing;
    LastNames(calls, call);
    assert [call.name][0] == call.name;
  }

  /** The name of a call in the body of `f`, and the names of the calls inside it. */
  lemma CallNames(prog: Program, f: nat, b: nat)
    requires WellFormed(prog) && DistinctNames(prog) && InBody(prog, f, b) && TermAt(prog, f, b).Call?
    requires TermAt(prog, f, b).callee.User? ==>
      var g := TermAt(prog, f, b).callee.f;
      g < f ==> NamedBelow(prog, g, Names(BodyCalls(prog, g, |prog.functions[g].blocks|))) && NoneEnclosed(BodyCalls(prog, g, |prog.functions[g].blocks|))
    ensures var call := CallOf(prog, f, TermAt(prog, f, b).callee);
      && NamedBelow(prog, f, [call.name]) && NamedBelow(prog, f, Names(call.calls)) && NoneEnclosed(call.calls) && call.name !in Names(call.calls)
  {
    hide Names, BodyCalls, WellFormed, NoneEnclosed;
    var callee := TermAt(prog, f, b).callee;
    NoNames(prog, f);
    NoCalls(map[]);
    if callee.User? {
      UserIsBelow(prog, f, b);
    } else {
      assert Called(prog, callee);
    }
  }

  lemma LastNames(calls: seq<CallTree>, call: CallTree)
    ensures Names(calls + [call]) == Names(calls) + [call.name] + Names(call.calls)
    ensures var depths := Enclosing(call.calls);
      Enclosing(calls + [call]) == Enclosing(calls) + [0]
        + seq(|depths|, i requires 0 <= i < |depths| => depths[i] + if Names(call.calls)[i] == call.name then 1 else 0)
  {
    assert (calls + [call])[..|calls|] == calls;
  }

  lemma {:induction false} NeverEnclosed(prog: Program, roots: seq<nat>)
    requires WellFormed(prog) && DistinctNames(prog) && forall i :: 0 <= i < |roots| ==> roots[i] < |prog.functions|
    ensures NoneEnclosed(ProgramCalls(prog, roots))
  {
    hide DistinctNames, WellFormed, Enclosing, Names;
    if roots == [] {
      NoCalls(map[]);
    } else {
      var init, f := roots[..|roots| - 1], roots[|roots| - 1];
      var body := BodyCalls(prog, f, |prog.functions[f].blocks|);
      NeverEnclosed(prog, init);
      BodyNames(prog, f, |prog.functions[f].blocks|);
      EnclosingAdd(ProgramCalls(prog, init), body);
    }
  }

  lemma {:induction false} EnclosingAdd(calls: seq<CallTree>, more: seq<CallTree>)
    ensures Enclosing(calls + more) == Enclosing(calls) + Enclosing(more)
    ensures Names(calls + more) == Names(calls) + Names(more)
    decreases |more|
  {
    hide Names, Enclosing;
    if more == [] {
      assert calls + more == calls;
      NoCalls(map[]);
    } else {
      var init, last := more[..|more| - 1], more[|more| - 1];
      assert calls + more == (calls + init) + [last] && more == init + [last];
      EnclosingAdd(calls, init);
      LastNames(calls + init, last);
      LastNames(init, last);
    }
  }

  /** In a program without recursion whose functions have different names, the k-th call of every name reads k - 1, although
      the counter is incremented only after the whole body of the called function. */
  lemma ProgramIndices(prog: Program, roots: seq<nat>, i: nat)
    requires WellFormed(prog) && DistinctNames(prog) && forall k :: 0 <= k < |roots| ==> roots[k] < |prog.functions|
    requires i < |Names(ProgramCalls(prog, roots))|
    ensures var calls := ProgramCalls(prog, roots);
      |Indices(calls, map[])| == |Names(calls)| && Indices(calls, map[])[i] == Occurrences(Names(calls)[..i], Names(calls)[i])
  {
    hide DistinctNames, WellFormed, Indices, Names, Enclosing;
    NeverEnclosed(prog, roots);
    CallIndex(ProgramCalls(prog, roots), i);
  }

  // ---------------------------------------------------------------------------------------------
  // In terms of the called functions

  /** The names by which the translator knows the library functions it treats in a special way. */
  const LIBRARY: set<string> := {
    "std::mem::drop", "std::ops::Deref::deref", "std::ops::DerefMut::deref_mut", "std::result::Result::<T, E>::unwrap", "std::thread::spawn",
    "std::sync::Condvar::new", "std::sync::Condvar::notify_one", "std::sync::Condvar::wait", "std::sync::Condvar::wait_while",
    "std::sync::Mutex::<T>::lock", "std::sync::Mutex::<T>::new", "std::thread::JoinHandle::<T>::join"}

  /** Whether two calls are calls of one function. */
  predicate SameFunction(c: Callee, d: Callee) {
    match (c, d)
    case (ThreadSpawn(_), ThreadSpawn(_)) => true
    case (Foreign(name), PanicFunction(other)) => name == other
    case (PanicFunction(name), Foreign(other)) => name == other
    case _ => c == d
  }

  /** Functions have different names, and none of the other called functions has the name of one of them or of a library
      function that is treated in a special way. */
  ghost predicate WellNamed(prog: Program) {
    && (forall f, g :: 0 <= f < |prog.functions| && 0 <= g < |prog.functions| && prog.functions[f].name == prog.functions[g].name ==> f == g)
    && (forall f :: 0 <= f < |prog.functions| ==> prog.functions[f].name !in LIBRARY)
    && forall callee: Callee :: Called(prog, callee) && (callee.Foreign? || callee.PanicFunction?) ==>
         callee.name !in LIBRARY && forall f :: 0 <= f < |prog.functions| ==> prog.functions[f].name != callee.name
  }

  predicate IsLibrary(callee: Callee) {
    !callee.User? && !callee.Foreign? && !callee.PanicFunction?
  }

  /** The names of the library functions differ in length, but for two. */
  lemma LibraryName(prog: Program, callee: Callee)
    requires IsLibrary(callee)
    ensures CalleeName(prog, callee) in LIBRARY
    ensures |CalleeName(prog, callee)| ==
      match callee
      case MemDrop => 14
      case DerefFn => 22
      case DerefMutFn => 29
      case ResultUnwrap => 35
      case ThreadSpawn(_) => 18
      case CondvarNew => 23
      case CondvarNotifyOne => 30
      case CondvarWait => 24
      case CondvarWaitWhile => 30
      case MutexLock => 27
      case MutexNew => 26
      case _ => 34
    ensures callee.CondvarNotifyOne? ==> CalleeName(prog, callee)[20] == 'n'
    ensures callee.CondvarWaitWhile? ==> CalleeName(prog, callee)[20] == 'w'
  {
  }

  /** Two calls share a counter exactly if they are calls of one function. */
  lemma OneCounterPerFunction(prog: Program, c: Callee, d: Callee)
    requires WellNamed(prog) && Known(prog, c) && Known(prog, d)
    ensures CalleeName(prog, c) == CalleeName(prog, d) <==> SameFunction(c, d)
  {
    hide Called;
    if IsLibrary(c) {
      LibraryName(prog, c);
    }
    if IsLibrary(d) {
      LibraryName(prog, d);
    }
    NamesAreOwn(prog, c);
    NamesAreOwn(prog, d);
    hide CalleeName, LIBRARY;
  }

  /** A callee of the program. */
  ghost predicate Known(prog: Program, callee: Callee) {
    Called(prog, callee) && (callee.User? ==> callee.f < |prog.functions|)
  }

  lemma NamesAreOwn(prog: Program, callee: Callee)
    ensures callee.Foreign? || callee.PanicFunction? ==> CalleeName(prog, callee) == callee.name
    ensures callee.User? && callee.f < |prog.functions| ==> CalleeName(prog, callee) == prog.functions[callee.f].name
  {
  }

  /** The called functions in the order of the translation. A call that has no block to go on at, neither when it returns nor
      when it unwinds, has no index. */
  function BodyCallees(prog: Program, f: nat, n: nat): seq<Callee>
    requires f < |prog.functions| && n <= |prog.functions[f].blocks|
    decreases f, n
  {
    if n == 0 then []
    else
      BodyCallees(prog, f, n - 1) +
      match prog.functions[f].blocks[n - 1].terminator
      case Call(callee, _, _, returnTo, unwind) =>
        if returnTo.None? && unwind.Continue? then []
        else [callee] + if callee.User? && callee.f < f then BodyCallees(prog, callee.f, |prog.functions[callee.f].blocks|) else []
      case _ => []
  }

  function ProgramCallees(prog: Program, roots: seq<nat>): seq<Callee>
    requires forall i :: 0 <= i < |roots| ==> roots[i] < |prog.functions|
  {
    if roots == [] then []
    else
      var f := roots[|roots| - 1];
      ProgramCallees(prog, roots[..|roots| - 1]) + BodyCallees(prog, f, |prog.functions[f].blocks|)
  }

  /** The names are those of the callees. */
  ghost predicate NamesOf(prog: Program, names: seq<string>, callees: seq<Callee>) {
    |names| == |callees| && forall i :: 0 <= i < |names| ==> names[i] == CalleeName(prog, callees[i]) && Known(prog, callees[i])
  }

  lemma NamesJoined(prog: Program, names: seq<string>, callees: seq<Callee>, more: seq<string>, others: seq<Callee>)
    requires NamesOf(prog, names, callees) && NamesOf(prog, more, others)
    ensures NamesOf(prog, names + more, callees + others)
  {
    hide CalleeName, Known;
  }

  lemma NoNamesAtAll(prog: Program)
    ensures NamesOf(prog, [], [])
  {
  }

  lemma NameOfOne(prog: Program, callee: Callee)
    requires Known(prog, callee)
    ensures NamesOf(prog, [CalleeName(prog, callee)], [callee])
  {
    hide CalleeName, Known;
  }

  /** The calls inside the call that ends block `b`. */
  function InnerCallees(prog: Program, f: nat, b: nat): seq<Callee>
    requires InBody(prog, f, b) && TermAt(prog, f, b).Call?
  {
    var callee := TermAt(prog, f, b).callee;
    if callee.User? && callee.f < f then BodyCallees(prog, callee.f, |prog.functions[callee.f].blocks|) else []
  }

  lemma CalleesStep(prog: Program, f: nat, b: nat)
    requires InBody(prog, f, b)
    ensures var term, before := TermAt(prog, f, b), BodyCallees(prog, f, b);
      BodyCallees(prog, f, b + 1)
      == if term.Call? && !(term.returnTo.None? && term.unwind.Continue?) then before + [term.callee] + InnerCallees(prog, f, b) else before
  {
    var term, before := TermAt(prog, f, b), BodyCallees(prog, f, b);
    assert before + [] == before;
    if term.Call? {
      assert before + ([term.callee] + InnerCallees(prog, f, b)) == before + [term.callee] + InnerCallees(prog, f, b);
    }
  }

  lemma NoCallees(prog: Program, f: nat)
    requires f < |prog.functions|
    ensures BodyCallees(prog, f, 0) == []
  {
  }

  lemma {:induction false} BodyNamesAre(prog: Program, f: nat, n: nat)
    requires WellFormed(prog) && f < |prog.functions| && n <= |prog.functions[f].blocks|
    ensures NamesOf(prog, Names(BodyCalls(prog, f, n)), BodyCallees(prog, f, n))
    decreases f, n
  {
    hide Names, WellFormed, CalleeName, Known, BodyCalls, NamesOf, BodyCallees;
    if n == 0 {
      BodyStart(prog, f);
      NoCallees(prog, f);
      NoCalls(map[]);
      NoNamesAtAll(prog);
    } else {
      BodyNamesAre(prog, f, n - 1);
      BodyStep(prog, f, n - 1);
      CalleesStep(prog, f, n - 1);
      var term := TermAt(prog, f, n - 1);
      if term.Call? && !(term.returnTo.None? && term.unwind.Continue?) {
        if term.callee.User? {
          UserIsBelow(prog, f, n - 1);
          BodyNamesAre(prog, term.callee.f, |prog.functions[term.callee.f].blocks|);
        }
        CallNamesAre(prog, f, n - 1);
      }
    }
  }

  lemma CallNamesAre(prog: Program, f: nat, b: nat)
    requires WellFormed(prog) && InBody(prog, f, b) && TermAt(prog, f, b).Call? && NamesOf(prog, Names(BodyCalls(prog, f, b)), BodyCallees(prog, f, b))
    requires TermAt(prog, f, b).callee.User? ==>
      var g := TermAt(prog, f, b).callee.f;
      g < f && NamesOf(prog, Names(BodyCalls(prog, g, |prog.functions[g].blocks|)), BodyCallees(prog, g, |prog.functions[g].blocks|))
    ensures var callee := TermAt(prog, f, b).callee;
      NamesOf(prog, Names(BodyCalls(prog, f, b) + [CallOf(prog, f, callee)]), BodyCallees(prog, f, b) + [callee] + InnerCallees(prog, f, b))
  {
    hide Names, WellFormed, CalleeName, Known, BodyCalls, NamesOf, BodyCallees;
    var callee, names, before := TermAt(prog, f, b).callee, Names(BodyCalls(prog, f, b)), BodyCallees(prog, f, b);
    var call := CallOf(prog, f, callee);
    LastNames(BodyCalls(prog, f, b), call);
    CalledHere(prog, f, b);
    NameOfOne(prog, callee);
    NoNamesAtAll(prog);
    NoCalls(map[]);
    NamesJoined(prog, names, before, [call.name], [callee]);
    NamesJoined(prog, names + [call.name], before + [callee], Names(call.calls), InnerCallees(prog, f, b));
  }

  lemma CalledHere(prog: Program, f: nat, b: nat)
    requires WellFormed(prog) && InBody(prog, f, b) && TermAt(prog, f, b).Call?
    ensures Known(prog, TermAt(prog, f, b).callee) && (TermAt(prog, f, b).callee.User? ==> TermAt(prog, f, b).callee.f < f)
  {
    hide WellFormed;
    assert Called(prog, TermAt(prog, f, b).callee);
    if TermAt(prog, f, b).callee.User? {
      UserIsBelow(prog, f, b);
    }
  }

  lemma {:induction false} ProgramNamesAre(prog: Program, roots: seq<nat>)
    requires WellFormed(prog) && forall i :: 0 <= i < |roots| ==> roots[i] < |prog.functions|
    ensures NamesOf(prog, Names(ProgramCalls(prog, roots)), ProgramCallees(prog, roots))
  {
    hide Names, WellFormed, CalleeName, Known, NamesOf;
    if roots == [] {
      NoCalls(map[]);
      NoNamesAtAll(prog);
    } else {
      var init, f := roots[..|roots| - 1], roots[|roots| - 1];
      ProgramNamesAre(prog, init);
      BodyNamesAre(prog, f, |prog.functions[f].blocks|);
      NamesJoined(prog, Names(ProgramCalls(prog, init)), ProgramCallees(prog, init), Names(BodyCalls(prog, f, |prog.functions[f].blocks|)),
                  BodyCallees(prog, f, |prog.functions[f].blocks|));
      EnclosingAdd(ProgramCalls(prog, init), BodyCalls(prog, f, |prog.functions[f].blocks|));
    }
  }

  /** How many of the calls are calls of the function of `callee`. */
  function CallsLike(callees: seq<Callee>, callee: Callee): nat {
    if callees == [] then 0
    else CallsLike(callees[..|callees| - 1], callee) + if SameFunction(callees[|callees| - 1], callee) then 1 else 0
  }

  lemma {:induction false} OccurrencesAre(prog: Program, names: seq<string>, callees: seq<Callee>, callee: Callee)
    requires WellNamed(prog) && NamesOf(prog, names, callees) && Known(prog, callee)
    ensures Occurrences(names, CalleeName(prog, callee)) == CallsLike(callees, callee)
    decreases |names|
  {
    hide WellNamed, CalleeName, SameFunction, Known;
    if names != [] {
      var last := |names| - 1;
      OccurrencesAre(prog, names[..last], callees[..last], callee);
      OneCounterPerFunction(prog, callees[last], callee);
    }
  }

  lemma WellNamedIsDistinct(prog: Program)
    requires WellNamed(prog)
    ensures DistinctNames(prog)
  {
    hide Called;
    forall callee: Callee, f: nat | !callee.User? && f < |prog.functions| && Called(prog, callee) ensures CalleeName(prog, callee) != prog.functions[f].name {
      NamesAreOwn(prog, callee);
      if IsLibrary(callee) {
        LibraryName(prog, callee);
      }
    }
  }

  /** Every call reads the number of earlier calls of the same function, calls nested in others included. */
  ghost predicate CountsEarlierCalls(indices: seq<nat>, callees: seq<Callee>) {
    |indices| == |callees| && forall i :: 0 <= i < |indices| ==> indices[i] == CallsLike(callees[..i], callees[i])
  }

  /** The same from counts that are not zero. */
  ghost predicate CountsOn(prog: Program, counts: Counts, indices: seq<nat>, callees: seq<Callee>) {
    && |indices| == |callees|
    && forall i :: 0 <= i < |indices| ==> indices[i] == CountOf(counts, CalleeName(prog, callees[i])) + CallsLike(callees[..i], callees[i])
  }

  lemma BodyIndices(prog: Program, f: nat, counts: Counts)
    requires WellFormed(prog) && WellNamed(prog) && f < |prog.functions|
    ensures CountsOn(prog, counts, Indices(BodyCalls(prog, f, |prog.functions[f].blocks|), counts), BodyCallees(prog, f, |prog.functions[f].blocks|))
  {
    hide WellNamed, WellFormed, Indices, Names, CalleeName, Known, BodyCallees, BodyCalls, CallsLike, Occurrences;
    var n := |prog.functions[f].blocks|;
    var calls, callees := BodyCalls(prog, f, n), BodyCallees(prog, f, n);
    var names, indices := Names(calls), Indices(calls, counts);
    BodyNamesAre(prog, f, n);
    WellNamedIsDistinct(prog);
    BodyNames(prog, f, n);
    OneIndexPerCall(calls, counts);
    forall i | 0 <= i < |indices| ensures indices[i] == CountOf(counts, CalleeName(prog, callees[i])) + CallsLike(callees[..i], callees[i]) {
      IndexRead(calls, counts, i);
      OccurrencesAre(prog, names[..i], callees[..i], callees[i]);
    }
  }

  lemma CalleeIndices(prog: Program, roots: seq<nat>)
    requires WellFormed(prog) && WellNamed(prog) && forall k :: 0 <= k < |roots| ==> roots[k] < |prog.functions|
    ensures CountsEarlierCalls(Indices(ProgramCalls(prog, roots), map[]), ProgramCallees(prog, roots))
  {
    hide WellNamed, WellFormed, Indices, Names, CalleeName, Known, ProgramCallees, ProgramCalls, CallsLike, Occurrences;
    var calls, callees := ProgramCalls(prog, roots), ProgramCallees(prog, roots);
    var names, indices := Names(calls), Indices(calls, map[]);
    ProgramNamesAre(prog, roots);
    WellNamedIsDistinct(prog);
    OneIndexPerCall(calls, map[]);
    forall i | 0 <= i < |indices| ensures indices[i] == CallsLike(callees[..i], callees[i]) {
      ProgramIndices(prog, roots, i);
      OccurrencesAre(prog, names[..i], callees[..i], callees[i]);
    }
  }

  /** Creates a mutex and locks it: two functions, so both calls have index zero. */
  function NewAndLock(): Program {
    Program([Function("main",
      [Block([], Call(MutexNew, [], Place(1, []), Some(1), Continue)),
       Block([], Call(MutexLock, [Copy(Place(1, []))], Place(2, []), Some(2), Continue)),
       Block([], Return)], {}, {}, [])], 0)
  }

  lemma NewAndLockAreApart()
    ensures WellFormed(NewAndLock()) && Indices(ProgramCalls(NewAndLock(), [0]), map[]) == [0, 0]
  {
    hide Indices, ProgramCalls, WellNamed;
    var prog := NewAndLock();
    assert FunctionOk(prog, 0);
    NewAndLockNames();
    CalleeIndices(prog, [0]);
    NewAndLockCallees();
    var callees := [MutexNew, MutexLock];
    assert callees[..0] == [] && callees[..1] == [MutexNew] && [MutexNew][..0] == [];
    assert CallsLike([], MutexNew) == 0 && CallsLike([], MutexLock) == 0 && CallsLike([MutexNew], MutexLock) == 0;
  }

  lemma NewAndLockNames()
    ensures WellNamed(NewAndLock())
  {
    var prog := NewAndLock();
    forall callee: Callee | Called(prog, callee) ensures !callee.Foreign? && !callee.PanicFunction? {
      var f: nat, b: nat :| InBody(prog, f, b) && TermAt(prog, f, b).Call? && TermAt(prog, f, b).callee == callee;
    }
    assert |"main"| == 4;
  }

  lemma NewAndLockCallees()
    ensures ProgramCallees(NewAndLock(), [0]) == [MutexNew, MutexLock]
  {
    var prog := NewAndLock();
    assert BodyCallees(prog, 0, 0) == [];
    assert BodyCallees(prog, 0, 1) == [] + [MutexNew];
    assert BodyCallees(prog, 0, 2) == [MutexNew] + [MutexLock];
    assert BodyCallees(prog, 0, 3) == [MutexNew, MutexLock];
    assert [0][..0] == [] && ProgramCallees(prog, []) == [];
  }

  /** The main function calls one of two functions of the same name, which calls the other one. */
  function SameName(): Program {
    var callTo := (g: nat) => Block([], Call(User(g), [], Place(1, []), Some(1), Continue));
    Program([Function("f", [Block([], Return)], {}, {}, []),
             Function("f", [callTo(0), Block([], Return)], {}, {}, []),
             Function("main", [callTo(1), Block([], Return)], {}, {}, [])], 2)
  }

  lemma SameNameAccepted()
    ensures Translatable(SameName())
  {
    hide WellFormed, PlainFunction;
    var prog := SameName();
    SameNameIsWellFormed();
    forall f | 0 <= f < 3 ensures PlainFunction(prog.functions[f]) {
      SameNameIsPlain(f);
    }
    PlainIsAccepted(prog);
  }

  lemma SameNameIsWellFormed()
    ensures WellFormed(SameName())
  {
    var prog := SameName();
    assert FunctionOk(prog, 0) && FunctionOk(prog, 1) && FunctionOk(prog, 2);
  }

  lemma SameNameIsPlain(f: nat)
    requires f < 3
    ensures PlainFunction(SameName().functions[f])
  {
  }

  /** Without different names the property fails: the second call of the name reads zero again. */
  lemma SameNameFails()
    ensures Translatable(SameName())
    ensures Names(ProgramCalls(SameName(), [2])) == ["f", "f"] && Indices(ProgramCalls(SameName(), [2]), map[]) == [0, 0]
  {
    hide Names, Indices, CountsAfter, Enclosing, ProgramCalls;
    var inner := Node("f", []);
    var outer := Node("f", [inner]);
    var prog := SameName();
    SameNameAccepted();
    SameNameCalls();
    NoCalls(map[]);
    NoCalls(map["f" := 0]);
    LastCall([], inner, map["f" := 0]);
    LastCall([], outer, map[]);
    LastNames([], inner);
    LastNames([], outer);
    assert [] + [inner] == [inner] && [] + [outer] == [outer];
    var none: Counts, once: Counts := map[], map["f" := 0];
    assert none["f" := CountOf(none, "f")] == once && once["f" := CountOf(once, "f")] == once;
    assert Indices([inner], once) == [] + [0] + [];
    assert Indices([outer], none) == [] + [0] + Indices([inner], once);
  }

  lemma SameNameCalls()
    ensures ProgramCalls(SameName(), [2]) == [Node("f", [Node("f", [])])]
  {
    hide BodyCalls;
    var prog := SameName();
    BodyStart(prog, 0);
    BodyStep(prog, 0, 0);
    BodyStart(prog, 1);
    BodyStep(prog, 1, 0);
    BodyStep(prog, 1, 1);
    BodyStart(prog, 2);
    BodyStep(prog, 2, 0);
    BodyStep(prog, 2, 1);
    var inner := Node("f", []);
    assert BodyCalls(prog, 1, 2) == [] + [inner] == [inner];
    assert BodyCalls(prog, 2, 2) == [] + [Node("f", [inner])];
    assert [2][..0] == [] && ProgramCalls(prog, []) == [];
    assert ProgramCalls(prog, [2]) == ProgramCalls(prog, [2][..0]) + BodyCalls(prog, 2, 2);
  }
}
