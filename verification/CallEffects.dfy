/** The effects of the calls the translator has a handler for, one by one. */
module CallEffects {
  import opened Wrappers
  import opened Mir
  import opened ControlPoints
  import opened AliasMemory
  import opened Blueprint

  lemma MemDropIs(fn: Function, pt: Point, cells: Cells, term: Terminator)
    requires term.Call? && term.callee.MemDrop? && CallEnds(term.returnTo, term.unwind).Ends?
    ensures CallEffect(fn, pt, cells, term) == MemDropEffect(fn, cells, term, CallEnds(term.returnTo, term.unwind))
  {
  }

  lemma LockIs(fn: Function, pt: Point, cells: Cells, term: Terminator)
    requires term.Call? && term.callee.MutexLock? && CallEnds(term.returnTo, term.unwind).Ends?
    ensures var self := NthArgument(term.args, 0);
      if self.None? || GetMutex(cells, self.value).None? then CallEffect(fn, pt, cells, term) == None
      else
        var m := GetMutex(cells, self.value).value;
        CallEffect(fn, pt, cells, term)
        == Some(Effect([Acquire(m, CallEnds(term.returnTo, term.unwind).end)], cells[term.destination := MutexGuard(m)], None))
  {
  }

  lemma NotifyOneIs(fn: Function, pt: Point, cells: Cells, term: Terminator)
    requires term.Call? && term.callee.CondvarNotifyOne? && CallEnds(term.returnTo, term.unwind).Ends?
    ensures var self := NthArgument(term.args, 0);
      if self.None? || GetCondvar(cells, self.value).None? then CallEffect(fn, pt, cells, term) == None
      else
        CallEffect(fn, pt, cells, term)
        == Some(Effect([NotifyOne(GetCondvar(cells, self.value).value, CallEnds(term.returnTo, term.unwind).end)], cells, None))
  {
  }

  lemma JoinIs(fn: Function, pt: Point, cells: Cells, term: Terminator)
    requires term.Call? && term.callee.ThreadJoin? && CallEnds(term.returnTo, term.unwind).Ends?
    ensures var self := NthArgument(term.args, 0);
      if self.None? || GetHandle(cells, self.value).None? then CallEffect(fn, pt, cells, term) == None
      else
        CallEffect(fn, pt, cells, term)
        == Some(Effect([JoinThread(GetHandle(cells, self.value).value, CallEnds(term.returnTo, term.unwind).end)], cells, None))
  {
  }

  lemma NoReturnIs(fn: Function, pt: Point, cells: Cells, term: Terminator)
    requires term.Call? && CallEnds(term.returnTo, term.unwind).NoReturn?
    ensures CallEffect(fn, pt, cells, term)
         == Some(Effect([if term.callee.PanicFunction? then Flow(ToPanic) else Vanish], cells, None))
  {
  }

  lemma ShortIs(fn: Function, pt: Point, cells: Cells, term: Terminator)
    requires term.Call? && CallEnds(term.returnTo, term.unwind).Ends?
    requires term.callee.Foreign? || term.callee.PanicFunction? || term.callee.DerefFn? || term.callee.ResultUnwrap?
    ensures var self := NthArgument(term.args, 0);
      var ends := CallEnds(term.returnTo, term.unwind);
      var deref := term.callee.DerefFn? || term.callee.ResultUnwrap?;
      CallEffect(fn, pt, cells, term) ==
        if deref && self.None? then None
        else
          WithCells(if deref && self.value in fn.mutexPlaces then [Flow(ends.end)] else ShortCall(ends),
                    LinkedReturn(fn, cells, term.args, term.destination))
  {
  }

  lemma MutexNewIs(fn: Function, pt: Point, cells: Cells, term: Terminator)
    requires term.Call? && term.callee.MutexNew? && CallEnds(term.returnTo, term.unwind).Ends?
    ensures CallEffect(fn, pt, cells, term)
         == Some(Effect(ShortCall(CallEnds(term.returnTo, term.unwind)), cells[term.destination := Mutex(pt)], None))
  {
  }

  lemma CondvarNewIs(fn: Function, pt: Point, cells: Cells, term: Terminator)
    requires term.Call? && term.callee.CondvarNew? && CallEnds(term.returnTo, term.unwind).Ends?
    ensures CallEffect(fn, pt, cells, term)
         == Some(Effect(ShortCall(CallEnds(term.returnTo, term.unwind)), cells[term.destination := Condvar(pt)], None))
  {
  }

  lemma WaitIs(fn: Function, pt: Point, cells: Cells, term: Terminator)
    requires term.Call? && (term.callee.CondvarWait? || term.callee.CondvarWaitWhile?) && CallEnds(term.returnTo, term.unwind).Ends?
    ensures CallEffect(fn, pt, cells, term) == WaitEffect(cells, term, CallEnds(term.returnTo, term.unwind))
  {
  }

  lemma SpawnIs(fn: Function, pt: Point, cells: Cells, term: Terminator)
    requires term.Call? && term.callee.ThreadSpawn? && CallEnds(term.returnTo, term.unwind).Ends?
    ensures CallEffect(fn, pt, cells, term) == SpawnEffect(fn, pt, cells, term, CallEnds(term.returnTo, term.unwind))
  {
  }

  lemma DerefMutIs(fn: Function, pt: Point, cells: Cells, term: Terminator)
    requires term.Call? && term.callee.DerefMutFn? && CallEnds(term.returnTo, term.unwind).Ends?
    ensures var self := NthArgument(term.args, 0);
      var ends := CallEnds(term.returnTo, term.unwind);
      CallEffect(fn, pt, cells, term) ==
        if self.None? then None
        else if self.value in fn.mutexPlaces then DerefMutEffect(fn, cells, term, self.value, ends)
        else WithCells(ShortCall(ends), LinkedReturn(fn, cells, term.args, term.destination))
  {
  }

  lemma WaitEnds(fn: Function, pt: Point, cells: Cells, term: Terminator)
    requires term.Call? && CallEffect(fn, pt, cells, term).Some? && CallEffect(fn, pt, cells, term).value.wait.Some?
    ensures CallEnds(term.returnTo, term.unwind).Ends?
    ensures CallEffect(fn, pt, cells, term).value.wait.value.dest == CallEnds(term.returnTo, term.unwind).end
  {
    hide LinkedReturn;
  }

  lemma UserIs(fn: Function, pt: Point, cells: Cells, term: Terminator)
    requires term.Call? && term.callee.User? && CallEnds(term.returnTo, term.unwind).Ends?
    ensures CallEffect(fn, pt, cells, term) == Some(Effect(CleanupActions(CallEnds(term.returnTo, term.unwind)), cells, None))
  {
  }
}
