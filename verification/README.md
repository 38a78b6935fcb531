# cargo-check-deadlock: the translation from MIR to Petri nets

The program modelled here decides whether a Rust program can deadlock. It reads the Mid-level Intermediate
Representation (MIR) of every function, inlines calls through a call stack, and builds one place/transition net in which
tokens stand for threads, free mutexes, pending signals and conditions. A model checker then searches the net for a
marking that satisfies `EF (DEADLOCK AND PROGRAM_END = 0 AND PROGRAM_PANIC = 0)`.

## What is here

The project has three layers.

1. The translator in its own form: classes whose methods update the net, the block tables, the alias memories, the thread
   queue and the queue of postprocessing tasks (`PetriNetInterface.dfy`, `MirFunction.dfy`, `Memory.dfy`, `Sync.dfy`,
   `Translator.dfy`).
2. A blueprint without state (`Blueprint.dfy`): for every control point (a thread and a call stack) the actions of its
   block, the memory the block is reached with, and the places the actions connect. `IsNetOf` says of a net that it has
   exactly these places, tokens, transitions and arcs. `Translate` is proved against it: the translator succeeds exactly on
   the programs in which every point has an effect, no thread is joined twice and no condvar is waited on twice, and then
   the net it builds is the net of the program. The proof goes through an invariant of the state of the translation
   (`Worlds.dfy`, `Provenance.dfy`, `Frames.dfy`, `Progress.dfy`, `Threads.dfy`, `Postprocess.dfy`).
3. Theorems about the net of every program: conservation laws, the synchronisation gadgets, aliases, and the correctness
   of the verdict.

The verdict is judged against a semantics of the program of its own (`Machine.dfy`): interleaved threads with call stacks,
where every frame has a memory that follows the assignments of the blocks the thread actually passes (`Links.dfy`), where
arguments and results carry objects into and out of called functions, and where locks, drops, joins and spawns look their
operands up in that memory. It decides on its own where calls return and unwind to, which field a place reads and which
object an operand holds. A function that resumes unwinding goes on in the cleanup of the call, or of the next call below
that has one, and a call that must not unwind aborts the program. The translator instead has one memory per frame, filled
in the order of the blocks, and ends a thread as soon as any of its functions resumes unwinding. `Paths.dfy` says exactly
when the memories agree on all paths, `Simulation.dfy` which cleanups the net may ignore, and `Verdict.dfy` proves the
verdict for the programs where both hold.

Nodes of the net are identified by what they stand for, such as the place of a block in a frame or the `i`-th transition of
a point, so that "added once" is part of the contract of adding a node. A mutex or condvar is identified by the point that
creates it, and a thread by the point that spawns it, which is what sharing one reference-counted object means in the
source. Where the source panics, a method returns `false` and the blueprint has no effect.

MIR is an abstract datatype (`Mir.dfy`). Types are reduced to the two questions the translator asks of a place: does its
type mention a synchronisation type, and does it mention a mutex. Well-formed programs have non-empty bodies, targets in
range, no jump to block 0 and no recursion; functions are numbered so that calls and spawns go from higher to lower numbers.

## Results that correct an expectation

- `wait_enabled <= 1` does not hold in general: `SpuriousSignal` gives a program in which a signal is received before
  anybody waits. `WaitEnabledBound` says exactly when the bound holds; `PermittedIsBounded` gives a condition on the program,
  which the usual use of a condvar meets (`SignalIsInTime`).
- `MUTEX <= 1` does not hold in general: `DoubleUnlock` gives a program whose unwind path drops a guard twice. `MutexBound`
  says exactly when the bound holds; `DisciplinedIsSafe` gives a condition on the program.
- The translator does not always lock the mutex the program locks: `MissedDeadlock` gives a program that deadlocks and is
  not reported, because a place holds different mutexes on different paths. `PathsIffEdges` says exactly when the memory of
  the translator agrees with every path.
- A call that never returns is reported although no thread waits: `FalseAlarm`. `ReportedIffStalled` says exactly what the
  formula reports, which is a deadlock unless a thread is in such a call.
- A cleanup can be lost: `LostCleanup` gives a program that never gets stuck and is reported, because the translator ends
  the thread when a called function resumes unwinding, and the caller never drops its guard. `CleansUp` is the condition
  under which the cleanups of callers make no difference; `CoveredWithThreads` gives a program that meets it.
- A name does not always stand for one object: `CreatedTwice` gives a program that creates two mutexes at one call.
  `CreatedOnce` gives a condition on the program under which it does.
- A join does not always wait for its thread: `JoinElsewhere` gives a run in which the join goes on first, and
  `JoinWaitsIffLocal` says exactly which joins wait.
- A captured field is not always the variable of the same position: `FieldIsShifted` gives a program, `AggregateTransfer`
  says exactly when it is, and `CapturedInPlace` that it always is if the debug information names all captured fields.
- An index is not always the number of earlier calls of the name: `SameNameFails` gives a program with two functions of one
  name. `CallIndex` says exactly when it is, and `ProgramIndices` that it always is if functions have different names.
- Sanitising names is not injective: `SanitizeIsNotInjective`. `KeptIffClean` and `LabelsDifferIffClean` say exactly when
  names stay apart.

## Model

| member | source | states |
|---|---|---|
| `PetriNetInterface.PetriNet.AddArcPlaceTransition` | src/data_structures/petri_net_interface.rs:13-32 | one input arc more on this transition, no other change |
| `PetriNetInterface.PetriNet.AddArcTransitionPlace` | src/data_structures/petri_net_interface.rs:34-53 | one output arc more on this transition, no other change |
| `PetriNetInterface.PetriNet.ConnectPlaces` | src/data_structures/petri_net_interface.rs:55-65 | one new transition from the first place to the second |
| `MirFunctions.MirFunction.AddBasicBlock` | src/translator/mir_function.rs:112-129 | the block gets the place of its control point, block 0 the start place of the function; table and net stay in step, so a block is added once |
| `MirFunctions.MirFunction.GetOrAddBasicBlock` | src/translator/mir_function.rs:131-144 | afterwards the block is in the table, whatever was referenced before |
| `MirFunctions.MirFunction.ActivateBlock` | src/translator/mir_function.rs:167-172 | the active block is always in the table |
| `MirFunctions.DistinctBlocks` | src/translator/mir_function.rs:112-191 | different blocks of a frame have different places; only block 0 is on the start place |
| `MirFunctions.MirFunction.SwitchInt` | src/translator/mir_function/terminator.rs:29-36 | one transition for each target, repeated targets included |
| `MirFunctions.MirFunction.ConnectWithCleanup` | src/translator/mir_function/terminator.rs:83-98 | one transition to the target and one to the cleanup block if there is one |
| `AliasMemory.Memory.LinkPlaceToSameValue` | src/translator/mir_function/memory.rs:188-206 | the first place becomes an alias of the second; fails if that is not linked |
| `AliasMemory.Memory.LinkAggregate` | src/translator/mir_function/memory.rs:173-179 | links the values; fails if the place was linked before |
| `AliasMemory.Memory.CreateAggregate` | src/translator/mir_function/memory.rs:264-273 | the values of the places, in order; fails if one is not linked or the destination was |
| `AliasMemory.Memory.LinkFieldInAggregate` | src/translator/mir_function/memory.rs:283-306 | links the indexed element; fails if there is none or the place was linked before |
| `SyncVariables.LinkIfSyncVariable` | src/translator/sync.rs:146-168 | links only places of a synchronisation type, through the aggregate field if the other place is behind a dereference |
| `SyncVariables.AliasAssigned` | src/translator/sync.rs:146-168 | an assignment from a place without a dereference makes an alias of it, and fails exactly if that place is not linked |
| `SyncVariables.FieldAssigned` | src/utils.rs:136-143 | an assignment from behind a dereference links the element of the first field of the projection, wherever it stands, from the aggregate of the local; it fails exactly if there is no such element or the place was linked before |
| `SyncVariables.NoFieldAssigned` | src/utils.rs:136-143 | it fails if the projection has no field |
| `Links.SameField` | src/utils.rs:136-143 | the field the translator reads is the field the program reads |
| `SyncVariables.HandleAggregateAssignment` | src/translator/sync.rs:101-128 | aggregates exactly the operands of a synchronisation type, in order |
| `SyncVariables.AggregateAssigned` | src/translator/sync.rs:101-128 | an aggregate without operands of a synchronisation type is ignored; otherwise it holds exactly their objects in order, and fails exactly if one has none or the place was linked before |
| `SyncVariables.VisitStatements` | src/translator/mir_visitor.rs:37-66 | the memory after the statements of a block |
| `SyncVariables.MoveSyncVariables` | src/translator/sync/thread.rs:112-142 | the memory a thread starts with: the captured aggregate at `_1` and its fields |
| `Translation.Translator.PlacesOfCall` | src/translator.rs:251-357 | start, end and cleanup place of a call for each return target and unwind action |
| `CallPlaces.CallLeads` | src/translator.rs:264-357 | how many transitions a call has and where each of them leads, for each of the eight combinations of return target and unwind action: the block returned to, the cleanup block, the panic place of the thread, the end of the program, or nowhere |
| `CallPlaces.ReturnLeadsBack` | src/translator.rs:451-493 | the return of a called function leads to the block its call returns to, or else where the call unwinds |
| `Translation.Translator.VisitDrop` | src/translator/mir_visitor.rs:96-123 | the transitions of a drop; each unlocks the mutex of a dropped guard, on the unwind path as well |
| `Translation.Translator.CallWithoutReturn` | src/translator/special_function.rs:86-103 | a call that does not return ends in the panic place, or its token disappears |
| `Translation.Translator.CallMemDrop` | src/translator.rs:534-558 | both transitions of the call unlock the mutex of a dropped guard |
| `Translation.Translator.CallDerefMut` | src/translator.rs:572-592 | a mutable dereference of a guard is recorded once with its mutex; other calls are plain calls |
| `Translation.Translator.CallThreadSpawn` | src/translator.rs:622-661 | queues the thread with a copy of the captured aggregate and links its join handle |
| `Translation.Translator.CallLock` | src/translator/sync/mutex.rs:144-170 | the lock takes the token of the mutex resolved through the memory; its unwind path is ignored |
| `Translation.Translator.CallMutexNew` | src/translator/sync/mutex.rs:178-194 | a new place with one token, and a postprocessing task |
| `Translation.Translator.HandleMutexGuardDrop` | src/translator/sync/mutex.rs:200-211 | an unlock arc exactly if the place is linked to a guard |
| `Translation.Translator.NewCondvar` | src/translator/sync/condvar.rs:46-76 | the two places, three transitions and six arcs of a condvar |
| `Translation.Translator.LinkToWaitCall` | src/translator/sync/condvar.rs:87-108 | the wait unlocks the mutex when it starts and locks it when the signal is received |
| `Translation.Translator.CallNotifyOne` | src/translator/sync/condvar.rs:151-170 | the call puts a token into the notify place of the condvar |
| `Translation.Translator.CallWait` | src/translator/sync/condvar.rs:185-217 | links the condvar to the wait, the result to the guard, and queues the task; a second wait fails |
| `Translation.Translator.CallJoin` | src/translator/sync/thread.rs:156-174 | becomes the join transition of its thread; a second join fails |
| `Translation.Translator.CallMirFunction` | src/translator.rs:451-493 | translates the whole called body in place of the call and leaves the caller at its next block, with the call stack as it was |
| `Translation.Translator.VisitBasicBlock` | src/translator/mir_visitor.rs:22-32 | translates one block and everything it calls, or the program is one the translator must reject |
| `Translation.Translator.TranslateTopCallStack` | src/translator.rs:225-234 | translates every point of the frame on top and pops it; what lies below is unchanged; ends because callees have lower numbers |
| `Translation.Translator.PrepareForTranslation` | src/translator/sync/thread.rs:88-105 | start and end place, the arc from the spawn, and the arc to the join if one was found by now |
| `Translation.Translator.TranslateThreads` | src/translator.rs:150-174 | the queue drains, also of threads spawned meanwhile, and every point of the program has been visited |
| `Translation.Translator.LinkToCondvar` | src/translator/sync/mutex.rs:79-115 | the condition places, setters, wait and skip arcs of one mutex and one wait; nothing if the mutex is never set |
| `Translation.Translator.TranslationPostprocessing` | src/translator.rs:179-205 | for any choice among tasks of equal priority, every wait is linked once to every mutex ever set, and the net is the net of the program |
| `Translation.Translator.Run` | src/translator.rs:127-145 | succeeds exactly if no point lacks an effect and no join or wait conflicts; then the net is the net of the program |
| `Translation.Translate` | src/translator.rs:90-205 | the same from a new translator; ends for every well-formed program |
| `Rejections.CallRejectedIff` | src/translator/mir_function/memory.rs:75-206 | the translator gives up on a call exactly if it is a lock, wait, signal or join of something else, a mutable dereference of a mutex place without a guard, a thread without its closure, a missing operand, or a result that cannot be linked |
| `Rejections.BlockRejectedIff` | src/translator/mir_visitor.rs:22-66 | the translator gives up at a block it reaches exactly if it rejects one of its statements or the call at its end |
| `Acceptance.AcceptedIff` | src/translator.rs:127-205 | a well-formed program is accepted exactly if the translator rejects no thread start, statement or call at any of its points, no thread is joined at two points and no condvar waited on at two |
| `Acceptance.CapturesRejectedIff` | src/translator/sync/thread.rs:112-142 | a thread start is rejected exactly if a named field of `_1` has no field number, none of the captured values, or is named twice |
| `Worlds.VisitedInv` | src/translator/mir_visitor.rs:68-182 | visiting a point keeps the whole invariant of the translation: edges, deref lists, condvar links, joins, queues, provenance of values |
| `ThreadQueue.PreparedInv` | src/translator/sync/thread.rs:88-105 | preparing the next thread changes the edges of its spawn and its join and nothing else, and keeps the invariant |
| `Postprocess.LinkedInv` | src/translator/sync/mutex.rs:79-115 | linking one mutex and one wait keeps every edge equal to its blueprint |
| `Uniqueness.OneNet` | src/translator.rs:179-205 | a program has one net, so the order of tasks with equal priority does not matter |
| `Arcs.ArcsHaveEnds` | src/translator/mir_function/terminator.rs:17-118 | every arc of every transition ends in a place of the net |
| `Arcs.TokensOnPlaces` | src/data_structures/petri_net_interface.rs:13-65 | tokens of every run stay on the places of the net |
| `Unfolding.PointsUnfold` | src/translator.rs:364-493 | the points of an accepted program are exactly the blocks of the main function, of the functions that points call and of those they spawn threads for, where a call counts if it has a return or an unwind target |
| `Unfolding.PlacesUnfold` | src/translator.rs:376-493 | the places of its net: one for every such block, except that the first block of a called function has the place of its call; one for every call that creates a mutex, two for a condvar, one for a thread |
| `Points.WayOn` | src/translator/mir_visitor.rs:68-182 | every control place has a way on, if need be through the first block of a called function |
| `Aliases.AliasSoundness` | src/translator/mir_function/memory.rs:75-306 | at every point, every guard, mutex, condvar and handle in memory, and every object an action uses, comes from exactly one creating call of the program |
| `Paths.PathsIffEdges` | src/translator/mir_function/memory.rs:75-206 | for every thread and every choice of needed places: on all paths through blocks, calls, returns and unwinding the program has the objects the translator has, exactly if the memory of the translator agrees with itself along every edge |
| `Paths.ActionsOnPaths` | src/translator/sync/mutex.rs:144-211 | then at the end of every path the net has exactly the transitions for what the program can do there |
| `Paths.MovesAreActions` | src/translator/mir_visitor.rs:68-182 | where the operands of a terminator are looked up alike, the program does what the translator made transitions for |
| `Paths.ResumeLeads` | src/translator/mir_visitor.rs:87-88 | a function that resumes unwinding goes on in the cleanup of the nearest call below it that has one, with the memory of that caller, or leaves the thread; the translator has no such edge |
| `Paths.NextBlock` | src/translator/mir_visitor.rs:22-66 | in a block that only moves objects about, the translator follows the program to the terminator and on to the next block |
| `Captures.AggregateTransfer` | src/translator/sync/thread.rs:112-142 | from the aggregate through the spawn to the memory of the thread: field `k` is the object of the `k`-th synchronisation operand, which is operand `k` exactly if all operands up to `k` are of that kind |
| `Captures.ThreadFindsClosure` | src/translator/sync/thread.rs:112-142 | a spawned thread finds the aggregate of its spawn at `_1`, the named fields of `_1` with their elements, and nothing else |
| `Captures.ReadInThread` | src/translator/sync.rs:153-160 | reading field `k` of `_1` behind a dereference gives the thread element `k` of that aggregate |
| `Captures.CapturedInPlace` | src/translator/sync/thread.rs:127-141 | if the debug information names every captured field, an accepted program captures synchronisation objects only and every field is the operand of its position |
| `Captures.FieldIsShifted` | src/translator/sync.rs:101-128 | an accepted program whose field 0 is operand 1 |
| `Control.ControlConservation` | src/translator/special_function.rs:57-103 | control tokens = 1 + spawns - linked joins - diverging calls - linked waits started + linked waits ended, in every run |
| `Control.OneControlToken` | src/translator.rs:251-361 | sequential code has exactly one control token in every marking |
| `Alarms.NoFalseAlarm` | src/model_checker/lola.rs:21 | if the main thread never blocks, the deadlock formula is false, whatever other threads do |
| `Condvars.WaitEnabledLedger` | src/translator/sync/condvar.rs:46-76 | wait_enabled = 1 + notify_received - wait_start, in every run |
| `Condvars.NotifyLedger` | src/translator/sync/condvar.rs:87-115 | notify = notify_one - lost_signal - notify_received, in every run |
| `Condvars.SignalIsKept` | src/translator/sync/condvar.rs:59-68 | a signal sent to a waiting thread cannot be lost: until it is received, lost_signal and wait_start stay disabled |
| `Condvars.GadgetRefines` | src/translator/sync/condvar.rs:46-76 | the gadget follows the two-state condvar exactly in the runs where wait_enabled never holds two tokens |
| `Condvars.WaitEnabledBound` | src/translator/sync/condvar.rs:97-103 | wait_enabled <= 1 in every reachable marking exactly if in none of them a signal is pending and the mutex free while nobody waits |
| `Permits.PermittedIsBounded` | src/translator/sync/condvar.rs:59-68 | wait_enabled <= 1 in every reachable marking of a program with permits: counts for control places that rise by one over a lock of the mutex of the wait, and fall by one over an unlock and over a signal |
| `Signals.SignalIsInTime` | src/translator/sync/condvar.rs:87-115 | a program that waits with a mutex it locked before it spawned the thread that signals has permits |
| `Witnesses.SpuriousSignal` | src/translator/sync/condvar.rs:66-68 | an accepted program in which wait_enabled reaches two and the main thread is in two places |
| `Conditions.ConditionLedger` | src/translator/sync/mutex.rs:79-115 | condition_set counts the firings that set the mutex, and condition_not_set is its complement |
| `Conditions.WhichConditions` | src/translator/sync/mutex.rs:79-115 | condition places exist exactly for every mutex that is ever set, with every wait of the program, and start as not set |
| `Conditions.ConditionGadget` | src/translator/sync/mutex.rs:79-115 | one of the two places is marked; a mutex is set at most once; all its pairs agree; no wait starts after that; wait and skip exclude each other |
| `Conditions.SetIsPermanent` | src/translator/sync/mutex.rs:99-106 | a condition that is set stays set in every continuation |
| `Waits.WaitEnabledForAll` | src/translator/sync/condvar.rs:87-108 | the tokens of a thread with a single wait never outnumber wait_enabled, but for the times it was started again |
| `Waits.WaitEntryNeverBlocks` | src/translator/sync/mutex.rs:107-114 | in a thread started at most once with a single wait, the wait can start or be skipped whenever it is reached |
| `Mutexes.MutexInvariant` | src/translator/sync/mutex.rs:38-62 | MUTEX + guards held <= 1 in every run of a program with a held-count, and = 1 as long as no thread ends with a guard |
| `Mutexes.MutualExclusion` | src/translator/sync/mutex.rs:38-62 | at most one thread holds the mutex, across all threads, and a place reached by locking twice is never marked |
| `Mutexes.MutexBound` | src/translator/sync/mutex.rs:200-211 | MUTEX <= 1 in every reachable marking exactly if in none of them the mutex is free while a thread is at a drop of a guard or can start a wait that releases it |
| `Mutexes.DisciplinedIsSafe` | src/translator/sync/mutex.rs:53-62 | with a held-count, MUTEX <= 1 in every run |
| `SequentialCode.NeverReported` | src/model_checker/lola.rs:21 | sequential code that never locks a mutex it holds is never reported as deadlocked |
| `Witnesses.DoubleUnlock` | src/translator/mir_visitor.rs:117-121 | an accepted program whose unwind path leaves two tokens in a mutex |
| `Joins.JoinWaitsIffLocal` | src/translator/sync/thread.rs:96-98 | a join has the arc from the end of its thread exactly if it is in the thread that spawned it |
| `Joins.JoinElsewhere` | src/translator/sync/thread.rs:96-98 | an accepted program and a run in which the join has gone on while its thread has not ended |
| `Simulation.MovesInNet` | src/translator/mir_visitor.rs:68-182 | what a running thread can do, by its own memory, is what its point can do in the net |
| `Simulation.ReadyIffEnabled` | src/translator/sync/mutex.rs:144-211 | an action that can be taken in a state has an enabled transition in the marking, and exactly those once every thread that is over for the net has cleaned up |
| `Simulation.ActionSimulated` | src/translator/mir_visitor.rs:68-182 | taking a move of a thread and firing its transition lead to a state and a marking that correspond again |
| `Verdict.EnterSimulated` | src/translator.rs:451-493 | entering a called function is silent in the net, because block 0 shares the place of the caller |
| `Verdict.EntryNeverWaits` | src/translator.rs:451-493 | the first block of a called function has nothing to lock or join, because the translator starts it with an empty memory |
| `Verdict.TakenTracking` | src/translator/mir_function/memory.rs:75-206 | after every move, all threads have the objects the translator has wherever they matter |
| `Verdict.CleanupUnseen` | src/translator/mir_visitor.rs:87-88 | a spawned thread that cleans up after a function it called changes nothing the net knows of |
| `Verdict.CleanedUp` | src/translator/mir_visitor.rs:87-88 | such a thread can always clean up to its end, so that those who join it can go on |
| `Verdict.EveryStateMatched` | src/translator.rs:127-174 | every state the program can reach is matched by a marking the net can reach: one with a token for every thread and every free mutex until the main thread is over, one with a token in the end or panic place from then on |
| `Verdict.EveryMarkingMatched` | src/translator.rs:127-174 | every marking the net can reach is matched in the same way by a state the program can reach |
| `Verdict.ReportedIffStalled` | src/model_checker/lola.rs:21 | the deadlock formula holds exactly if the program can get to a state in which no thread goes on, other than those in a diverging call, before the main thread is over |
| `Verdict.VerdictIsCorrect` | src/model_checker/lola.rs:21 | without diverging calls the deadlock formula holds exactly if the threads can get stuck before the main thread is over |
| `Verdicts.FoundDeadlock` | src/model_checker/lola.rs:21 | a covered program that locks its mutex twice gets stuck and is reported |
| `Verdicts.NoDeadlock` | src/model_checker/lola.rs:21 | a covered program that locks its mutex once never gets stuck and is not reported |
| `Verdicts.MissedDeadlock` | src/translator/mir_function/memory.rs:188-206 | an accepted program that gets stuck and is not reported, and that no choice of needed places and held-counts covers |
| `Verdicts.FalseAlarm` | src/translator/special_function.rs:86-91 | an accepted program with a call that never returns, which never gets stuck and is reported |
| `Cleanups.LostCleanup` | src/translator/mir_visitor.rs:87-88 | an accepted program with a thread that holds a guard while a function it called unwinds: it never gets stuck, is reported, and no notes cover it |
| `CoveredThreads.CoveredWithThreads` | src/translator/mir_visitor.rs:87-88 | a program whose thread drops its guard before it calls the function that may unwind is covered, so the verdict on it is correct |
| `PlainCode.PlainIsAccepted` | src/translator.rs:251-361 | every program without synchronisation objects, synchronising, spawning and diverging calls is accepted |
| `SyncFree.ControlFlowIsExact` | src/translator.rs:251-361 | the states of such a program and the markings of its net match each other, there is one control token in every marking, nothing is reported, and the program never gets stuck |
| `Objects.CreatedOnce` | src/translator/sync/mutex.rs:178-194 | in no execution of a program with a budget for a creating call this call creates a second object, so naming objects after their creating calls is exact |
| `Objects.VerdictOnObjects` | src/model_checker/lola.rs:21 | with a budget for every creating call, every name stands for at most one object in every state the program can reach, and the verdict is correct |
| `Objects.LockTwiceOnOneMutex` | src/translator/sync/mutex.rs:178-194 | the program that locks twice has such budgets, so its deadlock is on one mutex |
| `Objects.CreatedTwice` | src/translator/sync/mutex.rs:178-194 | an accepted program that reaches a state with two mutexes of one name, and has no budget for their call |
| `CallIndices.HashMapCounter.Increment` | src/data_structures/hash_map_counter.rs:23-29 | one more for this key, no other change |
| `CallIndices.HashMapCounter.GetCount` | src/data_structures/hash_map_counter.rs:32-39 | the count of the key, which is added if it is new |
| `CallIndices.TranslateBody` | src/translator.rs:359-360 | the indices read by the calls of a body and the counts after it, when the counter is incremented after the called body and calls that do not return are not counted; with different names they are the counts before plus the earlier calls of the same function |
| `CallIndices.TranslateCalls` | src/translator.rs:319-360 | the same for the main function and the threads with one counter, for any order of the threads, that of the queue included; with different names every call reads the number of earlier calls of the same function |
| `CallIndices.IndexRead` | src/translator.rs:457-457 | a call reads the earlier calls of its name less those it is nested in |
| `CallIndices.CallIndex` | src/translator.rs:457-457 | the k-th call of a name reads k - 1 exactly if it is not nested in a call of that name |
| `CallIndices.ProgramIndices` | src/translator.rs:359-360 | in a program without recursion whose functions have different names, the k-th call of every name reads k - 1 |
| `CallIndices.OneCounterPerFunction` | src/translator.rs:376-420 | two calls share a counter exactly if they are calls of one library function or of functions of one name |
| `CallIndices.CalleeIndices` | src/translator.rs:359-400 | in such a program every call reads the number of earlier calls of the same function, where all calls count but those with neither a return nor an unwind target |
| `CallIndices.NewAndLockAreApart` | src/translator.rs:400-400 | creating a mutex and locking it have index zero each |
| `CallIndices.SameNameFails` | src/translator.rs:457-457 | an accepted program with two functions of one name whose second call reads zero again |
| `Naming.SanitizedIsClean` | src/naming.rs:33-42 | no rejected character and no double colon is left |
| `NamePatterns.GenericsBecome` | src/naming.rs:35-38 | behind a clean part, `<T>` and `[T]` become `T`, `<T, A>` becomes `T_A` and `<'a>` becomes `a`, and the rest is sanitised on its own |
| `NamePatterns.PathBecomes` | src/naming.rs:39-39 | behind a clean part, `::` becomes one underscore and the rest is sanitised on its own, exactly if that part neither ends in a colon nor is a `Result` with its parameters next |
| `NamePatterns.ResultBecomes` | src/naming.rs:40-40 | behind a clean part, the parameters of `Result::<T, E>` and of `Result_<T, E>` are dropped |
| `NamePatterns.CharacterBecomes` | src/naming.rs:41-41 | behind a clean part, each other rejected character becomes one underscore |
| `NamePatterns.BracketBecomes` | src/naming.rs:41-41 | so does an opening bracket that starts none of the patterns |
| `NamePatterns.NameOfLock` | src/naming.rs:33-42 | the name of a lock, for example |
| `Naming.SanitizeIsIdempotent` | src/naming.rs:33-42 | sanitising twice changes nothing more |
| `Naming.SanitizeIsNotInjective` | src/naming.rs:33-42 | two names with the same sanitised form |
| `Naming.KeptIffClean` | src/naming.rs:33-42 | a name is kept exactly if it is clean; any other name collides with its sanitised form |
| `Naming.LabelsDifferIffClean` | src/naming.rs:33-42 | among names that include their sanitised forms, all labels differ exactly if all names are clean |
| `Naming.IndexedLabel` | src/naming/function.rs:17-19 | labels of a called function start with its indexed name, although that is sanitised again |
| `NamePatterns.IndexedNamesDiffer` | src/naming/function.rs:17-19 | calls of one function have the same name, and the same labels, exactly if they have the same index |
| `Naming.LabelsAreUnique` | src/naming/basic_block.rs:17-74 | within a function, a label determines its kind and its block indices |
| `NamePatterns.LabelsOfMain` | src/naming/basic_block.rs:17-74 | the labels of the blocks of the main function, for example |

## Left out

- Verdict.VerdictIsCorrect: covers programs that synchronise with mutexes, spawns and joins only, join a thread in the thread that spawned it, have a held-count for every mutex, in which the memory of the translator agrees with the program along every edge, and which clean up well; condvars are left to the theorems about their gadget, which does not follow a condvar in every run.
- Simulation.CleansUp: asks of the blocks in which unwinding goes on below a called function that they neither wait nor diverge, and in a spawned thread also that they call, lock, unlock, spawn and return nothing and can come to an end, and that a spawned thread never aborts the program; this is sufficient, not necessary.
- Objects.CreatedOnce: objects are named after the call that creates them, in the net and in the program, so a creating call that is executed twice stands for one object in both; the budget is a sufficient condition under which none is.
- Verdict.EveryStateMatched: once the main thread is over, what the other threads still do is not matched, since its end ends the process.
- Verdict.EveryMarkingMatched: likewise.
- Machine.Moves: the memory of the program is by place as MIR writes it; an assignment to a place does not change what places that overlap it hold, and a library function is taken to return what it gets as its first argument. A call with a cleanup may unwind at once, whatever it calls; a terminator without an unwinding edge is taken not to unwind; a call that neither returns nor panics takes for ever.
- Permits.PermittedIsBounded: sufficient only; the exact condition is that of `Condvars.WaitEnabledBound`.
- Labels of nodes and the call counter are not part of the translator class: nodes are identified by what they stand for, and naming and call indices are modelled on their own.
- Global uniqueness of labels across frames, which the source does not provide, and thread indices, which are queue lengths and can repeat.
- The compiler interface: types, closures and called functions are abstracted as described above; function pointers, recursion and the terminators the source does not implement are excluded.
- The net library, the file formats, running the model checker, the command line, logging, and overflow of machine integers.
