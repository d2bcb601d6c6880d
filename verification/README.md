# Cancel-safe IRP queues, the SEH chain and COFF type words

A Dafny model of three pieces of the kernel tree, with proofs.

**The cancel-safe IRP queues** (`doc/irp cancel boilerplate.c`, with `IoCancelIrp` from
`ntoskrnl/io/cancel.c`, the list primitives from `include/ntos/rtl.h` and the asserts of
`IofCompleteRequest`). Any number of threads run QUEUE, DEQUEUE and `IoCancelIrp` followed by
CancelRoutine, over any number of IRPs and any number of queues, each queue with a lock of its
own and all sharing the cancel spin lock, interleaved at every lock operation, every
`IoSetCancelRoutine` and every other access to an IRP. CancelRoutine knows only the IRP and works
with whatever lock it finds there.

- `ListHeap` is the heap of `LIST_ENTRY` cells and the four list primitives, store by store.
- `CancelModel` is the machine: one program counter per thread, named after the source line
  about to be executed (`Q38` is line 38 of QUEUE, `I215` line 215 of `IoCancelIrp`, `C21` line
  21 of CancelRoutine). `Reachable` states are those some interleaving leads to from a start
  state in which IRPs hold arbitrary data apart from an empty cancel slot.
- `CancelInvariant` is the invariant every action keeps; `CancelSafety` and `CancelProgress` draw
  the consequences.
- `CancelRace` exhibits four runs, so that the delicate states are known to occur.
- `CancelSpec` is what a client is promised: FIFOs of requests, each decided once, without
  threads, locks or list cells. `CancelRefinement` shows every interleaving to be one of its
  histories; each IRP is decided at the `IoSetCancelRoutine` that takes its token, while list
  removals lag behind. `CancelHistory` has the laws of those histories, told by their events alone.
  `QueueLog` and `CancelFifo` are about order.
- `CancelCalls` and `CancelOutcome` tie runs to the calls in their schedules: each routine works on
  the IRP, the queue and the interrupt level its thread called it with, and what becomes of an
  IRP is stated by who submitted, cancelled and dequeued.
- `CancelKernel` is the machine in the source's own form: IRP and list entry objects linked by
  pointers and updated in place, one method per stretch of lines, each proved to do exactly what
  `CancelModel` says and never to follow a null pointer.

The machine carries bookkeeping fields that the code does not have (`place`, `token`,
`completions`, `queues`). No line branches on them; only the rule that an IRP is submitted once
reads one.

Three points where the code relies on its caller. DEQUEUE does not test for an empty queue before
`RemoveHeadList` (line 73), so a dequeuer of the model takes the lock only when the queue is not
empty; `ListHeap.HeadEntryIsQueued` says what line 73 would return otherwise. Each IRP is
submitted once. `IoCancelIrp` reads and writes the IRP at lines 213 and 215 without owning it, so
keeping the IRP alive there is its caller's duty (`CancelRace.LateCancelFindsCompleted` shows that
the danger is real), and the no-touch property is about all other accesses. That the access sets
it speaks of miss neither a write nor a read is `CancelSafety.WritesAreTouches` and
`CancelSafety.ReadsAreTouches`.

**The SEH registration chain** (`include/excpt.h`). `SehChain` is a machine with esp, fs:0, eax and
stack memory, the two macros as instruction sequences, and programs that put up and take down
guards. `SehChain.LeavesUndoEntersIff` makes the header's warning (lines 105-107) precise for bodies
that follow no discipline at all. `SehCode` has structured programs, nested guarded bodies that may
assign to the locals of any enclosing body, and shows that chain and locals follow the source.

**The COFF symbol type word** (`include/coff.h`). `CoffType` writes the macros with C's bitwise
operators, defined bit by bit on two's complement integers of unlimited width. The expectation
that repeated `DECREF` always ends at the base type is false for a negative word (-1 is its own
`DECREF`, `CoffType.MinusOneIsFixed`); `CoffType.PeelEndsIffNonNegative` gives the exact condition.
`e_type` is unsigned, so no word of it is such an input (`CoffType.UnsignedPeels`).

Every lemma carries `{:induction false}`: inductions are written out and nothing rests on automatic
induction.

## Model

| member | source | states |
|---|---|---|
| ListHeap.InsertTailKeepsRing | include/ntos/rtl.h:139-150 | the four stores turn a ring for q into a ring for q plus the new entry, and leave unrelated cells alone |
| ListHeap.RemoveEntryKeepsRing | include/ntos/rtl.h:211-223 | unlinking any queued entry gives the ring without exactly that entry |
| ListHeap.RemoveEntryReportsEmpty | include/ntos/rtl.h:211-223 | the BOOLEAN RemoveEntryList returns is true exactly if the list is left empty |
| ListHeap.RemoveHeadKeepsRing | include/ntos/rtl.h:241-253 | returns the first entry, gives the ring of the rest, and leaves the removed entry's own links stale |
| ListHeap.SelfLinkKeepsRing | include/ntos/rtl.h:91-96 | self-linking an entry outside the list does not disturb the list |
| ListHeap.RemoveSelfLinked | doc/irp cancel boilerplate.c:77-83 | unlinking a self-linked entry changes no cell |
| ListHeap.StaleEntryLosesTheQueue | doc/irp cancel boilerplate.c:77-83 | without the self-link, the second removal of a dequeued entry throws away an IRP queued in between |
| ListHeap.HeadEntryIsQueued | doc/irp cancel boilerplate.c:73 | RemoveHeadList returns an entry and not the list head exactly when the list is not empty |
| ListHeap.RingIsUnique | include/ntos/rtl.h:81-150 | a heap represents at most one sequence |
| CancelInvariant.InitInv | doc/irp cancel boilerplate.c:10-103 | every start state, whatever its IRPs contain, satisfies the invariant |
| CancelInvariant.StepKeepsInv | doc/irp cancel boilerplate.c:10-103 | every action of every thread keeps the invariant |
| CancelInvariant.RunKeepsInv | doc/irp cancel boilerplate.c:10-103 | every interleaving of any length keeps it |
| CancelInvariant.EntryAtUnlink | doc/irp cancel boilerplate.c:18-21 | at line 21 the lock that CancelRoutine found is the one the IRP knows, an existing queue's, and the entry is linked or self-linked |
| CancelInvariant.OffListUnderLock | doc/irp cancel boilerplate.c:34-85 | an armed or decided IRP that QUEUE has yet to insert (lines 39 to 62) or DEQUEUE has just removed (lines 75 to 83) is in the hands of the thread holding the lock the IRP knows; IRPs won at lines 39 and 75 are off this statement, their winner owns them without a lock |
| CancelInvariant.ListGuarded | doc/irp cancel boilerplate.c:20-85 | only the thread holding a queue's lock changes that queue's list, its links or its contents |
| CancelInvariant.ListStable | doc/irp cancel boilerplate.c:20-85 | while a thread holds a queue's lock no other thread's action changes that list |
| CancelSafety.TokenInOnePlace | doc/irp cancel boilerplate.c:27-103 | at any time the right to complete an IRP is with the slot, with exactly one thread, or spent by one completion; completions never exceed one |
| CancelSafety.CompletionAsserts | ntoskrnl/io/irp.c:310-311 | every IoCompleteRequest is made by the token's owner, is the first, and finds the cancel routine NULL and the status final, not pending |
| CancelSafety.StatusMatchesWinner | doc/irp cancel boilerplate.c:24-101 | a completed IRP reports success exactly if a dequeuer won it, cancelled exactly if the canceller or QUEUE's abort path did, and unless QUEUE aborted it is still marked pending |
| CancelSafety.ReturnsTellOwner | ntoskrnl/io/cancel.c:215-224 | IoCancelIrp returns TRUE, after completing the IRP, exactly if this call took the token, and QUEUE returns FALSE exactly if its abort path did |
| CancelSafety.ResultsEndRoutines | doc/irp cancel boilerplate.c:53-101 | a value is returned only by the action that ends the routine; IoCancelIrp always returns one, QUEUE none but FALSE, DEQUEUE none |
| CancelSafety.CancelIrqlIntact | ntoskrnl/io/cancel.c:211-223 | when CancelRoutine gives the cancel spin lock back with Irp->CancelIrql, that is still the level IoCancelIrp took the lock from, so a canceller ends at the level it came from |
| CancelSafety.ListIntegrity | doc/irp cancel boilerplate.c:62-85 | for every queue the heap always represents exactly one duplicate-free sequence, of pending, marked, uncompleted IRPs that know that queue's lock |
| CancelSafety.OneQueuePerIrp | doc/irp cancel boilerplate.c:36-62 | no IRP is ever on two queues |
| CancelSafety.CancelRoutineOperands | doc/irp cancel boilerplate.c:16-22 | the lock found in DriverContext[3] at line 18 is an existing queue's, and the only queue that can hold the IRP is that one; at line 21 CancelRoutine holds it and the entry is linked in that queue or self-linked |
| CancelSafety.UnlinkRemovesOnlyTheIrp | doc/irp cancel boilerplate.c:21 | line 21 removes exactly that IRP from exactly that queue if it is there, and nothing otherwise, and every list stays a ring |
| CancelSafety.NoTouchAfterCompletion | doc/irp cancel boilerplate.c:10-103 | no access in the sets of Touches, those to list neighbours included, hits a completed IRP or an address outside the heap; lines 213 and 215 of IoCancelIrp are not in the sets |
| CancelSafety.WritesAreTouches | doc/irp cancel boilerplate.c:10-103 | the sets miss no write: an IRP outside them, and its list entry, stay as they are, except for the cancel flag and slot at lines 213 and 215 of IoCancelIrp |
| CancelSafety.ReadsAreTouches | doc/irp cancel boilerplate.c:10-103 | the sets miss no read: with an IRP outside them, and its list entry, replaced by anything, every action other than lines 213 and 215 of IoCancelIrp is still enabled and does the same to everything else |
| CancelSafety.CompletedIsFrozen | doc/irp cancel boilerplate.c:24-101 | no action changes a completed IRP or its list entry, apart from its cancel flag |
| CancelSafety.CompletedForever | doc/irp cancel boilerplate.c:24-101 | over every later run a completed IRP keeps its status and its single completion |
| CancelSafety.NoLostCancellation | doc/irp cancel boilerplate.c:38-54 | an armed IRP with its Cancel flag set is at QUEUE's re-check or has a canceller about to swap the slot under the cancel spin lock; one whose slot was swapped out and that is not completed has an owner on the way to completing it |
| CancelSafety.QueuedRequestHasCanceller | doc/irp cancel boilerplate.c:18-54 | a queued IRP with its Cancel flag set has a canceller that has won it and has yet to unlink it, or one about to swap the slot |
| CancelSafety.Conservation | doc/irp cancel boilerplate.c:21-103 | submitted IRPs are the queued ones of all queues, the held and the completed ones, without overlap, and the counts add up |
| CancelSafety.OneHolder | doc/irp cancel boilerplate.c:21-103 | no two threads hold the same IRP off the list |
| CancelRace.DoubleRemovalHappens | doc/irp cancel boilerplate.c:75-85 | a reachable state in which DEQUEUE has self-linked an IRP that a committed canceller will unlink again |
| CancelRace.LateCancelFindsCompleted | ntoskrnl/io/cancel.c:211-215 | a reachable state in which IoCancelIrp is about to write an IRP a dequeuer has completed |
| CancelRace.QueueSwapLoses | doc/irp cancel boilerplate.c:38-59 | a reachable state in which QUEUE's second swap finds its routine taken by a canceller, after which QUEUE goes on to accept the IRP |
| CancelRace.QueueSwapWins | doc/irp cancel boilerplate.c:38-47 | a reachable state in which QUEUE has disarmed a requested IRP and the canceller found nothing to call |
| CancelProgress.LockHolderRuns | doc/irp cancel boilerplate.c:16-20 | a thread holding any queue's lock or the cancel spin lock never waits |
| CancelProgress.WaitsForNothingElse | doc/irp cancel boilerplate.c:16-101 | line by line and exactly: a thread can go on at lines 34 and 20 if and only if the lock it names or found is free, at line 71 if and only if that lock is free and the queue not empty, on entering IoCancelIrp if and only if the cancel spin lock is free, and at every other line always |
| CancelProgress.EnabledUnlessWaiting | doc/irp cancel boilerplate.c:10-103 | a thread inside a routine is held up by a lock, or by an empty queue before line 73, and by nothing else |
| CancelProgress.SomeThreadRuns | doc/irp cancel boilerplate.c:16-97 | deadlock freedom across all queue locks and the cancel spin lock: while a thread is inside a routine, and not before line 73 of an empty queue, some thread can act |
| CancelProgress.StepUsesWork | doc/irp cancel boilerplate.c:10-103 | every action inside a routine strictly decreases the work left |
| CancelProgress.Terminates | doc/irp cancel boilerplate.c:10-103 | without new calls no interleaving is longer than the work left |
| CancelProgress.NothingLeftUndone | doc/irp cancel boilerplate.c:16-101 | when no thread can go on, all locks are free and every IRP is unsubmitted, waiting uncancelled, or completed with its winner's status |
| CancelProgress.CanDrain | doc/irp cancel boilerplate.c:16-101 | every reachable state leads, without new calls, to such a state |
| CancelProgress.EveryFullRunSettles | doc/irp cancel boilerplate.c:16-101 | whatever the scheduler chooses, it gets there within the work left |
| CancelSpec.DecidedOnce | doc/irp cancel boilerplate.c:38-101 | in the specification each request is decided at most once and finished at most once |
| CancelSpec.DecidedStays | doc/irp cancel boilerplate.c:38-101 | a decided request is never decided again, a finished one never finished again |
| CancelSpec.FinishedIffServed | doc/irp cancel boilerplate.c:38-101 | a request that starts new ends finished exactly if it was decided at exactly one event and finished at exactly one later event, with success if and only if a consumer took it |
| CancelHistory.CancelledWasRequested | ntoskrnl/io/cancel.c:213-215 | in every history a request that is withdrawn or rejected was asked for at the start or by an earlier Request event |
| CancelHistory.LeftWasSubmitted | doc/irp cancel boilerplate.c:34-75 | a request leaves only a FIFO it has joined |
| CancelHistory.ArrivesOnce | doc/irp cancel boilerplate.c:34-38 | no request joins twice, whatever the FIFOs |
| CancelHistory.RejectedIsNewest | doc/irp cancel boilerplate.c:34-47 | a request is rejected only as the newest of its FIFO: everything that joined after it has left before |
| CancelRefinement.StepSimulates | doc/irp cancel boilerplate.c:10-103 | each action of a thread is one legal step of the specification, silent unless it arms, decides, flags or completes an IRP |
| CancelRefinement.RunRefines | doc/irp cancel boilerplate.c:10-103 | every interleaving is a history of the specification and ends in its state |
| CancelRefinement.InitRefines | doc/irp cancel boilerplate.c:10-103 | a start state stands for empty FIFOs and new requests |
| CancelRefinement.DecidedOncePerRun | doc/irp cancel boilerplate.c:38-101 | in any run each token is taken at most once and each IRP completed at most once |
| CancelRefinement.CompletedIffServed | doc/irp cancel boilerplate.c:38-101 | after any run from a start state an IRP is completed exactly if its token was taken exactly once and the IRP completed exactly once after that, successfully if and only if DEQUEUE took the token |
| QueueLog.Fifo | doc/irp cancel boilerplate.c:21-73 | the general law: arrivals without the deleted ones are the removals followed by what is left |
| CancelFifo.ListIsFifo | doc/irp cancel boilerplate.c:21-73 | for every queue RemoveHeadList returns IRPs in InsertTailList order, cancellations only delete from it |
| CancelFifo.WonInArmingOrder | doc/irp cancel boilerplate.c:38-75 | dequeuers win the IRPs of a queue in the order QUEUE armed them, cancelled and rejected ones left out |
| CancelFifo.SpecIsFifo | doc/irp cancel boilerplate.c:38-75 | the same for every FIFO in every history of the specification |
| CancelCalls.RoutineServesCall | doc/irp cancel boilerplate.c:34-103 | after any run from a start state a thread inside a routine executes its last call: QUEUE works on the IRP and the queue of that call, DEQUEUE on its queue, IoCancelIrp and CancelRoutine on its IRP and level |
| CancelCalls.CallEnters | doc/irp cancel boilerplate.c:34-71 | an idle thread that calls is inside the routine called, with these operands, at once |
| CancelCalls.ListEntryServesCall | doc/irp cancel boilerplate.c:21-73 | in every run a push onto a queue's list has an earlier call by the same thread to submit that IRP to that queue, a removal from its head an earlier call to dequeue from it, an unlinking an earlier call to cancel that IRP |
| CancelCalls.QueuedWasSubmitted | doc/irp cancel boilerplate.c:34-62 | an IRP linked in a queue was submitted to that queue |
| CancelCalls.SubmittedOnce | doc/irp cancel boilerplate.c:34-62 | no IRP is submitted twice in a run |
| CancelCalls.IdleMayCall | doc/irp cancel boilerplate.c:34-71 | after any run an idle thread may submit exactly the IRPs not submitted before, flagged or not, to every queue, and may call DEQUEUE on every queue and IoCancelIrp on every IRP at every level |
| CancelCalls.FlagServesCall | ntoskrnl/io/cancel.c:213-222 | whenever a turn changes the cancel flag or CancelIrql of an IRP, its thread's last call is to cancel that IRP; the flag is then set, the level is that call's |
| CancelCalls.FlaggedWasCancelled | ntoskrnl/io/cancel.c:213 | a cancel flag set at the end of a run was set at the start or somebody called IoCancelIrp for the IRP |
| CancelCalls.LevelServesCall | doc/irp cancel boilerplate.c:16 | CancelRoutine finds in CancelIrql the level of the call of IoCancelIrp that led to it |
| CancelCalls.EventServesCall | doc/irp cancel boilerplate.c:34-103 | every event a client sees is done for an earlier call by the same thread that asks for it, on that queue and that request |
| CancelCalls.RejectedJoinedLast | doc/irp cancel boilerplate.c:34-47 | when QUEUE rejects an IRP nothing has joined that queue since QUEUE armed it |
| CancelOutcome.CancelledWasAskedFor | doc/irp cancel boilerplate.c:24-51 | an IRP completed as cancelled had its flag set at the start or somebody called IoCancelIrp for it |
| CancelOutcome.SuccessWasFetched | doc/irp cancel boilerplate.c:73-101 | an IRP completed successfully was submitted to a queue from which somebody called to dequeue |
| CancelOutcome.CancelSetsFlag | ntoskrnl/io/cancel.c:211-213 | after a call of IoCancelIrp the IRP's flag is set, unless the caller has yet to take the spin lock or set it |
| CancelOutcome.FullRunOutcome | doc/irp cancel boilerplate.c:10-103 | once no thread can go on, an IRP submitted to queue k is completed, or linked in queue k with nobody ever having asked to cancel it; so every cancel call on a submitted IRP ends in a completion, cancelled only if asked for, successful only if somebody dequeued from queue k |
| CancelKernel.Kernel.constructor | include/ntos/rtl.h:91-96 | initialising every list head, whatever the entries' links and the IRPs' fields held before, gives a start state; only the cancel slots must be empty |
| CancelKernel.Kernel.InitializeListHead | include/ntos/rtl.h:91-96 | in place on pointers, exactly the specification's heap |
| CancelKernel.Kernel.InsertTailList | include/ntos/rtl.h:139-150 | in place on pointers, exactly the specification's heap |
| CancelKernel.Kernel.RemoveEntryList | include/ntos/rtl.h:211-223 | in place on pointers, exactly the specification's heap, and the BOOLEAN |
| CancelKernel.Kernel.RemoveHeadList | include/ntos/rtl.h:241-253 | in place on pointers, exactly the specification's heap and the entry returned |
| CancelKernel.IrpObject.IoSetCancelRoutine | include/ddk/iofuncs.h:970-972 | swaps the slot and returns what it held |
| CancelKernel.IrpObject.IoCompleteRequest | ntoskrnl/io/irp.c:310-311 | callable only with the cancel routine NULL and the status not pending; counts the completion |
| CancelKernel.Kernel.QueueArm | doc/irp cancel boilerplate.c:34-39 | in place, the specified action of lines 34 to 39 |
| CancelKernel.Kernel.QueueDisarm | doc/irp cancel boilerplate.c:39 | in place, the specified action of QUEUE's second swap |
| CancelKernel.Kernel.QueueAbort | doc/irp cancel boilerplate.c:47-53 | in place, the specified actions of the abort path, returning FALSE at its end |
| CancelKernel.Kernel.QueueAccept | doc/irp cancel boilerplate.c:59-64 | in place, the specified action of lines 59, 60 and 64 |
| CancelKernel.Kernel.QueueInsert | doc/irp cancel boilerplate.c:62 | in place, the insertion at the tail |
| CancelKernel.Kernel.Fetch | doc/irp cancel boilerplate.c:71-73 | in place, taking the queue's lock and its head entry |
| CancelKernel.Kernel.DequeueDisarm | doc/irp cancel boilerplate.c:75 | in place, the specified action of DEQUEUE's swap |
| CancelKernel.Kernel.Dequeue | doc/irp cancel boilerplate.c:85-101 | in place, the specified actions of both branches |
| CancelKernel.Kernel.DequeueSelfLink | doc/irp cancel boilerplate.c:83 | in place, self-linking the lost entry |
| CancelKernel.Kernel.IoCancelIrp | ntoskrnl/io/cancel.c:203-225 | in place, flag, swap, CancelIrql, and releasing the spin lock with the result FALSE if no routine was set |
| CancelKernel.Kernel.CancelLock | doc/irp cancel boilerplate.c:16-20 | in place, releasing the spin lock and taking the lock found in the IRP |
| CancelKernel.Kernel.CancelUnlink | doc/irp cancel boilerplate.c:21 | in place, unlinking an entry whose links are never null |
| CancelKernel.Kernel.CancelUnlock | doc/irp cancel boilerplate.c:22 | in place, releasing the lock found in the IRP |
| CancelKernel.Kernel.CancelFinish | doc/irp cancel boilerplate.c:24-27 | in place, setting the status and completing, after which IoCancelIrp returns TRUE |
| CancelKernel.Kernel.Step | doc/irp cancel boilerplate.c:10-103 | one action of any thread is the specified one and returns what the source returns there |
| CancelKernel.Kernel.Execute | doc/irp cancel boilerplate.c:10-103 | any interleaving executed in place ends in the specified state and keeps the invariant |
| SehChain.Machine.TryOne | include/excpt.h:94-95 | the three instructions lay an EXCEPTION_REGISTRATION at the new esp, linked to the old fs:0, and point fs:0 at it |
| SehChain.Machine.ExceptOne | include/excpt.h:109-111 | the three instructions, in place: fs:0 and eax become the prev word at esp, esp moves past the registration |
| SehChain.Machine.Execute | include/excpt.h:94-111 | runs any program in place as specified |
| SehChain.ExecRepresents | include/excpt.h:94-111 | each instruction, stores into older words past any number of registrations included, keeps the correspondence between memory and what the program has on the stack |
| SehChain.BalancedRestores | include/excpt.h:98-111 | a well-nested program that takes down what it put up restores fs:0, esp and every word at or above the starting esp |
| SehChain.GuardedRestores | include/excpt.h:94-111 | a guarded body that is balanced leaves fs:0, esp and the stack above as they were, and the outer fs:0 in eax |
| SehChain.WalkFindsHandlers | include/excpt.h:78-111 | at every point of a well-nested program the walk from fs:0 finds the installed handlers, most recent first, then the outer chain, at increasing addresses |
| SehChain.WalkIsUnique | include/excpt.h:78-82 | the walk is determined by memory |
| SehChain.LeavesUndoEntersIff | include/excpt.h:98-111 | for guards nested to any depth around any body whatever, each __except1 undoes its own __try1 if and only if after the body esp is at the innermost registration and the prev word of every registration is what its __try1 stored |
| SehChain.UnbalancedLeaveSmashes | include/excpt.h:105-107 | with one word too many on the stack __except1 loads that word into fs:0 |
| SehCode.NestedCodeRestores | include/excpt.h:98-111 | the same for guarded bodies nested in any way that declare locals and assign to their own or any enclosing body's locals |
| SehCode.WalkFollowsNesting | include/excpt.h:78-111 | at every point of such a program the walk from fs:0 finds exactly the handlers of the guarded bodies around that point, innermost first, then the outer chain, at increasing addresses |
| SehCode.LocalsHold | include/excpt.h:94-111 | at every point every declared word holds what the source last put there, however many registrations lie between |
| SehCode.FirstInstruction | include/excpt.h:94-95 | a guarded body starts with its own handler in the registration at fs:0, a local with its value at esp, and an assignment stores its value in the word it names and in no other |
| CoffType.MacroValues | include/coff.h:255-266 | the masks, shifts and codes of the macros in numerals, for every integer: BTYPE is x mod 16, ISPTR, ISFCN and ISARY say that bits 4 and 5 read 1, 2 and 3, DECREF drops those two bits |
| CoffType.WordValues | include/coff.h:255-258 | one more pointer, function or array derivation shifts those present up by two bits and adds 16, 32 or 48 |
| CoffType.DecrefPops | include/coff.h:266 | for every word DECREF keeps BTYPE, drops exactly the lowest derived code and decreases what is above N_BTMASK |
| CoffType.DecrefEncode | include/coff.h:260-266 | on an encoded type ISPTR, ISFCN and ISARY say which the first derivation is and DECREF drops it |
| CoffType.DecodeEncode | include/coff.h:163-266 | every base type below 16 with every list of derivations comes back from its word |
| CoffType.EncodeDecode | include/coff.h:163-266 | every non-negative word is the encoding of what it decodes to |
| CoffType.EncodeInjective | include/coff.h:163-266 | different types have different words |
| CoffType.FitsInType | include/coff.h:158 | a type fits the 16-bit e_type exactly if it has at most six derivations |
| CoffType.PeelEndsIffNonNegative | include/coff.h:266 | repeated DECREF reaches the base type exactly when the word is not negative |
| CoffType.MinusOneIsFixed | include/coff.h:266 | the input on which repeated DECREF never ends: -1 is its own DECREF |
| CoffType.UnsignedPeels | include/coff.h:158 | from any e_type word repeated DECREF reaches the base type within six steps, through e_type words only |

## Left out

- IRQL values beyond carrying `CancelIrql` from IoCancelIrp to CancelRoutine, and with them the IRQL assert at ntoskrnl/io/irp.c:309; priority boosts, device objects (with the stack location read at ntoskrnl/io/cancel.c:223, while the canceller owns the IRP) and `IoStatus.Information`: no branch depends on them.
- The rest of `IofCompleteRequest` (completion routines, freeing the IRP): completion counts as one event.
- Lock implementation: acquiring is one action, possible when the lock is free. No fairness between waiting threads is assumed or claimed.
- Accesses inside one list primitive are one action: every list primitive runs with the queue's lock held, and by `CancelInvariant.ListGuarded` and `CancelInvariant.ListStable` nobody else changes the list meanwhile.
- Completion order: completion follows the unlocking, so only the order in which IRPs are removed and won is stated.
- CancelKernel.IrpObject.IoCompleteRequest: the asserts at lines 310 and 311 are preconditions rather than checks, because `CancelSafety.CompletionAsserts` shows they hold.
- `ntoskrnl/fs/filelock.c` and `ntoskrnl/fs/notify.c`, which use the same cancellation pattern with removals from the middle of the list.
- The exception dispatcher that walks the SEH chain, and handler operands of `__try1` that are themselves relative to esp.
- Stack limits and 32-bit wrap-around of esp in `SehChain`: the stack is assumed large enough.
- `T_LNGDBL` (include/coff.h:250): its value 16 does not fit the four-bit base field.
- `ISTAG` and the COFF file, section and relocation records, which hold no logic worth a proof.
