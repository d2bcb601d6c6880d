/** What holds in every state that any interleaving can reach. */
module CancelSafety {
  import opened ListHeap
  import opened CancelModel
  import opened CancelInvariant

  ghost predicate Reachable(s: State) {
    exists s0: State, schedule: seq<Turn> :: Init(s0) && Runs(s0, schedule) && Run(s0, schedule) == s
  }

  lemma {:induction false} ReachableInv(s: State)
    requires Reachable(s)
    ensures Inv(s)
  {
    var s0, schedule :| Init(s0) && Runs(s0, schedule) && Run(s0, schedule) == s;
    InitInv(s0);
    RunKeepsInv(s0, schedule);
  }

  // ----- Ownership -----

  /** Thread t has swapped IRP i's cancel routine out and not completed i yet. */
  predicate Owns(s: State, t: nat, i: int) {
    && t < |s.threads|
    && match s.threads[t]
       case Queueing(line, j, _) => j == i && AfterAbort(line)
       case Dequeued(line, j, _) => j == i && AfterWin(line)
       case Cancelling(line, j, _, _) => j == i && (BeforeUnlink(line) || AfterUnlink(line))
       case _ => false
  }

  /** The token of an IRP is in exactly one place: never armed, in the slot, with one
      thread, or spent by one completion. */
  lemma {:induction false} TokenInOnePlace(s: State, i: int)
    requires Reachable(s) && IrpRange(s, i)
    ensures forall t: nat, u: nat :: Owns(s, t, i) && Owns(s, u, i) ==> t == u
    ensures s.irps[i].routine || s.irps[i].token == Unarmed || s.irps[i].completions == 1 ==>
              forall t: nat :: !Owns(s, t, i)
    ensures !s.irps[i].routine && s.irps[i].token != Unarmed && s.irps[i].completions == 0 ==>
              exists t: nat :: Owns(s, t, i)
    ensures s.irps[i].routine <==> s.irps[i].token == InSlot
    ensures s.irps[i].completions <= 1
  {
    ReachableInv(s);
    assert IrpInv(s, i);
    forall t: nat | Owns(s, t, i)
      ensures Decided(s.irps[i].token) && s.irps[i].token.tid == t && s.irps[i].completions == 0
    {
      assert ThreadInv(s, t);
    }
    if !s.irps[i].routine && s.irps[i].token != Unarmed && s.irps[i].completions == 0 {
      assert Owns(s, s.irps[i].token.tid, i);
    }
  }

  /** IRP i is linked in some queue. */
  predicate Queued(s: State, i: int) {
    exists k :: 0 <= k < |s.queues| && i in s.queues[k]
  }

  predicate AtCompletion(pc: Pc) {
    match pc
    case Queueing(line, _, _) => line == Q51
    case Dequeued(line, _, _) => line == D101
    case Cancelling(line, _, _, _) => line == C27
    case _ => false
  }

  /** Every IoCompleteRequest is the first one on its IRP, is made by the token's owner,
      finds the cancel routine NULL and the status final: the asserts of IofCompleteRequest. */
  lemma {:induction false} CompletionAsserts(s: State, t: nat)
    requires Reachable(s) && t < |s.threads| && AtCompletion(s.threads[t])
    ensures var i := s.threads[t].irp;
            IrpRange(s, i) && Owns(s, t, i) && s.irps[i].completions == 0 &&
            !s.irps[i].routine && s.irps[i].status == FinalStatus(s.irps[i].token) &&
            s.irps[i].status in {Success, Cancelled} && !Queued(s, i)
  {
    ReachableInv(s);
    assert ThreadInv(s, t);
    assert IrpInv(s, s.threads[t].irp);
  }

  /** A completed IRP reports success exactly when a dequeuer won its token, and
      cancellation exactly when the canceller or the queue's abort path did. One that had
      entered a queue is still marked pending. */
  lemma {:induction false} StatusMatchesWinner(s: State, i: int)
    requires Reachable(s) && IrpRange(s, i) && s.irps[i].completions > 0
    ensures s.irps[i].completions == 1
    ensures s.irps[i].status == Success <==> s.irps[i].token.DequeueWon?
    ensures s.irps[i].status == Cancelled <==> s.irps[i].token.CancelWon? || s.irps[i].token.QueueWon?
    ensures s.irps[i].token.CancelWon? ==> s.irps[i].cancel
    ensures !s.irps[i].token.QueueWon? ==> s.irps[i].marked
  {
    ReachableInv(s);
    assert IrpInv(s, i);
  }

  // ----- What the routines return -----

  datatype Result = NoValue | Returns(value: bool)

  /** The value a routine returns after its last action at pc: IoCancelIrp says whether it
      cancelled, QUEUE returns FALSE from the abort path and nothing otherwise. */
  function ResultOf(pc: Pc): Result {
    match pc
    case Queueing(line, _, _) => if line == Q51 then Returns(false) else NoValue
    case Cancelling(line, _, _, _) =>
      if line == I218 then Returns(false) else if line == C27 then Returns(true) else NoValue
    case _ => NoValue
  }

  /** When IoCancelIrp or QUEUE is about to return, its result tells whether this call took
      the token of an IRP that is not completed yet: TRUE from IoCancelIrp if and only if the
      canceller did, FALSE from QUEUE if and only if its abort path did. */
  lemma {:induction false} ReturnsTellOwner(s: State, t: nat)
    requires Reachable(s) && t < |s.threads|
    ensures s.threads[t].Cancelling? && s.threads[t].cancelLine in {I218, C27} ==>
              var i := s.threads[t].irp;
              && IrpRange(s, i) && ResultOf(s.threads[t]).Returns?
              && (ResultOf(s.threads[t]).value <==> s.irps[i].token == CancelWon(t) && s.irps[i].completions == 0)
    ensures s.threads[t].Queueing? && s.threads[t].queueLine in {Q51, Q64} ==>
              var i := s.threads[t].irp;
              && IrpRange(s, i)
              && (ResultOf(s.threads[t]) == Returns(false) <==>
                    s.irps[i].token == QueueWon(t) && s.irps[i].completions == 0)
  {
    ReachableInv(s);
    assert ThreadInv(s, t);
    if s.threads[t].Cancelling? || s.threads[t].Queueing? { assert IrpInv(s, s.threads[t].irp); }
  }

  /** A value is returned only by the action that ends the routine. IoCancelIrp always
      returns one, QUEUE only FALSE, DEQUEUE none. */
  lemma {:induction false} ResultsEndRoutines(s: State, t: nat)
    requires Enabled(s, t, Continue)
    ensures ResultOf(s.threads[t]).Returns? ==> Next(s, t, Continue).threads[t] == Idle
    ensures s.threads[t].Cancelling? && Next(s, t, Continue).threads[t] == Idle ==> ResultOf(s.threads[t]).Returns?
    ensures s.threads[t].Queueing? ==> ResultOf(s.threads[t]) != Returns(true)
    ensures s.threads[t].Fetching? || s.threads[t].Dequeued? ==> ResultOf(s.threads[t]) == NoValue
  {
    match s.threads[t]
    case Queueing(_, _, _) => QueueResultsEnd(s, t);
    case Cancelling(_, _, _, _) => CancelResultsEnd(s, t);
    case Fetching(_, _) =>
    case Dequeued(_, _, _) =>
  }

  lemma {:induction false} QueueResultsEnd(s: State, t: nat)
    requires Enabled(s, t, Continue) && s.threads[t].Queueing?
    ensures ResultOf(s.threads[t]).Returns? ==> QueueNext(s, t).threads[t] == Idle
  {
  }

  lemma {:induction false} CancelResultsEnd(s: State, t: nat)
    requires Enabled(s, t, Continue) && s.threads[t].Cancelling?
    ensures ResultOf(s.threads[t]).Returns? <==> CancelNext(s, t).threads[t] == Idle
  {
  }

  /** CancelRoutine gives the cancel spin lock back at the level IoCancelIrp took it from:
      nobody overwrites CancelIrql in between, so a canceller ends at the level it came from. */
  lemma {:induction false} CancelIrqlIntact(s: State, t: nat)
    requires Reachable(s) && Enabled(s, t, Continue) && s.threads[t].Cancelling?
    ensures s.threads[t].cancelLine == C16 ==> s.irps[s.threads[t].irp].cancelIrql == s.threads[t].oldIrql
    ensures var pc := CancelNext(s, t).threads[t]; pc.Cancelling? ==> pc.oldIrql == s.threads[t].oldIrql
  {
    ReachableInv(s);
    assert ThreadInv(s, t);
  }

  // ----- The lists -----

  /** For every queue the heap always represents one duplicate-free sequence of uncompleted,
      marked, pending IRPs whose CancelRoutine would find that queue's lock. */
  lemma {:induction false} ListIntegrity(s: State, k: nat)
    requires Reachable(s) && k < |s.queues|
    ensures Ring(s.heap, s.Head(k), s.queues[k])
    ensures forall q :: Ring(s.heap, s.Head(k), q) ==> q == s.queues[k]
    ensures forall i :: i in s.queues[k] ==>
              && IrpRange(s, i) && s.irps[i].context == LockOf(k)
              && s.irps[i].completions == 0 && s.irps[i].status == Pending && s.irps[i].marked
  {
    ReachableInv(s);
    assert QueueRing(s, k);
    forall q | Ring(s.heap, s.Head(k), q) ensures q == s.queues[k] {
      RingIsUnique(s.heap, s.Head(k), s.queues[k], q);
    }
    forall i | i in s.queues[k]
      ensures IrpRange(s, i) && s.irps[i].context == LockOf(k)
      ensures s.irps[i].completions == 0 && s.irps[i].status == Pending && s.irps[i].marked
    {
      assert IrpInv(s, i);
    }
  }

  /** No IRP is ever on two queues. */
  lemma {:induction false} OneQueuePerIrp(s: State, i: int, k: nat, m: nat)
    requires Reachable(s) && k < |s.queues| && m < |s.queues| && i in s.queues[k] && i in s.queues[m]
    ensures k == m
  {
    ReachableInv(s);
    assert QueueRing(s, k) && IrpInv(s, i);
  }

  /** CancelRoutine takes the lock of the queue that holds the IRP, if one does, and of an
      existing queue in any case; with it, it unlinks an entry that is linked in that queue
      or self-linked, never an uninitialised or a stale one. */
  lemma {:induction false} CancelRoutineOperands(s: State, t: nat)
    requires Reachable(s) && t < |s.threads| && s.threads[t].Cancelling? && s.threads[t].cancelLine in {C20, C21}
    ensures var i, lk := s.threads[t].irp, s.threads[t].theLock;
            && IrpRange(s, i) && lk.LockOf? && lk.queue < |s.queues|
            && (forall k: nat :: k < |s.queues| && i in s.queues[k] ==> k == lk.queue)
            && (s.threads[t].cancelLine == C21 ==>
                  s.LockAt(lk.queue) == HeldBy(t) && (i in s.queues[lk.queue] || At(s.heap, i) == Link(i, i)))
  {
    ReachableInv(s);
    assert ThreadInv(s, t);
    assert IrpInv(s, s.threads[t].irp);
    if s.threads[t].cancelLine == C21 { EntryAtUnlink(s, t); }
  }

  /** The unlinking removes exactly that IRP from that queue, or nothing from any. */
  lemma {:induction false} UnlinkRemovesOnlyTheIrp(s: State, t: nat)
    requires Reachable(s) && Enabled(s, t, Continue) && s.threads[t].Cancelling? && s.threads[t].cancelLine == C21
    ensures var i, lk := s.threads[t].irp, s.threads[t].theLock;
            && HeapInv(CancelNext(s, t)) && lk.LockOf? && lk.queue < |s.queues|
            && CancelNext(s, t).queues == s.queues[lk.queue := Delete(s.queues[lk.queue], i)]
  {
    ReachableInv(s);
    EntryAtUnlink(s, t);
    UnlinkHeap(s, t);
  }

  // ----- Memory accesses -----

  /** The IRPs whose memory thread t reads or writes in its next action, neighbours in the
      list included. IoCancelIrp's first two accesses (lines 213 and 215) are left out:
      its caller must keep the IRP alive for those. */
  function Touches(s: State, t: nat): set<int>
    requires t < |s.threads|
  {
    match s.threads[t]
    case Idle => {}
    case Queueing(line, i, k) =>
      if line in {Q34, Q47, Q64} then {}
      else if line == Q62 then {i} + ({At(s.heap, s.Head(k)).blink} - {s.Head(k)})
      else {i}
    case Fetching(line, k) =>
      var entry := HeadEntry(s.heap, s.Head(k));
      if line == D71 then {} else {entry} + ({At(s.heap, entry).flink} - {s.Head(k)})
    case Dequeued(line, i, _) => if line in {D85, D97} then {} else {i}
    case Cancelling(line, i, _, lk) =>
      if line in {I211, I213, I215, I218, C20, C22} then {}
      else if line == C21 then
        {i} + ({At(s.heap, i).flink, At(s.heap, i).blink} - (if lk.LockOf? then {s.Head(lk.queue)} else {}))
      else {i}
  }

  predicate AtRemoveHead(pc: Pc) {
    pc.Fetching? && pc.fetchLine == D73
  }

  lemma {:induction false} OwnTouchLive(s: State, t: nat)
    requires Inv(s) && t < |s.threads| && !AtRemoveHead(s.threads[t])
    requires Touches(s, t) != {}
    ensures IrpRange(s, s.threads[t].irp) && s.irps[s.threads[t].irp].completions == 0
  {
    assert ThreadInv(s, t);
    assert IrpInv(s, s.threads[t].irp);
  }

  lemma {:induction false} LinkedLive(s: State, k: nat, i: int)
    requires Inv(s) && k < |s.queues| && i in s.queues[k]
    ensures IrpRange(s, i) && s.irps[i].completions == 0
  {
    assert QueueRing(s, k) && IrpInv(s, i);
  }

  /** The links of a ring node lead to ring nodes. */
  lemma {:induction false} NeighboursInRing(h: Heap, head: int, q: seq<int>, a: int)
    requires Ring(h, head, q) && (a == head || a in q)
    ensures At(h, a).flink == head || At(h, a).flink in q
    ensures At(h, a).blink == head || At(h, a).blink in q
  {
    if a == head {
      assert Edge(h, head, q, 0) && Edge(h, head, q, |q|);
    } else {
      var k :| 0 <= k < |q| && q[k] == a;
      assert Edge(h, head, q, k) && Edge(h, head, q, k + 1);
    }
  }

  /** A neighbour that a list operation on queue k touches is the list head or live. */
  lemma {:induction false} NeighbourLive(s: State, k: nat, a: int, i: int)
    requires Inv(s) && k < |s.queues| && (a == s.Head(k) || a in s.queues[k])
    requires i in {At(s.heap, a).flink, At(s.heap, a).blink} - {s.Head(k)}
    ensures IrpRange(s, i) && s.irps[i].completions == 0
  {
    assert QueueRing(s, k);
    NeighboursInRing(s.heap, s.Head(k), s.queues[k], a);
    LinkedLive(s, k, i);
  }

  /** No action of the driver reads or writes a completed IRP, or follows a wild link. */
  lemma {:induction false} NoTouchAfterCompletion(s: State, t: nat, i: int)
    requires Reachable(s) && t < |s.threads| && i in Touches(s, t)
    ensures IrpRange(s, i) && s.irps[i].completions == 0
  {
    ReachableInv(s);
    match s.threads[t]
    case Fetching(_, k) => HeadTouchLive(s, t, i);
    case Queueing(_, own, k) =>
      OwnTouchLive(s, t);
      if i != own {
        assert ThreadInv(s, t);
        NeighbourLive(s, k, s.Head(k), i);
      }
    case Dequeued(_, _, _) => OwnTouchLive(s, t);
    case Cancelling(_, own, _, lk) =>
      OwnTouchLive(s, t);
      if i != own { UnlinkTouchLive(s, t, i); }
  }

  lemma {:induction false} HeadTouchLive(s: State, t: nat, i: int)
    requires Inv(s) && t < |s.threads| && AtRemoveHead(s.threads[t]) && i in Touches(s, t)
    ensures IrpRange(s, i) && s.irps[i].completions == 0
  {
    var k := s.threads[t].home;
    assert ThreadInv(s, t) && QueueRing(s, k);
    var first := s.queues[k][0];
    HeadRemovalIsEntryRemoval(s.heap, s.Head(k), s.queues[k]);
    if i == first { LinkedLive(s, k, first); } else { NeighbourLive(s, k, first, i); }
  }

  lemma {:induction false} UnlinkTouchLive(s: State, t: nat, i: int)
    requires Inv(s) && t < |s.threads| && s.threads[t].Cancelling? && s.threads[t].cancelLine == C21
    requires i in Touches(s, t) && i != s.threads[t].irp
    ensures IrpRange(s, i) && s.irps[i].completions == 0
  {
    EntryAtUnlink(s, t);
    var own, k := s.threads[t].irp, s.threads[t].theLock.queue;
    assert IrpInv(s, own);
    NeighbourLive(s, k, own, i);
  }

  /** r' differs from r at most as lines 213 and 215 of IoCancelIrp make it differ. */
  predicate OnlyRequested(r: Irp, r': Irp) {
    r' == r.(cancel := r'.cancel, routine := r'.routine, token := r'.token)
  }

  ghost predicate UntouchedKept(s: State, s': State, t: nat, i: int)
    requires t < |s.threads| && IrpRange(s, i) && |s'.irps| == |s.irps|
  {
    && At(s'.heap, i) == At(s.heap, i)
    && (if s.threads[t].Cancelling? && s.threads[t].cancelLine in {I213, I215} then OnlyRequested(s.irps[i], s'.irps[i])
        else s'.irps[i] == s.irps[i])
  }

  lemma {:induction false} QueueWrites(s: State, t: nat, i: int)
    requires Enabled(s, t, Continue) && s.threads[t].Queueing? && IrpRange(s, i) && i !in Touches(s, t)
    ensures UntouchedKept(s, QueueNext(s, t), t, i)
  {
  }

  lemma {:induction false} DequeueWrites(s: State, t: nat, i: int)
    requires Enabled(s, t, Continue) && s.threads[t].Dequeued? && IrpRange(s, i) && i !in Touches(s, t)
    ensures UntouchedKept(s, DequeueNext(s, t), t, i)
  {
  }

  lemma {:induction false} CancelWrites(s: State, t: nat, i: int)
    requires Enabled(s, t, Continue) && s.threads[t].Cancelling? && IrpRange(s, i) && i !in Touches(s, t)
    ensures UntouchedKept(s, CancelNext(s, t), t, i)
  {
  }

  /** Touches misses no write: outside it, only IoCancelIrp's lines 213 and 215 change an
      IRP, and those change neither its status nor its completion nor its list entry. */
  lemma {:induction false} WritesAreTouches(s: State, t: nat, i: int)
    requires Enabled(s, t, Continue) && IrpRange(s, i) && i !in Touches(s, t)
    ensures UntouchedKept(s, Next(s, t, Continue), t, i)
  {
    match s.threads[t]
    case Queueing(_, _, _) => QueueWrites(s, t, i);
    case Dequeued(_, _, _) => DequeueWrites(s, t, i);
    case Cancelling(_, _, _, _) => CancelWrites(s, t, i);
    case Fetching(_, _) =>
  }

  /** s with IRP i and its list entry replaced by arbitrary data. */
  function Scramble(s: State, i: int, r: Irp, l: Link): State
    requires IrpRange(s, i) && i < |s.heap|
  {
    s.(irps := s.irps[i := r], heap := s.heap[i := l])
  }

  /** Two states that agree on everything but IRP i and its list entry. */
  ghost predicate AgreeBut(a: State, b: State, i: int) {
    && a.locks == b.locks && a.spin == b.spin && a.threads == b.threads && a.queues == b.queues
    && |a.irps| == |b.irps| && (forall j :: 0 <= j < |a.irps| && j != i ==> a.irps[j] == b.irps[j])
    && |a.heap| == |b.heap| && (forall j :: 0 <= j < |a.heap| && j != i ==> a.heap[j] == b.heap[j])
  }

  predicate AtUnownedAccess(pc: Pc) {
    pc.Cancelling? && pc.cancelLine in {I213, I215}
  }

  lemma {:induction false} QueueArmReads(s: State, t: nat, i: int, r: Irp, l: Link)
    requires Enabled(s, t, Continue) && s.threads[t].Queueing?
    requires s.threads[t].queueLine in {Q34, Q36, Q38, Q39Check}
    requires IrpRange(s, i) && |s.irps| <= |s.heap| && i !in Touches(s, t)
    ensures var u := Scramble(s, i, r, l);
            Enabled(u, t, Continue) && AgreeBut(QueueNext(u, t), QueueNext(s, t), i)
  {
  }

  lemma {:induction false} QueueAbortReads(s: State, t: nat, i: int, r: Irp, l: Link)
    requires Enabled(s, t, Continue) && s.threads[t].Queueing?
    requires s.threads[t].queueLine in {Q39Swap, Q47, Q49, Q51}
    requires IrpRange(s, i) && |s.irps| <= |s.heap| && i !in Touches(s, t)
    ensures var u := Scramble(s, i, r, l);
            Enabled(u, t, Continue) && AgreeBut(QueueNext(u, t), QueueNext(s, t), i)
  {
  }

  lemma {:induction false} QueueInsertReads(s: State, t: nat, i: int, r: Irp, l: Link)
    requires Enabled(s, t, Continue) && s.threads[t].Queueing?
    requires s.threads[t].queueLine == Q62
    requires IrpRange(s, i) && |s.irps| <= |s.heap| && i !in Touches(s, t)
    ensures var u := Scramble(s, i, r, l);
            Enabled(u, t, Continue) && AgreeBut(QueueNext(u, t), QueueNext(s, t), i)
  {
  }

  lemma {:induction false} QueueAcceptReads(s: State, t: nat, i: int, r: Irp, l: Link)
    requires Enabled(s, t, Continue) && s.threads[t].Queueing?
    requires s.threads[t].queueLine in {Q59, Q60, Q64}
    requires IrpRange(s, i) && |s.irps| <= |s.heap| && i !in Touches(s, t)
    ensures var u := Scramble(s, i, r, l);
            Enabled(u, t, Continue) && AgreeBut(QueueNext(u, t), QueueNext(s, t), i)
  {
  }

  lemma {:induction false} QueueReads(s: State, t: nat, i: int, r: Irp, l: Link)
    requires Enabled(s, t, Continue) && s.threads[t].Queueing?
    requires IrpRange(s, i) && |s.irps| <= |s.heap| && i !in Touches(s, t)
    ensures var u := Scramble(s, i, r, l);
            Enabled(u, t, Continue) && AgreeBut(QueueNext(u, t), QueueNext(s, t), i)
  {
    match s.threads[t].queueLine
    case Q34 | Q36 | Q38 | Q39Check => QueueArmReads(s, t, i, r, l);
    case Q39Swap | Q47 | Q49 | Q51 => QueueAbortReads(s, t, i, r, l);
    case Q59 | Q60 | Q64 => QueueAcceptReads(s, t, i, r, l);
    case Q62 => QueueInsertReads(s, t, i, r, l);
  }

  lemma {:induction false} FetchReads(s: State, t: nat, i: int, r: Irp, l: Link)
    requires Enabled(s, t, Continue) && s.threads[t].Fetching?
    requires IrpRange(s, i) && |s.irps| <= |s.heap| && i !in Touches(s, t)
    ensures var u := Scramble(s, i, r, l);
            Enabled(u, t, Continue) && AgreeBut(FetchNext(u, t), FetchNext(s, t), i)
  {
  }

  lemma {:induction false} DequeueReads(s: State, t: nat, i: int, r: Irp, l: Link)
    requires Enabled(s, t, Continue) && s.threads[t].Dequeued?
    requires IrpRange(s, i) && |s.irps| <= |s.heap| && i !in Touches(s, t)
    ensures var u := Scramble(s, i, r, l);
            Enabled(u, t, Continue) && AgreeBut(DequeueNext(u, t), DequeueNext(s, t), i)
  {
  }

  lemma {:induction false} IoCancelReads(s: State, t: nat, i: int, r: Irp, l: Link)
    requires Enabled(s, t, Continue) && s.threads[t].Cancelling?
    requires s.threads[t].cancelLine in {I211, I218, I222, C16}
    requires IrpRange(s, i) && |s.irps| <= |s.heap| && i !in Touches(s, t)
    ensures var u := Scramble(s, i, r, l);
            Enabled(u, t, Continue) && AgreeBut(CancelNext(u, t), CancelNext(s, t), i)
  {
  }

  lemma {:induction false} CancelLockReads(s: State, t: nat, i: int, r: Irp, l: Link)
    requires Enabled(s, t, Continue) && s.threads[t].Cancelling?
    requires s.threads[t].cancelLine in {C18, C20, C22, C24, C27}
    requires IrpRange(s, i) && |s.irps| <= |s.heap| && i !in Touches(s, t)
    ensures var u := Scramble(s, i, r, l);
            Enabled(u, t, Continue) && AgreeBut(CancelNext(u, t), CancelNext(s, t), i)
  {
  }

  lemma {:induction false} CancelUnlinkReads(s: State, t: nat, i: int, r: Irp, l: Link)
    requires Enabled(s, t, Continue) && s.threads[t].Cancelling?
    requires s.threads[t].cancelLine == C21
    requires IrpRange(s, i) && |s.irps| <= |s.heap| && i !in Touches(s, t)
    ensures var u := Scramble(s, i, r, l);
            Enabled(u, t, Continue) && AgreeBut(CancelNext(u, t), CancelNext(s, t), i)
  {
  }

  lemma {:induction false} CancelReads(s: State, t: nat, i: int, r: Irp, l: Link)
    requires Enabled(s, t, Continue) && s.threads[t].Cancelling? && !AtUnownedAccess(s.threads[t])
    requires IrpRange(s, i) && |s.irps| <= |s.heap| && i !in Touches(s, t)
    ensures var u := Scramble(s, i, r, l);
            Enabled(u, t, Continue) && AgreeBut(CancelNext(u, t), CancelNext(s, t), i)
  {
    match s.threads[t].cancelLine
    case I211 | I218 | I222 | C16 => IoCancelReads(s, t, i, r, l);
    case C18 | C20 | C22 | C24 | C27 => CancelLockReads(s, t, i, r, l);
    case C21 => CancelUnlinkReads(s, t, i, r, l);
  }

  /** Touches misses no read: replace an IRP outside it, and its list entry, by anything,
      and the action is still enabled and does the same to everything else. */
  lemma {:induction false} ReadsAreTouches(s: State, t: nat, i: int, r: Irp, l: Link)
    requires Enabled(s, t, Continue) && !AtUnownedAccess(s.threads[t])
    requires IrpRange(s, i) && |s.irps| <= |s.heap| && i !in Touches(s, t)
    ensures var u := Scramble(s, i, r, l);
            Enabled(u, t, Continue) && AgreeBut(Next(u, t, Continue), Next(s, t, Continue), i)
  {
    match s.threads[t]
    case Queueing(_, _, _) => QueueReads(s, t, i, r, l);
    case Fetching(_, _) => FetchReads(s, t, i, r, l);
    case Dequeued(_, _, _) => DequeueReads(s, t, i, r, l);
    case Cancelling(_, _, _, _) => CancelReads(s, t, i, r, l);
  }

  /** r' is r up to the cancel flag. */
  predicate OnlyFlagged(r: Irp, r': Irp) {
    r' == r.(cancel := r'.cancel)
  }

  /** IRP i, completed in s, is the same in s' up to its cancel flag. */
  ghost predicate KeptCompleted(s: State, s': State, i: int) {
    IrpRange(s, i) && IrpRange(s', i) && s'.irps[i].completions > 0 && OnlyFlagged(s.irps[i], s'.irps[i])
  }

  lemma {:induction false} StartFrozen(s: State, t: nat, c: Call, i: int)
    requires Enabled(s, t, c) && c != Continue && IrpRange(s, i) && s.irps[i].place != Outside
    ensures |Start(s, t, c).irps| == |s.irps| && Start(s, t, c).irps[i] == s.irps[i] && Start(s, t, c).heap == s.heap
  {
  }

  /** On a disarmed IRP IoCancelIrp's own accesses change the flag only. */
  lemma {:induction false} UnownedFrozen(s: State, t: nat, i: int)
    requires Enabled(s, t, Continue) && AtUnownedAccess(s.threads[t]) && IrpRange(s, i) && !s.irps[i].routine
    ensures |CancelNext(s, t).irps| == |s.irps| && OnlyFlagged(s.irps[i], CancelNext(s, t).irps[i])
    ensures CancelNext(s, t).heap == s.heap
  {
  }

  /** A completed IRP is frozen: whatever any thread does next, only its cancel flag may change. */
  lemma {:induction false} CompletedIsFrozen(s: State, t: nat, c: Call, i: int)
    requires Reachable(s) && Enabled(s, t, c) && IrpRange(s, i) && s.irps[i].completions > 0
    ensures KeptCompleted(s, Next(s, t, c), i) && At(Next(s, t, c).heap, i) == At(s.heap, i)
  {
    CompletedMeans(s, i);
    if c != Continue {
      StartFrozen(s, t, c, i);
    } else if AtUnownedAccess(s.threads[t]) {
      UnownedFrozen(s, t, i);
    } else {
      OwnedFrozen(s, t, i);
    }
  }

  lemma {:induction false} OwnedFrozen(s: State, t: nat, i: int)
    requires Reachable(s) && Enabled(s, t, Continue) && !AtUnownedAccess(s.threads[t])
    requires IrpRange(s, i) && s.irps[i].completions > 0
    ensures KeptCompleted(s, Next(s, t, Continue), i) && At(Next(s, t, Continue).heap, i) == At(s.heap, i)
  {
    ReachableInv(s);
    ContinueFrame(s, t);
    TouchedNotCompleted(s, t, i);
    WritesAreTouches(s, t, i);
  }

  lemma {:induction false} CompletedMeans(s: State, i: int)
    requires Reachable(s) && IrpRange(s, i) && s.irps[i].completions > 0
    ensures !s.irps[i].routine && s.irps[i].place != Outside
  {
    ReachableInv(s);
    assert IrpInv(s, i);
  }

  lemma {:induction false} TouchedNotCompleted(s: State, t: nat, i: int)
    requires Reachable(s) && t < |s.threads| && IrpRange(s, i) && s.irps[i].completions > 0
    ensures i !in Touches(s, t)
  {
    if i in Touches(s, t) { NoTouchAfterCompletion(s, t, i); }
  }

  lemma {:induction false} ReachableNext(s: State, t: nat, c: Call)
    requires Reachable(s) && Enabled(s, t, c)
    ensures Reachable(Next(s, t, c))
  {
    var s0, schedule :| Init(s0) && Runs(s0, schedule) && Run(s0, schedule) == s;
    RunAppend(s0, schedule, Turn(t, c));
  }

  lemma {:induction false} RunAppend(s: State, schedule: seq<Turn>, turn: Turn)
    requires Runs(s, schedule) && Enabled(Run(s, schedule), turn.tid, turn.call)
    ensures Runs(s, schedule + [turn])
    ensures Run(s, schedule + [turn]) == Next(Run(s, schedule), turn.tid, turn.call)
    decreases |schedule|
  {
    if schedule == [] {
      assert schedule + [turn] == [turn];
      assert Runs(Next(s, turn.tid, turn.call), [turn][1..]);
      assert Run(s, [turn]) == Run(Next(s, turn.tid, turn.call), [turn][1..]);
    } else {
      var s1 := Next(s, schedule[0].tid, schedule[0].call);
      RunAppend(s1, schedule[1..], turn);
      assert (schedule + [turn])[0] == schedule[0];
      assert (schedule + [turn])[1..] == schedule[1..] + [turn];
    }
  }

  lemma {:induction false} KeptTwice(a: State, b: State, c: State, i: int)
    requires KeptCompleted(a, b, i) && KeptCompleted(b, c, i)
    ensures KeptCompleted(a, c, i)
  {
  }

  /** Over any later run a completed IRP keeps its one completion and its status. */
  lemma {:induction false} CompletedForever(s: State, schedule: seq<Turn>, i: int)
    requires Reachable(s) && Runs(s, schedule) && IrpRange(s, i) && s.irps[i].completions > 0
    ensures KeptCompleted(s, Run(s, schedule), i)
    decreases |schedule|
  {
    if schedule != [] {
      var t, c := schedule[0].tid, schedule[0].call;
      var s1 := Next(s, t, c);
      CompletedIsFrozen(s, t, c, i);
      ReachableNext(s, t, c);
      CompletedForever(s1, schedule[1..], i);
      KeptTwice(s, s1, Run(s1, schedule[1..]), i);
    }
  }

  // ----- No lost cancellation -----

  /** No cancel request on an armed or decided IRP is lost. While the slot is armed, QUEUE
      will re-check the flag, or a canceller holding the cancel spin lock is about to swap
      the slot; once it is swapped out, its owner is on the way to completing the IRP. */
  lemma {:induction false} NoLostCancellation(s: State, i: int)
    requires Reachable(s) && IrpRange(s, i) && s.irps[i].cancel && s.irps[i].token != Unarmed
    ensures s.irps[i].routine ==> exists t: nat :: AtRecheck(s, t, i) || AtCancelSwap(s, t, i)
    ensures !s.irps[i].routine && s.irps[i].completions == 0 ==> exists t: nat :: Owns(s, t, i)
  {
    ReachableInv(s);
    assert IrpInv(s, i);
    if s.irps[i].routine {
      assert RequestInProgress(s, i);
    } else if s.irps[i].completions == 0 {
      assert Owns(s, s.irps[i].token.tid, i);
    }
  }

  /** In particular a queued IRP with its flag set has a canceller: one that has won it and
      has yet to unlink it, or one about to swap the slot. */
  lemma {:induction false} QueuedRequestHasCanceller(s: State, k: nat, i: int)
    requires Reachable(s) && k < |s.queues| && i in s.queues[k] && IrpRange(s, i) && s.irps[i].cancel
    ensures exists t: nat :: t < |s.threads| && s.threads[t].Cancelling? && s.threads[t].irp == i &&
              if s.irps[i].routine then AtCancelSwap(s, t, i)
              else BeforeUnlink(s.threads[t].cancelLine) && s.irps[i].token == CancelWon(t)
  {
    ReachableInv(s);
    assert IrpInv(s, i);
    var t := if s.irps[i].routine then s.spin.tid else s.irps[i].token.tid;
    assert t < |s.threads| && s.threads[t].Cancelling?;
  }

  // ----- Conservation -----

  /** Thread t has IRP i in hand, off the list: QUEUE before the insertion or aborting,
      DEQUEUE until it lets go, CancelRoutine once the entry is off the list for good. */
  predicate Holds(s: State, t: nat, i: int)
    requires t < |s.threads|
  {
    match s.threads[t]
    case Queueing(line, j, _) => j == i && line != Q64
    case Dequeued(line, j, _) => j == i && line != D85
    case Cancelling(line, j, _, _) =>
      j == i && (AfterUnlink(line) || (BeforeUnlink(line) && IrpRange(s, i) && s.irps[i].place == SelfLinked))
    case _ => false
  }

  function Submitted(s: State): set<int> {
    set i | 0 <= i < |s.irps| && s.irps[i].place != Outside
  }

  function InQueue(s: State): set<int> {
    set i | 0 <= i < |s.irps| && Queued(s, i)
  }

  /** The lengths of all queues together. */
  function QueuedCount(queues: seq<seq<int>>): nat {
    if queues == [] then 0 else |queues[0]| + QueuedCount(queues[1..])
  }

  predicate SomeoneHolds(s: State, i: int) {
    exists t :: 0 <= t < |s.threads| && Holds(s, t, i)
  }

  function Held(s: State): set<int> {
    set i | 0 <= i < |s.irps| && SomeoneHolds(s, i)
  }

  function Completed(s: State): set<int> {
    set i | 0 <= i < |s.irps| && s.irps[i].completions > 0
  }

  lemma {:induction false} HolderMeans(s: State, t: nat, i: int)
    requires Inv(s) && t < |s.threads| && Holds(s, t, i)
    ensures IrpRange(s, i) && s.irps[i].place !in {Outside, Linked} && s.irps[i].completions == 0
    ensures s.irps[i].place.AtQueuer? || s.irps[i].place.AtDequeuer? ==> s.irps[i].place.tid == t
    ensures s.irps[i].place in {SelfLinked, Gone} ==> Decided(s.irps[i].token) && s.irps[i].token.tid == t
  {
    assert ThreadInv(s, t);
    assert IrpInv(s, i);
  }

  lemma {:induction false} EveryIrpSomewhere(s: State, i: int)
    requires Inv(s) && IrpRange(s, i) && s.irps[i].place !in {Outside, Linked} && s.irps[i].completions == 0
    ensures i in Held(s)
  {
    assert IrpInv(s, i);
    var r := s.irps[i];
    var t := if r.place.AtQueuer? || r.place.AtDequeuer? then r.place.tid else r.token.tid;
    assert 0 <= t < |s.threads| && Holds(s, t, i);
  }

  lemma {:induction false} NoDuplicatesCount(q: seq<int>)
    requires NoDuplicates(q)
    ensures |set i | i in q| == |q|
  {
    if q != [] {
      NoDuplicatesCount(q[1..]);
      assert q == [q[0]] + q[1..];
      assert (set i | i in q) == (set i | i in q[1..]) + {q[0]};
      assert q[0] !in q[1..];
    }
  }

  ghost predicate Disjoint(queues: seq<seq<int>>) {
    forall k, m, i :: 0 <= k < m < |queues| && i in queues[k] ==> i !in queues[m]
  }

  function Members(queues: seq<seq<int>>): set<int> {
    if queues == [] then {} else (set i | i in queues[0]) + Members(queues[1..])
  }

  lemma {:induction false} MembersMean(queues: seq<seq<int>>)
    ensures forall i :: i in Members(queues) <==> exists k :: 0 <= k < |queues| && i in queues[k]
  {
    if queues != [] {
      MembersMean(queues[1..]);
      forall i ensures i in Members(queues) <==> exists k :: 0 <= k < |queues| && i in queues[k] {
        if k :| 0 <= k < |queues| && i in queues[k] {
          assert k > 0 ==> i in queues[1..][k - 1];
        }
        if k :| 0 <= k < |queues[1..]| && i in queues[1..][k] {
          assert i in queues[k + 1];
        }
      }
    }
  }

  lemma {:induction false} MembersCount(queues: seq<seq<int>>)
    requires Disjoint(queues) && forall k :: 0 <= k < |queues| ==> NoDuplicates(queues[k])
    ensures |Members(queues)| == QueuedCount(queues)
  {
    if queues != [] {
      var first := set i | i in queues[0];
      MembersCount(queues[1..]);
      MembersMean(queues[1..]);
      NoDuplicatesCount(queues[0]);
      assert first !! Members(queues[1..]);
    }
  }

  lemma {:induction false} OnePlacePerIrp(s: State, i: int)
    requires Inv(s) && IrpRange(s, i)
    ensures i in Submitted(s) <==> i in InQueue(s) || i in Held(s) || i in Completed(s)
    ensures i in InQueue(s) ==> i !in Held(s) && i !in Completed(s)
    ensures i in Held(s) ==> i !in Completed(s)
  {
    assert IrpInv(s, i);
    if i in Held(s) {
      var t :| 0 <= t < |s.threads| && Holds(s, t, i);
      HolderMeans(s, t, i);
    } else if s.irps[i].place !in {Outside, Linked} && s.irps[i].completions == 0 {
      EveryIrpSomewhere(s, i);
    }
    LinkedIsQueued(s, i);
  }

  lemma {:induction false} LinkedIsQueued(s: State, i: int)
    requires Inv(s) && IrpRange(s, i)
    ensures Queued(s, i) <==> s.irps[i].place == Linked
  {
    assert IrpInv(s, i);
    if s.irps[i].place == Linked { assert i in s.queues[s.irps[i].context.queue]; }
  }

  lemma {:induction false} OneHolder(s: State, i: int, t: nat, u: nat)
    requires Reachable(s) && t < |s.threads| && u < |s.threads| && Holds(s, t, i) && Holds(s, u, i)
    ensures t == u
  {
    ReachableInv(s);
    HolderMeans(s, t, i);
    HolderMeans(s, u, i);
  }

  lemma {:induction false} InQueueCount(s: State)
    requires Inv(s)
    ensures |InQueue(s)| == QueuedCount(s.queues)
  {
    forall k | 0 <= k < |s.queues|
      ensures NoDuplicates(s.queues[k]) && forall i :: i in s.queues[k] ==> IrpRange(s, i)
    {
      assert QueueRing(s, k);
    }
    forall k, m, i | 0 <= k < m < |s.queues| && i in s.queues[k] ensures i !in s.queues[m] {
      assert IrpInv(s, i);
    }
    MembersMean(s.queues);
    MembersCount(s.queues);
    assert InQueue(s) == Members(s.queues);
  }

  lemma {:induction false} SubmittedSplits(s: State)
    requires Inv(s)
    ensures Submitted(s) == InQueue(s) + Held(s) + Completed(s)
  {
    forall i | IrpRange(s, i) ensures i in Submitted(s) <==> i in InQueue(s) || i in Held(s) || i in Completed(s) {
      OnePlacePerIrp(s, i);
    }
  }

  lemma {:induction false} PartsDisjoint(s: State)
    requires Inv(s)
    ensures InQueue(s) !! Held(s) !! Completed(s)
  {
    forall i | IrpRange(s, i)
      ensures i in InQueue(s) ==> i !in Held(s) && i !in Completed(s)
      ensures i in Held(s) ==> i !in Completed(s)
    {
      OnePlacePerIrp(s, i);
    }
  }

  /** Every submitted IRP is linked in a queue, in the hands of a thread (of exactly one,
      by OneHolder), or completed, and never two of these at once. */
  lemma {:induction false} Conservation(s: State)
    requires Reachable(s)
    ensures Submitted(s) == InQueue(s) + Held(s) + Completed(s)
    ensures InQueue(s) !! Held(s) !! Completed(s)
    ensures |Submitted(s)| == QueuedCount(s.queues) + |Held(s)| + |Completed(s)|
  {
    ReachableInv(s);
    SubmittedSplits(s);
    PartsDisjoint(s);
    InQueueCount(s);
    DisjointCount(InQueue(s), Held(s), Completed(s));
  }

  lemma {:induction false} DisjointCount(a: set<int>, b: set<int>, c: set<int>)
    requires a !! b !! c
    ensures |a + b + c| == |a| + |b| + |c|
  {
    assert |a + b| == |a| + |b|;
  }
}
