/** The invariant of the cancel-safe queues, kept by every action of every thread. */
module CancelInvariant {
  import opened ListHeap
  import opened CancelModel

  /** The queue whose lock a thread holds, or -1. */
  function LockIndex(pc: Pc): int {
    match pc
    case Queueing(line, _, k) => if line in {Q34, Q49, Q51} then -1 else k
    case Fetching(line, k) => if line == D73 then k else -1
    case Dequeued(line, _, k) => if line in {D75, D83, D85, D97} then k else -1
    case Cancelling(line, _, _, lk) => if line in {C21, C22} && lk.LockOf? then lk.queue else -1
    case Idle => -1
  }

  predicate HoldsLock(pc: Pc) {
    LockIndex(pc) >= 0
  }

  predicate HoldsSpin(pc: Pc) {
    pc.Cancelling? && pc.cancelLine in {I213, I215, I218, I222, C16}
  }

  predicate BeforeInsert(line: QueueLine) {
    line in {Q34, Q36, Q38, Q39Check, Q39Swap, Q59, Q60, Q62}
  }

  predicate AfterAbort(line: QueueLine) {
    line in {Q47, Q49, Q51}
  }

  predicate AfterWin(line: DequeueLine) {
    line in {D97, D99, D101}
  }

  predicate BeforeUnlink(line: CancelLine) {
    line in {I222, C16, C18, C20, C21}
  }

  predicate AfterUnlink(line: CancelLine) {
    line in {C22, C24, C27}
  }

  /** The status the winner of the token completes the IRP with. */
  function FinalStatus(token: Token): Status {
    match token
    case DequeueWon(_) => Success
    case QueueWon(_) => Cancelled
    case CancelWon(_) => Cancelled
    case _ => Other
  }

  predicate Decided(token: Token) {
    token.QueueWon? || token.DequeueWon? || token.CancelWon?
  }

  ghost predicate QueueFacts(r: Irp, line: QueueLine, k: nat, t: nat) {
    && (BeforeInsert(line) ==> r.place == AtQueuer(t))
    && (line in {Q34, Q36, Q38} ==> r.token == Unarmed)
    && (line in {Q39Check, Q39Swap, Q59, Q60, Q62} ==> r.token == InSlot || r.token.CancelWon?)
    && (line == Q39Swap ==> r.cancel)
    && (BeforeInsert(line) && line !in {Q34, Q36} ==> r.context == LockOf(k))
    && (line in {Q60, Q62} ==> r.status == Pending)
    && (line == Q62 ==> r.marked)
    && (AfterAbort(line) ==> r.token == QueueWon(t) && r.completions == 0)
    && (line == Q51 ==> r.status == Cancelled)
  }

  ghost predicate DequeueFacts(r: Irp, line: DequeueLine, k: nat, t: nat) {
    && (line in {D75, D83} ==> r.place == AtDequeuer(t) && r.context == LockOf(k))
    && (line == D83 ==> r.token.CancelWon?)
    && (AfterWin(line) ==> r.token == DequeueWon(t) && r.completions == 0)
    && (line == D101 ==> r.status == Success)
  }

  ghost predicate CancelFacts(r: Irp, line: CancelLine, irql: int, lk: LockRef, t: nat) {
    && (line in {I215, I218} ==> r.cancel)
    && (line == C16 ==> r.cancelIrql == irql)
    && (BeforeUnlink(line) ==> r.token == CancelWon(t) && r.place != Gone)
    && (AfterUnlink(line) ==> r.token == CancelWon(t) && r.place == Gone && r.completions == 0)
    && (line in {C20, C21, C22} ==> lk == r.context)
    && (line == C27 ==> r.status == Cancelled)
  }

  /** The locks held by t are what its program counter says. */
  ghost predicate LocksMatch(s: State, t: nat)
    requires t < |s.threads|
  {
    && LockIndex(s.threads[t]) < |s.locks|
    && (forall k: nat :: k < |s.locks| ==> (s.locks[k] == HeldBy(t) <==> LockIndex(s.threads[t]) == k))
    && (HoldsSpin(s.threads[t]) <==> s.spin == HeldBy(t))
  }

  /** What thread t relies on. */
  ghost predicate ThreadInv(s: State, t: nat)
    requires t < |s.threads|
  {
    && LocksMatch(s, t)
    && match s.threads[t]
       case Idle => true
       case Queueing(line, i, k) => k < |s.queues| && IrpRange(s, i) && QueueFacts(s.irps[i], line, k, t)
       case Fetching(line, k) => k < |s.queues| && (line == D73 ==> s.queues[k] != [])
       case Dequeued(line, i, k) => k < |s.queues| && IrpRange(s, i) && DequeueFacts(s.irps[i], line, k, t)
       case Cancelling(line, i, irql, lk) => IrpRange(s, i) && CancelFacts(s.irps[i], line, irql, lk, t)
  }

  /** The thread that a place or a token names is where it should be. */
  ghost predicate QueuerAt(s: State, t: nat, i: int) {
    t < |s.threads| && s.threads[t].Queueing? && s.threads[t].irp == i && BeforeInsert(s.threads[t].queueLine)
  }

  ghost predicate DequeuerAt(s: State, t: nat, i: int) {
    t < |s.threads| && s.threads[t].Dequeued? && s.threads[t].irp == i && s.threads[t].dequeueLine in {D75, D83}
  }

  /** QUEUE will re-check the cancel flag of IRP i, or has done so and will try to disarm. */
  ghost predicate AtRecheck(s: State, t: nat, i: int) {
    && t < |s.threads| && s.threads[t].Queueing? && s.threads[t].irp == i
    && s.threads[t].queueLine in {Q39Check, Q39Swap}
  }

  /** A canceller holding the cancel spin lock is about to swap IRP i's slot. */
  ghost predicate AtCancelSwap(s: State, t: nat, i: int) {
    && t < |s.threads| && s.threads[t].Cancelling? && s.threads[t].irp == i
    && s.threads[t].cancelLine == I215 && s.spin == HeldBy(t)
  }

  /** A cancel request that saw the slot armed is about to be served. */
  ghost predicate RequestInProgress(s: State, i: int)
    requires IrpRange(s, i)
  {
    || (s.irps[i].place.AtQueuer? && AtRecheck(s, s.irps[i].place.tid, i))
    || (s.spin.HeldBy? && AtCancelSwap(s, s.spin.tid, i))
  }

  ghost predicate PlaceInv(s: State, i: int)
    requires IrpRange(s, i)
  {
    var r := s.irps[i];
    match r.place
    case Outside => r.token == Unarmed && r.completions == 0
    case AtQueuer(t) => QueuerAt(s, t, i) && r.completions == 0
    case Linked =>
      && (r.token == InSlot || r.token.CancelWon?) && r.status == Pending && r.marked && r.completions == 0
      && r.context.LockOf? && i in s.Queue(r.context.queue)
    case AtDequeuer(t) =>
      DequeuerAt(s, t, i) && (r.token == InSlot || r.token.CancelWon?) && r.marked && r.completions == 0
    case SelfLinked =>
      r.token.CancelWon? && i < |s.heap| && s.heap[i] == Link(i, i) && r.marked && r.completions == 0
    case Gone =>
      && Decided(r.token) && (r.completions == 1 ==> r.status == FinalStatus(r.token))
      && (!r.token.QueueWon? ==> r.marked)
  }

  /** The IRP knows a lock that exists. */
  predicate KnowsLock(s: State, r: Irp) {
    r.context.LockOf? && r.context.queue < |s.queues|
  }

  ghost predicate TokenInv(s: State, i: int)
    requires IrpRange(s, i)
  {
    var r := s.irps[i];
    match r.token
    case Unarmed => !r.routine
    case InSlot => r.routine && KnowsLock(s, r) && (r.cancel ==> RequestInProgress(s, i))
    case QueueWon(t) =>
      !r.routine && r.place == Gone &&
      (r.completions == 0 ==>
         t < |s.threads| && s.threads[t].Queueing? && s.threads[t].irp == i && AfterAbort(s.threads[t].queueLine))
    case DequeueWon(t) =>
      !r.routine && r.place == Gone &&
      (r.completions == 0 ==>
         t < |s.threads| && s.threads[t].Dequeued? && s.threads[t].irp == i && AfterWin(s.threads[t].dequeueLine))
    case CancelWon(t) =>
      !r.routine && KnowsLock(s, r) && r.cancel &&
      (r.completions == 0 ==>
         t < |s.threads| && s.threads[t].Cancelling? && s.threads[t].irp == i &&
         if r.place == Gone then AfterUnlink(s.threads[t].cancelLine) else BeforeUnlink(s.threads[t].cancelLine))
  }

  /** An IRP is on no queue but the one whose lock it knows. */
  ghost predicate QueuedOk(s: State, i: int)
    requires IrpRange(s, i)
  {
    forall k: nat :: k < |s.queues| && i in s.queues[k] ==> s.irps[i].place == Linked && s.irps[i].context == LockOf(k)
  }

  ghost predicate IrpInv(s: State, i: int)
    requires IrpRange(s, i)
  {
    s.irps[i].completions <= 1 && QueuedOk(s, i) && PlaceInv(s, i) && TokenInv(s, i)
  }

  ghost predicate QueueRing(s: State, k: nat)
    requires k < |s.queues|
  {
    Ring(s.heap, s.Head(k), s.queues[k]) && forall i :: i in s.queues[k] ==> IrpRange(s, i)
  }

  ghost predicate HeapInv(s: State) {
    && |s.heap| == |s.irps| + |s.queues| && |s.locks| == |s.queues|
    && (forall k: nat :: k < |s.queues| ==> QueueRing(s, k))
  }

  ghost predicate Inv(s: State) {
    && HeapInv(s)
    && (forall k: nat :: k < |s.locks| && s.locks[k].HeldBy? ==> s.locks[k].tid < |s.threads|)
    && (s.spin.HeldBy? ==> s.spin.tid < |s.threads|)
    && (forall i :: IrpRange(s, i) ==> IrpInv(s, i))
    && (forall t: nat :: t < |s.threads| ==> ThreadInv(s, t))
  }

  lemma {:induction false} InitInv(s: State)
    requires Init(s)
    ensures Inv(s)
  {
  }

  // ----- The heap -----

  /** Queue m, its contents and every cell of its ring, is the same in s and s'. */
  ghost predicate SameList(s: State, s': State, m: nat) {
    && s'.Queue(m) == s.Queue(m) && At(s'.heap, s'.Head(m)) == At(s.heap, s.Head(m))
    && (forall e :: e in s.Queue(m) ==> At(s'.heap, e) == At(s.heap, e))
  }

  /** The rings survive; lists whose lock t does not hold, and cells of IRPs that are on no
      list, other than i, do not change. */
  ghost predicate HeapKept(s: State, s': State, t: nat, i: int) {
    && HeapInv(s')
    && (forall m: nat :: m < |s.queues| && s.LockAt(m) != HeldBy(t) ==> SameList(s, s', m))
    && (forall j :: IrpRange(s, j) && j != i && s.irps[j].place != Linked ==> At(s'.heap, j) == At(s.heap, j))
  }

  /** An operation of lock holder t on one list: it leaves a ring for q in queue k and
      touches only the cells of queue k and IRP i, which is on no other queue. */
  lemma {:induction false} OneList(s: State, s': State, t: nat, k: nat, q: seq<int>, i: int)
    requires Inv(s) && k < |s.queues| && s.LockAt(k) == HeldBy(t) && IrpRange(s, i)
    requires |s'.irps| == |s.irps| && |s'.locks| == |s.locks|
    requires s'.queues == s.queues[k := q] && |s'.heap| == |s.heap| && Ring(s'.heap, s.Head(k), q)
    requires forall j :: j in q ==> j == i || j in s.queues[k]
    requires forall a :: 0 <= a < |s.heap| && a != s.Head(k) && a != i && a !in s.queues[k] ==> s'.heap[a] == s.heap[a]
    requires s.irps[i].place != Linked || i in s.queues[k]
    ensures HeapKept(s, s', t, i)
  {
    forall m: nat | m < |s'.queues| && m != k ensures QueueRing(s', m) && SameList(s, s', m) {
      assert QueueRing(s, m) && QueueRing(s, k);
      forall e | e in s.queues[m] ensures IrpRange(s, e) && At(s'.heap, e) == At(s.heap, e) {
        assert IrpInv(s, e) && IrpInv(s, i);
      }
      RingFrame(s.heap, s'.heap, s.Head(m), s.queues[m]);
    }
    assert QueueRing(s, k) && QueueRing(s', k);
    forall j | IrpRange(s, j) && j != i && s.irps[j].place != Linked ensures At(s'.heap, j) == At(s.heap, j) {
      assert IrpInv(s, j);
    }
  }

  lemma {:induction false} QueueHeap(s: State, t: nat)
    requires Inv(s) && Enabled(s, t, Continue) && s.threads[t].Queueing?
    ensures HeapKept(s, QueueNext(s, t), t, Subject(s, t))
  {
    if s.threads[t].queueLine == Q62 {
      InsertHeap(s, t);
    } else {
      SameHeap(s, QueueNext(s, t), t, Subject(s, t));
    }
  }

  lemma {:induction false} SameHeap(s: State, s': State, t: nat, i: int)
    requires HeapInv(s) && s'.heap == s.heap && s'.queues == s.queues
    requires |s'.irps| == |s.irps| && |s'.locks| == |s.locks|
    ensures HeapKept(s, s', t, i)
  {
    forall k: nat | k < |s'.queues| ensures QueueRing(s', k) {
      assert QueueRing(s, k);
    }
  }

  lemma {:induction false} InsertHeap(s: State, t: nat)
    requires Inv(s) && Enabled(s, t, Continue) && s.threads[t].Queueing? && s.threads[t].queueLine == Q62
    ensures HeapKept(s, QueueNext(s, t), t, Subject(s, t))
  {
    var i, k := s.threads[t].irp, s.threads[t].home;
    assert ThreadInv(s, t) && IrpInv(s, i) && QueueRing(s, k);
    InsertTailKeepsRing(s.heap, s.Head(k), s.queues[k], i);
    OneList(s, QueueNext(s, t), t, k, s.queues[k] + [i], i);
  }

  lemma {:induction false} FetchHeap(s: State, t: nat)
    requires Inv(s) && Enabled(s, t, Continue) && s.threads[t].Fetching?
    ensures HeapKept(s, FetchNext(s, t), t, Subject(s, t))
  {
    if s.threads[t].fetchLine == D73 {
      var k := s.threads[t].home;
      assert ThreadInv(s, t) && QueueRing(s, k);
      RemoveHeadKeepsRing(s.heap, s.Head(k), s.queues[k]);
      OneList(s, FetchNext(s, t), t, k, s.queues[k][1..], s.queues[k][0]);
    } else {
      SameHeap(s, FetchNext(s, t), t, Subject(s, t));
    }
  }

  lemma {:induction false} DequeueHeap(s: State, t: nat)
    requires Inv(s) && Enabled(s, t, Continue) && s.threads[t].Dequeued?
    ensures HeapKept(s, DequeueNext(s, t), t, Subject(s, t))
  {
    if s.threads[t].dequeueLine == D83 {
      var i, k := s.threads[t].irp, s.threads[t].home;
      assert ThreadInv(s, t) && IrpInv(s, i) && QueueRing(s, k);
      SelfLinkKeepsRing(s.heap, s.Head(k), s.queues[k], i);
      assert s.queues[k := s.queues[k]] == s.queues;
      OneList(s, DequeueNext(s, t), t, k, s.queues[k], i);
    } else {
      SameHeap(s, DequeueNext(s, t), t, Subject(s, t));
    }
  }

  lemma {:induction false} CancelHeap(s: State, t: nat)
    requires Inv(s) && Enabled(s, t, Continue) && s.threads[t].Cancelling?
    ensures HeapKept(s, CancelNext(s, t), t, Subject(s, t))
  {
    if s.threads[t].cancelLine == C21 { UnlinkHeap(s, t); } else { SameHeap(s, CancelNext(s, t), t, Subject(s, t)); }
  }

  /** An armed IRP that QUEUE or DEQUEUE has off the list is in the hands of the thread that
      holds the lock the IRP knows. */
  lemma {:induction false} OffListUnderLock(s: State, i: int)
    requires Inv(s) && IrpRange(s, i) && s.irps[i].token != Unarmed
    requires s.irps[i].place.AtQueuer? || s.irps[i].place.AtDequeuer?
    ensures KnowsLock(s, s.irps[i]) && s.locks[s.irps[i].context.queue] == HeldBy(s.irps[i].place.tid)
  {
    assert IrpInv(s, i);
    assert ThreadInv(s, s.irps[i].place.tid);
  }

  /** When CancelRoutine unlinks, it holds the lock of the queue the IRP belongs to, and the
      entry is linked in that queue or self-linked. */
  lemma {:induction false} EntryAtUnlink(s: State, t: nat)
    requires Inv(s) && t < |s.threads| && s.threads[t].Cancelling? && s.threads[t].cancelLine == C21
    ensures IrpRange(s, s.threads[t].irp)
    ensures KnowsLock(s, s.irps[s.threads[t].irp]) && s.threads[t].theLock == s.irps[s.threads[t].irp].context
    ensures s.irps[s.threads[t].irp].place in {Linked, SelfLinked}
  {
    assert ThreadInv(s, t);
    var i := s.threads[t].irp;
    assert IrpInv(s, i);
    if s.irps[i].place.AtQueuer? || s.irps[i].place.AtDequeuer? {
      OffListUnderLock(s, i);
    }
  }

  lemma {:induction false} UnlinkHeap(s: State, t: nat)
    requires Inv(s) && Enabled(s, t, Continue) && s.threads[t].Cancelling? && s.threads[t].cancelLine == C21
    ensures HeapKept(s, CancelNext(s, t), t, Subject(s, t))
  {
    EntryAtUnlink(s, t);
    var i, k := s.threads[t].irp, s.threads[t].theLock.queue;
    UnlinkRing(s, k, i);
    assert ThreadInv(s, t);
    OneList(s, CancelNext(s, t), t, k, Delete(s.queues[k], i), i);
  }

  /** Unlinking an IRP whose lock is that of queue k works on queue k alone. */
  lemma {:induction false} UnlinkRing(s: State, k: nat, i: int)
    requires Inv(s) && k < |s.queues| && IrpRange(s, i)
    requires s.irps[i].context == LockOf(k) && s.irps[i].place in {Linked, SelfLinked}
    ensures var h := RemoveEntryList(s.heap, i);
            && |h| == |s.heap| && Ring(h, s.Head(k), Delete(s.queues[k], i))
            && forall a :: 0 <= a < |h| && a != s.Head(k) && a !in s.queues[k] ==> h[a] == s.heap[a]
    ensures forall j :: j in Delete(s.queues[k], i) ==> j in s.queues[k]
    ensures s.irps[i].place == Linked ==> i in s.queues[k]
  {
    var q := s.queues[k];
    assert IrpInv(s, i) && QueueRing(s, k);
    if i in q {
      var n :| 0 <= n < |q| && q[n] == i;
      DeleteIsWithout(q, n);
      RemoveEntryKeepsRing(s.heap, s.Head(k), q, n);
      DeleteMembers(q, i);
    } else {
      DeleteAbsent(q, i);
      RemoveSelfLinked(s.heap, i);
    }
  }

  // ----- What other threads and other IRPs do not notice -----

  /** The IRP a program counter carries. */
  predicate Carries(pc: Pc, j: int) {
    (pc.Queueing? || pc.Dequeued? || pc.Cancelling?) && pc.irp == j
  }

  /** Thread t passes a lock on legally: takes it when free or gives back its own. */
  predicate Handover(l: Lock, l': Lock, t: nat) {
    l' == l || (l == Free && l' == HeldBy(t)) || (l == HeldBy(t) && l' == Free)
  }

  /** s' is s after an action of thread t that touches no IRP but i. */
  ghost predicate Frame(s: State, s': State, t: nat, i: int) {
    && |s'.irps| == |s.irps| && |s'.heap| == |s.heap| && |s'.queues| == |s.queues| && |s'.locks| == |s.locks|
    && t < |s.threads| && |s'.threads| == |s.threads| && s'.threads == s.threads[t := s'.threads[t]]
    && (forall k: nat :: k < |s.locks| ==> Handover(s.locks[k], s'.locks[k], t)) && Handover(s.spin, s'.spin, t)
    && (forall j :: IrpRange(s, j) && j != i ==> s'.irps[j] == s.irps[j] && !Carries(s.threads[t], j))
    && (forall j, k: nat :: IrpRange(s, j) && j != i && k < |s.queues| ==> (j in s'.queues[k] <==> j in s.queues[k]))
    && (forall j :: IrpRange(s, j) && j != i && s.irps[j].place != Linked ==> At(s'.heap, j) == At(s.heap, j))
  }

  lemma {:induction false} OtherIrpsKept(s: State, s': State, t: nat, i: int, j: int)
    requires Frame(s, s', t, i) && IrpRange(s, j) && j != i && IrpInv(s, j)
    ensures IrpInv(s', j)
  {
  }

  /** A change to an IRP by thread t that no thread other than t can notice. */
  ghost predicate Unnoticed(r: Irp, r': Irp, t: nat) {
    && (r.cancel ==> r'.cancel)
    && (r.place.AtQueuer? && r.place.tid != t ==>
          r'.place == r.place && r'.context == r.context && r'.status == r.status && r'.marked == r.marked &&
          (r'.token == r.token || (r.token == InSlot && r'.token.CancelWon?)))
    && (r.place.AtDequeuer? && r.place.tid != t ==>
          r'.place == r.place && r'.context == r.context && (r.token.CancelWon? ==> r'.token.CancelWon?))
    && (Decided(r.token) && r.token.tid != t ==>
          r'.token == r.token && r'.context == r.context && r'.cancelIrql == r.cancelIrql &&
          (r'.place == Gone <==> r.place == Gone) &&
          (r.place == Gone ==> r'.status == r.status && r'.completions == r.completions))
  }

  lemma {:induction false} OtherThreadsKept(s: State, s': State, t: nat, i: int, u: nat)
    requires Frame(s, s', t, i) && u < |s.threads| && u != t && ThreadInv(s, u)
    requires IrpRange(s, i) ==> IrpInv(s, i) && Unnoticed(s.irps[i], s'.irps[i], t)
    requires s.threads[u].Fetching? && s.threads[u].fetchLine == D73 ==>
               s'.Queue(s.threads[u].home) == s.Queue(s.threads[u].home)
    ensures ThreadInv(s', u)
  {
    assert s'.threads[u] == s.threads[u];
    assert LocksMatch(s', u);
  }

  lemma {:induction false} QueueArmFrame(s: State, t: nat)
    requires Inv(s) && Enabled(s, t, Continue) && s.threads[t].Queueing?
    requires s.threads[t].queueLine in {Q34, Q36, Q38, Q39Check, Q39Swap, Q47}
    requires HeapKept(s, QueueNext(s, t), t, Subject(s, t))
    ensures Frame(s, QueueNext(s, t), t, Subject(s, t))
  {
    assert ThreadInv(s, t);
  }

  lemma {:induction false} QueueFrame(s: State, t: nat)
    requires Inv(s) && Enabled(s, t, Continue) && s.threads[t].Queueing?
    requires HeapKept(s, QueueNext(s, t), t, Subject(s, t))
    ensures Frame(s, QueueNext(s, t), t, Subject(s, t))
  {
    if s.threads[t].queueLine in {Q34, Q36, Q38, Q39Check, Q39Swap, Q47} {
      QueueArmFrame(s, t);
    } else {
      assert ThreadInv(s, t);
    }
  }

  lemma {:induction false} FetchHeadFrame(s: State, t: nat)
    requires Inv(s) && Enabled(s, t, Continue) && s.threads[t].Fetching? && s.threads[t].fetchLine == D73
    requires HeapKept(s, FetchNext(s, t), t, Subject(s, t))
    ensures Frame(s, FetchNext(s, t), t, Subject(s, t))
  {
    var k := s.threads[t].home;
    assert ThreadInv(s, t) && QueueRing(s, k);
    HeadRemovalIsEntryRemoval(s.heap, s.Head(k), s.queues[k]);
    assert s.queues[k] == [s.queues[k][0]] + s.queues[k][1..];
  }

  lemma {:induction false} FetchFrame(s: State, t: nat)
    requires Inv(s) && Enabled(s, t, Continue) && s.threads[t].Fetching?
    requires HeapKept(s, FetchNext(s, t), t, Subject(s, t))
    ensures Frame(s, FetchNext(s, t), t, Subject(s, t))
  {
    if s.threads[t].fetchLine == D73 { FetchHeadFrame(s, t); } else { assert ThreadInv(s, t); }
  }

  lemma {:induction false} DequeueFrame(s: State, t: nat)
    requires Inv(s) && Enabled(s, t, Continue) && s.threads[t].Dequeued?
    requires HeapKept(s, DequeueNext(s, t), t, Subject(s, t))
    ensures Frame(s, DequeueNext(s, t), t, Subject(s, t))
  {
    assert ThreadInv(s, t);
  }

  lemma {:induction false} CancelUnlinkFrame(s: State, t: nat)
    requires Inv(s) && Enabled(s, t, Continue) && s.threads[t].Cancelling? && s.threads[t].cancelLine == C21
    requires HeapKept(s, CancelNext(s, t), t, Subject(s, t))
    ensures Frame(s, CancelNext(s, t), t, Subject(s, t))
  {
    EntryAtUnlink(s, t);
    var k := s.threads[t].theLock.queue;
    assert QueueRing(s, k);
    DeleteMembers(s.queues[k], s.threads[t].irp);
  }

  lemma {:induction false} CancelFrame(s: State, t: nat)
    requires Inv(s) && Enabled(s, t, Continue) && s.threads[t].Cancelling?
    requires HeapKept(s, CancelNext(s, t), t, Subject(s, t))
    ensures Frame(s, CancelNext(s, t), t, Subject(s, t))
  {
    if s.threads[t].cancelLine == C21 { CancelUnlinkFrame(s, t); } else { assert ThreadInv(s, t); }
  }

  /** What an action must establish about its own IRP i and its own thread t. */
  ghost predicate OwnKept(s: State, s': State, t: nat, i: int) {
    && IrpRange(s, i) && |s'.irps| == |s.irps| && t < |s'.threads|
    && ThreadInv(s', t) && IrpInv(s', i) && Unnoticed(s.irps[i], s'.irps[i], t)
  }

  lemma {:induction false} QueueArmOwn(s: State, t: nat)
    requires Inv(s) && Enabled(s, t, Continue) && s.threads[t].Queueing?
    requires s.threads[t].queueLine in {Q34, Q36, Q38, Q39Check}
    ensures OwnKept(s, QueueNext(s, t), t, s.threads[t].irp)
  {
    assert ThreadInv(s, t) && IrpInv(s, s.threads[t].irp);
  }

  lemma {:induction false} QueueAbortOwn(s: State, t: nat)
    requires Inv(s) && Enabled(s, t, Continue) && s.threads[t].Queueing?
    requires s.threads[t].queueLine in {Q39Swap, Q49, Q51}
    ensures OwnKept(s, QueueNext(s, t), t, s.threads[t].irp)
  {
    assert ThreadInv(s, t) && IrpInv(s, s.threads[t].irp);
  }

  lemma {:induction false} QueueUnlockOwn(s: State, t: nat)
    requires Inv(s) && Enabled(s, t, Continue) && s.threads[t].Queueing?
    requires s.threads[t].queueLine in {Q47, Q64}
    ensures OwnKept(s, QueueNext(s, t), t, s.threads[t].irp)
  {
    assert ThreadInv(s, t) && IrpInv(s, s.threads[t].irp);
  }

  lemma {:induction false} QueueInsertOwn(s: State, t: nat)
    requires Inv(s) && Enabled(s, t, Continue) && s.threads[t].Queueing? && HeapInv(QueueNext(s, t))
    requires s.threads[t].queueLine == Q62
    ensures OwnKept(s, QueueNext(s, t), t, s.threads[t].irp)
  {
    assert ThreadInv(s, t) && IrpInv(s, s.threads[t].irp);
  }

  lemma {:induction false} QueueAcceptOwn(s: State, t: nat)
    requires Inv(s) && Enabled(s, t, Continue) && s.threads[t].Queueing?
    requires s.threads[t].queueLine in {Q59, Q60}
    ensures OwnKept(s, QueueNext(s, t), t, s.threads[t].irp)
  {
    assert ThreadInv(s, t) && IrpInv(s, s.threads[t].irp);
  }

  lemma {:induction false} DequeueLostOwn(s: State, t: nat)
    requires Inv(s) && Enabled(s, t, Continue) && s.threads[t].Dequeued? && HeapInv(DequeueNext(s, t))
    requires s.threads[t].dequeueLine in {D75, D83, D85}
    ensures OwnKept(s, DequeueNext(s, t), t, s.threads[t].irp)
  {
    assert ThreadInv(s, t) && IrpInv(s, s.threads[t].irp);
  }

  lemma {:induction false} DequeueWonOwn(s: State, t: nat)
    requires Inv(s) && Enabled(s, t, Continue) && s.threads[t].Dequeued?
    requires s.threads[t].dequeueLine in {D97, D99, D101}
    ensures OwnKept(s, DequeueNext(s, t), t, s.threads[t].irp)
  {
    assert ThreadInv(s, t) && IrpInv(s, s.threads[t].irp);
  }

  lemma {:induction false} IoCancelSwapOwn(s: State, t: nat)
    requires Inv(s) && Enabled(s, t, Continue) && s.threads[t].Cancelling?
    requires s.threads[t].cancelLine in {I213, I215}
    ensures OwnKept(s, CancelNext(s, t), t, s.threads[t].irp)
  {
    assert ThreadInv(s, t) && IrpInv(s, s.threads[t].irp);
  }

  lemma {:induction false} IoCancelSpinOwn(s: State, t: nat)
    requires Inv(s) && Enabled(s, t, Continue) && s.threads[t].Cancelling?
    requires s.threads[t].cancelLine in {I211, I218}
    ensures OwnKept(s, CancelNext(s, t), t, s.threads[t].irp)
  {
    assert ThreadInv(s, t) && IrpInv(s, s.threads[t].irp);
  }

  lemma {:induction false} CancelLockOwn(s: State, t: nat)
    requires Inv(s) && Enabled(s, t, Continue) && s.threads[t].Cancelling?
    requires s.threads[t].cancelLine in {I222, C16, C18, C20}
    ensures OwnKept(s, CancelNext(s, t), t, s.threads[t].irp)
  {
    assert ThreadInv(s, t) && IrpInv(s, s.threads[t].irp);
  }

  lemma {:induction false} CancelUnlinkOwn(s: State, t: nat)
    requires Inv(s) && Enabled(s, t, Continue) && s.threads[t].Cancelling? && HeapInv(CancelNext(s, t))
    requires s.threads[t].cancelLine == C21
    ensures OwnKept(s, CancelNext(s, t), t, s.threads[t].irp)
  {
    EntryAtUnlink(s, t);
    var i, k := s.threads[t].irp, s.threads[t].theLock.queue;
    assert ThreadInv(s, t) && IrpInv(s, i) && QueueRing(s, k);
    DeleteMembers(s.queues[k], i);
  }

  lemma {:induction false} CancelCompleteOwn(s: State, t: nat)
    requires Inv(s) && Enabled(s, t, Continue) && s.threads[t].Cancelling?
    requires s.threads[t].cancelLine in {C22, C24, C27}
    ensures OwnKept(s, CancelNext(s, t), t, s.threads[t].irp)
  {
    assert ThreadInv(s, t) && IrpInv(s, s.threads[t].irp);
  }

  lemma {:induction false} FetchOwn(s: State, t: nat)
    requires Inv(s) && Enabled(s, t, Continue) && s.threads[t].Fetching? && HeapInv(FetchNext(s, t))
    requires s.threads[t].fetchLine == D73
    ensures OwnKept(s, FetchNext(s, t), t, Subject(s, t))
  {
    var k := s.threads[t].home;
    assert ThreadInv(s, t) && QueueRing(s, k);
    RemoveHeadKeepsRing(s.heap, s.Head(k), s.queues[k]);
    assert IrpInv(s, s.queues[k][0]);
  }

  lemma {:induction false} QueueOwn(s: State, t: nat)
    requires Inv(s) && Enabled(s, t, Continue) && s.threads[t].Queueing? && HeapInv(QueueNext(s, t))
    ensures OwnKept(s, QueueNext(s, t), t, s.threads[t].irp)
  {
    match s.threads[t].queueLine
    case Q34 | Q36 | Q38 | Q39Check => QueueArmOwn(s, t);
    case Q39Swap | Q49 | Q51 => QueueAbortOwn(s, t);
    case Q47 | Q64 => QueueUnlockOwn(s, t);
    case Q59 | Q60 => QueueAcceptOwn(s, t);
    case Q62 => QueueInsertOwn(s, t);
  }

  lemma {:induction false} DequeueOwn(s: State, t: nat)
    requires Inv(s) && Enabled(s, t, Continue) && s.threads[t].Dequeued? && HeapInv(DequeueNext(s, t))
    ensures OwnKept(s, DequeueNext(s, t), t, s.threads[t].irp)
  {
    match s.threads[t].dequeueLine
    case D75 | D83 | D85 => DequeueLostOwn(s, t);
    case D97 | D99 | D101 => DequeueWonOwn(s, t);
  }

  lemma {:induction false} CancelOwn(s: State, t: nat)
    requires Inv(s) && Enabled(s, t, Continue) && s.threads[t].Cancelling? && HeapInv(CancelNext(s, t))
    ensures OwnKept(s, CancelNext(s, t), t, s.threads[t].irp)
  {
    match s.threads[t].cancelLine
    case I211 | I218 => IoCancelSpinOwn(s, t);
    case I213 | I215 => IoCancelSwapOwn(s, t);
    case I222 | C16 | C18 | C20 => CancelLockOwn(s, t);
    case C21 => CancelUnlinkOwn(s, t);
    case C22 | C24 | C27 => CancelCompleteOwn(s, t);
  }

  predicate AtFetchLock(pc: Pc) {
    pc.Fetching? && pc.fetchLine == D71
  }

  lemma {:induction false} ContinueFrame(s: State, t: nat)
    requires Inv(s) && Enabled(s, t, Continue)
    ensures HeapInv(Next(s, t, Continue)) && Frame(s, Next(s, t, Continue), t, Subject(s, t))
  {
    match s.threads[t]
    case Queueing(_, _, _) => QueueHeap(s, t); QueueFrame(s, t);
    case Fetching(_, _) => FetchHeap(s, t); FetchFrame(s, t);
    case Dequeued(_, _, _) => DequeueHeap(s, t); DequeueFrame(s, t);
    case Cancelling(_, _, _, _) => CancelHeap(s, t); CancelFrame(s, t);
  }

  lemma {:induction false} ContinueOwn(s: State, t: nat)
    requires Inv(s) && Enabled(s, t, Continue) && HeapInv(Next(s, t, Continue))
    requires !AtFetchLock(s.threads[t])
    ensures OwnKept(s, Next(s, t, Continue), t, Subject(s, t))
  {
    match s.threads[t]
    case Queueing(_, _, _) => QueueOwn(s, t);
    case Fetching(_, _) => FetchOwn(s, t);
    case Dequeued(_, _, _) => DequeueOwn(s, t);
    case Cancelling(_, _, _, _) => CancelOwn(s, t);
  }

  /** Reassembling the invariant from the parts. */
  lemma {:induction false} Reassemble(s: State, s': State, t: nat, i: int)
    requires Inv(s) && HeapInv(s') && Frame(s, s', t, i) && ThreadInv(s', t)
    requires IrpRange(s, i) ==> IrpInv(s', i) && Unnoticed(s.irps[i], s'.irps[i], t)
    requires forall u: nat :: u < |s.threads| && u != t && HoldsLock(s.threads[u]) ==>
               s'.Queue(LockIndex(s.threads[u])) == s.Queue(LockIndex(s.threads[u]))
    ensures Inv(s')
  {
    forall j | IrpRange(s', j) && j != i ensures IrpInv(s', j) {
      OtherIrpsKept(s, s', t, i, j);
    }
    forall u: nat | u < |s'.threads| && u != t ensures ThreadInv(s', u) {
      OtherThreadsKept(s, s', t, i, u);
    }
  }

  // ----- Preservation -----

  /** A list, heap ring and contents, changes only in the hands of the holder of its lock. */
  lemma {:induction false} ListGuarded(s: State, t: nat, k: nat)
    requires Inv(s) && Enabled(s, t, Continue) && k < |s.queues| && s.LockAt(k) != HeldBy(t)
    ensures SameList(s, Next(s, t, Continue), k)
  {
    match s.threads[t]
    case Queueing(_, _, _) => QueueHeap(s, t);
    case Fetching(_, _) => FetchHeap(s, t);
    case Dequeued(_, _, _) => DequeueHeap(s, t);
    case Cancelling(_, _, _, _) => CancelHeap(s, t);
  }

  /** So what another lock holder has seen of its list stays true. */
  lemma {:induction false} ListStable(s: State, t: nat, u: nat)
    requires Inv(s) && Enabled(s, t, Continue) && u < |s.threads| && u != t && HoldsLock(s.threads[u])
    ensures SameList(s, Next(s, t, Continue), LockIndex(s.threads[u]))
  {
    assert ThreadInv(s, u);
    ListGuarded(s, t, LockIndex(s.threads[u]));
  }

  lemma {:induction false} ContinueKeepsInv(s: State, t: nat)
    requires Inv(s) && Enabled(s, t, Continue)
    ensures Inv(Next(s, t, Continue))
  {
    var s' := Next(s, t, Continue);
    ContinueFrame(s, t);
    forall u: nat | u < |s.threads| && u != t && HoldsLock(s.threads[u])
      ensures s'.Queue(LockIndex(s.threads[u])) == s.Queue(LockIndex(s.threads[u]))
    {
      ListStable(s, t, u);
    }
    if AtFetchLock(s.threads[t]) {
      FetchLockOwn(s, t);
    } else {
      ContinueOwn(s, t);
    }
    Reassemble(s, s', t, Subject(s, t));
  }

  lemma {:induction false} FetchLockOwn(s: State, t: nat)
    requires Inv(s) && Enabled(s, t, Continue) && AtFetchLock(s.threads[t])
    ensures ThreadInv(FetchNext(s, t), t)
  {
    var k := s.threads[t].home;
    assert ThreadInv(s, t) && QueueRing(s, k);
    HeadEntryIsQueued(s.heap, s.Head(k), s.queues[k]);
  }

  lemma {:induction false} StartKeepsInv(s: State, t: nat, c: Call)
    requires Inv(s) && Enabled(s, t, c) && c != Continue
    ensures Inv(Start(s, t, c))
  {
    var s' := Start(s, t, c);
    var i := if c.Submit? || c.Cancel? then c.irp else -1;
    SameHeap(s, s', t, i);
    assert ThreadInv(s, t);
    assert IrpRange(s, i) ==> IrpInv(s, i);
    StartFrame(s, t, c, i);
    Reassemble(s, s', t, i);
  }

  lemma {:induction false} StartFrame(s: State, t: nat, c: Call, i: int)
    requires Inv(s) && Enabled(s, t, c) && c != Continue
    requires i == if c.Submit? || c.Cancel? then c.irp else -1
    ensures Frame(s, Start(s, t, c), t, i) && ThreadInv(Start(s, t, c), t)
  {
    assert ThreadInv(s, t);
  }

  /** Every action of every thread keeps the invariant. */
  lemma {:induction false} StepKeepsInv(s: State, t: nat, c: Call)
    requires Inv(s) && Enabled(s, t, c)
    ensures Inv(Next(s, t, c))
  {
    if c == Continue { ContinueKeepsInv(s, t); } else { StartKeepsInv(s, t, c); }
  }

  /** Hence every interleaving keeps it. */
  lemma {:induction false} RunKeepsInv(s: State, schedule: seq<Turn>)
    requires Inv(s) && Runs(s, schedule)
    ensures Inv(Run(s, schedule))
    decreases |schedule|
  {
    if schedule != [] {
      StepKeepsInv(s, schedule[0].tid, schedule[0].call);
      RunKeepsInv(Next(s, schedule[0].tid, schedule[0].call), schedule[1..]);
    }
  }
}
