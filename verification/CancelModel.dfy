/** The cancel-safe IRP queues of "doc/irp cancel boilerplate.c" and the canceller of
    ntoskrnl/io/cancel.c as a machine that takes one atomic action at a time. Any number
    of threads run any number of the three routines over any number of IRPs and queues;
    each queue has a lock of its own, and all share the cancel spin lock. Program counters
    are named after the source lines they are about to execute. */
module CancelModel {
  import opened ListHeap

  // DriverContext[3]: whatever was there, or the address of a queue's lock.
  datatype LockRef = Garbage | LockOf(queue: nat)

  datatype Status = Other | Pending | Success | Cancelled

  datatype Lock = Free | HeldBy(tid: nat)

  // Where an IRP's list entry is. A bookkeeping field: no branch of the code reads it.
  datatype Place = Outside | AtQueuer(tid: nat) | Linked | AtDequeuer(tid: nat) | SelfLinked | Gone

  // Who swapped the cancel routine out, i.e. who owns the IRP's completion. Bookkeeping.
  datatype Token = Unarmed | InSlot | QueueWon(tid: nat) | DequeueWon(tid: nat) | CancelWon(tid: nat)

  datatype Irp = Irp(
    cancel: bool,          // Irp->Cancel
    routine: bool,         // Irp->CancelRoutine is not NULL
    cancelIrql: int,       // Irp->CancelIrql
    context: LockRef,      // Irp->Tail.Overlay.DriverContext[3]
    status: Status,        // Irp->IoStatus.Status
    marked: bool,          // IoMarkIrpPending was called
    completions: nat,      // how often IoCompleteRequest ran on it
    place: Place,
    token: Token)

  datatype QueueLine = Q34 | Q36 | Q38 | Q39Check | Q39Swap | Q47 | Q49 | Q51 | Q59 | Q60 | Q62 | Q64
  datatype FetchLine = D71 | D73
  datatype DequeueLine = D75 | D83 | D85 | D97 | D99 | D101
  // IoCancelIrp, lines 211-223 of cancel.c, then CancelRoutine, lines 16-27 of the boilerplate.
  datatype CancelLine = I211 | I213 | I215 | I218 | I222 | C16 | C18 | C20 | C21 | C22 | C24 | C27

  // QUEUE and DEQUEUE know their queue; the canceller knows only the IRP, the interrupt
  // level it came from, which from line 16 on is the one it found in the IRP, and, after
  // line 18, the lock it found in the IRP.
  datatype Pc =
    | Idle
    | Queueing(queueLine: QueueLine, irp: int, home: nat)
    | Fetching(fetchLine: FetchLine, home: nat)
    | Dequeued(dequeueLine: DequeueLine, irp: int, home: nat)
    | Cancelling(cancelLine: CancelLine, irp: int, oldIrql: int, theLock: LockRef)

  // What an idle thread starts next; a thread inside a routine can only continue.
  datatype Call = Submit(irp: int, home: nat) | Fetch(home: nat) | Cancel(irp: int, irql: int) | Continue

  // The list entry of IRP i has address i, the list head of queue k has address |irps| + k.
  datatype State = State(
    locks: seq<Lock>,          // one per queue
    spin: Lock,                // the system-wide cancel spin lock
    irps: seq<Irp>,
    heap: Heap,
    threads: seq<Pc>,
    queues: seq<seq<int>>)     // what the heap represents; bookkeeping
  {
    function Head(k: nat): int { |irps| + k }

    function LockAt(k: nat): Lock {
      if k < |locks| then locks[k] else Free
    }

    function SetLock(k: nat, l: Lock): State {
      if k < |locks| then this.(locks := locks[k := l]) else this
    }

    function Queue(k: nat): seq<int> {
      if k < |queues| then queues[k] else []
    }

    function SetQueue(k: nat, q: seq<int>): State {
      if k < |queues| then this.(queues := queues[k := q]) else this
    }

    function Goto(t: nat, pc: Pc): State
      requires t < |threads|
    {
      this.(threads := threads[t := pc])
    }

    function Put(i: int, r: Irp): State
      requires 0 <= i < |irps|
    {
      this.(irps := irps[i := r])
    }
  }

  /** Threads idle, locks free, list heads initialised. IRPs hold arbitrary data, except that
      no cancel routine is set yet; some may already carry a cancel request. */
  ghost predicate Init(s: State) {
    && s.spin == Free && |s.locks| == |s.queues| && |s.heap| == |s.irps| + |s.queues|
    && (forall k :: 0 <= k < |s.queues| ==>
          s.locks[k] == Free && s.queues[k] == [] && s.heap[s.Head(k)] == Link(s.Head(k), s.Head(k)))
    && (forall t :: 0 <= t < |s.threads| ==> s.threads[t] == Idle)
    && (forall i :: 0 <= i < |s.irps| ==>
          var r := s.irps[i];
          !r.routine && r.token == Unarmed && r.place == Outside && r.completions == 0)
  }

  /** Waiting for a lock. A dequeuer also waits for a non-empty queue: the boilerplate
      leaves that test to its caller. */
  predicate Waiting(s: State, t: nat)
    requires t < |s.threads|
  {
    match s.threads[t]
    case Queueing(Q34, _, k) => s.LockAt(k) != Free
    case Fetching(D71, k) => s.LockAt(k) != Free || HeadEntry(s.heap, s.Head(k)) == s.Head(k)
    case Cancelling(I211, _, _, _) => s.spin != Free
    case Cancelling(C20, _, _, lk) => lk.LockOf? && s.LockAt(lk.queue) != Free
    case _ => false
  }

  predicate IrpRange(s: State, i: int) {
    0 <= i < |s.irps|
  }

  /** The IRP a thread works on, if any. */
  function Subject(s: State, t: nat): (i: int)
    requires t < |s.threads|
  {
    match s.threads[t]
    case Idle => -1
    case Queueing(_, i, _) => i
    case Fetching(D71, _) => -1
    case Fetching(D73, k) => HeadEntry(s.heap, s.Head(k))
    case Dequeued(_, i, _) => i
    case Cancelling(_, i, _, _) => i
  }

  /** Thread t may take its next action. Each IRP is submitted at most once. */
  predicate Enabled(s: State, t: nat, c: Call) {
    && t < |s.threads|
    && match c
       case Submit(i, k) => s.threads[t].Idle? && IrpRange(s, i) && k < |s.queues| && s.irps[i].place == Outside
       case Fetch(k) => s.threads[t].Idle? && k < |s.queues|
       case Cancel(i, _) => s.threads[t].Idle? && IrpRange(s, i)
       case Continue =>
         && !s.threads[t].Idle? && !Waiting(s, t)
         && ((s.threads[t].Fetching? && s.threads[t].fetchLine == D71) || IrpRange(s, Subject(s, t)))
  }

  function Start(s: State, t: nat, c: Call): State
    requires Enabled(s, t, c) && c != Continue
  {
    match c
    case Submit(i, k) => s.Put(i, s.irps[i].(place := AtQueuer(t))).Goto(t, Queueing(Q34, i, k))
    case Fetch(k) => s.Goto(t, Fetching(D71, k))
    case Cancel(i, irql) => s.Goto(t, Cancelling(I211, i, irql, Garbage))
  }

  /** QUEUE_BOLIERPLATE. */
  function QueueNext(s: State, t: nat): State
    requires Enabled(s, t, Continue) && s.threads[t].Queueing?
  {
    var Queueing(line, i, k) := s.threads[t];
    var r := s.irps[i];
    match line
    case Q34 => s.SetLock(k, HeldBy(t)).Goto(t, Queueing(Q36, i, k))
    case Q36 => s.Put(i, r.(context := LockOf(k))).Goto(t, Queueing(Q38, i, k))
    case Q38 => s.Put(i, r.(routine := true, token := InSlot)).Goto(t, Queueing(Q39Check, i, k))
    case Q39Check => s.Goto(t, Queueing(if r.cancel then Q39Swap else Q59, i, k))
    case Q39Swap =>
      if r.routine
      then s.Put(i, r.(routine := false, token := QueueWon(t), place := Gone)).Goto(t, Queueing(Q47, i, k))
      else s.Goto(t, Queueing(Q59, i, k))
    case Q47 => s.SetLock(k, Free).Goto(t, Queueing(Q49, i, k))
    case Q49 => s.Put(i, r.(status := Cancelled)).Goto(t, Queueing(Q51, i, k))
    case Q51 => s.Put(i, r.(completions := r.completions + 1)).Goto(t, Idle)
    case Q59 => s.Put(i, r.(status := Pending)).Goto(t, Queueing(Q60, i, k))
    case Q60 => s.Put(i, r.(marked := true)).Goto(t, Queueing(Q62, i, k))
    case Q62 =>
      s.SetQueue(k, s.Queue(k) + [i]).(heap := InsertTailList(s.heap, s.Head(k), i))
      .Put(i, r.(place := Linked)).Goto(t, Queueing(Q64, i, k))
    case Q64 => s.SetLock(k, Free).Goto(t, Idle)
  }

  /** DEQUEUE_BOILERPLATE up to RemoveHeadList. */
  function FetchNext(s: State, t: nat): State
    requires Enabled(s, t, Continue) && s.threads[t].Fetching?
  {
    var k := s.threads[t].home;
    match s.threads[t].fetchLine
    case D71 => s.SetLock(k, HeldBy(t)).Goto(t, Fetching(D73, k))
    case D73 =>
      var i, q := HeadEntry(s.heap, s.Head(k)), s.Queue(k);
      s.SetQueue(k, if q == [] then [] else q[1..]).(heap := RemoveHeadList(s.heap, s.Head(k)))
      .Put(i, s.irps[i].(place := AtDequeuer(t))).Goto(t, Dequeued(D75, i, k))
  }

  /** DEQUEUE_BOILERPLATE after RemoveHeadList. */
  function DequeueNext(s: State, t: nat): State
    requires Enabled(s, t, Continue) && s.threads[t].Dequeued?
  {
    var Dequeued(line, i, k) := s.threads[t];
    var r := s.irps[i];
    match line
    case D75 =>
      if r.routine
      then s.Put(i, r.(routine := false, token := DequeueWon(t), place := Gone)).Goto(t, Dequeued(D97, i, k))
      else s.Goto(t, Dequeued(D83, i, k))
    case D83 => s.(heap := InitializeListHead(s.heap, i)).Put(i, r.(place := SelfLinked)).Goto(t, Dequeued(D85, i, k))
    case D85 => s.SetLock(k, Free).Goto(t, Idle)
    case D97 => s.SetLock(k, Free).Goto(t, Dequeued(D99, i, k))
    case D99 => s.Put(i, r.(status := Success)).Goto(t, Dequeued(D101, i, k))
    case D101 => s.Put(i, r.(completions := r.completions + 1)).Goto(t, Idle)
  }

  /** IoCancelIrp and, when it swapped a routine out, CancelRoutine, which works with
      whatever lock it finds in the IRP. */
  function CancelNext(s: State, t: nat): State
    requires Enabled(s, t, Continue) && s.threads[t].Cancelling?
  {
    var Cancelling(line, i, irql, lk) := s.threads[t];
    var r := s.irps[i];
    match line
    case I211 => s.(spin := HeldBy(t)).Goto(t, Cancelling(I213, i, irql, lk))
    case I213 => s.Put(i, r.(cancel := true)).Goto(t, Cancelling(I215, i, irql, lk))
    case I215 =>
      if r.routine
      then s.Put(i, r.(routine := false, token := CancelWon(t))).Goto(t, Cancelling(I222, i, irql, lk))
      else s.Goto(t, Cancelling(I218, i, irql, lk))
    case I218 => s.(spin := Free).Goto(t, Idle)
    case I222 => s.Put(i, r.(cancelIrql := irql)).Goto(t, Cancelling(C16, i, irql, lk))
    case C16 => s.(spin := Free).Goto(t, Cancelling(C18, i, r.cancelIrql, lk))
    case C18 => s.Goto(t, Cancelling(C20, i, irql, r.context))
    case C20 => Relock(s, lk, HeldBy(t)).Goto(t, Cancelling(C21, i, irql, lk))
    case C21 =>
      Unqueue(s, lk, i).(heap := RemoveEntryList(s.heap, i))
      .Put(i, r.(place := Gone)).Goto(t, Cancelling(C22, i, irql, lk))
    case C22 => Relock(s, lk, Free).Goto(t, Cancelling(C24, i, irql, lk))
    case C24 => s.Put(i, r.(status := Cancelled)).Goto(t, Cancelling(C27, i, irql, lk))
    case C27 => s.Put(i, r.(completions := r.completions + 1)).Goto(t, Idle)
  }

  function Relock(s: State, lk: LockRef, l: Lock): State {
    if lk.LockOf? then s.SetLock(lk.queue, l) else s
  }

  function Unqueue(s: State, lk: LockRef, i: int): State {
    if lk.LockOf? then s.SetQueue(lk.queue, Delete(s.Queue(lk.queue), i)) else s
  }

  function Next(s: State, t: nat, c: Call): State
    requires Enabled(s, t, c)
  {
    if c != Continue then Start(s, t, c)
    else match s.threads[t]
      case Queueing(_, _, _) => QueueNext(s, t)
      case Fetching(_, _) => FetchNext(s, t)
      case Dequeued(_, _, _) => DequeueNext(s, t)
      case Cancelling(_, _, _, _) => CancelNext(s, t)
  }

  // One scheduling decision.
  datatype Turn = Turn(tid: nat, call: Call)

  /** A schedule is any interleaving: at each step some thread takes an enabled action. */
  ghost predicate Runs(s: State, schedule: seq<Turn>)
    decreases |schedule|
  {
    schedule == [] ||
    var turn := schedule[0];
    Enabled(s, turn.tid, turn.call) && Runs(Next(s, turn.tid, turn.call), schedule[1..])
  }

  ghost function Run(s: State, schedule: seq<Turn>): State
    requires Runs(s, schedule)
    decreases |schedule|
  {
    if schedule == [] then s
    else Run(Next(s, schedule[0].tid, schedule[0].call), schedule[1..])
  }
}
