/** The same machine in the form of the source: IRPs and list entries are objects linked by
    pointers, and every line updates them in place. Each method does exactly what the
    specification function of CancelModel says, and needs no pointer that could be null. */
module CancelKernel {
  import opened ListHeap
  import opened CancelModel
  import opened CancelInvariant
  import opened CancelSafety

  class ListEntry {
    const address: nat
    var Flink: ListEntry?
    var Blink: ListEntry?

    constructor (address: nat, flink: ListEntry?, blink: ListEntry?)
      ensures this.address == address && Flink == flink && Blink == blink
    {
      this.address, Flink, Blink := address, flink, blink;
    }
  }

  class IrpObject {
    var Cancel: bool
    var CancelRoutine: bool
    var CancelIrql: int
    var DriverContext3: LockRef
    var IoStatus: Status
    var PendingMark: bool
    ghost var completions: nat
    ghost var place: Place
    ghost var token: Token

    ghost function Value(): Irp
      reads this
    {
      Irp(Cancel, CancelRoutine, CancelIrql, DriverContext3, IoStatus, PendingMark, completions, place, token)
    }

    /** IoSetCancelRoutine: swaps the slot and returns whether a routine was set. */
    method IoSetCancelRoutine(routine: bool) returns (previous: bool)
      modifies this`CancelRoutine
      ensures previous == old(CancelRoutine) && CancelRoutine == routine
    {
      previous := CancelRoutine;
      CancelRoutine := routine;
    }

    /** IoCompleteRequest, as far as the protocol sees it. Its asserts are preconditions. */
    method IoCompleteRequest()
      requires !CancelRoutine && IoStatus != Pending
      modifies this`completions
      ensures completions == old(completions) + 1
    {
      completions := completions + 1;
    }
  }

  class Kernel {
    const irps: seq<IrpObject>
    const entries: seq<ListEntry>    // entries[i] is IRP i's list entry; the queues' heads follow
    var queueLocks: seq<Lock>
    var cancelSpinLock: Lock
    var threads: seq<Pc>
    ghost var queues: seq<seq<int>>

    ghost predicate Valid() {
      && |irps| <= |entries|
      && (forall i, j :: 0 <= i < j < |irps| ==> irps[i] != irps[j])
      && (forall a :: 0 <= a < |entries| ==> entries[a].address == a)
    }

    /** The place of an entry among those of this kernel; -1 is null or memory elsewhere. */
    ghost function AddressOf(e: ListEntry?): int {
      if e != null && e.address < |entries| && entries[e.address] == e then e.address else -1
    }

    ghost function Links(): Heap
      reads entries
    {
      seq(|entries|, a requires 0 <= a < |entries| reads entries =>
        Link(AddressOf(entries[a].Flink), AddressOf(entries[a].Blink)))
    }

    ghost function Irps(): seq<Irp>
      reads irps
    {
      seq(|irps|, i requires 0 <= i < |irps| reads irps => irps[i].Value())
    }

    ghost function View(): State
      reads this, irps, entries
    {
      State(queueLocks, cancelSpinLock, Irps(), Links(), threads, queues)
    }

    /** IRPs and list entries hold whatever they held before, wild links included. */
    constructor (irps: seq<IrpObject>, entries: seq<ListEntry>, threadCount: nat)
      requires forall i, j :: 0 <= i < j < |irps| ==> irps[i] != irps[j]
      requires forall i :: 0 <= i < |irps| ==>
                 var r := irps[i].Value(); !r.routine && r.token == Unarmed && r.place == Outside && r.completions == 0
      requires |irps| <= |entries|
      requires forall a :: 0 <= a < |entries| ==> entries[a].address == a
      modifies entries[|irps|..]
      ensures Valid() && Init(View())
      ensures this.irps == irps && this.entries == entries
    {
      this.irps, this.entries := irps, entries;
      queueLocks, cancelSpinLock := seq(|entries| - |irps|, _ => Free), Free;
      threads := seq(threadCount, _ => Idle);
      queues := seq(|entries| - |irps|, _ => []);
      new;
      InitializeHeads();
    }

    method InitializeHeads()
      requires Valid()
      modifies entries[|irps|..]
      ensures forall a :: |irps| <= a < |entries| ==> Links()[a] == Link(a, a)
    {
      for a := |irps| to |entries|
        invariant forall b :: |irps| <= b < a ==> Links()[b] == Link(b, b)
      {
        InitializeListHead(entries[a]);
      }
    }

    // ----- The list primitives, store by store -----

    twostate lemma {:induction false} FlinkStored(e: ListEntry)
      requires Valid() && e.Blink == old(e.Blink)
      requires forall x :: x in entries && x != e ==> x.Flink == old(x.Flink) && x.Blink == old(x.Blink)
      ensures Links() == SetFlink(old(Links()), AddressOf(e), AddressOf(e.Flink))
    {
    }

    twostate lemma {:induction false} BlinkStored(e: ListEntry)
      requires Valid() && e.Flink == old(e.Flink)
      requires forall x :: x in entries && x != e ==> x.Flink == old(x.Flink) && x.Blink == old(x.Blink)
      ensures Links() == SetBlink(old(Links()), AddressOf(e), AddressOf(e.Blink))
    {
    }

    method InitializeListHead(e: ListEntry)
      requires Valid() && e in entries
      modifies e
      ensures Links() == ListHeap.InitializeListHead(old(Links()), e.address)
    {
      e.Blink := e;
      BlinkStored(e);
      label Second:
      e.Flink := e;
      FlinkStored@Second(e);
    }

    method InsertTailList(head: ListEntry, e: ListEntry)
      requires Valid() && head in entries && e in entries && head.Blink != null
      modifies head, e, head.Blink
      ensures Links() == ListHeap.InsertTailList(old(Links()), head.address, e.address)
    {
      var oldBlink := head.Blink;
      e.Flink := head;
      FlinkStored(e);
      label Second:
      e.Blink := oldBlink;
      BlinkStored@Second(e);
      label Third:
      oldBlink.Flink := e;
      FlinkStored@Third(oldBlink);
      label Fourth:
      head.Blink := e;
      BlinkStored@Fourth(head);
    }

    /** The result compares the neighbours' addresses, as the source does. */
    method RemoveEntryList(e: ListEntry) returns (empty: bool)
      requires Valid() && e in entries && e.Flink != null && e.Blink != null
      modifies e.Flink, e.Blink
      ensures Links() == ListHeap.RemoveEntryList(old(Links()), e.address)
      ensures AddressOf(old(e.Flink)) >= 0 ==> (empty <==> NeighboursMeet(old(Links()), e.address))
    {
      var oldFlink := e.Flink;
      var oldBlink := e.Blink;
      oldFlink.Blink := oldBlink;
      BlinkStored(oldFlink);
      label Second:
      oldBlink.Flink := oldFlink;
      FlinkStored@Second(oldBlink);
      empty := oldFlink == oldBlink;
    }

    method RemoveHeadList(head: ListEntry) returns (e: ListEntry)
      requires Valid() && head in entries && head.Flink != null && head.Flink in entries && head.Flink.Flink != null
      modifies head, head.Flink.Flink
      ensures e in entries && e.address == HeadEntry(old(Links()), head.address)
      ensures Links() == ListHeap.RemoveHeadList(old(Links()), head.address)
    {
      e := head.Flink;
      var flink := e.Flink;
      head.Flink := flink;
      FlinkStored(head);
      label Second:
      flink.Blink := head;
      BlinkStored@Second(flink);
    }

    // ----- The three routines, line by line -----

    method Goto(t: nat, pc: Pc)
      requires t < |threads|
      modifies this`threads
      ensures threads == old(threads)[t := pc]
    {
      threads := threads[t := pc];
    }

    method SetQueueLock(k: nat, l: Lock)
      requires k < |queueLocks|
      modifies this`queueLocks
      ensures queueLocks == old(queueLocks)[k := l]
    {
      queueLocks := queueLocks[k := l];
    }

    twostate lemma {:induction false} OneIrpChanged(i: nat)
      requires i < |irps| && forall j :: 0 <= j < |irps| && j != i ==> irps[j].Value() == old(irps[j].Value())
      ensures Irps() == old(Irps())[i := irps[i].Value()]
    {
    }

    /** Where thread t goes on, and the bookkeeping of a list operation on IRP i and queue k. */
    method Note(t: nat, pc: Pc, i: nat, ghost place: Place, ghost k: nat, ghost q: seq<int>)
      requires Valid() && t < |threads| && i < |irps| && k < |queues|
      modifies this`threads, this`queues, irps[i]
      ensures var s := old(View());
              var r := s.irps[i].(place := place);
              View() == State(s.locks, s.spin, s.irps[i := r], s.heap, s.threads[t := pc], s.queues[k := q])
    {
      irps[i].place := place;
      OneIrpChanged(i);
      queues := queues[k := q];
      Goto(t, pc);
    }

    /** Thread t may execute its next line. */
    ghost predicate Ready(t: nat)
      reads this, irps, entries
    {
      Valid() && Inv(View()) && Enabled(View(), t, Continue)
    }

    /** What is known about the thread and the IRP it works on. */
    lemma {:induction false} Facts(t: nat)
      requires Ready(t)
      ensures ThreadInv(View(), t) && |queueLocks| == |queues|
      ensures IrpRange(View(), Subject(View(), t)) ==> IrpInv(View(), Subject(View(), t))
    {
    }

    // QUEUE_BOLIERPLATE, lines 34 to 39.
    method QueueArm(t: nat)
      requires Ready(t) && threads[t].Queueing? && threads[t].queueLine in {Q34, Q36, Q38, Q39Check}
      modifies this`queueLocks, this`threads, irps[threads[t].irp]
      ensures View() == QueueNext(old(View()), t)
    {
      var i, k := threads[t].irp, threads[t].home;
      var irp := irps[i];
      Facts(t);
      match threads[t].queueLine {
        case Q34 =>
          SetQueueLock(k, HeldBy(t));
          Goto(t, Queueing(Q36, i, k));
        case Q36 =>
          irp.DriverContext3 := LockOf(k);
          Goto(t, Queueing(Q38, i, k));
        case Q38 =>
          var _ := irp.IoSetCancelRoutine(true);
          irp.token := InSlot;
          Goto(t, Queueing(Q39Check, i, k));
        case Q39Check =>
          Goto(t, Queueing(if irp.Cancel then Q39Swap else Q59, i, k));
      }
      OneIrpChanged(i);
    }

    // QUEUE_BOLIERPLATE, line 39, once the cancel flag was found set.
    method QueueDisarm(t: nat)
      requires Ready(t) && threads[t].Queueing? && threads[t].queueLine == Q39Swap
      modifies this`threads, irps[threads[t].irp]
      ensures View() == QueueNext(old(View()), t)
    {
      var i, k := threads[t].irp, threads[t].home;
      var was := irps[i].IoSetCancelRoutine(false);
      if was {
        irps[i].token, irps[i].place := QueueWon(t), Gone;
      }
      OneIrpChanged(i);
      Goto(t, Queueing(if was then Q47 else Q59, i, k));
    }

    // QUEUE_BOLIERPLATE, lines 47 to 53.
    method QueueAbort(t: nat) returns (result: Result)
      requires Ready(t) && threads[t].Queueing? && threads[t].queueLine in {Q47, Q49, Q51}
      modifies this`queueLocks, this`threads, irps[threads[t].irp]
      ensures View() == QueueNext(old(View()), t) && result == ResultOf(old(threads[t]))
    {
      var i, k := threads[t].irp, threads[t].home;
      var irp := irps[i];
      Facts(t);
      result := NoValue;
      match threads[t].queueLine {
        case Q47 =>
          SetQueueLock(k, Free);
          Goto(t, Queueing(Q49, i, k));
        case Q49 =>
          irp.IoStatus := Cancelled;
          Goto(t, Queueing(Q51, i, k));
        case Q51 =>
          irp.IoCompleteRequest();
          result := Returns(false);
          Goto(t, Idle);
      }
      OneIrpChanged(i);
    }

    // QUEUE_BOLIERPLATE, lines 59, 60 and 64.
    method QueueAccept(t: nat)
      requires Ready(t) && threads[t].Queueing? && threads[t].queueLine in {Q59, Q60, Q64}
      modifies this`queueLocks, this`threads, irps[threads[t].irp]
      ensures View() == QueueNext(old(View()), t)
    {
      var i, k := threads[t].irp, threads[t].home;
      var irp := irps[i];
      Facts(t);
      match threads[t].queueLine {
        case Q59 =>
          irp.IoStatus := Pending;
          Goto(t, Queueing(Q60, i, k));
        case Q60 =>
          irp.PendingMark := true;
          Goto(t, Queueing(Q62, i, k));
        case Q64 =>
          SetQueueLock(k, Free);
          Goto(t, Idle);
      }
      OneIrpChanged(i);
    }

    // QUEUE_BOLIERPLATE, line 62.
    method QueueInsert(t: nat)
      requires Ready(t) && threads[t].Queueing? && threads[t].queueLine == Q62
      modifies this`threads, this`queues, irps[threads[t].irp], entries
      ensures View() == QueueNext(old(View()), t)
    {
      var i, k := threads[t].irp, threads[t].home;
      Facts(t);
      HeadLinksExist(k);
      LinkIn(t, i, k);
      InsertIsNext(old(View()), View(), t);
    }

    method LinkIn(t: nat, i: nat, k: nat)
      requires Valid() && t < |threads| && i < |irps| && k < |queues| && |entries| == |irps| + |queues|
      requires entries[|irps| + k].Blink != null && entries[|irps| + k].Blink in entries
      modifies this`threads, this`queues, irps[i], entries
      ensures var s := old(View());
              View() == State(s.locks, s.spin, s.irps[i := s.irps[i].(place := Linked)],
                              ListHeap.InsertTailList(s.heap, s.Head(k), i), s.threads[t := Queueing(Q64, i, k)],
                              s.queues[k := s.queues[k] + [i]])
    {
      InsertTailList(entries[|irps| + k], entries[i]);
      Note(t, Queueing(Q64, i, k), i, Linked, k, queues[k] + [i]);
    }

    lemma {:induction false} HeadLinksExist(k: nat)
      requires Valid() && Inv(View()) && k < |queues|
      ensures |entries| == |irps| + |queues|
      ensures var head := entries[|irps| + k];
              && head.Flink != null && head.Flink in entries && head.Blink != null && head.Blink in entries
              && head.Flink.Flink != null && head.Flink.Flink in entries
    {
      assert QueueRing(View(), k);
      var head := entries[|irps| + k];
      RingLinksExist(Links(), head.address, queues[k], head.address);
      assert Links()[head.address] == Link(AddressOf(head.Flink), AddressOf(head.Blink));
      assert Links()[head.Flink.address] == Link(AddressOf(head.Flink.Flink), AddressOf(head.Flink.Blink));
    }

    // DEQUEUE_BOILERPLATE, lines 71 and 73.
    method Fetch(t: nat)
      requires Ready(t) && threads[t].Fetching?
      modifies this, irps, entries
      ensures View() == FetchNext(old(View()), t)
    {
      if threads[t].fetchLine == D71 {
        var k := threads[t].home;
        Facts(t);
        SetQueueLock(k, HeldBy(t));
        Goto(t, Fetching(D73, k));
      } else {
        FetchHead(t);
      }
    }

    method FetchHead(t: nat)
      requires Ready(t) && AtRemoveHead(threads[t])
      modifies this`threads, this`queues, irps, entries
      ensures View() == FetchNext(old(View()), t)
    {
      var k := threads[t].home;
      Facts(t);
      HeadLinksExist(k);
      TakeOut(t, k);
      FetchIsNext(old(View()), View(), t);
    }

    method TakeOut(t: nat, k: nat)
      requires Valid() && t < |threads| && k < |queues| && |entries| == |irps| + |queues| && queues[k] != []
      requires var head := entries[|irps| + k];
               && head.Flink != null && head.Flink in entries && head.Flink.address < |irps|
               && head.Flink.Flink != null && head.Flink.Flink in entries
      modifies this`threads, this`queues, irps, entries
      ensures var s := old(View());
              var i := HeadEntry(s.heap, s.Head(k));
              && 0 <= i < |s.irps|
              && View() == State(s.locks, s.spin, s.irps[i := s.irps[i].(place := AtDequeuer(t))],
                                 ListHeap.RemoveHeadList(s.heap, s.Head(k)), s.threads[t := Dequeued(D75, i, k)],
                                 s.queues[k := s.queues[k][1..]])
    {
      var entry := RemoveHeadList(entries[|irps| + k]);
      var i := entry.address;   // CONTAINING_RECORD
      Note(t, Dequeued(D75, i, k), i, AtDequeuer(t), k, queues[k][1..]);
    }

    // DEQUEUE_BOILERPLATE, line 75.
    method DequeueDisarm(t: nat)
      requires Ready(t) && threads[t].Dequeued? && threads[t].dequeueLine == D75
      modifies this`threads, irps[threads[t].irp]
      ensures View() == DequeueNext(old(View()), t)
    {
      var i, k := threads[t].irp, threads[t].home;
      var was := irps[i].IoSetCancelRoutine(false);
      if was {
        irps[i].token, irps[i].place := DequeueWon(t), Gone;
      }
      OneIrpChanged(i);
      Goto(t, Dequeued(if was then D97 else D83, i, k));
    }

    // DEQUEUE_BOILERPLATE, lines 85 to 101.
    method Dequeue(t: nat)
      requires Ready(t) && threads[t].Dequeued? && threads[t].dequeueLine in {D85, D97, D99, D101}
      modifies this`queueLocks, this`threads, irps[threads[t].irp]
      ensures View() == DequeueNext(old(View()), t)
    {
      var i, k := threads[t].irp, threads[t].home;
      var irp := irps[i];
      Facts(t);
      match threads[t].dequeueLine {
        case D85 =>
          SetQueueLock(k, Free);
          Goto(t, Idle);
        case D97 =>
          SetQueueLock(k, Free);
          Goto(t, Dequeued(D99, i, k));
        case D99 =>
          irp.IoStatus := Success;
          Goto(t, Dequeued(D101, i, k));
        case D101 =>
          irp.IoCompleteRequest();
          Goto(t, Idle);
      }
      OneIrpChanged(i);
    }

    // DEQUEUE_BOILERPLATE, line 83.
    method DequeueSelfLink(t: nat)
      requires Ready(t) && threads[t].Dequeued? && threads[t].dequeueLine == D83
      modifies this`threads, irps[threads[t].irp], entries
      ensures View() == DequeueNext(old(View()), t)
    {
      var i, k := threads[t].irp, threads[t].home;
      InitializeListHead(entries[i]);
      irps[i].place := SelfLinked;
      OneIrpChanged(i);
      Goto(t, Dequeued(D85, i, k));
    }

    // IoCancelIrp.
    method IoCancelIrp(t: nat) returns (result: Result)
      requires Ready(t) && threads[t].Cancelling? && threads[t].cancelLine in {I211, I213, I215, I218, I222}
      modifies this`cancelSpinLock, this`threads, irps[threads[t].irp]
      ensures View() == CancelNext(old(View()), t) && result == ResultOf(old(threads[t]))
    {
      var i, irql, lk := threads[t].irp, threads[t].oldIrql, threads[t].theLock;
      var irp := irps[i];
      result := NoValue;
      match threads[t].cancelLine {
        case I211 =>
          cancelSpinLock := HeldBy(t);
          Goto(t, Cancelling(I213, i, irql, lk));
        case I213 =>
          irp.Cancel := true;
          Goto(t, Cancelling(I215, i, irql, lk));
        case I215 =>
          var was := irp.IoSetCancelRoutine(false);
          if was {
            irp.token := CancelWon(t);
          }
          Goto(t, Cancelling(if was then I222 else I218, i, irql, lk));
        case I218 =>
          cancelSpinLock := Free;
          result := Returns(false);
          Goto(t, Idle);
        case I222 =>
          irp.CancelIrql := irql;
          Goto(t, Cancelling(C16, i, irql, lk));
      }
      OneIrpChanged(i);
    }

    // CancelRoutine, lines 16 to 20.
    method CancelLock(t: nat)
      requires Ready(t) && threads[t].Cancelling? && threads[t].cancelLine in {C16, C18, C20}
      modifies this`queueLocks, this`cancelSpinLock, this`threads
      ensures View() == CancelNext(old(View()), t)
    {
      var i, irql, lk := threads[t].irp, threads[t].oldIrql, threads[t].theLock;
      Facts(t);
      match threads[t].cancelLine {
        case C16 =>
          cancelSpinLock := Free;
          Goto(t, Cancelling(C18, i, irps[i].CancelIrql, lk));
        case C18 =>
          Goto(t, Cancelling(C20, i, irql, irps[i].DriverContext3));
        case C20 =>
          SetQueueLock(lk.queue, HeldBy(t));
          Goto(t, Cancelling(C21, i, irql, lk));
      }
    }

    // CancelRoutine, line 21.
    method CancelUnlink(t: nat)
      requires Ready(t) && threads[t].Cancelling? && threads[t].cancelLine == C21
      modifies this`threads, this`queues, irps[threads[t].irp], entries
      ensures View() == CancelNext(old(View()), t)
    {
      EntryLinksExist(t);
      var i, irql, lk := threads[t].irp, threads[t].oldIrql, threads[t].theLock;
      Unlink(t, i, lk.queue, Cancelling(C22, i, irql, lk));
      UnlinkIsNext(old(View()), View(), t);
    }

    method Unlink(t: nat, i: nat, k: nat, pc: Pc)
      requires Valid() && t < |threads| && i < |irps| && k < |queues| && |entries| == |irps| + |queues|
      requires entries[i].Flink != null && entries[i].Blink != null 
      requires entries[i].Flink in entries && entries[i].Blink in entries
      modifies this`threads, this`queues, irps[i], entries
      ensures var s := old(View());
              View() == State(s.locks, s.spin, s.irps[i := s.irps[i].(place := Gone)],
                              ListHeap.RemoveEntryList(s.heap, i), s.threads[t := pc],
                              s.queues[k := Delete(s.queues[k], i)])
    {
      var _ := RemoveEntryList(entries[i]);
      Note(t, pc, i, Gone, k, Delete(queues[k], i));
    }

    lemma {:induction false} EntryLinksExist(t: nat)
      requires Ready(t) && threads[t].Cancelling? && threads[t].cancelLine == C21
      ensures |entries| == |irps| + |queues| && threads[t].theLock.LockOf? && threads[t].theLock.queue < |queues|
      ensures 0 <= threads[t].irp < |irps|
      ensures var e := entries[threads[t].irp];
              e.Flink != null && e.Flink in entries && e.Blink != null && e.Blink in entries
    {
      EntryAtUnlink(View(), t);
      var i, k := threads[t].irp, threads[t].theLock.queue;
      assert IrpInv(View(), i) && QueueRing(View(), k);
      if i in queues[k] { RingLinksExist(Links(), |irps| + k, queues[k], i); }
      assert Links()[i] == Link(AddressOf(entries[i].Flink), AddressOf(entries[i].Blink));
    }

    // CancelRoutine, line 22.
    method CancelUnlock(t: nat)
      requires Ready(t) && threads[t].Cancelling? && threads[t].cancelLine == C22
      modifies this`queueLocks, this`threads
      ensures View() == CancelNext(old(View()), t)
    {
      var i, irql, lk := threads[t].irp, threads[t].oldIrql, threads[t].theLock;
      Facts(t);
      SetQueueLock(lk.queue, Free);
      Goto(t, Cancelling(C24, i, irql, lk));
    }

    // CancelRoutine, lines 24 and 27.
    method CancelFinish(t: nat) returns (result: Result)
      requires Ready(t) && threads[t].Cancelling? && threads[t].cancelLine in {C24, C27}
      modifies this`threads, irps[threads[t].irp]
      ensures View() == CancelNext(old(View()), t) && result == ResultOf(old(threads[t]))
    {
      var i, irql, lk := threads[t].irp, threads[t].oldIrql, threads[t].theLock;
      var irp := irps[i];
      Facts(t);
      result := NoValue;
      match threads[t].cancelLine {
        case C24 =>
          irp.IoStatus := Cancelled;
          Goto(t, Cancelling(C27, i, irql, lk));
        case C27 =>
          irp.IoCompleteRequest();
          result := Returns(true);
          Goto(t, Idle);
      }
      OneIrpChanged(i);
    }

    // ----- Any interleaving -----

    /** An idle thread enters a routine. */
    method Begin(t: nat, c: Call)
      requires Valid() && Inv(View()) && Enabled(View(), t, c) && c != Continue
      modifies this`threads, irps
      ensures View() == Start(old(View()), t, c)
    {
      match c {
        case Submit(i, k) =>
          irps[i].place := AtQueuer(t);
          Goto(t, Queueing(Q34, i, k));
          OneIrpChanged(i);
        case Fetch(k) =>
          Goto(t, Fetching(D71, k));
        case Cancel(i, irql) =>
          Goto(t, Cancelling(I211, i, irql, Garbage));
      }
    }

    /** Thread t takes one action. */
    method Step(t: nat, c: Call) returns (result: Result)
      requires Valid() && Inv(View()) && Enabled(View(), t, c)
      modifies this, irps, entries
      ensures View() == Next(old(View()), t, c) && result == ResultOf(old(threads[t]))
    {
      result := NoValue;
      if c != Continue {
        Begin(t, c);
        return;
      }
      match threads[t] {
        case Queueing(line, _, _) =>
          if line in {Q34, Q36, Q38, Q39Check} {
            QueueArm(t);
          } else if line == Q39Swap {
            QueueDisarm(t);
          } else if line in {Q47, Q49, Q51} {
            result := QueueAbort(t);
          } else if line == Q62 {
            QueueInsert(t);
          } else {
            QueueAccept(t);
          }
        case Fetching(_, _) =>
          Fetch(t);
        case Dequeued(line, _, _) =>
          if line == D75 {
            DequeueDisarm(t);
          } else if line == D83 {
            DequeueSelfLink(t);
          } else {
            Dequeue(t);
          }
        case Cancelling(line, _, _, _) =>
          if line in {I211, I213, I215, I218, I222} {
            result := IoCancelIrp(t);
          } else if line == C21 {
            CancelUnlink(t);
          } else if line in {C16, C18, C20} {
            CancelLock(t);
          } else if line == C22 {
            CancelUnlock(t);
          } else {
            result := CancelFinish(t);
          }
      }
    }

    /** Executes an interleaving in place; the result is what the specification says. */
    method Execute(schedule: seq<Turn>)
      requires Valid() && Inv(View()) && Runs(View(), schedule)
      modifies this, irps, entries
      ensures Inv(View()) && View() == Run(old(View()), schedule)
    {
      for k := 0 to |schedule|
        invariant Inv(View()) && Runs(View(), schedule[k..])
        invariant Run(View(), schedule[k..]) == Run(old(View()), schedule)
      {
        var turn := schedule[k];
        assert schedule[k..][0] == turn && schedule[k..][1..] == schedule[k + 1..];
        StepKeepsInv(View(), turn.tid, turn.call);
        var _ := Step(turn.tid, turn.call);
      }
    }
  }

  // ----- The three list operations as state updates -----

  lemma {:induction false} InsertIsNext(s: State, s': State, t: nat)
    requires Inv(s) && Enabled(s, t, Continue) && s.threads[t].Queueing? && s.threads[t].queueLine == Q62
    requires var i, k := s.threads[t].irp, s.threads[t].home;
             && k < |s.queues|
             && s' == State(s.locks, s.spin, s.irps[i := s.irps[i].(place := Linked)],
                            InsertTailList(s.heap, s.Head(k), i), s.threads[t := Queueing(Q64, i, k)],
                            s.queues[k := s.queues[k] + [i]])
    ensures s' == QueueNext(s, t)
  {
  }

  lemma {:induction false} FetchIsNext(s: State, s': State, t: nat)
    requires Inv(s) && Enabled(s, t, Continue) && AtRemoveHead(s.threads[t])
    requires var i, k := HeadEntry(s.heap, s.Head(s.threads[t].home)), s.threads[t].home;
             && k < |s.queues| && s.queues[k] != []
             && s' == State(s.locks, s.spin, s.irps[i := s.irps[i].(place := AtDequeuer(t))],
                            RemoveHeadList(s.heap, s.Head(k)), s.threads[t := Dequeued(D75, i, k)],
                            s.queues[k := s.queues[k][1..]])
    ensures s' == FetchNext(s, t)
  {
  }

  lemma {:induction false} UnlinkIsNext(s: State, s': State, t: nat)
    requires Inv(s) && Enabled(s, t, Continue) && s.threads[t].Cancelling? && s.threads[t].cancelLine == C21
    requires s.threads[t].theLock.LockOf? && s.threads[t].theLock.queue < |s.queues|
    requires var Cancelling(_, i, irql, lk) := s.threads[t];
             s' == State(s.locks, s.spin, s.irps[i := s.irps[i].(place := Gone)],
                         RemoveEntryList(s.heap, i), s.threads[t := Cancelling(C22, i, irql, lk)],
                         s.queues[lk.queue := Delete(s.queues[lk.queue], i)])
    ensures s' == CancelNext(s, t)
  {
  }

  /** A ring node's links lead to heap cells, and so do the links of its successor. */
  lemma {:induction false} RingLinksExist(h: Heap, head: int, q: seq<int>, a: int)
    requires Ring(h, head, q) && (a == head || a in q)
    ensures 0 <= At(h, a).flink < |h| && 0 <= At(h, a).blink < |h| && 0 <= At(h, At(h, a).flink).flink
  {
    var k: nat := 0;
    if a != head {
      var j :| 0 <= j < |q| && q[j] == a;
      k := j + 1;
    }
    assert Edge(h, head, q, k);
    assert Edge(h, head, q, if k > 0 then k - 1 else |q|);
    assert Edge(h, head, q, if k < |q| then k + 1 else 0);
  }
}
