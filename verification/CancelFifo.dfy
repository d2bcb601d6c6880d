/** FIFO service of every IRP queue, for the list operations and for the specification. */
module CancelFifo {
  import opened ListHeap
  import opened CancelModel
  import opened CancelInvariant
  import opened CancelSafety
  import opened QueueLog
  import CS = CancelSpec
  import R = CancelRefinement

  /** What an action does to list k: InsertTailList pushes, RemoveHeadList pops, and
      CancelRoutine's RemoveEntryList drops an entry unless that entry links to itself. */
  function ListEntryOf(s: State, t: nat, c: Call, k: nat): Entry
    requires Enabled(s, t, c)
  {
    if c != Continue then Nothing
    else match s.threads[t]
      case Queueing(Q62, i, m) => if m == k then Push(i) else Nothing
      case Fetching(D73, m) => if m == k then Pop(HeadEntry(s.heap, s.Head(k))) else Nothing
      case Cancelling(C21, i, _, lk) => if lk == LockOf(k) && At(s.heap, i) != Link(i, i) then Drop(i) else Nothing
      case _ => Nothing
  }

  ghost function ListLog(s: State, schedule: seq<Turn>, k: nat): seq<Entry>
    requires Runs(s, schedule)
    decreases |schedule|
  {
    if schedule == [] then []
    else var turn := schedule[0];
         [ListEntryOf(s, turn.tid, turn.call, k)] + ListLog(Next(s, turn.tid, turn.call), schedule[1..], k)
  }

  lemma {:induction false} LinkedNotSelfLinked(h: Heap, head: int, q: seq<int>, i: int)
    requires Ring(h, head, q) && i in q
    ensures At(h, i) != Link(i, i)
  {
    var k :| 0 <= k < |q| && q[k] == i;
    assert Edge(h, head, q, k + 1);
    assert k + 1 < |q| ==> q[k] != q[k + 1];
  }

  /** What an action does to queue k, seen from its list. */
  ghost predicate ListStepOf(s: State, s': State, t: nat, c: Call, k: nat)
    requires Enabled(s, t, c)
  {
    Fits(s.Queue(k), ListEntryOf(s, t, c, k)) && After(s.Queue(k), ListEntryOf(s, t, c, k)) == s'.Queue(k)
  }

  lemma {:induction false} QueueListStep(s: State, t: nat, k: nat)
    requires Inv(s) && Enabled(s, t, Continue) && s.threads[t].Queueing? && k < |s.queues|
    ensures ListStepOf(s, QueueNext(s, t), t, Continue, k)
  {
  }

  lemma {:induction false} FetchListStep(s: State, t: nat, k: nat)
    requires Inv(s) && Enabled(s, t, Continue) && s.threads[t].Fetching? && k < |s.queues|
    ensures ListStepOf(s, FetchNext(s, t), t, Continue, k)
  {
    assert ThreadInv(s, t) && QueueRing(s, s.threads[t].home);
    if AtRemoveHead(s.threads[t]) {
      HeadRemovalIsEntryRemoval(s.heap, s.Head(s.threads[t].home), s.queues[s.threads[t].home]);
    }
  }

  lemma {:induction false} CancelListStep(s: State, t: nat, k: nat)
    requires Inv(s) && Enabled(s, t, Continue) && s.threads[t].Cancelling? && k < |s.queues|
    ensures ListStepOf(s, CancelNext(s, t), t, Continue, k)
  {
    if s.threads[t].cancelLine == C21 { UnlinkListStep(s, t, k); }
  }

  lemma {:induction false} UnlinkListStep(s: State, t: nat, k: nat)
    requires Inv(s) && Enabled(s, t, Continue) && s.threads[t].Cancelling? && s.threads[t].cancelLine == C21
    requires k < |s.queues|
    ensures ListStepOf(s, CancelNext(s, t), t, Continue, k)
  {
    EntryAtUnlink(s, t);
    UnlinkEntry(s, t);
  }

  lemma {:induction false} UnlinkEntry(s: State, t: nat)
    requires Inv(s) && t < |s.threads| && s.threads[t].Cancelling? && s.threads[t].cancelLine == C21
    requires s.threads[t].theLock.LockOf? && s.threads[t].theLock.queue < |s.queues|
    ensures var i, q := s.threads[t].irp, s.queues[s.threads[t].theLock.queue];
            if At(s.heap, i) == Link(i, i) then Delete(q, i) == q else i in q
  {
    EntryAtUnlink(s, t);
    var i, k := s.threads[t].irp, s.threads[t].theLock.queue;
    assert IrpInv(s, i) && QueueRing(s, k);
    if i in s.queues[k] {
      LinkedNotSelfLinked(s.heap, s.Head(k), s.queues[k], i);
    } else {
      DeleteAbsent(s.queues[k], i);
    }
  }

  lemma {:induction false} ListStep(s: State, t: nat, c: Call, k: nat)
    requires Inv(s) && Enabled(s, t, c) && k < |s.queues|
    ensures ListStepOf(s, Next(s, t, c), t, c, k)
  {
    if c == Continue {
      match s.threads[t]
      case Queueing(_, _, _) => QueueListStep(s, t, k);
      case Fetching(_, _) => FetchListStep(s, t, k);
      case Cancelling(_, _, _, _) => CancelListStep(s, t, k);
      case Dequeued(_, _, _) =>
    }
  }

  predicate NotYetInserted(s: State, i: int) {
    IrpRange(s, i) && (s.irps[i].place == Outside || s.irps[i].place.AtQueuer?)
  }

  /** An IRP that was inserted, or rejected, never goes back to the submitter. */
  lemma {:induction false} InsertedStays(s: State, t: nat, c: Call, i: int, k: nat)
    requires Inv(s) && Enabled(s, t, c) && NotYetInserted(Next(s, t, c), i)
    ensures NotYetInserted(s, i) && ListEntryOf(s, t, c, k) != Push(i)
  {
    if c == Continue {
      ContinueFrame(s, t);
      assert ThreadInv(s, t);
      if i == Subject(s, t) { OwnInsertedStays(s, t, k); }
    }
  }

  lemma {:induction false} QueueArmStays(s: State, t: nat)
    requires Enabled(s, t, Continue) && s.threads[t].Queueing?
    requires s.threads[t].queueLine in {Q34, Q36, Q38, Q39Check, Q39Swap, Q47}
    ensures var i := s.threads[t].irp; NotYetInserted(QueueNext(s, t), i) ==> NotYetInserted(s, i)
  {
  }

  lemma {:induction false} QueueStays(s: State, t: nat)
    requires Enabled(s, t, Continue) && s.threads[t].Queueing?
    ensures var i := s.threads[t].irp;
            NotYetInserted(QueueNext(s, t), i) ==> NotYetInserted(s, i) && s.threads[t].queueLine != Q62
  {
    if s.threads[t].queueLine in {Q34, Q36, Q38, Q39Check, Q39Swap, Q47} { QueueArmStays(s, t); }
  }

  lemma {:induction false} DequeueStays(s: State, t: nat)
    requires Enabled(s, t, Continue) && s.threads[t].Dequeued?
    ensures var i := s.threads[t].irp; NotYetInserted(DequeueNext(s, t), i) ==> NotYetInserted(s, i)
  {
  }

  lemma {:induction false} CancelStays(s: State, t: nat)
    requires Enabled(s, t, Continue) && s.threads[t].Cancelling?
    ensures var i := s.threads[t].irp; NotYetInserted(CancelNext(s, t), i) ==> NotYetInserted(s, i)
  {
  }

  lemma {:induction false} OwnInsertedStays(s: State, t: nat, k: nat)
    requires Inv(s) && Enabled(s, t, Continue) && NotYetInserted(Next(s, t, Continue), Subject(s, t))
    ensures NotYetInserted(s, Subject(s, t)) && ListEntryOf(s, t, Continue, k) != Push(Subject(s, t))
  {
    match s.threads[t]
    case Queueing(_, _, _) => QueueStays(s, t);
    case Fetching(_, _) =>
    case Dequeued(_, _, _) => DequeueStays(s, t);
    case Cancelling(_, _, _, _) => CancelStays(s, t);
  }

  lemma {:induction false} PushedOnce(s: State, schedule: seq<Turn>, k: nat)
    requires Inv(s) && Runs(s, schedule)
    ensures forall i :: i in Pushed(ListLog(s, schedule, k)) ==> NotYetInserted(s, i)
    ensures NoDuplicates(Pushed(ListLog(s, schedule, k)))
    decreases |schedule|
  {
    if schedule != [] {
      var t, c := schedule[0].tid, schedule[0].call;
      var s1 := Next(s, t, c);
      StepKeepsInv(s, t, c);
      PushedOnce(s1, schedule[1..], k);
      var rest := Pushed(ListLog(s1, schedule[1..], k));
      assert ListLog(s, schedule, k)[1..] == ListLog(s1, schedule[1..], k);
      forall i | i in rest ensures NotYetInserted(s, i) && ListEntryOf(s, t, c, k) != Push(i) {
        InsertedStays(s, t, c, i, k);
      }
      PushedByQueuer(s, t, c, k);
    }
  }

  lemma {:induction false} PushedByQueuer(s: State, t: nat, c: Call, k: nat)
    requires Inv(s) && Enabled(s, t, c)
    ensures ListEntryOf(s, t, c, k).Push? ==> NotYetInserted(s, ListEntryOf(s, t, c, k).x)
  {
    assert ThreadInv(s, t);
  }

  lemma {:induction false} StepKeepsQueueCount(s: State, t: nat, c: Call)
    requires Inv(s) && Enabled(s, t, c)
    ensures |Next(s, t, c).queues| == |s.queues|
  {
    if c == Continue { ContinueFrame(s, t); }
  }

  lemma {:induction false} ListLogFits(s: State, schedule: seq<Turn>, k: nat)
    requires Inv(s) && Runs(s, schedule) && k < |s.queues|
    ensures FitsAll(s.Queue(k), ListLog(s, schedule, k))
    ensures AfterAll(s.Queue(k), ListLog(s, schedule, k)) == Run(s, schedule).Queue(k)
    decreases |schedule|
  {
    if schedule != [] {
      var t, c := schedule[0].tid, schedule[0].call;
      ListStep(s, t, c, k);
      StepKeepsInv(s, t, c);
      StepKeepsQueueCount(s, t, c);
      ListLogFits(Next(s, t, c), schedule[1..], k);
      assert ListLog(s, schedule, k)[1..] == ListLog(Next(s, t, c), schedule[1..], k);
    }
  }

  /** In every run RemoveHeadList returns the IRPs of each queue in the order InsertTailList
      added them; cancellations only delete IRPs from that order. */
  lemma {:induction false} ListIsFifo(s: State, schedule: seq<Turn>, k: nat)
    requires Init(s) && Runs(s, schedule) && k < |s.queues|
    ensures var log := ListLog(s, schedule, k);
            NoDuplicates(Pushed(log)) &&
            Except(Pushed(log), Dropped(log)) == Popped(log) + Run(s, schedule).Queue(k)
  {
    InitInv(s);
    var log := ListLog(s, schedule, k);
    PushedOnce(s, schedule, k);
    ListLogFits(s, schedule, k);
    assert [] + Pushed(log) == Pushed(log);
    Fifo([], log);
  }

  // ----- The same law for the specification -----

  /** What an event does to FIFO k. */
  function WaitingEntryOf(e: CS.Event, k: nat): Entry {
    match e
    case Submit(i, m) => if m == k then Push(i) else Nothing
    case TakeHead(i, m) => if m == k then Pop(i) else Nothing
    case RejectAlreadyCancelled(i, m) => if m == k then Drop(i) else Nothing
    case Withdraw(i, m) => if m == k then Drop(i) else Nothing
    case _ => Nothing
  }

  function WaitingLog(events: seq<CS.Event>, k: nat): seq<Entry> {
    if events == [] then [] else [WaitingEntryOf(events[0], k)] + WaitingLog(events[1..], k)
  }

  lemma {:induction false} NewBefore(a: CS.Spec, e: CS.Event, i: int, k: nat)
    requires CS.Legal(a, e) && CS.InSpec(CS.Step(a, e), i) && CS.Step(a, e).phases[i] == CS.New
    ensures CS.InSpec(a, i) && a.phases[i] == CS.New && WaitingEntryOf(e, k) != Push(i)
  {
  }

  lemma {:induction false} SubmittedOnce(a: CS.Spec, events: seq<CS.Event>, k: nat)
    requires CS.Accepts(a, events)
    ensures forall i :: i in Pushed(WaitingLog(events, k)) ==> CS.InSpec(a, i) && a.phases[i] == CS.New
    ensures NoDuplicates(Pushed(WaitingLog(events, k)))
    decreases |events|
  {
    if events != [] {
      var rest := Pushed(WaitingLog(events[1..], k));
      SubmittedOnce(CS.Step(a, events[0]), events[1..], k);
      forall i | i in rest ensures CS.InSpec(a, i) && a.phases[i] == CS.New && WaitingEntryOf(events[0], k) != Push(i) {
        NewBefore(a, events[0], i, k);
      }
      WaitingLogHead(events, k);
    }
  }

  lemma {:induction false} WaitingLogHead(events: seq<CS.Event>, k: nat)
    requires events != []
    ensures var e := WaitingEntryOf(events[0], k);
            Pushed(WaitingLog(events, k)) == (if e.Push? then [e.x] else []) + Pushed(WaitingLog(events[1..], k))
  {
    assert WaitingLog(events, k)[1..] == WaitingLog(events[1..], k);
  }

  lemma {:induction false} SpecStep(a: CS.Spec, e: CS.Event, k: nat)
    requires CS.Legal(a, e) && k < |a.waiting|
    ensures |CS.Step(a, e).waiting| == |a.waiting|
    ensures Fits(a.waiting[k], WaitingEntryOf(e, k))
    ensures After(a.waiting[k], WaitingEntryOf(e, k)) == CS.Step(a, e).waiting[k]
  {
  }

  lemma {:induction false} WaitingLogFits(a: CS.Spec, events: seq<CS.Event>, k: nat)
    requires CS.Accepts(a, events) && k < |a.waiting|
    ensures FitsAll(a.waiting[k], WaitingLog(events, k))
    ensures AfterAll(a.waiting[k], WaitingLog(events, k)) == CS.Play(a, events).waiting[k]
    decreases |events|
  {
    if events != [] {
      SpecStep(a, events[0], k);
      WaitingLogFits(CS.Step(a, events[0]), events[1..], k);
      assert WaitingLog(events, k)[1..] == WaitingLog(events[1..], k);
    }
  }

  /** In every history of the specification the requests of each FIFO are taken in submission
      order, the withdrawn and rejected ones left out. */
  lemma {:induction false} SpecIsFifo(a: CS.Spec, events: seq<CS.Event>, k: nat)
    requires CS.Accepts(a, events) && k < |a.waiting| && a.waiting[k] == []
    ensures var log := WaitingLog(events, k);
            NoDuplicates(Pushed(log)) &&
            Except(Pushed(log), Dropped(log)) == Popped(log) + CS.Play(a, events).waiting[k]
  {
    var log := WaitingLog(events, k);
    SubmittedOnce(a, events, k);
    WaitingLogFits(a, events, k);
    assert [] + Pushed(log) == Pushed(log);
    Fifo([], log);
  }

  /** In every interleaving dequeuers win the IRPs of each queue in the order QUEUE armed
      them: those armed, without those cancelled or rejected, are those won so far followed
      by those still armed. */
  lemma {:induction false} WonInArmingOrder(s: State, schedule: seq<Turn>, k: nat)
    requires Init(s) && Runs(s, schedule) && k < |s.queues|
    ensures var log := WaitingLog(R.Events(s, schedule), k);
            NoDuplicates(Pushed(log)) &&
            Except(Pushed(log), Dropped(log)) == Popped(log) + R.WaitingAt(Run(s, schedule), k)
  {
    R.InitRefines(s);
    R.RunRefines(s, schedule);
    SpecIsFifo(R.Abs(s), R.Events(s, schedule), k);
    R.AbsReads(Run(s, schedule), 0, k);
  }
}
