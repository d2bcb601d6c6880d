/** The races are real: runs in which DEQUEUE loses its IRP to a canceller, so that
    CancelRoutine goes on to unlink an entry that is off the list already, and in which QUEUE's
    second swap loses, or wins, against a canceller. */
module CancelRace {
  import opened ListHeap
  import opened CancelModel
  import opened CancelSafety

  // One IRP (list entry 0), one queue (list head 1) and two threads.
  function Snapshot(lock: Lock, spin: Lock, r: Irp, entry: Link, head: Link, a: Pc, b: Pc, q: seq<int>): State {
    State([lock], spin, [r], [entry, head], [a, b], [q])
  }

  const BLANK: Irp := Irp(false, false, 0, Garbage, Other, false, 0, Outside, Unarmed)
  const ARMED: Irp := BLANK.(context := LockOf(0), routine := true, token := InSlot, place := AtQueuer(0))
  const QUEUED: Irp := Irp(false, true, 0, LockOf(0), Pending, true, 0, Linked, InSlot)
  const CANCELLED: Irp := QUEUED.(cancel := true, routine := false, token := CancelWon(1))
  const TAKEN: Irp := QUEUED.(routine := false, token := DequeueWon(0), place := Gone)
  const WILD: Link := Link(-1, -1)
  const ALONE: Link := Link(1, 1)
  const AT_IRP: Link := Link(0, 0)

  function Canceller(line: CancelLine): Pc {
    Cancelling(line, 0, 0, Garbage)
  }

  lemma {:induction false} Hop(s: State, t: nat, c: Call, s': State)
    requires Reachable(s) && Enabled(s, t, c) && Next(s, t, c) == s'
    ensures Reachable(s')
  {
    ReachableNext(s, t, c);
  }

  lemma {:induction false} Begin() returns (s: State)
    ensures Reachable(s) && s == Snapshot(Free, Free, BLANK, WILD, ALONE, Idle, Idle, [])
  {
    s := Snapshot(Free, Free, BLANK, WILD, ALONE, Idle, Idle, []);
    assert Init(s) && Runs(s, []) && Run(s, []) == s;
  }

  /** Thread 0 queues the IRP up to the store of its lock. */
  lemma {:induction false} Lock() returns (s: State)
    ensures Reachable(s)
    ensures s == Snapshot(HeldBy(0), Free, BLANK.(place := AtQueuer(0)), WILD, ALONE, Queueing(Q36, 0, 0), Idle, [])
  {
    var s0 := Begin();
    var r := BLANK.(place := AtQueuer(0));
    var s1 := Snapshot(Free, Free, r, WILD, ALONE, Queueing(Q34, 0, 0), Idle, []);
    Hop(s0, 0, Submit(0, 0), s1);
    s := Snapshot(HeldBy(0), Free, r, WILD, ALONE, Queueing(Q36, 0, 0), Idle, []);
    Hop(s1, 0, Continue, s);
  }

  /** Thread 0 goes on to the re-check of its cancel flag. */
  lemma {:induction false} Arm() returns (s: State)
    ensures Reachable(s) && s == Snapshot(HeldBy(0), Free, ARMED, WILD, ALONE, Queueing(Q39Check, 0, 0), Idle, [])
  {
    var s0 := Lock();
    var r := s0.irps[0].(context := LockOf(0));
    var s1 := Snapshot(HeldBy(0), Free, r, WILD, ALONE, Queueing(Q38, 0, 0), Idle, []);
    Hop(s0, 0, Continue, s1);
    s := Snapshot(HeldBy(0), Free, ARMED, WILD, ALONE, Queueing(Q39Check, 0, 0), Idle, []);
    Hop(s1, 0, Continue, s);
  }

  /** Thread 1 asks to cancel the armed IRP. */
  lemma {:induction false} RequestArmed() returns (s: State)
    ensures Reachable(s)
    ensures s == Snapshot(HeldBy(0), HeldBy(1), ARMED, WILD, ALONE, Queueing(Q39Check, 0, 0), Canceller(I213), [])
  {
    var s0 := Arm();
    var a := Queueing(Q39Check, 0, 0);
    var s1 := Snapshot(HeldBy(0), Free, ARMED, WILD, ALONE, a, Canceller(I211), []);
    Hop(s0, 1, Cancel(0, 0), s1);
    s := Snapshot(HeldBy(0), HeldBy(1), ARMED, WILD, ALONE, a, Canceller(I213), []);
    Hop(s1, 1, Continue, s);
  }

  /** Its flag catches QUEUE at the re-check: both threads are about to swap. */
  lemma {:induction false} FaceOff() returns (s: State)
    ensures Reachable(s)
    ensures s == Snapshot(HeldBy(0), HeldBy(1), ARMED.(cancel := true), WILD, ALONE,
                          Queueing(Q39Swap, 0, 0), Canceller(I215), [])
  {
    var s0 := RequestArmed();
    var r := ARMED.(cancel := true);
    var s1 := Snapshot(HeldBy(0), HeldBy(1), r, WILD, ALONE, Queueing(Q39Check, 0, 0), Canceller(I215), []);
    Hop(s0, 1, Continue, s1);
    s := Snapshot(HeldBy(0), HeldBy(1), r, WILD, ALONE, Queueing(Q39Swap, 0, 0), Canceller(I215), []);
    Hop(s1, 0, Continue, s);
  }

  /** QUEUE's second swap may find its routine gone; QUEUE then goes on to accept the IRP. */
  lemma {:induction false} QueueSwapLoses()
    ensures exists s: State :: Reachable(s) && |s.irps| == 1 && s.irps[0].cancel && !s.irps[0].routine &&
                               |s.threads| == 2 && s.threads[0] == Queueing(Q39Swap, 0, 0) &&
                               s.threads[1] == Canceller(I222) &&
                               Enabled(s, 0, Continue) && Next(s, 0, Continue).threads[0] == Queueing(Q59, 0, 0)
  {
    var s0 := FaceOff();
    var r := ARMED.(cancel := true, routine := false, token := CancelWon(1));
    var s1 := Snapshot(HeldBy(0), HeldBy(1), r, WILD, ALONE, Queueing(Q39Swap, 0, 0), Canceller(I222), []);
    Hop(s0, 1, Continue, s1);
  }

  /** Or it may win, and the canceller finds nothing to call. */
  lemma {:induction false} QueueSwapWins()
    ensures exists s: State :: Reachable(s) && |s.irps| == 1 && s.irps[0].cancel && s.irps[0].token == QueueWon(0) &&
                               |s.threads| == 2 && s.threads[0] == Queueing(Q47, 0, 0) &&
                               s.threads[1] == Canceller(I218)
  {
    var s0 := FaceOff();
    var r := ARMED.(cancel := true, routine := false, token := QueueWon(0), place := Gone);
    var s1 := Snapshot(HeldBy(0), HeldBy(1), r, WILD, ALONE, Queueing(Q47, 0, 0), Canceller(I215), []);
    Hop(s0, 0, Continue, s1);
    var s2 := Snapshot(HeldBy(0), HeldBy(1), r, WILD, ALONE, Queueing(Q47, 0, 0), Canceller(I218), []);
    Hop(s1, 1, Continue, s2);
  }

  /** Thread 0 finds no cancel request and marks the IRP pending. */
  lemma {:induction false} Accept() returns (s: State)
    ensures Reachable(s)
    ensures s == Snapshot(HeldBy(0), Free, QUEUED.(place := AtQueuer(0)), WILD, ALONE, Queueing(Q62, 0, 0), Idle, [])
  {
    var s0 := Arm();
    var s1 := Snapshot(HeldBy(0), Free, ARMED, WILD, ALONE, Queueing(Q59, 0, 0), Idle, []);
    Hop(s0, 0, Continue, s1);
    var s2 := Snapshot(HeldBy(0), Free, ARMED.(status := Pending), WILD, ALONE, Queueing(Q60, 0, 0), Idle, []);
    Hop(s1, 0, Continue, s2);
    s := Snapshot(HeldBy(0), Free, QUEUED.(place := AtQueuer(0)), WILD, ALONE, Queueing(Q62, 0, 0), Idle, []);
    Hop(s2, 0, Continue, s);
  }

  /** Thread 0 inserts it. */
  lemma {:induction false} Enqueue() returns (s: State)
    ensures Reachable(s) && s == Snapshot(Free, Free, QUEUED, ALONE, AT_IRP, Idle, Idle, [0])
  {
    var s0 := Accept();
    assert s0.Queue(0) + [0] == [0];
    var s1 := Snapshot(HeldBy(0), Free, QUEUED, ALONE, AT_IRP, Queueing(Q64, 0, 0), Idle, [0]);
    Hop(s0, 0, Continue, s1);
    s := Snapshot(Free, Free, QUEUED, ALONE, AT_IRP, Idle, Idle, [0]);
    Hop(s1, 0, Continue, s);
  }

  /** Thread 1 cancels it. */
  lemma {:induction false} Request() returns (s: State)
    ensures Reachable(s)
    ensures s == Snapshot(Free, HeldBy(1), QUEUED, ALONE, AT_IRP, Idle, Canceller(I213), [0])
  {
    var s0 := Enqueue();
    var s1 := Snapshot(Free, Free, QUEUED, ALONE, AT_IRP, Idle, Canceller(I211), [0]);
    Hop(s0, 1, Cancel(0, 0), s1);
    s := Snapshot(Free, HeldBy(1), QUEUED, ALONE, AT_IRP, Idle, Canceller(I213), [0]);
    Hop(s1, 1, Continue, s);
  }

  /** Thread 1 wins the swap. */
  lemma {:induction false} Commit() returns (s: State)
    ensures Reachable(s)
    ensures s == Snapshot(Free, HeldBy(1), CANCELLED, ALONE, AT_IRP, Idle, Canceller(I222), [0])
  {
    var s0 := Request();
    var s1 := Snapshot(Free, HeldBy(1), QUEUED.(cancel := true), ALONE, AT_IRP, Idle, Canceller(I215), [0]);
    Hop(s0, 1, Continue, s1);
    s := Snapshot(Free, HeldBy(1), CANCELLED, ALONE, AT_IRP, Idle, Canceller(I222), [0]);
    Hop(s1, 1, Continue, s);
  }

  /** Thread 0 starts to dequeue, whatever thread 1 is doing. */
  lemma {:induction false} Approach(s0: State, spin: Lock, r: Irp, b: Pc) returns (s: State)
    requires Reachable(s0) && s0 == Snapshot(Free, spin, r, ALONE, AT_IRP, Idle, b, [0])
    ensures Reachable(s) && s == Snapshot(HeldBy(0), spin, r, ALONE, AT_IRP, Fetching(D73, 0), b, [0])
  {
    var s1 := Snapshot(Free, spin, r, ALONE, AT_IRP, Fetching(D71, 0), b, [0]);
    Hop(s0, 0, Fetch(0), s1);
    s := Snapshot(HeldBy(0), spin, r, ALONE, AT_IRP, Fetching(D73, 0), b, [0]);
    Hop(s1, 0, Continue, s);
  }

  /** It takes the only IRP off the list. */
  lemma {:induction false} Grab(s0: State, spin: Lock, r: Irp, b: Pc) returns (s: State)
    requires Reachable(s0) && s0 == Snapshot(Free, spin, r, ALONE, AT_IRP, Idle, b, [0])
    ensures Reachable(s)
    ensures s == Snapshot(HeldBy(0), spin, r.(place := AtDequeuer(0)), ALONE, ALONE, Dequeued(D75, 0, 0), b, [])
  {
    var s1 := Approach(s0, spin, r, b);
    assert [0][1..] == [];
    s := Snapshot(HeldBy(0), spin, r.(place := AtDequeuer(0)), ALONE, ALONE, Dequeued(D75, 0, 0), b, []);
    Hop(s1, 0, Continue, s);
  }

  /** Thread 0 loses the swap and self-links the entry, all before CancelRoutine, already
      committed, gets the lock to unlink it a second time. */
  lemma {:induction false} DoubleRemovalHappens()
    ensures exists s: State :: Reachable(s) && |s.irps| == 1 && s.irps[0].place == SelfLinked && s.queues == [[]] &&
                               |s.threads| == 2 && s.threads[1] == Canceller(I222)
  {
    var s0 := Commit();
    var b := Canceller(I222);
    var s1 := Grab(s0, HeldBy(1), CANCELLED, b);
    var r := s1.irps[0];
    var s2 := Snapshot(HeldBy(0), HeldBy(1), r, ALONE, ALONE, Dequeued(D83, 0, 0), b, []);
    Hop(s1, 0, Continue, s2);
    var s3 := Snapshot(HeldBy(0), HeldBy(1), r.(place := SelfLinked), AT_IRP, ALONE, Dequeued(D85, 0, 0), b, []);
    Hop(s2, 0, Continue, s3);
  }

  /** Thread 0 dequeues the IRP and wins it. */
  lemma {:induction false} Win() returns (s: State)
    ensures Reachable(s) && s == Snapshot(HeldBy(0), Free, TAKEN, ALONE, ALONE, Dequeued(D97, 0, 0), Idle, [])
  {
    var s0 := Enqueue();
    var s1 := Grab(s0, Free, QUEUED, Idle);
    s := Snapshot(HeldBy(0), Free, TAKEN, ALONE, ALONE, Dequeued(D97, 0, 0), Idle, []);
    Hop(s1, 0, Continue, s);
  }

  /** Then thread 1 calls IoCancelIrp. */
  lemma {:induction false} LateCancel() returns (s: State)
    ensures Reachable(s)
    ensures s == Snapshot(HeldBy(0), HeldBy(1), TAKEN, ALONE, ALONE, Dequeued(D97, 0, 0), Canceller(I213), [])
  {
    var s0 := Win();
    var s1 := Snapshot(HeldBy(0), Free, TAKEN, ALONE, ALONE, Dequeued(D97, 0, 0), Canceller(I211), []);
    Hop(s0, 1, Cancel(0, 0), s1);
    s := Snapshot(HeldBy(0), HeldBy(1), TAKEN, ALONE, ALONE, Dequeued(D97, 0, 0), Canceller(I213), []);
    Hop(s1, 1, Continue, s);
  }

  /** Why IoCancelIrp's own accesses are not part of the no-touch property: thread 1 may
      reach line 213 when thread 0 has completed the IRP already. */
  lemma {:induction false} LateCancelFindsCompleted()
    ensures exists s: State :: Reachable(s) && |s.irps| == 1 && s.irps[0].completions == 1 &&
                               s.irps[0].status == Success && |s.threads| == 2 && s.threads[1] == Canceller(I213)
  {
    var s0 := LateCancel();
    var b := Canceller(I213);
    var s1 := Snapshot(Free, HeldBy(1), TAKEN, ALONE, ALONE, Dequeued(D99, 0, 0), b, []);
    Hop(s0, 0, Continue, s1);
    var r := TAKEN.(status := Success);
    var s2 := Snapshot(Free, HeldBy(1), r, ALONE, ALONE, Dequeued(D101, 0, 0), b, []);
    Hop(s1, 0, Continue, s2);
    var s3 := Snapshot(Free, HeldBy(1), r.(completions := 1), ALONE, ALONE, Idle, b, []);
    Hop(s2, 0, Continue, s3);
  }
}
