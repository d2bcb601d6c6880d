/** Deadlock freedom, termination, and what is left when every thread has run out of actions. */
module CancelProgress {
  import opened ListHeap
  import opened CancelModel
  import opened CancelInvariant
  import opened CancelSafety

  /** A dequeuer facing an empty queue: the one wait that needs a new submission to end. */
  predicate Starved(s: State, t: nat)
    requires t < |s.threads|
  {
    AtFetchLock(s.threads[t]) && s.Queue(s.threads[t].home) == []
  }

  /** A thread holding any queue's lock or the cancel spin lock never waits: CancelRoutine
      gives the spin lock back (line 16) before it asks for a queue's lock (line 20). */
  lemma {:induction false} LockHolderRuns(s: State, t: nat)
    requires Reachable(s) && t < |s.threads| && (HoldsLock(s.threads[t]) || HoldsSpin(s.threads[t]))
    ensures !Waiting(s, t) && Enabled(s, t, Continue)
  {
    ReachableInv(s);
    assert ThreadInv(s, t);
    if AtRemoveHead(s.threads[t]) {
      var k := s.threads[t].home;
      assert QueueRing(s, k);
      HeadRemovalIsEntryRemoval(s.heap, s.Head(k), s.queues[k]);
    }
  }

  /** A held lock is held by a thread that knows it. */
  lemma {:induction false} HolderExists(s: State, k: nat)
    requires Reachable(s) && k < |s.locks| && s.locks[k].HeldBy?
    ensures s.locks[k].tid < |s.threads| && LockIndex(s.threads[s.locks[k].tid]) == k
  {
    ReachableInv(s);
    assert ThreadInv(s, s.locks[k].tid);
  }

  lemma {:induction false} SpinHolderExists(s: State)
    requires Reachable(s) && s.spin.HeldBy?
    ensures s.spin.tid < |s.threads| && HoldsSpin(s.threads[s.spin.tid])
  {
    ReachableInv(s);
    assert ThreadInv(s, s.spin.tid);
  }

  ghost predicate AllLocksFree(s: State) {
    s.spin == Free && forall k :: 0 <= k < |s.locks| ==> s.locks[k] == Free
  }

  /** A thread inside a routine is held up by a lock, or an empty queue, and by nothing else. */
  lemma {:induction false} EnabledUnlessWaiting(s: State, t: nat)
    requires Reachable(s) && t < |s.threads| && s.threads[t] != Idle
    ensures Enabled(s, t, Continue) <==> !Waiting(s, t)
    ensures Waiting(s, t) && AllLocksFree(s) ==> Starved(s, t)
  {
    ReachableInv(s);
    assert ThreadInv(s, t);
    if s.threads[t].Fetching? {
      var k := s.threads[t].home;
      assert QueueRing(s, k);
      HeadEntryIsQueued(s.heap, s.Head(k), s.queues[k]);
      if s.threads[t].fetchLine == D73 { HeadRemovalIsEntryRemoval(s.heap, s.Head(k), s.queues[k]); }
    }
  }

  /** What a thread inside a routine may have to wait for, line by line: a queue's lock at
      lines 34, 71 and 20, the first entry of that queue at line 71, the cancel spin lock
      on entering IoCancelIrp, and nothing else anywhere. */
  lemma {:induction false} WaitsForNothingElse(s: State, t: nat)
    requires Reachable(s) && t < |s.threads|
    ensures match s.threads[t]
            case Idle => !Enabled(s, t, Continue)
            case Queueing(Q34, _, k) => k < |s.locks| && (Enabled(s, t, Continue) <==> s.locks[k] == Free)
            case Fetching(D71, k) =>
              && k < |s.locks| && |s.queues| == |s.locks|
              && (Enabled(s, t, Continue) <==> s.locks[k] == Free && s.queues[k] != [])
            case Cancelling(I211, _, _, _) => Enabled(s, t, Continue) <==> s.spin == Free
            case Cancelling(C20, i, _, _) =>
              && IrpRange(s, i) && s.irps[i].context.LockOf? && s.irps[i].context.queue < |s.locks|
              && (Enabled(s, t, Continue) <==> s.locks[s.irps[i].context.queue] == Free)
            case _ => Enabled(s, t, Continue)
  {
    ReachableInv(s);
    assert ThreadInv(s, t);
    if s.threads[t].Fetching? {
      var k := s.threads[t].home;
      assert QueueRing(s, k);
      HeadEntryIsQueued(s.heap, s.Head(k), s.queues[k]);
      if s.threads[t].fetchLine == D73 { HeadRemovalIsEntryRemoval(s.heap, s.Head(k), s.queues[k]); }
    } else if s.threads[t].Cancelling? {
      assert IrpInv(s, s.threads[t].irp);
    }
  }

  /** Deadlock freedom across all locks: while any thread is inside a routine and not
      waiting for a first entry, some thread can take its next action. */
  lemma {:induction false} SomeThreadRuns(s: State, t: nat)
    requires Reachable(s) && t < |s.threads| && s.threads[t] != Idle
    requires AtFetchLock(s.threads[t]) ==> s.Queue(s.threads[t].home) != []
    ensures exists u: nat :: Enabled(s, u, Continue)
  {
    if k :| 0 <= k < |s.locks| && s.locks[k].HeldBy? {
      HolderExists(s, k);
      LockHolderRuns(s, s.locks[k].tid);
    } else if s.spin.HeldBy? {
      SpinHolderExists(s);
      LockHolderRuns(s, s.spin.tid);
    } else {
      assert AllLocksFree(s);
      EnabledUnlessWaiting(s, t);
    }
  }

  // ----- Termination -----

  /** The most actions a thread can still take before it is idle again. */
  function Rank(pc: Pc): nat {
    match pc
    case Idle => 0
    case Queueing(line, _, _) =>
      (match line
       case Q34 => 9 case Q36 => 8 case Q38 => 7 case Q39Check => 6 case Q39Swap => 5
       case Q47 => 3 case Q49 => 2 case Q51 => 1
       case Q59 => 4 case Q60 => 3 case Q62 => 2 case Q64 => 1)
    case Fetching(line, _) => if line == D71 then 6 else 5
    case Dequeued(line, _, _) =>
      (match line
       case D75 => 4 case D83 => 2 case D85 => 1 case D97 => 3 case D99 => 2 case D101 => 1)
    case Cancelling(line, _, _, _) =>
      (match line
       case I211 => 11 case I213 => 10 case I215 => 9 case I218 => 1 case I222 => 8 case C16 => 7
       case C18 => 6 case C20 => 5 case C21 => 4 case C22 => 3 case C24 => 2 case C27 => 1)
  }

  function Work(threads: seq<Pc>): nat {
    if threads == [] then 0 else Rank(threads[0]) + Work(threads[1..])
  }

  lemma {:induction false} WorkUpdate(threads: seq<Pc>, t: nat, pc: Pc)
    requires t < |threads|
    ensures Work(threads[t := pc]) == Work(threads) - Rank(threads[t]) + Rank(pc)
  {
    if t == 0 {
      assert threads[0 := pc][1..] == threads[1..];
    } else {
      WorkUpdate(threads[1..], t - 1, pc);
      assert threads[t := pc][1..] == threads[1..][t - 1 := pc];
    }
  }

  /** Every action inside a routine uses up work. */
  lemma {:induction false} StepUsesWork(s: State, t: nat)
    requires Enabled(s, t, Continue)
    ensures Work(Next(s, t, Continue).threads) < Work(s.threads)
  {
    var pc := Next(s, t, Continue).threads[t];
    RankDrops(s, t);
    WorkUpdate(s.threads, t, pc);
  }

  ghost predicate Drops(s: State, s': State, t: nat)
    requires t < |s.threads|
  {
    && |s'.threads| == |s.threads| && s'.threads == s.threads[t := s'.threads[t]]
    && Rank(s'.threads[t]) < Rank(s.threads[t])
  }

  lemma {:induction false} QueueArmDrops(s: State, t: nat)
    requires Enabled(s, t, Continue) && s.threads[t].Queueing?
    requires s.threads[t].queueLine in {Q34, Q36, Q38, Q39Check, Q39Swap}
    ensures Drops(s, QueueNext(s, t), t)
  {
  }

  lemma {:induction false} QueueDrops(s: State, t: nat)
    requires Enabled(s, t, Continue) && s.threads[t].Queueing?
    ensures Drops(s, QueueNext(s, t), t)
  {
    if s.threads[t].queueLine in {Q34, Q36, Q38, Q39Check, Q39Swap} { QueueArmDrops(s, t); }
  }

  lemma {:induction false} DequeueDrops(s: State, t: nat)
    requires Enabled(s, t, Continue) && s.threads[t].Dequeued?
    ensures Drops(s, DequeueNext(s, t), t)
  {
  }

  lemma {:induction false} IoCancelDrops(s: State, t: nat)
    requires Enabled(s, t, Continue) && s.threads[t].Cancelling?
    requires s.threads[t].cancelLine in {I211, I213, I215, I218, I222, C16}
    ensures Drops(s, CancelNext(s, t), t)
  {
  }

  lemma {:induction false} CancelDrops(s: State, t: nat)
    requires Enabled(s, t, Continue) && s.threads[t].Cancelling?
    ensures Drops(s, CancelNext(s, t), t)
  {
    if s.threads[t].cancelLine in {I211, I213, I215, I218, I222, C16} { IoCancelDrops(s, t); }
  }

  lemma {:induction false} RankDrops(s: State, t: nat)
    requires Enabled(s, t, Continue)
    ensures Drops(s, Next(s, t, Continue), t)
  {
    match s.threads[t]
    case Queueing(_, _, _) => QueueDrops(s, t);
    case Dequeued(_, _, _) => DequeueDrops(s, t);
    case Cancelling(_, _, _, _) => CancelDrops(s, t);
    case Fetching(_, _) =>
  }

  /** No new submissions, dequeues or cancel calls. */
  ghost predicate NoNewCalls(schedule: seq<Turn>) {
    forall k :: 0 <= k < |schedule| ==> schedule[k].call == Continue
  }

  /** Without new calls, every interleaving ends: no schedule is longer than the work left. */
  lemma {:induction false} Terminates(s: State, schedule: seq<Turn>)
    requires Runs(s, schedule) && NoNewCalls(schedule)
    ensures |schedule| + Work(Run(s, schedule).threads) <= Work(s.threads)
    decreases |schedule|
  {
    if schedule != [] {
      assert schedule[0].call == Continue;
      StepUsesWork(s, schedule[0].tid);
      Terminates(Next(s, schedule[0].tid, Continue), schedule[1..]);
    }
  }

  /** An IRP with nothing left to happen to it: never submitted, or waiting in a queue
      with its cancel routine armed and no cancel request, or completed once. */
  ghost predicate Settled(s: State, i: int)
    requires IrpRange(s, i)
  {
    var r := s.irps[i];
    || r.place == Outside
    || (Queued(s, i) && r.routine && !r.cancel && r.completions == 0)
    || (!Queued(s, i) && !r.routine && r.completions == 1 && r.status == FinalStatus(r.token))
  }

  /** When no thread can continue, all locks are free, every thread is idle or about to
      dequeue from an empty queue, and every IRP is settled: no accepted cancel request is left unserved. */
  lemma {:induction false} NothingLeftUndone(s: State)
    requires Reachable(s) && forall t: nat :: !Enabled(s, t, Continue)
    ensures AllLocksFree(s)
    ensures forall t: nat :: t < |s.threads| && s.threads[t] != Idle ==>
              AtFetchLock(s.threads[t]) && s.Queue(s.threads[t].home) == []
    ensures forall i :: IrpRange(s, i) ==> Settled(s, i)
  {
    forall k | 0 <= k < |s.locks| ensures s.locks[k] == Free {
      if s.locks[k].HeldBy? {
        HolderExists(s, k);
        LockHolderRuns(s, s.locks[k].tid);
      }
    }
    if s.spin.HeldBy? {
      SpinHolderExists(s);
      LockHolderRuns(s, s.spin.tid);
    }
    forall t: nat | t < |s.threads| ensures s.threads[t] == Idle || Starved(s, t) {
      if s.threads[t] != Idle { EnabledUnlessWaiting(s, t); }
    }
    forall i | IrpRange(s, i) ensures Settled(s, i) {
      IrpSettled(s, i);
    }
  }

  lemma {:induction false} IrpSettled(s: State, i: int)
    requires Reachable(s) && IrpRange(s, i)
    requires forall t: nat :: t < |s.threads| ==> s.threads[t] == Idle || Starved(s, t)
    ensures Settled(s, i)
  {
    ReachableInv(s);
    assert IrpInv(s, i);
    LinkedIsQueued(s, i);
  }

  /** The schedule runs the routines already started to the end and settles every IRP. */
  ghost predicate Drains(s: State, schedule: seq<Turn>) {
    && Runs(s, schedule) && NoNewCalls(schedule)
    && (forall t: nat :: !Enabled(Run(s, schedule), t, Continue))
    && (forall i :: IrpRange(Run(s, schedule), i) ==> Settled(Run(s, schedule), i))
  }

  /** Every reachable state can be drained, so every cancel request on a submitted IRP ends
      in a completion once the routines already started have run. */
  lemma {:induction false} CanDrain(s: State)
    requires Reachable(s)
    ensures exists schedule: seq<Turn> :: Drains(s, schedule)
    decreases Work(s.threads)
  {
    if t: nat :| Enabled(s, t, Continue) {
      ReachableNext(s, t, Continue);
      StepUsesWork(s, t);
      CanDrain(Next(s, t, Continue));
      var rest :| Drains(Next(s, t, Continue), rest);
      var schedule := [Turn(t, Continue)] + rest;
      assert schedule[1..] == rest;
      assert Run(s, schedule) == Run(Next(s, t, Continue), rest);
      assert Drains(s, schedule);
    } else {
      NothingLeftUndone(s);
      assert Run(s, []) == s;
      assert Drains(s, []);
    }
  }

  lemma {:induction false} ReachableRun(s: State, schedule: seq<Turn>)
    requires Reachable(s) && Runs(s, schedule)
    ensures Reachable(Run(s, schedule))
    decreases |schedule|
  {
    if schedule != [] {
      ReachableNext(s, schedule[0].tid, schedule[0].call);
      ReachableRun(Next(s, schedule[0].tid, schedule[0].call), schedule[1..]);
    }
  }

  /** It does not take a lucky schedule: however the scheduler picks among the threads that
      can continue, it runs out of choices within the work left, and then every IRP is settled. */
  lemma {:induction false} EveryFullRunSettles(s: State, schedule: seq<Turn>)
    requires Reachable(s) && Runs(s, schedule) && NoNewCalls(schedule)
    requires forall t: nat :: !Enabled(Run(s, schedule), t, Continue)
    ensures |schedule| <= Work(s.threads) && Drains(s, schedule)
  {
    Terminates(s, schedule);
    ReachableRun(s, schedule);
    NothingLeftUndone(Run(s, schedule));
  }
}
