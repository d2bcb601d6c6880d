/** Every interleaving of the three routines is a history of CancelSpec. An IRP joins a
    FIFO when QUEUE arms it and is decided by the IoSetCancelRoutine that takes its token;
    list insertions and removals happen in between and are invisible. */
module CancelRefinement {
  import opened ListHeap
  import opened CancelModel
  import opened CancelInvariant
  import opened CancelSafety
  import CS = CancelSpec

  function VerdictOf(token: Token): CS.Verdict {
    if token.QueueWon? then CS.Rejected else if token.DequeueWon? then CS.Taken else CS.Withdrawn
  }

  function PhaseOf(r: Irp): CS.Phase {
    if r.token == Unarmed then CS.New
    else if r.token == InSlot then CS.Waiting
    else if r.completions == 0 then CS.Decided(VerdictOf(r.token))
    else CS.Finished(VerdictOf(r.token))
  }

  /** The armed IRPs of q. */
  function Live(irps: seq<Irp>, q: seq<int>): seq<int> {
    if q == [] then []
    else (if 0 <= q[0] < |irps| && irps[q[0]].routine then [q[0]] else []) + Live(irps, q[1..])
  }

  /** The IRP the lock holder has taken off the head and not yet disposed of. */
  function Hand(lock: Lock, threads: seq<Pc>): seq<int> {
    if lock.HeldBy? && lock.tid < |threads|
       && threads[lock.tid].Dequeued? && threads[lock.tid].dequeueLine in {D75, D83}
    then [threads[lock.tid].irp] else []
  }

  /** The IRP the lock holder is about to insert at the tail. */
  function Tail(lock: Lock, threads: seq<Pc>): seq<int> {
    if lock.HeldBy? && lock.tid < |threads|
       && threads[lock.tid].Queueing? && BeforeInsert(threads[lock.tid].queueLine)
    then [threads[lock.tid].irp] else []
  }

  function Order(s: State, k: nat): seq<int> {
    Hand(s.LockAt(k), s.threads) + s.Queue(k) + Tail(s.LockAt(k), s.threads)
  }

  function WaitingAt(s: State, k: nat): seq<int> {
    Live(s.irps, Order(s, k))
  }

  function Abs(s: State): CS.Spec {
    CS.Spec(seq(|s.irps|, i requires 0 <= i < |s.irps| => PhaseOf(s.irps[i])),
            seq(|s.irps|, i requires 0 <= i < |s.irps| => s.irps[i].cancel),
            seq(|s.queues|, k requires 0 <= k < |s.queues| => WaitingAt(s, k)))
  }

  /** The queue whose lock the IRP knows. */
  function ContextQueue(r: Irp): nat {
    if r.context.LockOf? then r.context.queue else 0
  }

  /** What an action is at the level of the specification. */
  function EventOf(s: State, t: nat, c: Call): CS.Event
    requires Enabled(s, t, c)
  {
    if c != Continue then CS.Silent
    else match s.threads[t]
      case Queueing(Q38, i, k) => CS.Submit(i, k)
      case Queueing(Q39Swap, i, k) => if s.irps[i].routine then CS.RejectAlreadyCancelled(i, k) else CS.Silent
      case Queueing(Q51, i, _) => CS.Finish(i, s.irps[i].status == Success)
      case Dequeued(D75, i, k) => if s.irps[i].routine then CS.TakeHead(i, k) else CS.Silent
      case Dequeued(D101, i, _) => CS.Finish(i, s.irps[i].status == Success)
      case Cancelling(I213, i, _, _) => CS.Request(i)
      case Cancelling(I215, i, _, _) =>
        if s.irps[i].routine then CS.Withdraw(i, ContextQueue(s.irps[i])) else CS.Silent
      case Cancelling(C27, i, _, _) => CS.Finish(i, s.irps[i].status == Success)
      case _ => CS.Silent
  }

  // ----- Live -----

  lemma {:induction false} LiveConcat(irps: seq<Irp>, p: seq<int>, q: seq<int>)
    ensures Live(irps, p + q) == Live(irps, p) + Live(irps, q)
  {
    if p == [] {
      assert p + q == q;
    } else {
      LiveConcat(irps, p[1..], q);
      assert (p + q)[0] == p[0] && (p + q)[1..] == p[1..] + q;
      var first := if 0 <= p[0] < |irps| && irps[p[0]].routine then [p[0]] else [];
      assert first + (Live(irps, p[1..]) + Live(irps, q)) == (first + Live(irps, p[1..])) + Live(irps, q);
    }
  }

  lemma {:induction false} LiveAgrees(irps: seq<Irp>, irps': seq<Irp>, q: seq<int>)
    requires |irps'| == |irps| && forall i :: i in q && 0 <= i < |irps| ==> irps'[i].routine == irps[i].routine
    ensures Live(irps', q) == Live(irps, q)
  {
    if q != [] {
      assert q[0] in q;
      assert forall i :: i in q[1..] ==> i in q;
      LiveAgrees(irps, irps', q[1..]);
    }
  }

  lemma {:induction false} LiveMembers(irps: seq<Irp>, q: seq<int>)
    ensures forall i :: i in Live(irps, q) <==> i in q && 0 <= i < |irps| && irps[i].routine
  {
    if q != [] {
      LiveMembers(irps, q[1..]);
      assert forall i :: i in q <==> i == q[0] || i in q[1..];
    }
  }

  lemma {:induction false} LiveDisarm(irps: seq<Irp>, q: seq<int>, i: int, r: Irp)
    requires 0 <= i < |irps| && !r.routine && NoDuplicates(q)
    ensures Live(irps[i := r], q) == Delete(Live(irps, q), i)
  {
    if q != [] {
      var rest := Live(irps, q[1..]);
      LiveDisarm(irps, q[1..], i, r);
      assert ([q[0]] + rest)[1..] == rest;
      assert [] + rest == rest;
      if q[0] == i {
        assert i !in q[1..];
        LiveMembers(irps, q[1..]);
        DeleteAbsent(rest, i);
      }
    }
  }

  lemma {:induction false} LiveDelete(irps: seq<Irp>, q: seq<int>, i: int)
    requires 0 <= i < |irps| && !irps[i].routine
    ensures Live(irps, Delete(q, i)) == Live(irps, q)
  {
    if q != [] && q[0] != i {
      LiveDelete(irps, q[1..], i);
      assert Delete(q, i)[1..] == Delete(q[1..], i);
    }
  }

  // ----- Who is in which order -----

  /** An IRP in the order of queue k is linked in it or in the hands of its lock holder. */
  lemma {:induction false} OrderMeans(s: State, k: nat, i: int)
    requires Inv(s) && k < |s.queues| && i in Order(s, k)
    ensures IrpRange(s, i) && IrpInv(s, i)
    ensures s.irps[i].place.Linked? || s.irps[i].place.AtDequeuer? || s.irps[i].place.AtQueuer?
    ensures s.irps[i].place.Linked? ==> i in s.queues[k] && s.irps[i].context == LockOf(k)
    ensures !s.irps[i].place.Linked? ==> s.locks[k] == HeldBy(s.irps[i].place.tid) && i !in s.queues[k]
  {
    assert QueueRing(s, k);
    if s.locks[k].HeldBy? { assert ThreadInv(s, s.locks[k].tid); }
  }

  /** No IRP is in the orders of two queues. */
  lemma {:induction false} OneOrder(s: State, k: nat, m: nat, i: int)
    requires Inv(s) && k < |s.queues| && m < |s.queues| && i in Order(s, k) && i in Order(s, m)
    ensures k == m
  {
    OrderMeans(s, k, i);
    OrderMeans(s, m, i);
    if !s.irps[i].place.Linked? { assert ThreadInv(s, s.irps[i].place.tid); }
  }

  lemma {:induction false} OrderDistinct(s: State, k: nat)
    requires Inv(s) && k < |s.queues|
    ensures NoDuplicates(Order(s, k))
  {
    assert QueueRing(s, k);
    var hand, tail := Hand(s.LockAt(k), s.threads), Tail(s.LockAt(k), s.threads);
    forall i | i in hand + tail ensures i !in s.queues[k] {
      HandNotLinked(s, k, i);
    }
    EndsDistinct(hand, s.queues[k], tail);
  }

  lemma {:induction false} EndsDistinct(hand: seq<int>, q: seq<int>, tail: seq<int>)
    requires NoDuplicates(q) && |hand| + |tail| <= 1 && forall i :: i in hand + tail ==> i !in q
    ensures NoDuplicates(hand + q + tail)
  {
    if hand != [] { assert hand[0] in hand + tail; }
    if tail != [] { assert tail[0] in hand + tail; }
  }

  lemma {:induction false} HandNotLinked(s: State, k: nat, i: int)
    requires Inv(s) && k < |s.queues|
    requires i in Hand(s.LockAt(k), s.threads) + Tail(s.LockAt(k), s.threads)
    ensures i !in s.queues[k]
  {
    assert ThreadInv(s, s.locks[k].tid);
    assert IrpInv(s, i);
  }

  /** An armed IRP is in the order of the queue whose lock it knows. */
  lemma {:induction false} ArmedInOrder(s: State, i: int)
    requires Inv(s) && IrpRange(s, i) && s.irps[i].routine
    ensures KnowsLock(s, s.irps[i]) && i in Order(s, ContextQueue(s.irps[i]))
  {
    assert IrpInv(s, i);
    var p, k := s.irps[i].place, ContextQueue(s.irps[i]);
    if p.AtQueuer? || p.AtDequeuer? {
      OffListUnderLock(s, i);
      assert i in Hand(s.LockAt(k), s.threads) || i in Tail(s.LockAt(k), s.threads);
    } else {
      assert i in s.Queue(k);
    }
  }

  // ----- The other queues -----

  /** The queue an action works on, or -1. */
  function Site(s: State, t: nat): int
    requires Enabled(s, t, Continue)
  {
    match s.threads[t]
    case Idle => -1
    case Queueing(_, _, k) => k
    case Fetching(_, k) => k
    case Dequeued(_, _, k) => k
    case Cancelling(line, i, _, lk) =>
      if line in {C20, C21, C22} && lk.LockOf? then lk.queue
      else if line == I215 && s.irps[i].routine then ContextQueue(s.irps[i])
      else -1
  }

  /** Only the holder of a lock has anything of that queue in hand. */
  lemma {:induction false} OrderSame(s: State, s': State, t: nat, m: nat)
    requires t < |s.threads| && |s'.threads| == |s.threads| && s'.threads == s.threads[t := s'.threads[t]]
    requires s'.LockAt(m) == s.LockAt(m) && s.LockAt(m) != HeldBy(t) && s'.Queue(m) == s.Queue(m)
    ensures Order(s', m) == Order(s, m)
  {
  }

  lemma {:induction false} LockElsewhere(s: State, t: nat, m: nat)
    requires Inv(s) && Enabled(s, t, Continue) && m < |s.queues| && m != Site(s, t)
    ensures s.LockAt(m) != HeldBy(t)
  {
    assert ThreadInv(s, t);
  }

  lemma {:induction false} QueueElsewhere(s: State, t: nat, m: nat)
    requires Enabled(s, t, Continue) && m != Site(s, t) && s.threads[t].Queueing?
    ensures QueueNext(s, t).LockAt(m) == s.LockAt(m)
  {
  }

  lemma {:induction false} CancelElsewhere(s: State, t: nat, m: nat)
    requires Enabled(s, t, Continue) && m != Site(s, t) && s.threads[t].Cancelling?
    ensures CancelNext(s, t).LockAt(m) == s.LockAt(m)
  {
  }

  lemma {:induction false} LockKeptElsewhere(s: State, t: nat, m: nat)
    requires Enabled(s, t, Continue) && m != Site(s, t)
    ensures Next(s, t, Continue).LockAt(m) == s.LockAt(m)
  {
    match s.threads[t]
    case Queueing(_, _, _) => QueueElsewhere(s, t, m);
    case Cancelling(_, _, _, _) => CancelElsewhere(s, t, m);
    case Fetching(_, _) =>
    case Dequeued(_, _, _) =>
  }

  lemma {:induction false} QueueArmsHere(s: State, t: nat)
    requires Inv(s) && Enabled(s, t, Continue) && s.threads[t].Queueing?
    requires QueueNext(s, t).irps[s.threads[t].irp].routine != s.irps[s.threads[t].irp].routine
    ensures s.threads[t].irp in Order(s, s.threads[t].home)
  {
    assert ThreadInv(s, t);
  }

  lemma {:induction false} DequeueArmsHere(s: State, t: nat)
    requires Inv(s) && Enabled(s, t, Continue) && s.threads[t].Dequeued?
    requires DequeueNext(s, t).irps[s.threads[t].irp].routine != s.irps[s.threads[t].irp].routine
    ensures s.threads[t].irp in Order(s, s.threads[t].home)
  {
    assert ThreadInv(s, t);
  }

  lemma {:induction false} CancelArms(s: State, t: nat)
    requires Enabled(s, t, Continue) && s.threads[t].Cancelling?
    requires CancelNext(s, t).irps[s.threads[t].irp].routine != s.irps[s.threads[t].irp].routine
    ensures s.threads[t].cancelLine == I215 && s.irps[s.threads[t].irp].routine
  {
  }

  lemma {:induction false} CancelArmsHere(s: State, t: nat)
    requires Inv(s) && Enabled(s, t, Continue) && s.threads[t].Cancelling?
    requires CancelNext(s, t).irps[s.threads[t].irp].routine != s.irps[s.threads[t].irp].routine
    ensures 0 <= Site(s, t) < |s.queues| && s.threads[t].irp in Order(s, Site(s, t))
  {
    CancelArms(s, t);
    ArmedInOrder(s, s.threads[t].irp);
  }

  /** An action arms or disarms its own IRP only, and that one is in the order of its site. */
  lemma {:induction false} ArmsHere(s: State, t: nat, i: int)
    requires Inv(s) && Enabled(s, t, Continue) && IrpRange(s, i) && IrpRange(Next(s, t, Continue), i)
    requires Next(s, t, Continue).irps[i].routine != s.irps[i].routine
    ensures 0 <= Site(s, t) < |s.queues| && i in Order(s, Site(s, t))
  {
    ContinueFrame(s, t);
    assert i == Subject(s, t) && ThreadInv(s, t);
    match s.threads[t]
    case Queueing(_, _, _) => QueueArmsHere(s, t);
    case Dequeued(_, _, _) => DequeueArmsHere(s, t);
    case Cancelling(_, _, _, _) => CancelArmsHere(s, t);
    case Fetching(_, _) =>
  }

  /** Every queue but k shows the client the same FIFO. */
  ghost predicate Elsewhere(s: State, s': State, k: int) {
    |s'.queues| == |s.queues| && forall m: nat :: m < |s.queues| && m != k ==> WaitingAt(s', m) == WaitingAt(s, m)
  }

  lemma {:induction false} ContinueElsewhere(s: State, t: nat)
    requires Inv(s) && Enabled(s, t, Continue)
    ensures Elsewhere(s, Next(s, t, Continue), Site(s, t))
  {
    var s' := Next(s, t, Continue);
    ContinueFrame(s, t);
    forall m: nat | m < |s.queues| && m != Site(s, t) ensures WaitingAt(s', m) == WaitingAt(s, m) {
      WaitingElsewhere(s, t, m);
    }
  }

  lemma {:induction false} WaitingElsewhere(s: State, t: nat, m: nat)
    requires Inv(s) && Enabled(s, t, Continue) && m < |s.queues| && m != Site(s, t)
    ensures WaitingAt(Next(s, t, Continue), m) == WaitingAt(s, m)
  {
    var s' := Next(s, t, Continue);
    ContinueFrame(s, t);
    LockElsewhere(s, t, m);
    LockKeptElsewhere(s, t, m);
    ListGuarded(s, t, m);
    OrderSame(s, s', t, m);
    forall i | i in Order(s, m) && IrpRange(s, i) ensures s'.irps[i].routine == s.irps[i].routine {
      if s'.irps[i].routine != s.irps[i].routine {
        ArmsHere(s, t, i);
        OneOrder(s, m, Site(s, t), i);
      }
    }
    LiveAgrees(s.irps, s'.irps, Order(s, m));
  }

  // ----- The queue an action works on -----

  /** An action that arms or disarms nothing and keeps the order is invisible. */
  lemma {:induction false} LiveSame(s: State, s': State, k: nat)
    requires |s'.irps| == |s.irps| && (forall i :: IrpRange(s, i) ==> s'.irps[i].routine == s.irps[i].routine)
    requires Order(s', k) == Order(s, k)
    ensures WaitingAt(s', k) == WaitingAt(s, k)
  {
    LiveAgrees(s.irps, s'.irps, Order(s, k));
  }

  lemma {:induction false} QueueLockWaiting(s: State, t: nat)
    requires Inv(s) && Enabled(s, t, Continue) && s.threads[t].Queueing? && s.threads[t].queueLine == Q34
    ensures WaitingAt(QueueNext(s, t), s.threads[t].home) == WaitingAt(s, s.threads[t].home)
  {
    var s', i, k := QueueNext(s, t), s.threads[t].irp, s.threads[t].home;
    assert ThreadInv(s, t) && IrpInv(s, i);
    assert Order(s, k) == s.queues[k] && Order(s', k) == s.queues[k] + [i];
    LiveConcat(s'.irps, s.queues[k], [i]);
    LiveAgrees(s.irps, s'.irps, s.queues[k]);
  }

  lemma {:induction false} QueueSameOrder(s: State, t: nat)
    requires Inv(s) && Enabled(s, t, Continue) && s.threads[t].Queueing?
    requires s.threads[t].queueLine !in {Q34, Q38, Q49, Q51}
    requires s.threads[t].queueLine == Q39Swap ==> !s.irps[s.threads[t].irp].routine
    ensures Order(QueueNext(s, t), s.threads[t].home) == Order(s, s.threads[t].home)
  {
    assert ThreadInv(s, t);
  }

  lemma {:induction false} QueueCompleteOrder(s: State, t: nat)
    requires Inv(s) && Enabled(s, t, Continue) && s.threads[t].Queueing? && s.threads[t].queueLine in {Q49, Q51}
    ensures Order(QueueNext(s, t), s.threads[t].home) == Order(s, s.threads[t].home)
  {
    assert ThreadInv(s, t);
    OrderSame(s, QueueNext(s, t), t, s.threads[t].home);
  }

  lemma {:induction false} QueueWaiting(s: State, t: nat)
    requires Inv(s) && Enabled(s, t, Continue) && s.threads[t].Queueing? && s.threads[t].queueLine != Q38
    requires s.threads[t].queueLine == Q39Swap ==> !s.irps[s.threads[t].irp].routine
    ensures WaitingAt(QueueNext(s, t), s.threads[t].home) == WaitingAt(s, s.threads[t].home)
  {
    if s.threads[t].queueLine == Q34 {
      QueueLockWaiting(s, t);
    } else {
      if s.threads[t].queueLine in {Q49, Q51} { QueueCompleteOrder(s, t); } else { QueueSameOrder(s, t); }
      LiveSame(s, QueueNext(s, t), s.threads[t].home);
    }
  }

  lemma {:induction false} SubmitWaiting(s: State, t: nat)
    requires Inv(s) && Enabled(s, t, Continue) && s.threads[t].Queueing? && s.threads[t].queueLine == Q38
    ensures var i, k := s.threads[t].irp, s.threads[t].home; WaitingAt(QueueNext(s, t), k) == WaitingAt(s, k) + [i]
  {
    var s', i, k := QueueNext(s, t), s.threads[t].irp, s.threads[t].home;
    assert ThreadInv(s, t) && IrpInv(s, i);
    assert Order(s, k) == s.queues[k] + [i] && Order(s', k) == s.queues[k] + [i];
    LiveConcat(s.irps, s.queues[k], [i]);
    LiveConcat(s'.irps, s.queues[k], [i]);
    LiveAgrees(s.irps, s'.irps, s.queues[k]);
  }

  lemma {:induction false} RejectWaiting(s: State, t: nat)
    requires Inv(s) && Enabled(s, t, Continue) && s.threads[t].Queueing? && s.threads[t].queueLine == Q39Swap
    requires s.irps[s.threads[t].irp].routine
    ensures var i, k := s.threads[t].irp, s.threads[t].home;
            var w := WaitingAt(s, k);
            w != [] && w[|w| - 1] == i && WaitingAt(QueueNext(s, t), k) == Delete(w, i)
  {
    var s', i, k := QueueNext(s, t), s.threads[t].irp, s.threads[t].home;
    RejectOrder(s, t);
    LiveConcat(s.irps, s.queues[k], [i]);
    OrderDistinct(s, k);
    LiveDisarm(s.irps, s.queues[k] + [i], i, s'.irps[i]);
    LiveConcat(s'.irps, s.queues[k], [i]);
  }

  lemma {:induction false} RejectOrder(s: State, t: nat)
    requires Inv(s) && Enabled(s, t, Continue) && s.threads[t].Queueing? && s.threads[t].queueLine == Q39Swap
    requires s.irps[s.threads[t].irp].routine
    ensures var s', i, k := QueueNext(s, t), s.threads[t].irp, s.threads[t].home;
            && k < |s.queues| && Order(s, k) == s.queues[k] + [i] && Order(s', k) == s.queues[k]
            && s'.irps == s.irps[i := s'.irps[i]] && !s'.irps[i].routine
  {
    assert ThreadInv(s, t) && IrpInv(s, s.threads[t].irp);
  }

  lemma {:induction false} WithdrawWaiting(s: State, t: nat)
    requires Inv(s) && Enabled(s, t, Continue) && s.threads[t].Cancelling? && s.threads[t].cancelLine == I215
    requires s.irps[s.threads[t].irp].routine
    ensures var i := s.threads[t].irp;
            var k := ContextQueue(s.irps[i]);
            k < |s.queues| && i in WaitingAt(s, k) && WaitingAt(CancelNext(s, t), k) == Delete(WaitingAt(s, k), i)
  {
    var s', i := CancelNext(s, t), s.threads[t].irp;
    var k := ContextQueue(s.irps[i]);
    assert ThreadInv(s, t) && IrpInv(s, i);
    OrderSame(s, s', t, k);
    OrderDistinct(s, k);
    LiveDisarm(s.irps, Order(s, k), i, s'.irps[i]);
    LiveMembers(s.irps, Order(s, k));
    ArmedInOrder(s, i);
  }

  lemma {:induction false} TakeWaiting(s: State, t: nat)
    requires Inv(s) && Enabled(s, t, Continue) && s.threads[t].Dequeued? && s.threads[t].dequeueLine == D75
    requires s.irps[s.threads[t].irp].routine
    ensures var i, k := s.threads[t].irp, s.threads[t].home;
            var w := WaitingAt(s, k);
            w != [] && w[0] == i && WaitingAt(DequeueNext(s, t), k) == Delete(w, i)
  {
    var s', i, k := DequeueNext(s, t), s.threads[t].irp, s.threads[t].home;
    assert ThreadInv(s, t) && IrpInv(s, i);
    assert Order(s, k) == [i] + s.queues[k] && Order(s', k) == s.queues[k];
    LiveConcat(s.irps, [i], s.queues[k]);
    LiveAgrees(s.irps, s'.irps, s.queues[k]);
    assert Live(s.irps, [i]) == [i];
  }

  lemma {:induction false} DequeueSelfLinkWaiting(s: State, t: nat)
    requires Inv(s) && Enabled(s, t, Continue) && s.threads[t].Dequeued? && s.threads[t].dequeueLine == D83
    ensures WaitingAt(DequeueNext(s, t), s.threads[t].home) == WaitingAt(s, s.threads[t].home)
  {
    var s', i, k := DequeueNext(s, t), s.threads[t].irp, s.threads[t].home;
    assert ThreadInv(s, t) && IrpInv(s, i);
    assert Order(s, k) == [i] + s.queues[k] && Order(s', k) == s.queues[k];
    LiveConcat(s.irps, [i], s.queues[k]);
    LiveAgrees(s.irps, s'.irps, s.queues[k]);
  }

  lemma {:induction false} DequeueSameOrder(s: State, t: nat)
    requires Inv(s) && Enabled(s, t, Continue) && s.threads[t].Dequeued? && s.threads[t].dequeueLine != D83
    requires s.threads[t].dequeueLine == D75 ==> !s.irps[s.threads[t].irp].routine
    ensures Order(DequeueNext(s, t), s.threads[t].home) == Order(s, s.threads[t].home)
  {
    assert ThreadInv(s, t);
    if s.threads[t].dequeueLine in {D99, D101} { OrderSame(s, DequeueNext(s, t), t, s.threads[t].home); }
  }

  lemma {:induction false} DequeueWaiting(s: State, t: nat)
    requires Inv(s) && Enabled(s, t, Continue) && s.threads[t].Dequeued?
    requires s.threads[t].dequeueLine == D75 ==> !s.irps[s.threads[t].irp].routine
    ensures WaitingAt(DequeueNext(s, t), s.threads[t].home) == WaitingAt(s, s.threads[t].home)
  {
    if s.threads[t].dequeueLine == D83 {
      DequeueSelfLinkWaiting(s, t);
    } else {
      DequeueSameOrder(s, t);
      LiveSame(s, DequeueNext(s, t), s.threads[t].home);
    }
  }

  lemma {:induction false} FetchOrder(s: State, t: nat)
    requires Inv(s) && Enabled(s, t, Continue) && s.threads[t].Fetching?
    ensures Order(FetchNext(s, t), s.threads[t].home) == Order(s, s.threads[t].home)
  {
    assert ThreadInv(s, t);
    if s.threads[t].fetchLine == D73 { FetchHeadOrder(s, t); }
  }

  lemma {:induction false} FetchHeadOrder(s: State, t: nat)
    requires Inv(s) && Enabled(s, t, Continue) && AtRemoveHead(s.threads[t])
    ensures Order(FetchNext(s, t), s.threads[t].home) == Order(s, s.threads[t].home)
  {
    var k := s.threads[t].home;
    assert ThreadInv(s, t) && QueueRing(s, k);
    HeadRemovalIsEntryRemoval(s.heap, s.Head(k), s.queues[k]);
    var s', q := FetchNext(s, t), s.queues[k];
    assert Order(s, k) == q by {
      assert Hand(s.LockAt(k), s.threads) == [] && Tail(s.LockAt(k), s.threads) == [];
    }
    assert Hand(s'.LockAt(k), s'.threads) == [q[0]] && Tail(s'.LockAt(k), s'.threads) == [] && s'.Queue(k) == q[1..];
    assert Order(s', k) == [q[0]] + q[1..];
  }

  lemma {:induction false} FetchWaiting(s: State, t: nat)
    requires Inv(s) && Enabled(s, t, Continue) && s.threads[t].Fetching?
    ensures WaitingAt(FetchNext(s, t), s.threads[t].home) == WaitingAt(s, s.threads[t].home)
  {
    FetchOrder(s, t);
    LiveSame(s, FetchNext(s, t), s.threads[t].home);
  }

  lemma {:induction false} UnlinkWaiting(s: State, t: nat)
    requires Inv(s) && Enabled(s, t, Continue) && s.threads[t].Cancelling? && s.threads[t].cancelLine == C21
    ensures var k := Site(s, t);
            0 <= k < |s.queues| && WaitingAt(CancelNext(s, t), k) == WaitingAt(s, k)
  {
    EntryAtUnlink(s, t);
    var s', i, k := CancelNext(s, t), s.threads[t].irp, s.threads[t].theLock.queue;
    UnlinkOrder(s, t);
    LiveAgrees(s.irps, s'.irps, Delete(s.queues[k], i));
    LiveDelete(s.irps, s.queues[k], i);
  }

  lemma {:induction false} UnlinkOrder(s: State, t: nat)
    requires Inv(s) && Enabled(s, t, Continue) && s.threads[t].Cancelling? && s.threads[t].cancelLine == C21
    requires s.threads[t].theLock.LockOf? && s.threads[t].theLock.queue < |s.queues|
    ensures var s', i, k := CancelNext(s, t), s.threads[t].irp, s.threads[t].theLock.queue;
            && Order(s, k) == s.queues[k] && Order(s', k) == Delete(s.queues[k], i)
            && IrpRange(s, i) && !s.irps[i].routine && |s'.irps| == |s.irps|
            && (forall j :: IrpRange(s, j) ==> s'.irps[j].routine == s.irps[j].routine)
  {
    assert ThreadInv(s, t) && IrpInv(s, s.threads[t].irp);
  }

  lemma {:induction false} CancelRelockWaiting(s: State, t: nat)
    requires Inv(s) && Enabled(s, t, Continue) && s.threads[t].Cancelling? && s.threads[t].cancelLine in {C20, C22}
    ensures var k := Site(s, t);
            0 <= k < |s.queues| && WaitingAt(CancelNext(s, t), k) == WaitingAt(s, k)
  {
    assert ThreadInv(s, t) && IrpInv(s, s.threads[t].irp);
    var k := s.threads[t].theLock.queue;
    assert Order(CancelNext(s, t), k) == Order(s, k);
    LiveSame(s, CancelNext(s, t), k);
  }

  // ----- Simulation -----

  /** One action is one legal step of the specification. */
  ghost predicate Simulates(s: State, s': State, e: CS.Event) {
    CS.Legal(Abs(s), e) && Abs(s') == CS.Step(Abs(s), e)
  }

  lemma {:induction false} AbsReads(s: State, i: int, k: nat)
    ensures IrpRange(s, i) ==> CS.InSpec(Abs(s), i) && Abs(s).phases[i] == PhaseOf(s.irps[i])
                               && Abs(s).requested[i] == s.irps[i].cancel
    ensures k < |s.queues| ==> k < |Abs(s).waiting| && Abs(s).waiting[k] == WaitingAt(s, k)
  {
  }

  /** A change to one IRP changes one entry of the specification. */
  lemma {:induction false} AbsPut(s: State, s': State, i: int)
    requires IrpRange(s, i) && |s'.irps| == |s.irps| && s'.irps == s.irps[i := s'.irps[i]]
    ensures Abs(s').phases == Abs(s).phases[i := PhaseOf(s'.irps[i])]
    ensures Abs(s').requested == Abs(s).requested[i := s'.irps[i].cancel]
  {
  }

  /** A change to one FIFO. */
  lemma {:induction false} AbsWaiting(s: State, s': State, k: nat, w: seq<int>)
    requires k < |s.queues| && Elsewhere(s, s', k) && WaitingAt(s', k) == w
    ensures Abs(s').waiting == Abs(s).waiting[k := w]
  {
    forall m: nat | m < |s.queues| ensures Abs(s').waiting[m] == Abs(s).waiting[k := w][m] {
      assert m != k ==> WaitingAt(s', m) == WaitingAt(s, m);
    }
  }

  lemma {:induction false} AbsSameWaiting(s: State, s': State, k: int)
    requires Elsewhere(s, s', k) && (0 <= k < |s.queues| ==> WaitingAt(s', k) == WaitingAt(s, k))
    ensures Abs(s').waiting == Abs(s).waiting
  {
    forall m: nat | m < |s.queues| ensures Abs(s').waiting[m] == Abs(s).waiting[m] {
      assert m != k ==> WaitingAt(s', m) == WaitingAt(s, m);
    }
  }

  predicate SamePhases(s: State, s': State, i: int) {
    && IrpRange(s, i) && |s'.irps| == |s.irps| && s'.irps == s.irps[i := s'.irps[i]]
    && PhaseOf(s'.irps[i]) == PhaseOf(s.irps[i]) && s'.irps[i].cancel == s.irps[i].cancel
  }

  lemma {:induction false} SilentPut(s: State, s': State, i: int)
    requires SamePhases(s, s', i)
    requires Abs(s').waiting == Abs(s).waiting
    ensures Simulates(s, s', CS.Silent)
  {
    AbsPut(s, s', i);
  }

  /** The effect of an action on IRP i, as the specification's step has it. */
  ghost predicate Becomes(s: State, s': State, i: int, phase: CS.Phase, requested: bool) {
    && IrpRange(s, i) && |s'.irps| == |s.irps| && s'.irps == s.irps[i := s'.irps[i]]
    && PhaseOf(s'.irps[i]) == phase && s'.irps[i].cancel == requested
  }

  lemma {:induction false} FinishPut(s: State, s': State, i: int, success: bool)
    requires IrpRange(s, i) && PhaseOf(s.irps[i]).Decided? && success == PhaseOf(s.irps[i]).verdict.Taken?
    requires Becomes(s, s', i, CS.Finished(PhaseOf(s.irps[i]).verdict), s.irps[i].cancel)
    requires Abs(s').waiting == Abs(s).waiting
    ensures Simulates(s, s', CS.Finish(i, success))
  {
    AbsPut(s, s', i);
  }

  lemma {:induction false} QueueArmSilentIrp(s: State, t: nat)
    requires Enabled(s, t, Continue) && s.threads[t].Queueing? && EventOf(s, t, Continue) == CS.Silent
    requires s.threads[t].queueLine in {Q34, Q36, Q39Check, Q39Swap, Q47, Q49}
    ensures SamePhases(s, QueueNext(s, t), s.threads[t].irp)
  {
  }

  lemma {:induction false} QueueSilentIrp(s: State, t: nat)
    requires Enabled(s, t, Continue) && s.threads[t].Queueing? && EventOf(s, t, Continue) == CS.Silent
    ensures SamePhases(s, QueueNext(s, t), s.threads[t].irp)
  {
    if s.threads[t].queueLine in {Q34, Q36, Q39Check, Q39Swap, Q47, Q49} { QueueArmSilentIrp(s, t); }
  }

  lemma {:induction false} SubmitSimulates(s: State, t: nat)
    requires Inv(s) && Enabled(s, t, Continue) && s.threads[t].Queueing? && s.threads[t].queueLine == Q38
    requires Elsewhere(s, QueueNext(s, t), s.threads[t].home)
    ensures Simulates(s, QueueNext(s, t), EventOf(s, t, Continue))
  {
    var i, k := s.threads[t].irp, s.threads[t].home;
    assert ThreadInv(s, t) && IrpInv(s, i);
    SubmitWaiting(s, t);
    AbsWaiting(s, QueueNext(s, t), k, WaitingAt(s, k) + [i]);
    AbsPut(s, QueueNext(s, t), i);
    AbsReads(s, i, k);
  }

  lemma {:induction false} RejectSimulates(s: State, t: nat)
    requires Inv(s) && Enabled(s, t, Continue) && s.threads[t].Queueing? && s.threads[t].queueLine == Q39Swap
    requires s.irps[s.threads[t].irp].routine
    requires Elsewhere(s, QueueNext(s, t), s.threads[t].home)
    ensures Simulates(s, QueueNext(s, t), EventOf(s, t, Continue))
  {
    var i, k := s.threads[t].irp, s.threads[t].home;
    assert ThreadInv(s, t) && IrpInv(s, i);
    RejectWaiting(s, t);
    AbsWaiting(s, QueueNext(s, t), k, Delete(WaitingAt(s, k), i));
    AbsPut(s, QueueNext(s, t), i);
    AbsReads(s, i, k);
  }

  lemma {:induction false} QueueFinishSimulates(s: State, t: nat)
    requires Inv(s) && Enabled(s, t, Continue) && s.threads[t].Queueing? && s.threads[t].queueLine == Q51
    requires Abs(QueueNext(s, t)).waiting == Abs(s).waiting
    ensures Simulates(s, QueueNext(s, t), EventOf(s, t, Continue))
  {
    var i := s.threads[t].irp;
    assert ThreadInv(s, t) && IrpInv(s, i);
    FinishPut(s, QueueNext(s, t), i, s.irps[i].status == Success);
  }

  lemma {:induction false} QueueSimulates(s: State, t: nat)
    requires Inv(s) && Enabled(s, t, Continue) && s.threads[t].Queueing?
    ensures Simulates(s, QueueNext(s, t), EventOf(s, t, Continue))
  {
    ContinueElsewhere(s, t);
    var line, i := s.threads[t].queueLine, s.threads[t].irp;
    if line == Q38 {
      SubmitSimulates(s, t);
    } else if line == Q39Swap && s.irps[i].routine {
      RejectSimulates(s, t);
    } else {
      QueueWaiting(s, t);
      AbsSameWaiting(s, QueueNext(s, t), s.threads[t].home);
      if line == Q51 {
        QueueFinishSimulates(s, t);
      } else {
        QueueSilentIrp(s, t);
        SilentPut(s, QueueNext(s, t), i);
      }
    }
  }

  lemma {:induction false} DequeueSilentIrp(s: State, t: nat)
    requires Enabled(s, t, Continue) && s.threads[t].Dequeued? && EventOf(s, t, Continue) == CS.Silent
    ensures SamePhases(s, DequeueNext(s, t), s.threads[t].irp)
  {
  }

  lemma {:induction false} TakeSimulates(s: State, t: nat)
    requires Inv(s) && Enabled(s, t, Continue) && s.threads[t].Dequeued? && s.threads[t].dequeueLine == D75
    requires s.irps[s.threads[t].irp].routine
    requires Elsewhere(s, DequeueNext(s, t), s.threads[t].home)
    ensures Simulates(s, DequeueNext(s, t), EventOf(s, t, Continue))
  {
    var i, k := s.threads[t].irp, s.threads[t].home;
    assert ThreadInv(s, t) && IrpInv(s, i);
    TakeWaiting(s, t);
    AbsWaiting(s, DequeueNext(s, t), k, Delete(WaitingAt(s, k), i));
    AbsPut(s, DequeueNext(s, t), i);
    AbsReads(s, i, k);
  }

  lemma {:induction false} DequeueFinishSimulates(s: State, t: nat)
    requires Inv(s) && Enabled(s, t, Continue) && s.threads[t].Dequeued? && s.threads[t].dequeueLine == D101
    requires Abs(DequeueNext(s, t)).waiting == Abs(s).waiting
    ensures Simulates(s, DequeueNext(s, t), EventOf(s, t, Continue))
  {
    var i := s.threads[t].irp;
    assert ThreadInv(s, t) && IrpInv(s, i);
    FinishPut(s, DequeueNext(s, t), i, s.irps[i].status == Success);
  }

  lemma {:induction false} DequeueSimulates(s: State, t: nat)
    requires Inv(s) && Enabled(s, t, Continue) && s.threads[t].Dequeued?
    ensures Simulates(s, DequeueNext(s, t), EventOf(s, t, Continue))
  {
    ContinueElsewhere(s, t);
    var line, i := s.threads[t].dequeueLine, s.threads[t].irp;
    if line == D75 && s.irps[i].routine {
      TakeSimulates(s, t);
    } else {
      DequeueWaiting(s, t);
      AbsSameWaiting(s, DequeueNext(s, t), s.threads[t].home);
      if line == D101 {
        DequeueFinishSimulates(s, t);
      } else {
        DequeueSilentIrp(s, t);
        SilentPut(s, DequeueNext(s, t), i);
      }
    }
  }

  lemma {:induction false} IoCancelSilentIrp(s: State, t: nat)
    requires Enabled(s, t, Continue) && s.threads[t].Cancelling? && EventOf(s, t, Continue) == CS.Silent
    requires s.threads[t].cancelLine in {I211, I215, I218, I222, C16}
    ensures SamePhases(s, CancelNext(s, t), s.threads[t].irp)
  {
  }

  lemma {:induction false} CancelRoutineSilentIrp(s: State, t: nat)
    requires Enabled(s, t, Continue) && s.threads[t].Cancelling? && EventOf(s, t, Continue) == CS.Silent
    requires s.threads[t].cancelLine in {C18, C20, C21, C22, C24}
    ensures SamePhases(s, CancelNext(s, t), s.threads[t].irp)
  {
  }

  lemma {:induction false} WithdrawSimulates(s: State, t: nat)
    requires Inv(s) && Enabled(s, t, Continue) && s.threads[t].Cancelling? && s.threads[t].cancelLine == I215
    requires s.irps[s.threads[t].irp].routine
    requires Elsewhere(s, CancelNext(s, t), ContextQueue(s.irps[s.threads[t].irp]))
    ensures Simulates(s, CancelNext(s, t), EventOf(s, t, Continue))
  {
    var i := s.threads[t].irp;
    var k := ContextQueue(s.irps[i]);
    assert ThreadInv(s, t) && IrpInv(s, i);
    WithdrawWaiting(s, t);
    AbsWaiting(s, CancelNext(s, t), k, Delete(WaitingAt(s, k), i));
    AbsPut(s, CancelNext(s, t), i);
    AbsReads(s, i, k);
  }

  lemma {:induction false} RequestSimulates(s: State, t: nat)
    requires Enabled(s, t, Continue) && s.threads[t].Cancelling? && s.threads[t].cancelLine == I213
    requires Abs(CancelNext(s, t)).waiting == Abs(s).waiting
    ensures Simulates(s, CancelNext(s, t), EventOf(s, t, Continue))
  {
    var i := s.threads[t].irp;
    AbsPut(s, CancelNext(s, t), i);
    AbsReads(s, i, 0);
  }

  lemma {:induction false} CancelFinishSimulates(s: State, t: nat)
    requires Inv(s) && Enabled(s, t, Continue) && s.threads[t].Cancelling? && s.threads[t].cancelLine == C27
    requires Abs(CancelNext(s, t)).waiting == Abs(s).waiting
    ensures Simulates(s, CancelNext(s, t), EventOf(s, t, Continue))
  {
    var i := s.threads[t].irp;
    assert ThreadInv(s, t) && IrpInv(s, i);
    FinishPut(s, CancelNext(s, t), i, s.irps[i].status == Success);
  }

  lemma {:induction false} CancelWaiting(s: State, t: nat)
    requires Inv(s) && Enabled(s, t, Continue) && s.threads[t].Cancelling?
    requires s.threads[t].cancelLine == I215 ==> !s.irps[s.threads[t].irp].routine
    requires Elsewhere(s, CancelNext(s, t), Site(s, t))
    ensures Abs(CancelNext(s, t)).waiting == Abs(s).waiting
  {
    if s.threads[t].cancelLine == C21 {
      UnlinkWaiting(s, t);
    } else if s.threads[t].cancelLine in {C20, C22} {
      CancelRelockWaiting(s, t);
    }
    AbsSameWaiting(s, CancelNext(s, t), Site(s, t));
  }

  lemma {:induction false} CancelSimulates(s: State, t: nat)
    requires Inv(s) && Enabled(s, t, Continue) && s.threads[t].Cancelling?
    ensures Simulates(s, CancelNext(s, t), EventOf(s, t, Continue))
  {
    ContinueElsewhere(s, t);
    if s.threads[t].cancelLine == I215 && s.irps[s.threads[t].irp].routine {
      WithdrawSimulates(s, t);
    } else {
      CancelWaiting(s, t);
      match s.threads[t].cancelLine
      case I213 => RequestSimulates(s, t);
      case C27 => CancelFinishSimulates(s, t);
      case I211 | I215 | I218 | I222 | C16 =>
        IoCancelSilentIrp(s, t);
        SilentPut(s, CancelNext(s, t), s.threads[t].irp);
      case C18 | C20 | C21 | C22 | C24 =>
        CancelRoutineSilentIrp(s, t);
        SilentPut(s, CancelNext(s, t), s.threads[t].irp);
    }
  }

  lemma {:induction false} FetchSilentIrp(s: State, t: nat)
    requires Enabled(s, t, Continue) && s.threads[t].Fetching? && s.threads[t].fetchLine == D73
    ensures SamePhases(s, FetchNext(s, t), Subject(s, t))
  {
  }

  lemma {:induction false} FetchSimulates(s: State, t: nat)
    requires Inv(s) && Enabled(s, t, Continue) && s.threads[t].Fetching?
    ensures Simulates(s, FetchNext(s, t), CS.Silent)
  {
    ContinueElsewhere(s, t);
    FetchWaiting(s, t);
    AbsSameWaiting(s, FetchNext(s, t), s.threads[t].home);
    if s.threads[t].fetchLine == D73 {
      FetchSilentIrp(s, t);
      SilentPut(s, FetchNext(s, t), Subject(s, t));
    } else {
      assert FetchNext(s, t).irps == s.irps;
    }
  }

  lemma {:induction false} StartSimulates(s: State, t: nat, c: Call)
    requires Inv(s) && Enabled(s, t, c) && c != Continue
    ensures Simulates(s, Start(s, t, c), CS.Silent)
  {
    var s' := Start(s, t, c);
    assert ThreadInv(s, t);
    forall m: nat | m < |s.queues| ensures WaitingAt(s', m) == WaitingAt(s, m) {
      OrderSame(s, s', t, m);
      LiveSame(s, s', m);
    }
    AbsSameWaiting(s, s', -1);
  }

  lemma {:induction false} StepSimulates(s: State, t: nat, c: Call)
    requires Inv(s) && Enabled(s, t, c)
    ensures Simulates(s, Next(s, t, c), EventOf(s, t, c))
  {
    if c != Continue {
      StartSimulates(s, t, c);
    } else {
      match s.threads[t]
      case Queueing(_, _, _) => QueueSimulates(s, t);
      case Fetching(_, _) => FetchSimulates(s, t);
      case Dequeued(_, _, _) => DequeueSimulates(s, t);
      case Cancelling(_, _, _, _) => CancelSimulates(s, t);
    }
  }

  /** What an observer of the specification sees of a run. */
  ghost function Events(s: State, schedule: seq<Turn>): (es: seq<CS.Event>)
    requires Runs(s, schedule)
    ensures |es| == |schedule|
    decreases |schedule|
  {
    if schedule == [] then []
    else var turn := schedule[0];
         [EventOf(s, turn.tid, turn.call)] + Events(Next(s, turn.tid, turn.call), schedule[1..])
  }

  /** Refinement: every interleaving of the routines is a history of the specification. */
  lemma {:induction false} RunRefines(s: State, schedule: seq<Turn>)
    requires Inv(s) && Runs(s, schedule)
    ensures CS.Accepts(Abs(s), Events(s, schedule))
    ensures CS.Play(Abs(s), Events(s, schedule)) == Abs(Run(s, schedule))
    decreases |schedule|
  {
    if schedule != [] {
      var t, c := schedule[0].tid, schedule[0].call;
      StepSimulates(s, t, c);
      StepKeepsInv(s, t, c);
      RunRefines(Next(s, t, c), schedule[1..]);
      assert Events(s, schedule)[1..] == Events(Next(s, t, c), schedule[1..]);
    }
  }

  /** From a start state the history starts with every request new and every FIFO empty. */
  lemma {:induction false} InitRefines(s: State)
    requires Init(s)
    ensures Inv(s) && |Abs(s).waiting| == |s.queues|
    ensures forall k :: 0 <= k < |s.queues| ==> Abs(s).waiting[k] == []
    ensures forall i :: IrpRange(s, i) ==> CS.InSpec(Abs(s), i) && Abs(s).phases[i] == CS.New
  {
    InitInv(s);
    forall k | 0 <= k < |s.queues| ensures Abs(s).waiting[k] == [] {
      assert Order(s, k) == [];
    }
  }

  /** In any run each IRP's token is taken at most once and the IRP completed at most once. */
  lemma {:induction false} DecidedOncePerRun(s: State, schedule: seq<Turn>, i: int, j: nat, k: nat)
    requires Inv(s) && Runs(s, schedule) && IrpRange(s, i) && j < k < |schedule|
    ensures !(CS.Decides(Events(s, schedule)[j], i) && CS.Decides(Events(s, schedule)[k], i))
    ensures !(CS.Finishes(Events(s, schedule)[j], i) && CS.Finishes(Events(s, schedule)[k], i))
  {
    RunRefines(s, schedule);
    CS.DecidedOnce(Abs(s), Events(s, schedule), i, j, k);
  }

  lemma {:induction false} CompletedIsFinished(s: State, i: int)
    requires Inv(s) && IrpRange(s, i)
    ensures CS.InSpec(Abs(s), i) && (Abs(s).phases[i].Finished? <==> s.irps[i].completions == 1)
  {
    assert IrpInv(s, i);
  }

  /** An IRP is completed at the end of a run exactly if in that run its token was taken
      exactly once and, later, the IRP completed exactly once, successfully if and only if
      a dequeuer took the token. */
  lemma {:induction false} CompletedIffServed(s: State, schedule: seq<Turn>, i: int)
    requires Init(s) && Runs(s, schedule) && IrpRange(s, i)
    ensures IrpRange(Run(s, schedule), i)
    ensures Run(s, schedule).irps[i].completions == 1 <==>
            exists j: nat, k: nat :: CS.ServedAt(Events(s, schedule), i, j, k)
  {
    InitRefines(s);
    RunRefines(s, schedule);
    RunKeepsInv(s, schedule);
    CS.FinishedIffServed(Abs(s), Events(s, schedule), i);
    assert CS.InSpec(Abs(Run(s, schedule)), i);
    CompletedIsFinished(Run(s, schedule), i);
  }
}
