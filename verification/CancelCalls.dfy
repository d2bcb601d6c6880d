/** What runs do, told by the calls in their schedules: a routine works for the thread that
    called it, on the IRP, the queue and the interrupt level it was called with, and nothing
    happens to an IRP that nobody asked for. */
module CancelCalls {
  import opened ListHeap
  import opened CancelModel
  import opened CancelInvariant
  import opened CancelSafety
  import opened QueueLog
  import opened CancelFifo
  import CS = CancelSpec
  import R = CancelRefinement

  // ----- Prefixes of a run -----

  lemma {:induction false} PrefixRuns(s: State, schedule: seq<Turn>, n: nat)
    requires Runs(s, schedule) && n <= |schedule|
    ensures Runs(s, schedule[..n])
    ensures n == |schedule| ==> Run(s, schedule[..n]) == Run(s, schedule)
    ensures n < |schedule| ==>
              var turn := schedule[n];
              && Enabled(Run(s, schedule[..n]), turn.tid, turn.call) && Runs(s, schedule[..n + 1])
              && Run(s, schedule[..n + 1]) == Next(Run(s, schedule[..n]), turn.tid, turn.call)
    decreases n
  {
    if n == |schedule| { assert schedule[..n] == schedule; }
    if n == 0 {
      if schedule != [] { FirstTurn(s, schedule); }
    } else {
      var s1, rest := Next(s, schedule[0].tid, schedule[0].call), schedule[1..];
      PrefixRuns(s1, rest, n - 1);
      assert schedule[..n][0] == schedule[0] && schedule[..n][1..] == rest[..n - 1];
      if n < |schedule| { assert schedule[..n + 1][0] == schedule[0] && schedule[..n + 1][1..] == rest[..n]; }
    }
  }

  lemma {:induction false} FirstTurn(s: State, schedule: seq<Turn>)
    requires Runs(s, schedule) && schedule != []
    ensures Runs(s, schedule[..1]) && Run(s, schedule[..1]) == Next(s, schedule[0].tid, schedule[0].call)
  {
    var s1 := Next(s, schedule[0].tid, schedule[0].call);
    assert schedule[..1][0] == schedule[0] && schedule[..1][1..] == [];
    assert Runs(s1, []) && Run(s1, []) == s1;
  }

  /** Neither IRPs, nor queues, nor threads come or go. */
  ghost predicate SameCounts(s: State, s': State) {
    |s'.irps| == |s.irps| && |s'.queues| == |s.queues| && |s'.threads| == |s.threads|
  }

  lemma {:induction false} StepCounts(s: State, t: nat, c: Call)
    requires Inv(s) && Enabled(s, t, c)
    ensures SameCounts(s, Next(s, t, c))
    ensures forall u: nat :: u < |s.threads| && u != t ==> Next(s, t, c).threads[u] == s.threads[u]
  {
    if c == Continue { ContinueFrame(s, t); }
  }

  /** The n-th turn of a run from a start state. */
  lemma {:induction false} TurnAt(s: State, schedule: seq<Turn>, n: nat)
    requires Init(s) && Runs(s, schedule) && n <= |schedule|
    ensures Runs(s, schedule[..n]) && Inv(Run(s, schedule[..n])) && SameCounts(s, Run(s, schedule[..n]))
    ensures n == |schedule| ==> Run(s, schedule[..n]) == Run(s, schedule)
    ensures n < |schedule| ==>
              var turn := schedule[n];
              && Enabled(Run(s, schedule[..n]), turn.tid, turn.call) && Runs(s, schedule[..n + 1])
              && Run(s, schedule[..n + 1]) == Next(Run(s, schedule[..n]), turn.tid, turn.call)
  {
    PrefixRuns(s, schedule, n);
    InitInv(s);
    RunKeepsInv(s, schedule[..n]);
    CountsKept(s, schedule[..n]);
  }

  /** The state in which the n-th turn is taken. */
  ghost function StateAt(s: State, schedule: seq<Turn>, n: nat): (r: State)
    requires Init(s) && Runs(s, schedule) && n <= |schedule|
    ensures SameCounts(s, r)
  {
    TurnAt(s, schedule, n);
    Run(s, schedule[..n])
  }

  lemma {:induction false} CountsKept(s: State, schedule: seq<Turn>)
    requires Inv(s) && Runs(s, schedule)
    ensures SameCounts(s, Run(s, schedule))
    decreases |schedule|
  {
    if schedule != [] {
      StepCounts(s, schedule[0].tid, schedule[0].call);
      StepKeepsInv(s, schedule[0].tid, schedule[0].call);
      CountsKept(Next(s, schedule[0].tid, schedule[0].call), schedule[1..]);
    }
  }

  // ----- Routines and their calls -----

  /** A thread at pc is executing call c. */
  predicate Executes(pc: Pc, c: Call) {
    match pc
    case Idle => false
    case Queueing(_, i, k) => c == Submit(i, k)
    case Fetching(_, k) => c == Fetch(k)
    case Dequeued(_, _, k) => c == Fetch(k)
    case Cancelling(_, i, irql, _) => c == Cancel(i, irql)
  }

  lemma {:induction false} StepExecutes(s: State, t: nat, c: Call)
    requires Inv(s) && Enabled(s, t, Continue) && Executes(s.threads[t], c)
    ensures t < |Next(s, t, Continue).threads|
    ensures var pc := Next(s, t, Continue).threads[t]; pc == Idle || Executes(pc, c)
  {
    StepCounts(s, t, Continue);
    assert ThreadInv(s, t);
    match s.threads[t]
    case Queueing(_, _, _) => QueueExecutes(s, t);
    case Fetching(_, _) =>
    case Dequeued(_, _, _) => DequeueExecutes(s, t);
    case Cancelling(_, _, _, _) => CancelExecutes(s, t);
  }

  lemma {:induction false} QueueArmExecutes(s: State, t: nat)
    requires Enabled(s, t, Continue) && s.threads[t].Queueing?
    requires s.threads[t].queueLine in {Q34, Q36, Q38, Q39Check, Q39Swap, Q47}
    ensures var pc, old' := QueueNext(s, t).threads[t], s.threads[t];
            pc.Queueing? && pc.irp == old'.irp && pc.home == old'.home
  {
  }

  lemma {:induction false} QueueExecutes(s: State, t: nat)
    requires Enabled(s, t, Continue) && s.threads[t].Queueing?
    ensures var pc, old' := QueueNext(s, t).threads[t], s.threads[t];
            pc == Idle || (pc.Queueing? && pc.irp == old'.irp && pc.home == old'.home)
  {
    if s.threads[t].queueLine in {Q34, Q36, Q38, Q39Check, Q39Swap, Q47} { QueueArmExecutes(s, t); }
  }

  lemma {:induction false} DequeueExecutes(s: State, t: nat)
    requires Enabled(s, t, Continue) && s.threads[t].Dequeued?
    ensures var pc := DequeueNext(s, t).threads[t]; pc == Idle || (pc.Dequeued? && pc.home == s.threads[t].home)
  {
  }

  lemma {:induction false} CancelExecutes(s: State, t: nat)
    requires Inv(s) && Enabled(s, t, Continue) && s.threads[t].Cancelling?
    ensures var pc, old' := CancelNext(s, t).threads[t], s.threads[t];
            pc == Idle || (pc.Cancelling? && pc.irp == old'.irp && pc.oldIrql == old'.oldIrql)
  {
    assert ThreadInv(s, t);
  }

  /** Turn m calls c on thread t, and t has called nothing since. */
  ghost predicate LastCall(schedule: seq<Turn>, t: nat, m: nat, c: Call) {
    && m < |schedule| && schedule[m] == Turn(t, c) && c != Continue
    && (forall j :: m < j < |schedule| && schedule[j].tid == t ==> schedule[j].call == Continue)
  }

  /** A thread found inside a routine has just called it or was inside it before. */
  lemma {:induction false} ServedBefore(s: State, u: nat, c: Call, t: nat)
    requires Inv(s) && Enabled(s, u, c) && t < |s.threads|
    ensures SameCounts(s, Next(s, u, c))
    ensures var pc := Next(s, u, c).threads[t];
            pc != Idle ==>
              if u == t && c != Continue then Executes(pc, c)
              else s.threads[t] != Idle && forall d :: Executes(s.threads[t], d) ==> Executes(pc, d)
  {
    StepCounts(s, u, c);
    if u == t && c == Continue && Next(s, u, c).threads[t] != Idle {
      forall d | Executes(s.threads[t], d) ensures Executes(Next(s, u, c).threads[t], d) {
        StepExecutes(s, t, d);
      }
    }
  }

  lemma {:induction false} LastCallStays(schedule: seq<Turn>, t: nat, m: nat, c: Call)
    requires schedule != []
    requires var n := |schedule| - 1; schedule[n].tid != t || schedule[n].call == Continue
    requires LastCall(schedule[..|schedule| - 1], t, m, c)
    ensures LastCall(schedule, t, m, c)
  {
    forall j | m < j < |schedule| && schedule[j].tid == t ensures schedule[j].call == Continue {
      if j < |schedule| - 1 { assert schedule[..|schedule| - 1][j] == schedule[j]; }
    }
  }

  /** A thread inside a routine is executing its last call: QUEUE on the IRP and the queue it
      was called with, DEQUEUE on the queue, IoCancelIrp and CancelRoutine on the IRP and at
      the interrupt level. */
  lemma {:induction false} RoutineServesCall(s: State, schedule: seq<Turn>, t: nat) returns (m: nat)
    requires Init(s) && Runs(s, schedule) && t < |Run(s, schedule).threads| && Run(s, schedule).threads[t] != Idle
    ensures m < |schedule| && LastCall(schedule, t, m, schedule[m].call)
    ensures Executes(Run(s, schedule).threads[t], schedule[m].call)
    decreases |schedule|
  {
    var n := |schedule|;
    TurnAt(s, schedule, n);
    m := 0;
    if n == 0 {
      assert false;
    } else {
      TurnAt(s, schedule, n - 1);
      var before, turn := Run(s, schedule[..n - 1]), schedule[n - 1];
      StepCounts(before, turn.tid, turn.call);
      ServedBefore(before, turn.tid, turn.call, t);
      if turn.tid == t && turn.call != Continue {
        m := n - 1;
      } else {
        m := RoutineServesCall(s, schedule[..n - 1], t);
        LastCallStays(schedule, t, m, schedule[m].call);
      }
    }
  }

  /** A thread that calls is inside the routine at once, so no call is dropped. */
  lemma {:induction false} CallEnters(s: State, t: nat, c: Call)
    requires Enabled(s, t, c) && c != Continue
    ensures s.threads[t] == Idle && Executes(Next(s, t, c).threads[t], c)
  {
  }

  // ----- IRPs and queues -----

  lemma {:induction false} ListLogAt(s: State, schedule: seq<Turn>, k: nat, n: nat)
    requires Runs(s, schedule) && n < |schedule|
    ensures |ListLog(s, schedule, k)| == |schedule|
    ensures Runs(s, schedule[..n]) && Enabled(Run(s, schedule[..n]), schedule[n].tid, schedule[n].call)
    ensures ListLog(s, schedule, k)[n] == ListEntryOf(Run(s, schedule[..n]), schedule[n].tid, schedule[n].call, k)
    decreases |schedule|
  {
    PrefixRuns(s, schedule, n);
    var s1 := Next(s, schedule[0].tid, schedule[0].call);
    if n > 0 {
      ListLogAt(s1, schedule[1..], k, n - 1);
      assert schedule[..n][0] == schedule[0] && schedule[..n][1..] == schedule[1..][..n - 1];
    } else if |schedule| > 1 {
      ListLogAt(s1, schedule[1..], k, 0);
    }
  }

  /** The call that entry e of queue k's log works for. */
  predicate AsksFor(e: Entry, k: nat, c: Call) {
    match e
    case Push(i) => c == Submit(i, k)
    case Pop(_) => c == Fetch(k)
    case Drop(i) => c.Cancel? && c.irp == i
    case Nothing => true
  }

  /** Whoever inserts an IRP into a queue was called to submit that IRP there, whoever takes
      one off the head was called to dequeue from there, and whoever unlinks one from the
      middle was called to cancel it; the call is the thread's last. */
  lemma {:induction false} ListEntryServesCall(s: State, schedule: seq<Turn>, k: nat, n: nat) returns (m: nat)
    requires Init(s) && Runs(s, schedule) && n < |schedule| && |ListLog(s, schedule, k)| == |schedule|
    requires ListLog(s, schedule, k)[n] != Nothing
    ensures m < n && LastCall(schedule[..n], schedule[n].tid, m, schedule[m].call)
    ensures AsksFor(ListLog(s, schedule, k)[n], k, schedule[m].call)
  {
    TurnAt(s, schedule, n);
    ListLogAt(s, schedule, k, n);
    m := RoutineServesCall(s, schedule[..n], schedule[n].tid);
  }

  lemma {:induction false} LeftWerePushed(q: seq<int>, log: seq<Entry>, x: int) returns (n: nat)
    requires FitsAll(q, log) && x in AfterAll(q, log) && x !in q
    ensures n < |log| && log[n] == Push(x)
    decreases |log|
  {
    if log[0] == Push(x) {
      n := 0;
    } else {
      if log[0].Drop? { DeleteSubset(q, log[0].x); }
      n := LeftWerePushed(After(q, log[0]), log[1..], x);
      n := n + 1;
    }
  }

  /** An IRP is linked only in a queue it was submitted to. */
  lemma {:induction false} QueuedWasSubmitted(s: State, schedule: seq<Turn>, i: int, k: nat) returns (m: nat)
    requires Init(s) && Runs(s, schedule) && i in Run(s, schedule).Queue(k)
    ensures m < |schedule| && schedule[m].call == Submit(i, k)
  {
    TurnAt(s, schedule, |schedule|);
    ListLogFits(s, schedule, k);
    var n := LeftWerePushed(s.Queue(k), ListLog(s, schedule, k), i);
    LogLength(s, schedule, k);
    m := ListEntryServesCall(s, schedule, k, n);
  }

  lemma {:induction false} LogLength(s: State, schedule: seq<Turn>, k: nat)
    requires Runs(s, schedule)
    ensures |ListLog(s, schedule, k)| == |schedule|
  {
    if schedule != [] { ListLogAt(s, schedule, k, 0); }
  }

  // ----- Submission -----

  lemma {:induction false} StepOutside(s: State, t: nat, c: Call, i: int)
    requires Inv(s) && Enabled(s, t, c) && IrpRange(s, i)
    ensures IrpRange(Next(s, t, c), i)
    ensures Next(s, t, c).irps[i].place == Outside <==> s.irps[i].place == Outside && !(c.Submit? && c.irp == i)
  {
    StepCounts(s, t, c);
    if c == Continue {
      ContinueFrame(s, t);
      assert ThreadInv(s, t) && IrpInv(s, i);
      if i == Subject(s, t) { OwnOutside(s, t); }
    }
  }

  lemma {:induction false} OwnOutside(s: State, t: nat)
    requires Inv(s) && Enabled(s, t, Continue) && IrpRange(s, Subject(s, t))
    ensures IrpRange(Next(s, t, Continue), Subject(s, t))
    ensures var i := Subject(s, t); Next(s, t, Continue).irps[i].place == Outside <==> s.irps[i].place == Outside
  {
    StepCounts(s, t, Continue);
    assert ThreadInv(s, t) && IrpInv(s, Subject(s, t));
    match s.threads[t]
    case Queueing(_, _, _) => QueueOutside(s, t);
    case Fetching(_, k) => FetchOutside(s, t);
    case Dequeued(_, _, _) => DequeueOutside(s, t);
    case Cancelling(_, _, _, _) => CancelOutside(s, t);
  }

  lemma {:induction false} QueueOutside(s: State, t: nat)
    requires Inv(s) && Enabled(s, t, Continue) && s.threads[t].Queueing?
    ensures s.irps[s.threads[t].irp].place == Outside <==> QueueNext(s, t).irps[s.threads[t].irp].place == Outside
  {
    assert ThreadInv(s, t);
  }

  lemma {:induction false} FetchOutside(s: State, t: nat)
    requires Inv(s) && Enabled(s, t, Continue) && s.threads[t].Fetching? && s.threads[t].fetchLine == D73
    ensures s.irps[Subject(s, t)].place != Outside && FetchNext(s, t).irps[Subject(s, t)].place != Outside
  {
    var k := s.threads[t].home;
    assert ThreadInv(s, t) && QueueRing(s, k);
    RemoveHeadKeepsRing(s.heap, s.Head(k), s.queues[k]);
    assert IrpInv(s, s.queues[k][0]);
  }

  lemma {:induction false} DequeueOutside(s: State, t: nat)
    requires Inv(s) && Enabled(s, t, Continue) && s.threads[t].Dequeued?
    ensures s.irps[s.threads[t].irp].place == Outside <==> DequeueNext(s, t).irps[s.threads[t].irp].place == Outside
  {
    assert ThreadInv(s, t);
  }

  lemma {:induction false} CancelOutside(s: State, t: nat)
    requires Inv(s) && Enabled(s, t, Continue) && s.threads[t].Cancelling?
    ensures s.irps[s.threads[t].irp].place == Outside <==> CancelNext(s, t).irps[s.threads[t].irp].place == Outside
  {
    assert ThreadInv(s, t);
    if s.threads[t].cancelLine == C21 { EntryAtUnlink(s, t); }
  }

  /** Some turn of the schedule calls QUEUE for IRP i. */
  predicate SubmittedIn(schedule: seq<Turn>, i: int) {
    exists m :: 0 <= m < |schedule| && schedule[m].call.Submit? && schedule[m].call.irp == i
  }

  lemma {:induction false} OutsideUntilSubmitted(s: State, schedule: seq<Turn>, i: int)
    requires Init(s) && Runs(s, schedule) && IrpRange(s, i)
    ensures IrpRange(Run(s, schedule), i)
    ensures Run(s, schedule).irps[i].place == Outside <==> !SubmittedIn(schedule, i)
    decreases |schedule|
  {
    var n := |schedule|;
    TurnAt(s, schedule, n);
    if n > 0 {
      TurnAt(s, schedule, n - 1);
      OutsideUntilSubmitted(s, schedule[..n - 1], i);
      StepOutside(Run(s, schedule[..n - 1]), schedule[n - 1].tid, schedule[n - 1].call, i);
      SubmittedSnoc(schedule, i);
    }
  }

  lemma {:induction false} SubmittedSnoc(schedule: seq<Turn>, i: int)
    requires schedule != []
    ensures var n := |schedule|;
            var last := schedule[n - 1].call;
            SubmittedIn(schedule, i) <==> SubmittedIn(schedule[..n - 1], i) || (last.Submit? && last.irp == i)
  {
    var n := |schedule|;
    if m :| 0 <= m < n - 1 && schedule[m].call.Submit? && schedule[m].call.irp == i {
      assert schedule[..n - 1][m] == schedule[m];
    }
  }

  /** What an idle thread may call after any run: QUEUE for every IRP not submitted before, its
      cancel flag set or not, on every queue; DEQUEUE on every queue; IoCancelIrp for every
      IRP at any level. */
  lemma {:induction false} IdleMayCall(s: State, schedule: seq<Turn>, t: nat, i: int, k: nat, irql: int)
    requires Init(s) && Runs(s, schedule) && t < |Run(s, schedule).threads| && Run(s, schedule).threads[t] == Idle
    ensures Enabled(Run(s, schedule), t, Submit(i, k)) <==>
            0 <= i < |s.irps| && k < |s.queues| && !SubmittedIn(schedule, i)
    ensures Enabled(Run(s, schedule), t, Fetch(k)) <==> k < |s.queues|
    ensures Enabled(Run(s, schedule), t, Cancel(i, irql)) <==> 0 <= i < |s.irps|
  {
    TurnAt(s, schedule, |schedule|);
    if IrpRange(s, i) { OutsideUntilSubmitted(s, schedule, i); }
  }

  /** No IRP is submitted twice. */
  lemma {:induction false} SubmittedOnce(s: State, schedule: seq<Turn>, i: int, m: nat, n: nat)
    requires Init(s) && Runs(s, schedule) && m < n < |schedule|
    requires schedule[m].call.Submit? && schedule[m].call.irp == i
    ensures !(schedule[n].call.Submit? && schedule[n].call.irp == i)
  {
    TurnAt(s, schedule, n);
    assert schedule[..n][m] == schedule[m];
    if IrpRange(s, i) { OutsideUntilSubmitted(s, schedule[..n], i); }
  }

  // ----- Cancel flags and levels -----

  /** Some turn of the schedule calls IoCancelIrp for IRP i. */
  predicate CancelledIn(schedule: seq<Turn>, i: int) {
    exists m :: 0 <= m < |schedule| && schedule[m].call.Cancel? && schedule[m].call.irp == i
  }

  lemma {:induction false} StepFlag(s: State, t: nat, c: Call, i: int)
    requires Inv(s) && Enabled(s, t, c) && IrpRange(s, i) && IrpRange(Next(s, t, c), i)
    ensures Next(s, t, c).irps[i].cancel != s.irps[i].cancel ==>
              c == Continue && s.threads[t].Cancelling? && s.threads[t].irp == i && Next(s, t, c).irps[i].cancel
    ensures Next(s, t, c).irps[i].cancelIrql != s.irps[i].cancelIrql ==>
              c == Continue && s.threads[t].Cancelling? && s.threads[t].irp == i
              && Next(s, t, c).irps[i].cancelIrql == s.threads[t].oldIrql
  {
    if c == Continue {
      ContinueFrame(s, t);
      if i == Subject(s, t) { OwnFlag(s, t, i); }
    }
  }

  lemma {:induction false} OwnFlag(s: State, t: nat, i: int)
    requires Enabled(s, t, Continue) && IrpRange(s, i) && i == Subject(s, t) && IrpRange(Next(s, t, Continue), i)
    ensures var r, r' := s.irps[i], Next(s, t, Continue).irps[i];
            && (r'.cancel != r.cancel ==> s.threads[t].Cancelling? && r'.cancel)
            && (r'.cancelIrql != r.cancelIrql ==> s.threads[t].Cancelling? && r'.cancelIrql == s.threads[t].oldIrql)
  {
    match s.threads[t]
    case Queueing(_, _, _) => QueueFlag(s, t);
    case Fetching(_, _) =>
    case Dequeued(_, _, _) =>
    case Cancelling(_, _, _, _) => CancelFlag(s, t);
  }

  lemma {:induction false} QueueArmFlag(s: State, t: nat)
    requires Enabled(s, t, Continue) && s.threads[t].Queueing? && |QueueNext(s, t).irps| == |s.irps|
    requires s.threads[t].queueLine in {Q34, Q36, Q38, Q39Check, Q39Swap, Q47}
    ensures var r, r' := s.irps[s.threads[t].irp], QueueNext(s, t).irps[s.threads[t].irp];
            r'.cancel == r.cancel && r'.cancelIrql == r.cancelIrql
  {
  }

  lemma {:induction false} QueueFlag(s: State, t: nat)
    requires Enabled(s, t, Continue) && s.threads[t].Queueing? && |QueueNext(s, t).irps| == |s.irps|
    ensures var r, r' := s.irps[s.threads[t].irp], QueueNext(s, t).irps[s.threads[t].irp];
            r'.cancel == r.cancel && r'.cancelIrql == r.cancelIrql
  {
    if s.threads[t].queueLine in {Q34, Q36, Q38, Q39Check, Q39Swap, Q47} {
      QueueArmFlag(s, t);
    } else if s.threads[t].queueLine in {Q49, Q51, Q59, Q60} {
      QueueMarkFlag(s, t);
    }
  }

  lemma {:induction false} QueueMarkFlag(s: State, t: nat)
    requires Enabled(s, t, Continue) && s.threads[t].Queueing? && |QueueNext(s, t).irps| == |s.irps|
    requires s.threads[t].queueLine in {Q49, Q51, Q59, Q60}
    ensures var r, r' := s.irps[s.threads[t].irp], QueueNext(s, t).irps[s.threads[t].irp];
            r'.cancel == r.cancel && r'.cancelIrql == r.cancelIrql
  {
  }

  lemma {:induction false} CancelFlag(s: State, t: nat)
    requires Enabled(s, t, Continue) && s.threads[t].Cancelling? && |CancelNext(s, t).irps| == |s.irps|
    ensures var r, r' := s.irps[s.threads[t].irp], CancelNext(s, t).irps[s.threads[t].irp];
            && (r'.cancel != r.cancel ==> r'.cancel)
            && (r'.cancelIrql != r.cancelIrql ==> r'.cancelIrql == s.threads[t].oldIrql)
  {
  }

  /** Turn n changes the flag or the level of IRP i only for a thread whose last call is to
      cancel i; the flag is then set and the level is that call's. */
  lemma {:induction false} FlagServesCall(s: State, schedule: seq<Turn>, i: int, n: nat) returns (m: nat)
    requires Init(s) && Runs(s, schedule) && n < |schedule| && IrpRange(s, i)
    requires var r, r' := StateAt(s, schedule, n).irps[i], StateAt(s, schedule, n + 1).irps[i];
             r'.cancel != r.cancel || r'.cancelIrql != r.cancelIrql
    ensures m < n && LastCall(schedule[..n], schedule[n].tid, m, schedule[m].call)
    ensures schedule[m].call.Cancel? && schedule[m].call.irp == i
    ensures var r, r' := StateAt(s, schedule, n).irps[i], StateAt(s, schedule, n + 1).irps[i];
            && (r'.cancel != r.cancel ==> r'.cancel)
            && (r'.cancelIrql != r.cancelIrql ==> r'.cancelIrql == schedule[m].call.irql)
  {
    TurnAt(s, schedule, n);
    StepFlag(Run(s, schedule[..n]), schedule[n].tid, schedule[n].call, i);
    m := RoutineServesCall(s, schedule[..n], schedule[n].tid);
  }

  /** A cancel flag is set at the end of a run only if it was set at the start or somebody
      called IoCancelIrp. */
  lemma {:induction false} FlaggedWasCancelled(s: State, schedule: seq<Turn>, i: int)
    requires Init(s) && Runs(s, schedule) && IrpRange(s, i)
    ensures IrpRange(Run(s, schedule), i)
    ensures Run(s, schedule).irps[i].cancel ==> s.irps[i].cancel || CancelledIn(schedule, i)
    decreases |schedule|
  {
    var n := |schedule|;
    TurnAt(s, schedule, n);
    if n > 0 {
      TurnAt(s, schedule, n - 1);
      FlaggedWasCancelled(s, schedule[..n - 1], i);
      if Run(s, schedule[..n]).irps[i].cancel != Run(s, schedule[..n - 1]).irps[i].cancel {
        var m := FlagServesCall(s, schedule, i, n - 1);
        assert CancelledIn(schedule, i);
      } else if CancelledIn(schedule[..n - 1], i) {
        CancelledPrefix(schedule, i, n - 1);
      }
    }
  }

  lemma {:induction false} CancelledPrefix(schedule: seq<Turn>, i: int, n: nat)
    requires n <= |schedule| && CancelledIn(schedule[..n], i)
    ensures CancelledIn(schedule, i)
  {
    var m :| 0 <= m < n && schedule[..n][m].call.Cancel? && schedule[..n][m].call.irp == i;
    assert schedule[m] == schedule[..n][m];
  }

  /** CancelRoutine finds in CancelIrql the level of the call of IoCancelIrp that led to it. */
  lemma {:induction false} LevelServesCall(s: State, schedule: seq<Turn>, t: nat) returns (m: nat)
    requires Init(s) && Runs(s, schedule) && t < |Run(s, schedule).threads|
    requires var pc := Run(s, schedule).threads[t]; pc.Cancelling? && pc.cancelLine == C16
    ensures m < |schedule| && LastCall(schedule, t, m, schedule[m].call)
    ensures var i := Run(s, schedule).threads[t].irp;
            && IrpRange(Run(s, schedule), i)
            && schedule[m].call == Cancel(i, Run(s, schedule).irps[i].cancelIrql)
  {
    m := RoutineServesCall(s, schedule, t);
    TurnAt(s, schedule, |schedule|);
    assert ThreadInv(Run(s, schedule), t);
  }

  // ----- Events -----

  lemma {:induction false} EventAt(s: State, schedule: seq<Turn>, n: nat)
    requires Runs(s, schedule) && n < |schedule|
    ensures Runs(s, schedule[..n]) && Enabled(Run(s, schedule[..n]), schedule[n].tid, schedule[n].call)
    ensures R.Events(s, schedule)[n] == R.EventOf(Run(s, schedule[..n]), schedule[n].tid, schedule[n].call)
    decreases |schedule|
  {
    PrefixRuns(s, schedule, n);
    if n > 0 {
      EventAt(Next(s, schedule[0].tid, schedule[0].call), schedule[1..], n - 1);
      assert schedule[..n][0] == schedule[0] && schedule[..n][1..] == schedule[1..][..n - 1];
    }
  }

  /** The call that event e works for. */
  predicate Warrants(e: CS.Event, c: Call) {
    match e
    case Silent => true
    case Submit(i, k) => c == Submit(i, k)
    case RejectAlreadyCancelled(i, k) => c == Submit(i, k)
    case TakeHead(_, k) => c == Fetch(k)
    case Request(i) => c.Cancel? && c.irp == i
    case Withdraw(i, _) => c.Cancel? && c.irp == i
    case Finish(i, success) => if success then c.Fetch? else (c.Submit? || c.Cancel?) && c.irp == i
  }

  /** Whatever a client sees happen is done for a call: joining and rejection for the call that
      submits the request to that queue, taking for a call to dequeue from that queue,
      requests and withdrawals for a call to cancel that request, completion for one of them. */
  lemma {:induction false} EventServesCall(s: State, schedule: seq<Turn>, n: nat) returns (m: nat)
    requires Init(s) && Runs(s, schedule) && n < |schedule| && R.Events(s, schedule)[n] != CS.Silent
    ensures m < n && LastCall(schedule[..n], schedule[n].tid, m, schedule[m].call)
    ensures Warrants(R.Events(s, schedule)[n], schedule[m].call)
  {
    TurnAt(s, schedule, n);
    EventAt(s, schedule, n);
    m := RoutineServesCall(s, schedule[..n], schedule[n].tid);
    assert ThreadInv(Run(s, schedule[..n]), schedule[n].tid);
  }

  // ----- Rejection -----

  predicate AtRecheckOf(pc: Pc, i: int, k: nat) {
    pc.Queueing? && pc.queueLine in {Q39Check, Q39Swap} && pc.irp == i && pc.home == k
  }

  lemma {:induction false} BackOneTurn(s: State, t: nat, i: int, k: nat)
    requires Inv(s) && Enabled(s, t, Continue)
    ensures SameCounts(s, Next(s, t, Continue))
    ensures AtRecheckOf(Next(s, t, Continue).threads[t], i, k) ==>
              AtRecheckOf(s.threads[t], i, k) || R.EventOf(s, t, Continue) == CS.Submit(i, k)
    ensures AtRecheckOf(Next(s, t, Continue).threads[t], i, k) && AtRecheckOf(s.threads[t], i, k) ==>
              R.EventOf(s, t, Continue) == CS.Silent
  {
    StepCounts(s, t, Continue);
    match s.threads[t]
    case Queueing(_, _, _) => QueueBack(s, t, i, k);
    case Fetching(_, _) =>
    case Dequeued(_, _, _) => DequeueExecutes(s, t);
    case Cancelling(_, _, _, _) => CancelExecutes(s, t);
  }

  lemma {:induction false} QueueBack(s: State, t: nat, i: int, k: nat)
    requires Enabled(s, t, Continue) && s.threads[t].Queueing?
    ensures AtRecheckOf(QueueNext(s, t).threads[t], i, k) ==>
              s.threads[t] == Queueing(Q38, i, k) || s.threads[t] == Queueing(Q39Check, i, k)
  {
  }

  /** While QUEUE is at its re-check nobody else arms an IRP of the same queue. */
  lemma {:induction false} RecheckExcludes(s: State, t: nat, u: nat, c: Call, i: int, k: nat)
    requires Inv(s) && t < |s.threads| && AtRecheckOf(s.threads[t], i, k) && Enabled(s, u, c) && u != t
    ensures R.EventOf(s, u, c).Submit? ==> R.EventOf(s, u, c).k != k
  {
    assert ThreadInv(s, t) && ThreadInv(s, u);
    assert s.locks[k] == HeldBy(t);
  }

  /** A thread found at its re-check has just armed the IRP or was there before, and then
      nothing has joined the queue. */
  lemma {:induction false} RecheckBefore(s: State, t: nat, u: nat, c: Call, i: int, k: nat)
    requires Inv(s) && Enabled(s, u, c) && t < |s.threads|
    ensures SameCounts(s, Next(s, u, c))
    ensures AtRecheckOf(Next(s, u, c).threads[t], i, k) && R.EventOf(s, u, c) != CS.Submit(i, k) ==>
              && AtRecheckOf(s.threads[t], i, k)
              && (R.EventOf(s, u, c).Submit? ==> R.EventOf(s, u, c).k != k)
  {
    StepCounts(s, u, c);
    if u != t && AtRecheckOf(s.threads[t], i, k) {
      RecheckExcludes(s, t, u, c, i, k);
    } else if u == t && c == Continue {
      BackOneTurn(s, t, i, k);
    }
  }

  /** Event m is i's joining of FIFO k, and nothing has joined it since. */
  ghost predicate JoinedLast(es: seq<CS.Event>, m: nat, i: int, k: nat) {
    && m < |es| && es[m] == CS.Submit(i, k)
    && (forall j :: m < j < |es| && es[j].Submit? ==> es[j].k != k)
  }

  lemma {:induction false} JoinedLastStays(es: seq<CS.Event>, m: nat, i: int, k: nat)
    requires es != [] && JoinedLast(es[..|es| - 1], m, i, k)
    requires es[|es| - 1].Submit? ==> es[|es| - 1].k != k
    ensures JoinedLast(es, m, i, k)
  {
    forall j | m < j < |es| && es[j].Submit? ensures es[j].k != k {
      if j < |es| - 1 { assert es[..|es| - 1][j] == es[j]; }
    }
  }

  lemma {:induction false} BackToArming(s: State, schedule: seq<Turn>, t: nat, i: int, k: nat) returns (m: nat)
    requires Init(s) && Runs(s, schedule) && t < |Run(s, schedule).threads|
    requires AtRecheckOf(Run(s, schedule).threads[t], i, k)
    ensures JoinedLast(R.Events(s, schedule), m, i, k)
    decreases |schedule|
  {
    var n, es := |schedule|, R.Events(s, schedule);
    TurnAt(s, schedule, n);
    m := 0;
    if n == 0 {
      assert false;
    } else {
      TurnAt(s, schedule, n - 1);
      EventAt(s, schedule, n - 1);
      var before, turn := Run(s, schedule[..n - 1]), schedule[n - 1];
      StepCounts(before, turn.tid, turn.call);
      if es[n - 1] == CS.Submit(i, k) {
        m := n - 1;
      } else {
        RecheckBefore(before, t, turn.tid, turn.call, i, k);
        m := BackToArming(s, schedule[..n - 1], t, i, k);
        EventsPrefix(s, schedule, n - 1);
        JoinedLastStays(es, m, i, k);
      }
    }
  }

  lemma {:induction false} EventsPrefix(s: State, schedule: seq<Turn>, n: nat)
    requires Runs(s, schedule) && n <= |schedule|
    ensures Runs(s, schedule[..n]) && R.Events(s, schedule[..n]) == R.Events(s, schedule)[..n]
    decreases n
  {
    PrefixRuns(s, schedule, n);
    if n > 0 {
      EventsPrefix(Next(s, schedule[0].tid, schedule[0].call), schedule[1..], n - 1);
      assert schedule[..n][0] == schedule[0] && schedule[..n][1..] == schedule[1..][..n - 1];
    }
  }

  /** QUEUE rejects only the newest: since it armed the IRP nothing has joined that queue. */
  lemma {:induction false} RejectedJoinedLast(s: State, schedule: seq<Turn>, n: nat) returns (m: nat)
    requires Init(s) && Runs(s, schedule) && n < |schedule| && R.Events(s, schedule)[n].RejectAlreadyCancelled?
    ensures var es := R.Events(s, schedule); JoinedLast(es[..n], m, es[n].i, es[n].k)
  {
    var e := R.Events(s, schedule)[n];
    TurnAt(s, schedule, n);
    EventAt(s, schedule, n);
    EventsPrefix(s, schedule, n);
    m := BackToArming(s, schedule[..n], schedule[n].tid, e.i, e.k);
  }
}
