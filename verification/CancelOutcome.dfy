/** What becomes of an IRP in a run, told by the calls in the schedule alone. */
module CancelOutcome {
  import opened ListHeap
  import opened CancelModel
  import opened CancelInvariant
  import opened CancelSafety
  import opened CancelProgress
  import opened CancelCalls
  import H = CancelHistory
  import CS = CancelSpec
  import R = CancelRefinement

  // ----- What becomes of an IRP -----

  predicate CompletedAs(s: State, i: int, status: Status) {
    IrpRange(s, i) && s.irps[i].completions == 1 && s.irps[i].status == status
  }

  /** An IRP completed as cancelled was asked for: its flag was set at the start, or somebody
      called IoCancelIrp for it. */
  lemma {:induction false} CancelledWasAskedFor(s: State, schedule: seq<Turn>, i: int)
    requires Init(s) && Runs(s, schedule) && IrpRange(s, i) && CompletedAs(Run(s, schedule), i, Cancelled)
    ensures s.irps[i].cancel || CancelledIn(schedule, i)
    ensures s.irps[i].cancel || exists n :: 0 <= n < |schedule| && R.Events(s, schedule)[n] == CS.Request(i)
  {
    var es := R.Events(s, schedule);
    R.InitRefines(s);
    R.RunRefines(s, schedule);
    R.CompletedIffServed(s, schedule, i);
    var j: nat, k: nat :| CS.ServedAt(es, i, j, k);
    FinishStatus(s, schedule, i, k);
    R.AbsReads(s, i, 0);
    H.CancelledWasRequested(R.Abs(s), es, i, j);
    if !s.irps[i].cancel {
      var n :| 0 <= n < j && es[n] == CS.Request(i);
      var m := EventServesCall(s, schedule, n);
      assert CancelledIn(schedule, i);
    }
  }

  /** The outcome a client sees is the status the IRP is left with. */
  lemma {:induction false} FinishStatus(s: State, schedule: seq<Turn>, i: int, n: nat)
    requires Init(s) && Runs(s, schedule) && IrpRange(s, i) && IrpRange(Run(s, schedule), i)
    requires n < |schedule| && CS.Finishes(R.Events(s, schedule)[n], i)
    ensures R.Events(s, schedule)[n].success <==> Run(s, schedule).irps[i].status == Success
  {
    EventAt(s, schedule, n);
    TurnAt(s, schedule, n);
    TurnAt(s, schedule, n + 1);
    TurnAt(s, schedule, |schedule|);
    assert Reachable(Run(s, schedule[..n + 1]));
    FinishCompletes(Run(s, schedule[..n]), schedule[n].tid, i);
    RunSplit(s, schedule, n + 1);
    CompletedForever(Run(s, schedule[..n + 1]), schedule[n + 1..], i);
  }

  lemma {:induction false} FinishCompletes(s: State, t: nat, i: int)
    requires Inv(s) && Enabled(s, t, Continue) && IrpRange(s, i)
    requires CS.Finishes(R.EventOf(s, t, Continue), i)
    ensures var r := Next(s, t, Continue).irps;
            |r| == |s.irps| && r[i].completions > 0 && (R.EventOf(s, t, Continue).success <==> r[i].status == Success)
  {
  }

  lemma {:induction false} RunSplit(s: State, schedule: seq<Turn>, n: nat)
    requires Runs(s, schedule) && n <= |schedule|
    ensures Runs(s, schedule[..n]) && Runs(Run(s, schedule[..n]), schedule[n..])
    ensures Run(Run(s, schedule[..n]), schedule[n..]) == Run(s, schedule)
    decreases n
  {
    if n == 0 {
      assert schedule[0..] == schedule;
    } else {
      RunSplit(Next(s, schedule[0].tid, schedule[0].call), schedule[1..], n - 1);
      assert schedule[..n][0] == schedule[0] && schedule[..n][1..] == schedule[1..][..n - 1];
      assert schedule[n..] == schedule[1..][n - 1..];
    }
  }

  /** An IRP completed successfully was submitted to a queue from which somebody called to
      dequeue. */
  lemma {:induction false} SuccessWasFetched(s: State, schedule: seq<Turn>, i: int) returns (k: nat, m: nat, n: nat)
    requires Init(s) && Runs(s, schedule) && IrpRange(s, i) && CompletedAs(Run(s, schedule), i, Success)
    ensures m < |schedule| && schedule[m].call == Submit(i, k)
    ensures n < |schedule| && schedule[n].call == Fetch(k)
  {
    var es := R.Events(s, schedule);
    R.InitRefines(s);
    R.RunRefines(s, schedule);
    R.CompletedIffServed(s, schedule, i);
    var j: nat, e: nat :| CS.ServedAt(es, i, j, e);
    FinishStatus(s, schedule, i, e);
    k := es[j].k;
    n := EventServesCall(s, schedule, j);
    TakenInRange(R.Abs(s), es, j);
    var a := H.LeftWasSubmitted(R.Abs(s), es, i, k, j);
    m := EventServesCall(s, schedule, a);
  }

  lemma {:induction false} TakenInRange(a: CS.Spec, events: seq<CS.Event>, n: nat)
    requires CS.Accepts(a, events) && n < |events| && events[n].TakeHead?
    ensures events[n].k < |a.waiting|
    decreases n
  {
    if n > 0 { TakenInRange(CS.Step(a, events[0]), events[1..], n - 1); }
  }

  // ----- Cancel requests take effect -----

  lemma {:induction false} StepKeepsFlag(s: State, t: nat, c: Call, i: int)
    requires Inv(s) && Enabled(s, t, c) && IrpRange(s, i) && s.irps[i].cancel
    ensures IrpRange(Next(s, t, c), i) && Next(s, t, c).irps[i].cancel
  {
    StepCounts(s, t, c);
    StepFlag(s, t, c, i);
  }

  lemma {:induction false} FlagStays(s: State, schedule: seq<Turn>, i: int)
    requires Inv(s) && Runs(s, schedule) && IrpRange(s, i) && s.irps[i].cancel
    ensures IrpRange(Run(s, schedule), i) && Run(s, schedule).irps[i].cancel
    decreases |schedule|
  {
    if schedule != [] {
      StepKeepsFlag(s, schedule[0].tid, schedule[0].call, i);
      StepKeepsInv(s, schedule[0].tid, schedule[0].call);
      FlagStays(Next(s, schedule[0].tid, schedule[0].call), schedule[1..], i);
    }
  }

  /** Thread t has yet to set the flag of IRP i. */
  predicate AboutToFlag(s: State, t: nat, i: int) {
    t < |s.threads| && s.threads[t].Cancelling? && s.threads[t].irp == i && s.threads[t].cancelLine in {I211, I213}
  }

  lemma {:induction false} StepFlags(s: State, u: nat, c: Call, t: nat, i: int)
    requires Inv(s) && Enabled(s, u, c) && IrpRange(s, i) && (AboutToFlag(s, t, i) || s.irps[i].cancel)
    ensures IrpRange(Next(s, u, c), i)
    ensures AboutToFlag(Next(s, u, c), t, i) || Next(s, u, c).irps[i].cancel
  {
    StepCounts(s, u, c);
    if s.irps[i].cancel {
      StepKeepsFlag(s, u, c, i);
    } else if u == t {
      FlagOwnStep(s, t, i);
    }
  }

  lemma {:induction false} FlagOwnStep(s: State, t: nat, i: int)
    requires Enabled(s, t, Continue) && AboutToFlag(s, t, i)
    ensures var s' := CancelNext(s, t);
            |s'.irps| == |s.irps| && (AboutToFlag(s', t, i) || s'.irps[i].cancel)
  {
  }

  /** After a call of IoCancelIrp the flag is set, unless the caller has not come to it yet. */
  lemma {:induction false} CancelSetsFlag(s: State, schedule: seq<Turn>, m: nat, t: nat, i: int, irql: int)
    requires Init(s) && Runs(s, schedule) && m < |schedule| && schedule[m] == Turn(t, Cancel(i, irql))
    ensures IrpRange(Run(s, schedule), i)
    ensures AboutToFlag(Run(s, schedule), t, i) || Run(s, schedule).irps[i].cancel
    decreases |schedule|
  {
    var n := |schedule| - 1;
    TurnAt(s, schedule, n);
    TurnAt(s, schedule, n + 1);
    var before, turn := Run(s, schedule[..n]), schedule[n];
    if m < n {
      CancelSetsFlag(s, schedule[..n], m, t, i, irql);
      StepFlags(before, turn.tid, turn.call, t, i);
    }
  }

  // ----- Full runs -----

  /** Once no thread can continue, an IRP submitted to queue k is completed, or it waits in
      that very queue and nobody ever asked to cancel it: every call of IoCancelIrp for a
      submitted IRP ends in a completion, however the threads were interleaved. It is cancelled
      only if somebody asked, and successful only if somebody dequeued from queue k. */
  lemma {:induction false} FullRunOutcome(s: State, schedule: seq<Turn>, m: nat, i: int, k: nat)
    requires Init(s) && Runs(s, schedule) && forall t: nat :: !Enabled(Run(s, schedule), t, Continue)
    requires m < |schedule| && schedule[m].call == Submit(i, k)
    ensures var r := Run(s, schedule);
            && IrpRange(s, i)
            && (CompletedAs(r, i, Success) || CompletedAs(r, i, Cancelled) || i in r.Queue(k))
            && (i in r.Queue(k) ==> !s.irps[i].cancel && !CancelledIn(schedule, i))
            && (CompletedAs(r, i, Cancelled) ==> s.irps[i].cancel || CancelledIn(schedule, i))
            && (CompletedAs(r, i, Success) ==> exists n :: 0 <= n < |schedule| && schedule[n].call == Fetch(k))
  {
    var r := Run(s, schedule);
    TurnAt(s, schedule, m);
    TurnAt(s, schedule, |schedule|);
    assert Reachable(r);
    NothingLeftUndone(r);
    OutsideUntilSubmitted(s, schedule, i);
    assert Settled(r, i);
    assert IrpInv(r, i);
    if k' :| 0 <= k' < |r.queues| && i in r.queues[k'] { QueuedHere(s, schedule, m, i, k, k'); }
    if i in r.Queue(k) { NobodyAsked(s, schedule, i); }
    if CompletedAs(r, i, Cancelled) { CancelledWasAskedFor(s, schedule, i); }
    if CompletedAs(r, i, Success) { SuccessFetchedHere(s, schedule, m, i, k); }
  }

  lemma {:induction false} QueuedHere(s: State, schedule: seq<Turn>, m: nat, i: int, k: nat, k': nat)
    requires Init(s) && Runs(s, schedule) && m < |schedule| && schedule[m].call == Submit(i, k)
    requires i in Run(s, schedule).Queue(k')
    ensures k' == k
  {
    var m' := QueuedWasSubmitted(s, schedule, i, k');
    SubmittedAgain(s, schedule, i, m, m');
  }

  lemma {:induction false} SubmittedAgain(s: State, schedule: seq<Turn>, i: int, m: nat, n: nat)
    requires Init(s) && Runs(s, schedule) && m < |schedule| && n < |schedule|
    requires schedule[m].call.Submit? && schedule[m].call.irp == i
    requires schedule[n].call.Submit? && schedule[n].call.irp == i
    ensures m == n
  {
    if m < n { SubmittedOnce(s, schedule, i, m, n); } else if n < m { SubmittedOnce(s, schedule, i, n, m); }
  }

  lemma {:induction false} NobodyAsked(s: State, schedule: seq<Turn>, i: int)
    requires Init(s) && Runs(s, schedule) && Reachable(Run(s, schedule)) && IrpRange(s, i)
    requires forall t: nat :: !Enabled(Run(s, schedule), t, Continue)
    requires IrpRange(Run(s, schedule), i) && Settled(Run(s, schedule), i) && Queued(Run(s, schedule), i)
    ensures !s.irps[i].cancel && !CancelledIn(schedule, i)
  {
    var r := Run(s, schedule);
    ReachableInv(r);
    assert IrpInv(r, i);
    if s.irps[i].cancel { InitInv(s); FlagStays(s, schedule, i); }
    if m :| 0 <= m < |schedule| && schedule[m].call.Cancel? && schedule[m].call.irp == i {
      CancelSetsFlag(s, schedule, m, schedule[m].tid, i, schedule[m].call.irql);
      NothingLeftUndone(r);
    }
  }

  lemma {:induction false} SuccessFetchedHere(s: State, schedule: seq<Turn>, m: nat, i: int, k: nat)
    requires Init(s) && Runs(s, schedule) && IrpRange(s, i) && CompletedAs(Run(s, schedule), i, Success)
    requires m < |schedule| && schedule[m].call == Submit(i, k)
    ensures exists n :: 0 <= n < |schedule| && schedule[n].call == Fetch(k)
  {
    var k', m', n := SuccessWasFetched(s, schedule, i);
    SubmittedAgain(s, schedule, i, m, m');
  }
}
