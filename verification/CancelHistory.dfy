/** Laws of the histories that CancelSpec accepts, stated over their events alone: who may be
    withdrawn or rejected, and what must have gone before. */
module CancelHistory {
  import opened ListHeap
  import opened CancelSpec

  predicate Cancels(e: Event, i: int) {
    (e.Withdraw? || e.RejectAlreadyCancelled?) && e.i == i
  }

  predicate Arrives(e: Event, i: int) {
    e.Submit? && e.i == i
  }

  /** Event e takes request i out of FIFO k. */
  predicate Leaves(e: Event, i: int, k: nat) {
    (e.RejectAlreadyCancelled? || e.Withdraw? || e.TakeHead?) && e.i == i && e.k == k
  }

  /** The first n events. */
  lemma {:induction false} Split(a: Spec, events: seq<Event>, n: nat)
    requires Accepts(a, events) && n <= |events|
    ensures Accepts(a, events[..n]) && Accepts(Play(a, events[..n]), events[n..])
    ensures Play(Play(a, events[..n]), events[n..]) == Play(a, events)
    decreases n
  {
    if n == 0 {
      assert events[0..] == events;
    } else {
      Split(Step(a, events[0]), events[1..], n - 1);
      assert events[..n][0] == events[0] && events[..n][1..] == events[1..][..n - 1];
      assert events[n..] == events[1..][n - 1..];
    }
  }

  /** Nobody's request is cancelled unasked: a request that is withdrawn or rejected was asked
      for at the start or by an earlier Request event. */
  lemma {:induction false} CancelledWasRequested(a: Spec, events: seq<Event>, i: int, n: nat)
    requires Accepts(a, events) && InSpec(a, i) && n < |events| && Cancels(events[n], i)
    ensures a.requested[i] || exists j :: 0 <= j < n && events[j] == Request(i)
    decreases n
  {
    if n > 0 && !a.requested[i] && events[0] != Request(i) {
      CancelledWasRequested(Step(a, events[0]), events[1..], i, n - 1);
      var j :| 0 <= j < n - 1 && events[1..][j] == Request(i);
      assert events[j + 1] == Request(i);
    }
  }

  /** A request leaves only a FIFO it has joined. */
  lemma {:induction false} LeftWasSubmitted(a: Spec, events: seq<Event>, i: int, k: nat, n: nat) returns (m: nat)
    requires Accepts(a, events) && k < |a.waiting| && i !in a.waiting[k]
    requires n < |events| && Leaves(events[n], i, k)
    ensures m < n && events[m] == Submit(i, k)
    decreases n
  {
    if events[0] == Submit(i, k) {
      m := 0;
    } else {
      StaysOut(a, events[0], i, k);
      m := LeftWasSubmitted(Step(a, events[0]), events[1..], i, k, n - 1);
      m := m + 1;
    }
  }

  lemma {:induction false} StaysOut(a: Spec, e: Event, i: int, k: nat)
    requires Legal(a, e) && k < |a.waiting| && i !in a.waiting[k] && e != Submit(i, k)
    ensures k < |Step(a, e).waiting| && i !in Step(a, e).waiting[k]
  {
    if e.RejectAlreadyCancelled? || e.Withdraw? || e.TakeHead? { DeleteSubset(a.waiting[e.k], e.i); }
  }

  /** No request arrives twice, in whatever FIFO. */
  lemma {:induction false} ArrivesOnce(a: Spec, events: seq<Event>, i: int, j: nat, n: nat)
    requires Accepts(a, events) && j < n < |events| && Arrives(events[j], i)
    ensures !Arrives(events[n], i)
    decreases j
  {
    if j == 0 {
      ArrivedStays(Step(a, events[0]), events[1..], i, n - 1);
    } else {
      ArrivesOnce(Step(a, events[0]), events[1..], i, j - 1, n - 1);
    }
  }

  lemma {:induction false} ArrivedStays(a: Spec, events: seq<Event>, i: int, n: nat)
    requires Accepts(a, events) && InSpec(a, i) && a.phases[i] != New && n < |events|
    ensures !Arrives(events[n], i)
    decreases n
  {
    if n > 0 { ArrivedStays(Step(a, events[0]), events[1..], i, n - 1); }
  }

  // ----- Rejection is for the newest -----

  /** Requests wait once, in one FIFO. */
  ghost predicate Orderly(a: Spec) {
    && |a.requested| == |a.phases|
    && (forall k :: 0 <= k < |a.waiting| ==> NoDuplicates(a.waiting[k]) && AllWait(a.phases, a.waiting[k]))
    && (forall k, m, i :: 0 <= k < m < |a.waiting| && i in a.waiting[k] ==> i !in a.waiting[m])
  }

  ghost predicate AllWait(phases: seq<Phase>, q: seq<int>) {
    forall i :: i in q ==> 0 <= i < |phases| && phases[i] == Waiting
  }

  lemma {:induction false} DeleteNoDuplicates(q: seq<int>, x: int)
    requires NoDuplicates(q)
    ensures NoDuplicates(Delete(q, x))
  {
    if q != [] {
      DeleteNoDuplicates(q[1..], x);
      DeleteSubset(q[1..], x);
      assert q[0] !in q[1..];
    }
  }

  lemma {:induction false} StepOrderly(a: Spec, e: Event)
    requires Orderly(a) && Legal(a, e)
    ensures Orderly(Step(a, e))
  {
    match e
    case Silent =>
    case Request(i) =>
    case Submit(i, k) => SubmitOrderly(a, i, k);
    case RejectAlreadyCancelled(i, k) => DecideOrderly(a, i, k, Rejected);
    case Withdraw(i, k) => DecideOrderly(a, i, k, Withdrawn);
    case TakeHead(i, k) => DecideOrderly(a, i, k, Taken);
    case Finish(i, _) =>
      forall m | 0 <= m < |a.waiting| ensures AllWait(Step(a, e).phases, a.waiting[m]) {
        assert AllWait(a.phases, a.waiting[m]);
      }
  }

  lemma {:induction false} SubmitOrderly(a: Spec, i: int, k: nat)
    requires Orderly(a) && Legal(a, Submit(i, k))
    ensures Orderly(Step(a, Submit(i, k)))
  {
    var b := Step(a, Submit(i, k));
    forall m | 0 <= m < |a.waiting| ensures i !in a.waiting[m] && AllWait(b.phases, b.waiting[m]) {
      assert AllWait(a.phases, a.waiting[m]);
    }
  }

  lemma {:induction false} DecideOrderly(a: Spec, i: int, k: nat, v: Verdict)
    requires Orderly(a) && WaitsIn(a, i, k)
    ensures Orderly(Decide(a, i, k, v))
  {
    var b := Decide(a, i, k, v);
    DeleteNoDuplicates(a.waiting[k], i);
    DeleteMembers(a.waiting[k], i);
    forall m | 0 <= m < |a.waiting| ensures AllWait(b.phases, b.waiting[m]) {
      assert AllWait(a.phases, a.waiting[m]);
      assert m != k ==> i !in a.waiting[m];
    }
  }

  lemma {:induction false} PlayOrderly(a: Spec, events: seq<Event>)
    requires Orderly(a) && Accepts(a, events)
    ensures Orderly(Play(a, events))
    decreases |events|
  {
    if events != [] {
      StepOrderly(a, events[0]);
      PlayOrderly(Step(a, events[0]), events[1..]);
    }
  }

  ghost predicate Precedes(q: seq<int>, i: int, x: int) {
    exists b, c :: 0 <= b < c < |q| && q[b] == i && q[c] == x
  }

  lemma {:induction false} DeletePrecedes(q: seq<int>, y: int, i: int, x: int)
    requires Precedes(q, i, x) && y != i && y != x
    ensures Precedes(Delete(q, y), i, x)
  {
    var b, c :| 0 <= b < c < |q| && q[b] == i && q[c] == x;
    var b' := DeleteIndex(q, y, b);
    var c' := DeleteIndex(q, y, c);
    DeleteMonotone(q, y, b, c);
  }

  /** Where the element at position b ends up. */
  function Shifted(q: seq<int>, y: int, b: nat): int {
    if q == [] || b == 0 then b else if q[0] == y then b - 1 else 1 + Shifted(q[1..], y, b - 1)
  }

  lemma {:induction false} DeleteIndex(q: seq<int>, y: int, b: nat) returns (d: int)
    requires b < |q| && q[b] != y
    ensures d == Shifted(q, y, b) && 0 <= d < |Delete(q, y)| && Delete(q, y)[d] == q[b]
  {
    d := Shifted(q, y, b);
    if b > 0 && q[0] != y { var _ := DeleteIndex(q[1..], y, b - 1); }
  }

  lemma {:induction false} DeleteMonotone(q: seq<int>, y: int, b: nat, c: nat)
    requires b < c < |q| && q[b] != y && q[c] != y
    ensures Shifted(q, y, b) < Shifted(q, y, c)
  {
    if b > 0 && q[0] != y {
      DeleteMonotone(q[1..], y, b - 1, c - 1);
    } else if b == 0 {
      var _ := DeleteIndex(q, y, c);
      ShiftedPositive(q, y, c);
    }
  }

  lemma {:induction false} ShiftedPositive(q: seq<int>, y: int, c: nat)
    requires 0 < c < |q| && q[0] != y && q[c] != y
    ensures Shifted(q, y, c) > 0
  {
    var _ := DeleteIndex(q[1..], y, c - 1);
  }

  /** If i waits before x, i cannot be rejected while x waits. */
  lemma {:induction false} OlderNotRejected(a: Spec, events: seq<Event>, i: int, x: int, k: nat, n: nat)
    returns (l: nat)
    requires Orderly(a) && Accepts(a, events) && k < |a.waiting| && Precedes(a.waiting[k], i, x)
    requires n < |events| && events[n] == RejectAlreadyCancelled(i, k)
    ensures l < n && Leaves(events[l], x, k)
    decreases n
  {
    l := 0;
    if n == 0 {
      assert false;
    } else if !Leaves(events[0], x, k) {
      if Decides(events[0], i) { DecidedStays(Step(a, events[0]), events[1..], i, n - 1); assert false; }
      StepPrecedes(a, events[0], i, x, k);
      StepOrderly(a, events[0]);
      l := OlderNotRejected(Step(a, events[0]), events[1..], i, x, k, n - 1);
      l := l + 1;
    }
  }

  lemma {:induction false} StepPrecedes(a: Spec, e: Event, i: int, x: int, k: nat)
    requires Legal(a, e) && k < |a.waiting| && Precedes(a.waiting[k], i, x)
    requires !Decides(e, i) && !Leaves(e, x, k)
    ensures k < |Step(a, e).waiting| && Precedes(Step(a, e).waiting[k], i, x)
  {
    if (e.RejectAlreadyCancelled? || e.Withdraw? || e.TakeHead?) && e.k == k {
      DeletePrecedes(a.waiting[k], e.i, i, x);
    } else if e.Submit? && e.k == k {
      var b, c :| 0 <= b < c < |a.waiting[k]| && a.waiting[k][b] == i && a.waiting[k][c] == x;
      var q := a.waiting[k] + [e.i];
      assert q[b] == i && q[c] == x;
    }
  }

  /** A request is rejected only as the newest of its FIFO: whatever arrived there after it has
      left it before. */
  lemma {:induction false} RejectedIsNewest(a: Spec, events: seq<Event>, i: int, x: int, k: nat, m: nat, j: nat, n: nat)
    requires Orderly(a) && Accepts(a, events) && m < j < n < |events|
    requires events[m] == Submit(i, k) && events[j] == Submit(x, k)
    requires events[n] == RejectAlreadyCancelled(i, k)
    ensures exists l :: j < l < n && Leaves(events[l], x, k)
  {
    Split(a, events, j);
    PlayOrderly(a, events[..j]);
    var b, rest := Play(a, events[..j]), events[j..];
    assert rest[0] == events[j] && rest[n - j] == events[n];
    if x == i { ArrivesOnce(a, events, i, m, j); assert false; }
    if i !in b.waiting[k] {
      var r := LeftWasSubmitted(b, rest, i, k, n - j);
      assert events[j + r] == Submit(i, k);
      ArrivesOnce(a, events, i, m, j + r);
      assert false;
    }
    var c := Step(b, rest[0]);
    TailPrecedes(b.waiting[k], i, x);
    StepOrderly(b, rest[0]);
    var l := OlderNotRejected(c, rest[1..], i, x, k, n - j - 1);
    assert events[j + 1 + l] == rest[1..][l];
  }

  lemma {:induction false} TailPrecedes(q: seq<int>, i: int, x: int)
    requires i in q
    ensures Precedes(q + [x], i, x)
  {
    var b :| 0 <= b < |q| && q[b] == i;
    assert (q + [x])[b] == i && (q + [x])[|q|] == x;
  }
}
