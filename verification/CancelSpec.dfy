/** What a client of the queues is promised, as a machine without threads, locks, list heap
    or lagging removals: FIFOs of waiting requests, each request decided once. */
module CancelSpec {
  import opened ListHeap

  datatype Verdict = Rejected | Taken | Withdrawn

  datatype Phase = New | Waiting | Decided(verdict: Verdict) | Finished(verdict: Verdict)

  datatype Spec = Spec(phases: seq<Phase>, requested: seq<bool>, waiting: seq<seq<int>>)

  datatype Event =
    | Silent
    | Submit(i: int, k: nat)                   // i joins FIFO k at the tail
    | Request(i: int)                          // someone asks to cancel i
    | RejectAlreadyCancelled(i: int, k: nat)   // the submitter itself withdraws a requested i
    | Withdraw(i: int, k: nat)                 // the canceller takes a requested i out of FIFO k
    | TakeHead(i: int, k: nat)                 // a consumer takes i, which is first in FIFO k
    | Finish(i: int, success: bool)            // i is completed

  predicate InSpec(a: Spec, i: int) {
    0 <= i < |a.phases| && |a.requested| == |a.phases|
  }

  predicate WaitsIn(a: Spec, i: int, k: nat) {
    InSpec(a, i) && a.phases[i] == Waiting && k < |a.waiting| && i in a.waiting[k]
  }

  predicate Legal(a: Spec, e: Event) {
    match e
    case Silent => true
    case Submit(i, k) => InSpec(a, i) && a.phases[i] == New && k < |a.waiting|
    case Request(i) => InSpec(a, i)
    case RejectAlreadyCancelled(i, k) =>
      WaitsIn(a, i, k) && a.requested[i] && a.waiting[k][|a.waiting[k]| - 1] == i
    case Withdraw(i, k) => WaitsIn(a, i, k) && a.requested[i]
    case TakeHead(i, k) => WaitsIn(a, i, k) && a.waiting[k][0] == i
    case Finish(i, success) => InSpec(a, i) && a.phases[i].Decided? && success == a.phases[i].verdict.Taken?
  }

  function Decide(a: Spec, i: int, k: nat, v: Verdict): Spec
    requires InSpec(a, i) && k < |a.waiting|
  {
    a.(phases := a.phases[i := Decided(v)], waiting := a.waiting[k := Delete(a.waiting[k], i)])
  }

  function Step(a: Spec, e: Event): Spec
    requires Legal(a, e)
  {
    match e
    case Silent => a
    case Submit(i, k) => a.(phases := a.phases[i := Waiting], waiting := a.waiting[k := a.waiting[k] + [i]])
    case Request(i) => a.(requested := a.requested[i := true])
    case RejectAlreadyCancelled(i, k) => Decide(a, i, k, Rejected)
    case Withdraw(i, k) => Decide(a, i, k, Withdrawn)
    case TakeHead(i, k) => Decide(a, i, k, Taken)
    case Finish(i, _) => a.(phases := a.phases[i := Finished(a.phases[i].verdict)])
  }

  ghost predicate Accepts(a: Spec, events: seq<Event>)
    decreases |events|
  {
    events == [] || (Legal(a, events[0]) && Accepts(Step(a, events[0]), events[1..]))
  }

  ghost function Play(a: Spec, events: seq<Event>): (b: Spec)
    requires Accepts(a, events)
    ensures |b.phases| == |a.phases| && |b.requested| == |a.requested| && |b.waiting| == |a.waiting|
    decreases |events|
  {
    if events == [] then a else Play(Step(a, events[0]), events[1..])
  }

  predicate Decides(e: Event, i: int) {
    (e.RejectAlreadyCancelled? || e.Withdraw? || e.TakeHead?) && e.i == i
  }

  predicate Finishes(e: Event, i: int) {
    e.Finish? && e.i == i
  }

  /** Phases only advance: once decided, never waiting again; once finished, finished. */
  lemma {:induction false} DecidedStays(a: Spec, events: seq<Event>, i: int, k: nat)
    requires Accepts(a, events) && InSpec(a, i) && (a.phases[i].Decided? || a.phases[i].Finished?) && k < |events|
    ensures !Decides(events[k], i)
    ensures a.phases[i].Finished? ==> !Finishes(events[k], i)
    decreases |events|
  {
    if k > 0 {
      DecidedStays(Step(a, events[0]), events[1..], i, k - 1);
    }
  }

  /** In every accepted history each request is decided at most once and finished at most once. */
  lemma {:induction false} DecidedOnce(a: Spec, events: seq<Event>, i: int, j: nat, k: nat)
    requires Accepts(a, events) && InSpec(a, i) && j < k < |events|
    ensures !(Decides(events[j], i) && Decides(events[k], i))
    ensures !(Finishes(events[j], i) && Finishes(events[k], i))
    decreases j
  {
    if j == 0 {
      if Decides(events[0], i) || Finishes(events[0], i) { DecidedStays(Step(a, events[0]), events[1..], i, k - 1); }
    } else {
      DecidedOnce(Step(a, events[0]), events[1..], i, j - 1, k - 1);
    }
  }

  /** The only event at which request i is decided is the j-th, the only one at which it is
      finished is a later one, and success means that a consumer took it. */
  ghost predicate ServedAt(events: seq<Event>, i: int, j: nat, k: nat) {
    && j < k < |events| && Decides(events[j], i) && Finishes(events[k], i)
    && (events[k].success <==> events[j].TakeHead?)
    && (forall m :: 0 <= m < |events| && m != j ==> !Decides(events[m], i))
    && (forall m :: 0 <= m < |events| && m != k ==> !Finishes(events[m], i))
  }

  lemma {:induction false} FinishedServed(a: Spec, events: seq<Event>, i: int) returns (j: nat, k: nat)
    requires Accepts(a, events) && InSpec(a, i) && (a.phases[i] == New || a.phases[i] == Waiting)
    requires Play(a, events).phases[i].Finished?
    ensures j < k < |events| && Decides(events[j], i) && Finishes(events[k], i)
    ensures events[k].success <==> events[j].TakeHead?
    decreases |events|
  {
    var b := Step(a, events[0]);
    if Decides(events[0], i) {
      k := DecidedFinished(b, events[1..], i);
      j, k := 0, k + 1;
    } else {
      j, k := FinishedServed(b, events[1..], i);
      j, k := j + 1, k + 1;
    }
  }

  lemma {:induction false} DecidedFinished(a: Spec, events: seq<Event>, i: int) returns (k: nat)
    requires Accepts(a, events) && InSpec(a, i) && a.phases[i].Decided?
    requires Play(a, events).phases[i].Finished?
    ensures k < |events| && Finishes(events[k], i) && (events[k].success <==> a.phases[i].verdict.Taken?)
    decreases |events|
  {
    if Finishes(events[0], i) {
      k := 0;
    } else {
      k := DecidedFinished(Step(a, events[0]), events[1..], i);
      k := k + 1;
    }
  }

  lemma {:induction false} FinishSticks(a: Spec, events: seq<Event>, i: int, k: nat)
    requires Accepts(a, events) && InSpec(a, i)
    requires a.phases[i].Finished? || (k < |events| && Finishes(events[k], i))
    ensures Play(a, events).phases[i].Finished?
    decreases |events|
  {
    if events != [] {
      FinishSticks(Step(a, events[0]), events[1..], i, if k > 0 then k - 1 else 0);
    }
  }

  /** A request that starts new ends finished exactly if it was decided once, and then
      finished once with the matching outcome. */
  lemma {:induction false} FinishedIffServed(a: Spec, events: seq<Event>, i: int)
    requires Accepts(a, events) && InSpec(a, i) && a.phases[i] == New
    ensures Play(a, events).phases[i].Finished? <==> exists j: nat, k: nat :: ServedAt(events, i, j, k)
  {
    if Play(a, events).phases[i].Finished? {
      var j, k := FinishedServed(a, events, i);
      forall m | 0 <= m < |events|
        ensures m != j ==> !Decides(events[m], i)
        ensures m != k ==> !Finishes(events[m], i)
      {
        if m < j { DecidedOnce(a, events, i, m, j); } else if j < m { DecidedOnce(a, events, i, j, m); }
        if m < k { DecidedOnce(a, events, i, m, k); } else if k < m { DecidedOnce(a, events, i, k, m); }
      }
      assert ServedAt(events, i, j, k);
    }
    if j: nat, k: nat :| ServedAt(events, i, j, k) { FinishSticks(a, events, i, k); }
  }
}
