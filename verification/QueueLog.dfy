/** Order of service in a queue that also loses elements from the middle. */
module QueueLog {
  import opened ListHeap

  datatype Entry = Push(x: int) | Pop(x: int) | Drop(x: int) | Nothing

  predicate Fits(q: seq<int>, e: Entry) {
    match e
    case Pop(x) => q != [] && q[0] == x
    case Drop(x) => x in q
    case _ => true
  }

  function After(q: seq<int>, e: Entry): seq<int>
    requires Fits(q, e)
  {
    match e
    case Push(x) => q + [x]
    case Pop(_) => q[1..]
    case Drop(x) => Delete(q, x)
    case Nothing => q
  }

  ghost predicate FitsAll(q: seq<int>, log: seq<Entry>)
    decreases |log|
  {
    log == [] || (Fits(q, log[0]) && FitsAll(After(q, log[0]), log[1..]))
  }

  ghost function AfterAll(q: seq<int>, log: seq<Entry>): seq<int>
    requires FitsAll(q, log)
    decreases |log|
  {
    if log == [] then q else AfterAll(After(q, log[0]), log[1..])
  }

  function Pushed(log: seq<Entry>): seq<int> {
    if log == [] then [] else (if log[0].Push? then [log[0].x] else []) + Pushed(log[1..])
  }

  function Popped(log: seq<Entry>): seq<int> {
    if log == [] then [] else (if log[0].Pop? then [log[0].x] else []) + Popped(log[1..])
  }

  function Dropped(log: seq<Entry>): set<int> {
    if log == [] then {} else (if log[0].Drop? then {log[0].x} else {}) + Dropped(log[1..])
  }

  /** q without the elements of d. */
  function Except(q: seq<int>, d: set<int>): seq<int> {
    if q == [] then [] else (if q[0] in d then [] else [q[0]]) + Except(q[1..], d)
  }

  lemma {:induction false} DroppedWerePresent(q: seq<int>, log: seq<Entry>)
    requires FitsAll(q, log)
    ensures forall x :: x in Dropped(log) ==> x in q + Pushed(log)
    decreases |log|
  {
    if log != [] {
      DroppedWerePresent(After(q, log[0]), log[1..]);
      if log[0].Drop? { DeleteSubset(q, log[0].x); }
    }
  }

  lemma {:induction false} ExceptDelete(q: seq<int>, p: seq<int>, x: int, d: set<int>)
    requires NoDuplicates(q + p) && x in q
    ensures Except(q + p, {x} + d) == Except(Delete(q, x) + p, d)
    ensures NoDuplicates(Delete(q, x) + p)
  {
    assert (q + p)[0] == q[0] && (q + p)[1..] == q[1..] + p;
    if q[0] == x {
      assert x !in q[1..] + p by {
        assert forall k :: 0 < k < |q + p| ==> (q + p)[k] != (q + p)[0];
      }
      ExceptAbsent(q[1..] + p, x, d);
    } else {
      ExceptDelete(q[1..], p, x, d);
      var r := Delete(q[1..], x);
      assert Delete(q, x) + p == [q[0]] + (r + p);
      DeleteSubset(q[1..], x);
      assert q[0] !in r + p by {
        assert forall k :: 0 < k < |q + p| ==> (q + p)[k] != (q + p)[0];
        assert forall y :: y in r + p ==> y in q[1..] + p;
      }
    }
  }

  lemma {:induction false} ExceptAbsent(q: seq<int>, x: int, d: set<int>)
    requires x !in q
    ensures Except(q, {x} + d) == Except(q, d)
  {
    if q != [] { ExceptAbsent(q[1..], x, d); }
  }

  /** First in, first out, apart from what was dropped: the elements ever in the queue, in
      arrival order and without the dropped ones, are those popped followed by those left. */
  lemma {:induction false} Fifo(q: seq<int>, log: seq<Entry>)
    requires FitsAll(q, log) && NoDuplicates(q + Pushed(log))
    ensures Except(q + Pushed(log), Dropped(log)) == Popped(log) + AfterAll(q, log)
    decreases |log|
  {
    if log == [] {
      assert q + [] == q;
      ExceptNone(q);
    } else {
      var rest, q1 := log[1..], After(q, log[0]);
      LogTail(log);
      match log[0]
      case Push(x) =>
        assert q + Pushed(log) == q1 + Pushed(rest);
        Fifo(q1, rest);
      case Pop(x) =>
        DistinctTail(q, Pushed(rest));
        Fifo(q1, rest);
        FifoPop(q, log);
      case Drop(x) =>
        ExceptDelete(q, Pushed(rest), x, Dropped(rest));
        Fifo(q1, rest);
      case Nothing =>
        Fifo(q1, rest);
    }
  }

  lemma {:induction false} FifoPop(q: seq<int>, log: seq<Entry>)
    requires FitsAll(q, log) && NoDuplicates(q + Pushed(log)) && log != [] && log[0].Pop?
    requires var rest := log[1..];
             Except(q[1..] + Pushed(rest), Dropped(rest)) == Popped(rest) + AfterAll(q[1..], rest)
    ensures Except(q + Pushed(log), Dropped(log)) == Popped(log) + AfterAll(q, log)
  {
    var rest := log[1..];
    LogTail(log);
    DistinctTail(q, Pushed(rest));
    DroppedWerePresent(q[1..], rest);
    ExceptPop(q, Pushed(rest), Dropped(rest), Popped(rest), AfterAll(q[1..], rest));
  }

  /** The first entry's share of the three summaries of a log. */
  lemma {:induction false} LogTail(log: seq<Entry>)
    requires log != []
    ensures Pushed(log) == if log[0].Push? then [log[0].x] + Pushed(log[1..]) else Pushed(log[1..])
    ensures Popped(log) == if log[0].Pop? then [log[0].x] + Popped(log[1..]) else Popped(log[1..])
    ensures Dropped(log) == if log[0].Drop? then {log[0].x} + Dropped(log[1..]) else Dropped(log[1..])
  {
  }

  lemma {:induction false} ExceptPop(q: seq<int>, p: seq<int>, d: set<int>, popped: seq<int>, left: seq<int>)
    requires q != [] && q[0] !in d && Except(q[1..] + p, d) == popped + left
    ensures Except(q + p, d) == ([q[0]] + popped) + left
  {
    assert (q + p)[0] == q[0] && (q + p)[1..] == q[1..] + p;
    assert Except(q + p, d) == [q[0]] + Except(q[1..] + p, d);
    assert [q[0]] + (popped + left) == ([q[0]] + popped) + left;
  }

  lemma {:induction false} DistinctTail(q: seq<int>, p: seq<int>)
    requires q != [] && NoDuplicates(q + p)
    ensures q[0] !in q[1..] + p && NoDuplicates(q[1..] + p)
  {
    assert q + p == [q[0]] + (q[1..] + p);
    assert forall k :: 0 < k < |q + p| ==> (q + p)[k] != (q + p)[0];
    assert forall k :: 0 <= k < |q[1..] + p| ==> (q[1..] + p)[k] == (q + p)[k + 1];
  }

  lemma {:induction false} ExceptNone(q: seq<int>)
    ensures Except(q, {}) == q
  {
    if q != [] { ExceptNone(q[1..]); }
  }
}
