/** The circular doubly linked lists of include/ntos/rtl.h, on a heap of LIST_ENTRY
    cells addressed by number. The four primitives are written store by store, as the
    source writes them; a store or load through an address outside the heap has no
    effect or yields a wild link, so nothing here is a precondition of the primitives. */
module ListHeap {

  datatype Link = Link(flink: int, blink: int)

  type Heap = seq<Link>

  function At(h: Heap, a: int): Link {
    if 0 <= a < |h| then h[a] else Link(-1, -1)
  }

  function SetFlink(h: Heap, a: int, v: int): Heap {
    if 0 <= a < |h| then h[a := h[a].(flink := v)] else h
  }

  function SetBlink(h: Heap, a: int, v: int): Heap {
    if 0 <= a < |h| then h[a := h[a].(blink := v)] else h
  }

  function InitializeListHead(h: Heap, e: int): Heap {
    SetFlink(SetBlink(h, e, e), e, e)
  }

  function InsertTailList(h: Heap, head: int, e: int): Heap {
    var oldBlink := At(h, head).blink;
    var h1 := SetFlink(h, e, head);
    var h2 := SetBlink(h1, e, oldBlink);
    var h3 := SetFlink(h2, oldBlink, e);
    SetBlink(h3, head, e)
  }

  function RemoveEntryList(h: Heap, e: int): Heap {
    var oldFlink := At(h, e).flink;
    var oldBlink := At(h, e).blink;
    SetFlink(SetBlink(h, oldFlink, oldBlink), oldBlink, oldFlink)
  }

  /** What RemoveEntryList returns. */
  function NeighboursMeet(h: Heap, e: int): bool {
    At(h, e).flink == At(h, e).blink
  }

  /** The entry RemoveHeadList returns. */
  function HeadEntry(h: Heap, head: int): int {
    At(h, head).flink
  }

  function RemoveHeadList(h: Heap, head: int): Heap {
    var flink := At(h, HeadEntry(h, head)).flink;
    SetBlink(SetFlink(h, head, flink), flink, head)
  }

  /** Position k of the ring that leaves `head`, visits q in order and returns. */
  function Node(head: int, q: seq<int>, k: nat): int
    requires k <= |q| + 1
  {
    if k == 0 || k == |q| + 1 then head else q[k - 1]
  }

  ghost predicate NoDuplicates(q: seq<int>) {
    forall j, k :: 0 <= j < k < |q| ==> q[j] != q[k]
  }

  ghost predicate Edge(h: Heap, head: int, q: seq<int>, k: nat)
    requires k <= |q|
  {
    && At(h, Node(head, q, k)).flink == Node(head, q, k + 1)
    && At(h, Node(head, q, k + 1)).blink == Node(head, q, k)
  }

  /** The heap links `head` and exactly the entries of q, in order, in both directions. */
  ghost predicate Ring(h: Heap, head: int, q: seq<int>) {
    && 0 <= head < |h| && head !in q
    && (forall k :: 0 <= k < |q| ==> 0 <= q[k] < |h|)
    && NoDuplicates(q)
    && (forall k :: 0 <= k <= |q| ==> Edge(h, head, q, k))
  }

  /** q without the element at position k. */
  function Without(q: seq<int>, k: nat): seq<int>
    requires k < |q|
  {
    q[..k] + q[k + 1..]
  }

  /** q without the first i. */
  function Delete(q: seq<int>, i: int): seq<int> {
    if q == [] then [] else if q[0] == i then q[1..] else [q[0]] + Delete(q[1..], i)
  }

  lemma {:induction false} DeleteIsWithout(q: seq<int>, k: nat)
    requires k < |q| && NoDuplicates(q)
    ensures Delete(q, q[k]) == Without(q, k)
  {
    if k > 0 {
      assert q[0] != q[k];
      DeleteIsWithout(q[1..], k - 1);
      assert Without(q, k) == [q[0]] + Without(q[1..], k - 1);
    }
  }

  lemma {:induction false} DeleteAbsent(q: seq<int>, i: int)
    requires i !in q
    ensures Delete(q, i) == q
  {
    if q != [] { DeleteAbsent(q[1..], i); }
  }

  lemma {:induction false} DeleteMembers(q: seq<int>, i: int)
    requires NoDuplicates(q)
    ensures i !in Delete(q, i)
    ensures forall j :: j != i ==> (j in Delete(q, i) <==> j in q)
  {
    if q != [] && q[0] != i {
      DeleteMembers(q[1..], i);
      assert q == [q[0]] + q[1..];
    } else if q != [] {
      assert q == [q[0]] + q[1..];
      assert i !in q[1..];
    }
  }

  lemma {:induction false} DeleteSubset(q: seq<int>, x: int)
    ensures forall y :: y in Delete(q, x) ==> y in q
  {
    if q != [] { DeleteSubset(q[1..], x); }
  }

  lemma {:induction false} InsertTailKeepsRing(h: Heap, head: int, q: seq<int>, e: int)
    requires Ring(h, head, q) && 0 <= e < |h| && e != head && e !in q
    ensures Ring(InsertTailList(h, head, e), head, q + [e])
    ensures forall a :: 0 <= a < |h| && a != head && a != e && a !in q ==> InsertTailList(h, head, e)[a] == h[a]
  {
    var h', q' := InsertTailList(h, head, e), q + [e];
    assert Edge(h, head, q, |q|);
    assert At(h, head).blink == Node(head, q, |q|);
    forall k | 0 <= k <= |q'| ensures Edge(h', head, q', k) {
      if k < |q| {
        assert Edge(h, head, q, k);
        assert Node(head, q', k) == Node(head, q, k);
        assert Node(head, q', k + 1) == Node(head, q, k + 1);
      }
    }
  }

  lemma {:induction false} RemoveEntryKeepsRing(h: Heap, head: int, q: seq<int>, k: nat)
    requires Ring(h, head, q) && k < |q|
    ensures Ring(RemoveEntryList(h, q[k]), head, Without(q, k))
    ensures forall a :: 0 <= a < |h| && a != head && a !in q ==> RemoveEntryList(h, q[k])[a] == h[a]
  {
    var h', q' := RemoveEntryList(h, q[k]), Without(q, k);
    assert Edge(h, head, q, k) && Edge(h, head, q, k + 1);
    forall m | 0 <= m <= |q'| ensures Edge(h', head, q', m) {
      RemoveEntryEdge(h, head, q, k, m);
    }
  }

  lemma {:induction false} RemoveEntryEdge(h: Heap, head: int, q: seq<int>, k: nat, m: nat)
    requires Ring(h, head, q) && k < |q| && m < |q|
    ensures Edge(RemoveEntryList(h, q[k]), head, Without(q, k), m)
  {
    assert Edge(h, head, q, k) && Edge(h, head, q, k + 1);
    assert Edge(h, head, q, if m < k then m else m + 1);
  }

  /** RemoveEntryList reports whether it left the list empty. */
  lemma {:induction false} RemoveEntryReportsEmpty(h: Heap, head: int, q: seq<int>, k: nat)
    requires Ring(h, head, q) && k < |q|
    ensures NeighboursMeet(h, q[k]) <==> Without(q, k) == []
  {
    assert Edge(h, head, q, k) && Edge(h, head, q, k + 1);
  }

  /** A ring depends on its own cells only. */
  lemma {:induction false} RingFrame(h: Heap, h': Heap, head: int, q: seq<int>)
    requires Ring(h, head, q) && |h'| == |h|
    requires At(h', head) == At(h, head) && forall e :: e in q ==> At(h', e) == At(h, e)
    ensures Ring(h', head, q)
  {
    forall k | 0 <= k <= |q| ensures Edge(h', head, q, k) {
      assert Edge(h, head, q, k);
    }
  }

  /** RemoveHeadList takes the first entry and leaves that entry's own links stale. */
  lemma {:induction false} RemoveHeadKeepsRing(h: Heap, head: int, q: seq<int>)
    requires Ring(h, head, q) && q != []
    ensures HeadEntry(h, head) == q[0]
    ensures Ring(RemoveHeadList(h, head), head, q[1..])
    ensures RemoveHeadList(h, head)[q[0]] == h[q[0]]
    ensures forall a :: 0 <= a < |h| && a != head && a !in q ==> RemoveHeadList(h, head)[a] == h[a]
  {
    HeadRemovalIsEntryRemoval(h, head, q);
    RemoveEntryKeepsRing(h, head, q, 0);
    assert Without(q, 0) == q[1..];
  }

  lemma {:induction false} HeadRemovalIsEntryRemoval(h: Heap, head: int, q: seq<int>)
    requires Ring(h, head, q) && q != []
    ensures HeadEntry(h, head) == q[0]
    ensures RemoveHeadList(h, head) == RemoveEntryList(h, q[0])
    ensures RemoveHeadList(h, head)[q[0]] == h[q[0]]
  {
    assert Edge(h, head, q, 0) && Edge(h, head, q, 1);
  }

  lemma {:induction false} SelfLinkKeepsRing(h: Heap, head: int, q: seq<int>, e: int)
    requires Ring(h, head, q) && e != head && e !in q
    ensures Ring(InitializeListHead(h, e), head, q)
  {
    var h' := InitializeListHead(h, e);
    forall k | 0 <= k <= |q| ensures Edge(h', head, q, k) {
      assert Edge(h, head, q, k);
    }
  }

  /** Unlinking a self-linked entry changes nothing: the second removal is harmless. */
  lemma {:induction false} RemoveSelfLinked(h: Heap, e: int)
    requires 0 <= e < |h| && h[e] == Link(e, e)
    ensures RemoveEntryList(h, e) == h
  {
  }

  /** The heap determines the queue contents. */
  lemma {:induction false} RingIsUnique(h: Heap, head: int, q: seq<int>, r: seq<int>)
    requires Ring(h, head, q) && Ring(h, head, r)
    ensures q == r
  {
    if |q| == |r| {
      RingPrefix(h, head, q, r, |q|);
      assert q[..|q|] == q && r[..|r|] == r;
    } else if |q| < |r| {
      RingNotShorter(h, head, q, r);
    } else {
      RingNotShorter(h, head, r, q);
    }
  }

  lemma {:induction false} RingNotShorter(h: Heap, head: int, q: seq<int>, r: seq<int>)
    requires Ring(h, head, q) && Ring(h, head, r)
    ensures |q| >= |r|
  {
    if |q| < |r| {
      assert Edge(h, head, q, |q|) && Edge(h, head, r, |q|);
      assert |q| > 0 ==> q[..|q|][|q| - 1] == q[|q| - 1] && r[..|q|][|q| - 1] == r[|q| - 1];
      RingPrefix(h, head, q, r, |q|);
      assert false;
    }
  }

  lemma {:induction false} RingPrefix(h: Heap, head: int, q: seq<int>, r: seq<int>, n: nat)
    requires Ring(h, head, q) && Ring(h, head, r) && n <= |q| <= |r|
    ensures q[..n] == r[..n]
  {
    if n > 0 {
      RingPrefix(h, head, q, r, n - 1);
      assert Edge(h, head, q, n - 1) && Edge(h, head, r, n - 1);
      if n > 1 { assert q[..n - 1][n - 2] == q[n - 2]; assert r[..n - 1][n - 2] == r[n - 2]; }
      assert q[..n] == q[..n - 1] + [q[n - 1]];
      assert r[..n] == r[..n - 1] + [r[n - 1]];
    }
  }

  /** RemoveHeadList returns an entry other than the list head exactly when the list is
      not empty; on an empty list it returns the head itself and changes nothing. */
  lemma {:induction false} HeadEntryIsQueued(h: Heap, head: int, q: seq<int>)
    requires Ring(h, head, q)
    ensures HeadEntry(h, head) != head <==> q != []
    ensures q == [] ==> RemoveHeadList(h, head) == h
  {
    assert Edge(h, head, q, 0);
  }

  /** Why DEQUEUE self-links: unlinking an entry that RemoveHeadList left stale throws
      away whatever was queued in between. */
  lemma {:induction false} StaleEntryLosesTheQueue(h: Heap, head: int, e: int, x: int)
    requires Ring(h, head, [e]) && 0 <= x < |h| && x != head && x != e
    ensures var h' := InsertTailList(RemoveHeadList(h, head), head, x);
            Ring(h', head, [x]) && Ring(RemoveEntryList(h', e), head, [])
  {
    RemoveHeadKeepsRing(h, head, [e]);
    assert [e][1..] == [];
    InsertTailKeepsRing(RemoveHeadList(h, head), head, [], x);
    assert [] + [x] == [x];
    assert Edge(h, head, [e], 0) && Edge(h, head, [e], 1);
  }
}
