/** The SEH registration chain that __try1 and __except1 of include/excpt.h keep inside the
    stack. Machine words are integers; the stack grows down and is assumed large enough
    that esp does not wrap. */
module SehChain {

  type Memory = map<int, int>

  /** The word at address a; memory never written holds 0. */
  function Word(m: Memory, a: int): int {
    if a in m then m[a] else 0
  }

  datatype Cpu = Cpu(esp: int, fs0: int, eax: int, mem: Memory)

  function Pushl(c: Cpu, v: int): Cpu {
    c.(esp := c.esp - 4, mem := c.mem[c.esp - 4 := v])
  }

  /** pushl handler; pushl fs:0; movl esp, fs:0 */
  function Try1(c: Cpu, handler: int): Cpu {
    var c2 := Pushl(Pushl(c, handler), c.fs0);
    c2.(fs0 := c2.esp)
  }

  /** movl (esp), eax; movl eax, fs:0; addl 8, esp */
  function Except1(c: Cpu): Cpu {
    var eax := Word(c.mem, c.esp);
    c.(eax := eax, fs0 := eax, esp := c.esp + 8)
  }

  /** The registers and memory the two macros work on. */
  class Machine {
    var esp: int
    var fs0: int
    var eax: int
    var mem: Memory

    ghost function View(): Cpu
      reads this
    {
      Cpu(esp, fs0, eax, mem)
    }

    method PushWord(v: int)
      modifies this`esp, this`mem
      ensures View() == Pushl(old(View()), v)
    {
      esp := esp - 4;
      mem := mem[esp := v];
    }

    method PopWord() returns (v: int)
      modifies this`esp
      ensures v == Word(mem, old(esp)) && esp == old(esp) + 4
    {
      v := Word(mem, esp);
      esp := esp + 4;
    }

    method TryOne(handler: int)
      modifies this`esp, this`mem, this`fs0
      ensures View() == Try1(old(View()), handler)
      ensures fs0 == esp == old(esp) - 8 && IsRegistration(mem, fs0, old(fs0), handler)
    {
      PushWord(handler);
      PushWord(fs0);
      fs0 := esp;
    }

    method ExceptOne()
      modifies this`esp, this`eax, this`fs0
      ensures View() == Except1(old(View()))
      ensures fs0 == eax == old(Word(mem, esp)) && esp == old(esp) + 8
    {
      eax := Word(mem, esp);
      fs0 := eax;
      esp := esp + 8;
    }

    /** Runs a program in place. */
    method Execute(program: seq<Instr>)
      modifies this
      ensures View() == Run(old(View()), program)
    {
      for k := 0 to |program|
        invariant Run(View(), program[k..]) == Run(old(View()), program)
      {
        assert program[k..][1..] == program[k + 1..];
        match program[k] {
          case Enter(h) => TryOne(h);
          case Leave => ExceptOne();
          case Push(v) => PushWord(v);
          case Pop => var _ := PopWord();
          case Poke(n, v) => mem := mem[esp + n := v];
        }
      }
    }
  }

  // ----- Programs -----

  // Enter and Leave are the macros; the rest is what a guarded body does with the stack.
  // Poke stores at n bytes above esp.
  datatype Instr = Enter(handler: int) | Leave | Push(v: int) | Pop | Poke(n: nat, v: int)

  function Exec(c: Cpu, i: Instr): Cpu {
    match i
    case Enter(h) => Try1(c, h)
    case Leave => Except1(c)
    case Push(v) => Pushl(c, v)
    case Pop => c.(esp := c.esp + 4)
    case Poke(n, v) => c.(mem := c.mem[c.esp + n := v])
  }

  function Run(c: Cpu, program: seq<Instr>): Cpu
    decreases |program|
  {
    if program == [] then c else Run(Exec(c, program[0]), program[1..])
  }

  // What the program has on the stack, top first.
  datatype Item = Guard(handler: int) | Data(v: int)

  function Bytes(item: Item): int {
    if item.Guard? then 8 else 4
  }

  function Size(shape: seq<Item>): int {
    if shape == [] then 0 else Bytes(shape[0]) + Size(shape[1..])
  }

  /** The word n bytes above the top was pushed as data. */
  predicate IsData(shape: seq<Item>, n: int) {
    if shape == [] then false
    else if n == 0 then shape[0].Data?
    else n >= Bytes(shape[0]) && IsData(shape[1..], n - Bytes(shape[0]))
  }

  function Overwrite(shape: seq<Item>, n: int, v: int): seq<Item>
    requires IsData(shape, n)
  {
    if n == 0 then [Data(v)] + shape[1..] else [shape[0]] + Overwrite(shape[1..], n - Bytes(shape[0]), v)
  }

  /** A body may push, pop and overwrite any word the program has pushed, past guards too;
      __except1 finds the stack as its __try1 left it. */
  predicate Disciplined(shape: seq<Item>, i: Instr) {
    match i
    case Leave => shape != [] && shape[0].Guard?
    case Pop => shape != [] && shape[0].Data?
    case Poke(n, _) => IsData(shape, n)
    case _ => true
  }

  function Reshape(shape: seq<Item>, i: Instr): seq<Item>
    requires Disciplined(shape, i)
  {
    match i
    case Enter(h) => [Guard(h)] + shape
    case Leave => shape[1..]
    case Push(v) => [Data(v)] + shape
    case Pop => shape[1..]
    case Poke(n, v) => Overwrite(shape, n, v)
  }

  ghost predicate WellNested(shape: seq<Item>, program: seq<Instr>)
    decreases |program|
  {
    program == [] || (Disciplined(shape, program[0]) && WellNested(Reshape(shape, program[0]), program[1..]))
  }

  ghost function FinalShape(shape: seq<Item>, program: seq<Instr>): seq<Item>
    requires WellNested(shape, program)
    decreases |program|
  {
    if program == [] then shape else FinalShape(Reshape(shape, program[0]), program[1..])
  }

  // ----- The chain -----

  // A node of the chain: where its EXCEPTION_REGISTRATION lies, and its handler.
  datatype Node = Node(address: int, handler: int)

  /** The EXCEPTION_REGISTRATION at a: prev at offset 0, handler at offset 4. */
  predicate IsRegistration(m: Memory, a: int, prev: int, handler: int) {
    Word(m, a) == prev && Word(m, a + 4) == handler
  }

  /** Following prev links from p visits exactly these nodes and ends at `end`. */
  predicate Chain(m: Memory, p: int, nodes: seq<Node>, end: int)
    decreases |nodes|
  {
    if nodes == [] then p == end
    else p == nodes[0].address && Word(m, p + 4) == nodes[0].handler && Chain(m, Word(m, p), nodes[1..], end)
  }

  predicate Ascending(nodes: seq<Node>) {
    forall j, k :: 0 <= j < k < |nodes| ==> nodes[j].address < nodes[k].address
  }

  /** The nodes of the guards of a shape whose top lies at a. */
  function Nodes(shape: seq<Item>, a: int): seq<Node> {
    if shape == [] then []
    else (if shape[0].Guard? then [Node(a, shape[0].handler)] else []) + Nodes(shape[1..], a + Bytes(shape[0]))
  }

  function Handlers(shape: seq<Item>): seq<int> {
    if shape == [] then []
    else (if shape[0].Guard? then [shape[0].handler] else []) + Handlers(shape[1..])
  }

  /** The fs:0 value a shape with top a stands for, over an outer chain starting at fs0. */
  function Top(shape: seq<Item>, a: int, fs0: int): int {
    if shape == [] then fs0
    else if shape[0].Guard? then a
    else Top(shape[1..], a + 4, fs0)
  }

  /** Memory from a upwards holds the shape, each guard linked to the next one. */
  predicate Laid(m: Memory, shape: seq<Item>, a: int, fs0: int) {
    if shape == [] then true
    else match shape[0]
      case Guard(h) => IsRegistration(m, a, Top(shape[1..], a + 8, fs0), h) && Laid(m, shape[1..], a + 8, fs0)
      case Data(v) => Word(m, a) == v && Laid(m, shape[1..], a + 4, fs0)
  }

  /** c is what a disciplined program started at c0 has made of the machine. */
  ghost predicate Represents(c: Cpu, shape: seq<Item>, c0: Cpu) {
    && c.esp == c0.esp - Size(shape)
    && c.fs0 == Top(shape, c.esp, c0.fs0)
    && Laid(c.mem, shape, c.esp, c0.fs0)
    && (forall a :: c0.esp <= a ==> Word(c.mem, a) == Word(c0.mem, a))
  }

  lemma {:induction false} SizeNonNegative(shape: seq<Item>)
    ensures Size(shape) >= 0
  {
    if shape != [] { SizeNonNegative(shape[1..]); }
  }

  /** Writing below the top of a shape leaves it in place. */
  lemma {:induction false} LaidBelow(m: Memory, m': Memory, shape: seq<Item>, a: int, fs0: int)
    requires Laid(m, shape, a, fs0) && forall b :: a <= b ==> Word(m', b) == Word(m, b)
    ensures Laid(m', shape, a, fs0)
  {
    if shape != [] { LaidBelow(m, m', shape[1..], a + Bytes(shape[0]), fs0); }
  }

  lemma {:induction false} PokeLaid(m: Memory, shape: seq<Item>, a: int, fs0: int, n: nat, v: int)
    requires Laid(m, shape, a, fs0) && IsData(shape, n)
    ensures Laid(m[a + n := v], Overwrite(shape, n, v), a, fs0)
    ensures Top(Overwrite(shape, n, v), a, fs0) == Top(shape, a, fs0)
    ensures Size(Overwrite(shape, n, v)) == Size(shape) && n < Size(shape)
  {
    var rest, m' := shape[1..], m[a + n := v];
    SizeNonNegative(rest);
    if n == 0 {
      assert Overwrite(shape, n, v)[1..] == rest;
      LaidBelow(m, m', rest, a + 4, fs0);
    } else {
      var up := Bytes(shape[0]);
      PokeLaid(m, rest, a + up, fs0, n - up, v);
      assert m[a + up + (n - up) := v] == m';
      assert Overwrite(shape, n, v)[1..] == Overwrite(rest, n - up, v);
    }
  }

  lemma {:induction false} ExecRepresents(c: Cpu, shape: seq<Item>, c0: Cpu, i: Instr)
    requires Represents(c, shape, c0) && Disciplined(shape, i)
    ensures Represents(Exec(c, i), Reshape(shape, i), c0)
  {
    SizeNonNegative(shape);
    var c', shape' := Exec(c, i), Reshape(shape, i);
    match i
    case Enter(h) =>
      LaidBelow(c.mem, c'.mem, shape, c.esp, c0.fs0);
      assert shape'[1..] == shape;
    case Leave =>
    case Push(v) =>
      LaidBelow(c.mem, c'.mem, shape, c.esp, c0.fs0);
      assert shape'[1..] == shape;
    case Pop =>
    case Poke(n, v) =>
      PokeLaid(c.mem, shape, c.esp, c0.fs0, n, v);
  }

  lemma {:induction false} RunRepresents(c: Cpu, shape: seq<Item>, c0: Cpu, program: seq<Instr>)
    requires Represents(c, shape, c0) && WellNested(shape, program)
    ensures Represents(Run(c, program), FinalShape(shape, program), c0)
    decreases |program|
  {
    if program != [] {
      ExecRepresents(c, shape, c0, program[0]);
      RunRepresents(Exec(c, program[0]), Reshape(shape, program[0]), c0, program[1..]);
    }
  }

  /** Frame discipline: a well-nested program that takes down everything it put up restores
      fs:0, esp and every word at or above the starting esp. */
  lemma {:induction false} BalancedRestores(c: Cpu, program: seq<Instr>)
    requires WellNested([], program) && FinalShape([], program) == []
    ensures var c' := Run(c, program);
            c'.fs0 == c.fs0 && c'.esp == c.esp && forall a :: c.esp <= a ==> Word(c'.mem, a) == Word(c.mem, a)
  {
    RunRepresents(c, [], c, program);
  }

  // ----- Walking the chain -----

  lemma {:induction false} ChainAbove(m: Memory, m': Memory, p: int, nodes: seq<Node>, end: int, base: int)
    requires Chain(m, p, nodes, end) && (forall a :: base <= a ==> Word(m', a) == Word(m, a))
    requires forall k :: 0 <= k < |nodes| ==> base <= nodes[k].address
    ensures Chain(m', p, nodes, end)
    decreases |nodes|
  {
    if nodes != [] { ChainAbove(m, m', Word(m, p), nodes[1..], end, base); }
  }

  lemma {:induction false} ChainLonger(m: Memory, a: int, prev: int, handler: int, nodes: seq<Node>, end: int)
    requires IsRegistration(m, a, prev, handler) && Chain(m, prev, nodes, end)
    ensures Chain(m, a, [Node(a, handler)] + nodes, end)
  {
    assert ([Node(a, handler)] + nodes)[1..] == nodes;
  }

  /** The nodes of a shape, one item at a time. */
  lemma {:induction false} NodesUnfold(shape: seq<Item>, a: int, outer: seq<Node>)
    requires shape != []
    ensures var rest := Nodes(shape[1..], a + Bytes(shape[0])) + outer;
            Nodes(shape, a) + outer == if shape[0].Guard? then [Node(a, shape[0].handler)] + rest else rest
  {
    var above := Nodes(shape[1..], a + Bytes(shape[0]));
    if shape[0].Guard? {
      assert ([Node(a, shape[0].handler)] + above) + outer == [Node(a, shape[0].handler)] + (above + outer);
    } else {
      assert [] + above == above;
    }
  }

  lemma {:induction false} LaidUnfold(m: Memory, shape: seq<Item>, a: int, fs0: int)
    requires shape != [] && Laid(m, shape, a, fs0)
    ensures var up := a + Bytes(shape[0]);
            && Laid(m, shape[1..], up, fs0)
            && (if shape[0].Guard?
                then Top(shape, a, fs0) == a && IsRegistration(m, a, Top(shape[1..], up, fs0), shape[0].handler)
                else Top(shape, a, fs0) == Top(shape[1..], up, fs0))
  {
  }

  lemma {:induction false} LaidIsChain(m: Memory, shape: seq<Item>, a: int, fs0: int, outer: seq<Node>, end: int)
    requires Laid(m, shape, a, fs0) && Chain(m, fs0, outer, end)
    ensures Chain(m, Top(shape, a, fs0), Nodes(shape, a) + outer, end)
  {
    if shape == [] {
      assert Nodes(shape, a) + outer == outer;
    } else {
      LaidUnfold(m, shape, a, fs0);
      NodesUnfold(shape, a, outer);
      LaidIsChain(m, shape[1..], a + Bytes(shape[0]), fs0, outer, end);
      LaidGuard(m, shape, a, fs0, Nodes(shape[1..], a + Bytes(shape[0])) + outer, end);
    }
  }

  lemma {:induction false} LaidGuard(m: Memory, shape: seq<Item>, a: int, fs0: int, rest: seq<Node>, end: int)
    requires shape != [] && Laid(m, shape, a, fs0)
    requires Chain(m, Top(shape[1..], a + Bytes(shape[0]), fs0), rest, end)
    ensures Chain(m, Top(shape, a, fs0),
                  if shape[0].Guard? then [Node(a, shape[0].handler)] + rest else rest, end)
  {
    if shape[0].Guard? { ChainLonger(m, a, Top(shape[1..], a + 8, fs0), shape[0].handler, rest, end); }
  }

  lemma {:induction false} NodesOrdered(shape: seq<Item>, a: int)
    ensures forall k :: 0 <= k < |Nodes(shape, a)| ==>
              a <= Nodes(shape, a)[k].address && Nodes(shape, a)[k].address + 8 <= a + Size(shape)
    ensures Ascending(Nodes(shape, a))
  {
    if shape != [] {
      NodesOrdered(shape[1..], a + Bytes(shape[0]));
      SizeNonNegative(shape[1..]);
    }
  }

  lemma {:induction false} NodesHandlers(shape: seq<Item>, a: int)
    ensures |Nodes(shape, a)| == |Handlers(shape)|
    ensures forall k :: 0 <= k < |Handlers(shape)| ==> Nodes(shape, a)[k].handler == Handlers(shape)[k]
  {
    if shape != [] { NodesHandlers(shape[1..], a + Bytes(shape[0])); }
  }

  /** Any prefix of a well-nested program is well nested. */
  lemma {:induction false} PrefixWellNested(shape: seq<Item>, program: seq<Instr>, n: nat)
    requires WellNested(shape, program) && n <= |program|
    ensures WellNested(shape, program[..n])
    decreases n
  {
    if n > 0 {
      PrefixWellNested(Reshape(shape, program[0]), program[1..], n - 1);
      assert program[..n][1..] == program[1..][..n - 1];
    }
  }

  /** Chain meaning: at every point n of a well-nested program the walk from fs:0 visits the
      handlers installed and not yet removed, most recent first, then the chain that was
      there before, at strictly increasing addresses, and so comes to the same end. */
  lemma {:induction false} WalkFindsHandlers(c: Cpu, program: seq<Instr>, n: nat, outer: seq<Node>, end: int)
    requires WellNested([], program) && n <= |program|
    requires Chain(c.mem, c.fs0, outer, end) && Ascending(outer)
    requires forall k :: 0 <= k < |outer| ==> c.esp <= outer[k].address
    ensures WellNested([], program[..n])
    ensures var c', shape := Run(c, program[..n]), FinalShape([], program[..n]);
            var nodes := Nodes(shape, c'.esp);
            && Chain(c'.mem, c'.fs0, nodes + outer, end) && Ascending(nodes + outer)
            && |nodes| == |Handlers(shape)| && forall k :: 0 <= k < |nodes| ==> nodes[k].handler == Handlers(shape)[k]
  {
    PrefixWellNested([], program, n);
    var c', shape := Run(c, program[..n]), FinalShape([], program[..n]);
    RunRepresents(c, [], c, program[..n]);
    ChainAbove(c.mem, c'.mem, c.fs0, outer, end, c.esp);
    LaidIsChain(c'.mem, shape, c'.esp, c.fs0, outer, end);
    NodesOrdered(shape, c'.esp);
    NodesHandlers(shape, c'.esp);
  }

  /** Two walks from the same place find the same chain, so the nodes above are the chain. */
  lemma {:induction false} WalkIsUnique(m: Memory, p: int, xs: seq<Node>, ys: seq<Node>, end: int)
    requires Chain(m, p, xs, end) && Chain(m, p, ys, end)
    requires forall k :: 0 <= k < |xs| ==> xs[k].address != end
    requires forall k :: 0 <= k < |ys| ==> ys[k].address != end
    ensures xs == ys
    decreases |xs|
  {
    if xs != [] && ys != [] { WalkIsUnique(m, Word(m, p), xs[1..], ys[1..], end); }
  }

  // ----- Programs that do what they like -----

  /** body, guarded by handlers, outermost first. */
  function Guards(handlers: seq<int>, body: seq<Instr>): seq<Instr> {
    if handlers == [] then body else [Enter(handlers[0])] + (Guards(handlers[1..], body) + [Leave])
  }

  function EnterAll(c: Cpu, handlers: seq<int>): Cpu
    decreases |handlers|
  {
    if handlers == [] then c else EnterAll(Try1(c, handlers[0]), handlers[1..])
  }

  /** Every __except1 brings fs:0 and esp back to where its own __try1 found them. */
  ghost predicate EachUndone(c: Cpu, handlers: seq<int>, body: seq<Instr>)
    decreases |handlers|
  {
    handlers == [] ||
    var c1 := Try1(c, handlers[0]);
    var c2 := Except1(Run(c1, Guards(handlers[1..], body)));
    c2.fs0 == c.fs0 && c2.esp == c.esp && EachUndone(c1, handlers[1..], body)
  }

  /** The prev word of guard k, counted from the outermost, when the guards were put up at c. */
  function PrevWord(c: Cpu, k: nat): int {
    if k == 0 then c.fs0 else c.esp - 8 * k
  }

  /** b has esp at the innermost of n registrations put up at c, and all their prev words. */
  ghost predicate Intact(c: Cpu, n: nat, b: Cpu) {
    b.esp == c.esp - 8 * n && forall k: nat :: k < n ==> Word(b.mem, c.esp - 8 * k - 8) == PrevWord(c, k)
  }

  lemma {:induction false} RunConcat(c: Cpu, p: seq<Instr>, q: seq<Instr>)
    ensures Run(c, p + q) == Run(Run(c, p), q)
    decreases |p|
  {
    if p == [] {
      assert p + q == q;
    } else {
      assert (p + q)[0] == p[0] && (p + q)[1..] == p[1..] + q;
      RunConcat(Exec(c, p[0]), p[1..], q);
    }
  }

  lemma {:induction false} RunGuarded(c: Cpu, handler: int, inner: seq<Instr>)
    ensures Run(c, [Enter(handler)] + (inner + [Leave])) == Except1(Run(Try1(c, handler), inner))
  {
    var c1 := Try1(c, handler);
    assert ([Enter(handler)] + (inner + [Leave]))[1..] == inner + [Leave];
    RunConcat(c1, inner, [Leave]);
    assert [Leave][1..] == [];
    assert Run(Run(c1, inner), [Leave]) == Run(Except1(Run(c1, inner)), []);
  }

  /** A guarded body that is balanced leaves everything as it was, and the outer fs:0 in eax. */
  lemma {:induction false} GuardedRestores(c: Cpu, handler: int, body: seq<Instr>)
    requires WellNested([], body) && FinalShape([], body) == []
    ensures var c' := Run(c, [Enter(handler)] + (body + [Leave]));
            && c'.eax == c'.fs0 == c.fs0 && c'.esp == c.esp
            && forall a :: c.esp <= a ==> Word(c'.mem, a) == Word(c.mem, a)
  {
    RunGuarded(c, handler, body);
    BalancedRestores(Try1(c, handler), body);
  }

  /** The removals leave memory alone and move esp by eight each. */
  lemma {:induction false} GuardsEffect(c: Cpu, handlers: seq<int>, body: seq<Instr>)
    ensures var b, r := Run(EnterAll(c, handlers), body), Run(c, Guards(handlers, body));
            r.mem == b.mem && r.esp == b.esp + 8 * |handlers|
    decreases |handlers|
  {
    if handlers != [] {
      GuardsEffect(Try1(c, handlers[0]), handlers[1..], body);
      RunGuarded(c, handlers[0], Guards(handlers[1..], body));
    }
  }

  /** The exact condition, for any nesting depth and any body, disciplined or not: each
      __except1 undoes its __try1 if and only if after the body esp is at the innermost
      registration and every registration's prev word is what its __try1 stored. */
  lemma {:induction false} LeavesUndoEntersIff(c: Cpu, handlers: seq<int>, body: seq<Instr>)
    requires handlers != []
    ensures EachUndone(c, handlers, body) <==> Intact(c, |handlers|, Run(EnterAll(c, handlers), body))
    decreases |handlers|
  {
    var n, c1, b := |handlers|, Try1(c, handlers[0]), Run(EnterAll(c, handlers), body);
    GuardsEffect(c1, handlers[1..], body);
    if n == 1 {
      IntactSplit(c, 1, b);
    } else {
      LeavesUndoEntersIff(c1, handlers[1..], body);
      IntactSplit(c, n, b);
      IntactShift(c, c1, n - 1, b);
    }
  }

  /** The outermost registration, and the others. */
  lemma {:induction false} IntactSplit(c: Cpu, n: nat, b: Cpu)
    requires n > 0
    ensures Intact(c, n, b) <==>
            b.esp == c.esp - 8 * n && Word(b.mem, c.esp - 8) == c.fs0 && InnerIntact(c, n, b)
  {
    assert PrevWord(c, 0) == c.fs0;
  }

  ghost predicate InnerIntact(c: Cpu, n: nat, b: Cpu) {
    forall k: nat :: 0 < k < n ==> Word(b.mem, c.esp - 8 * k - 8) == PrevWord(c, k)
  }

  lemma {:induction false} IntactShift(c: Cpu, c1: Cpu, n: nat, b: Cpu)
    requires c1.esp == c.esp - 8 && c1.fs0 == c1.esp
    ensures Intact(c1, n, b) <==> b.esp == c.esp - 8 * (n + 1) && InnerIntact(c, n + 1, b)
  {
    forall k: nat
      ensures Word(b.mem, c1.esp - 8 * k - 8) == Word(b.mem, c.esp - 8 * (k + 1) - 8)
      ensures PrevWord(c1, k) == PrevWord(c, k + 1)
    {
    }
    if InnerIntact(c, n + 1, b) {
      forall k: nat | k < n ensures Word(b.mem, c1.esp - 8 * k - 8) == PrevWord(c1, k) {
        assert 0 < k + 1 < n + 1;
      }
    }
    if forall k: nat :: k < n ==> Word(b.mem, c1.esp - 8 * k - 8) == PrevWord(c1, k) {
      forall k: nat | 0 < k < n + 1 ensures Word(b.mem, c.esp - 8 * k - 8) == PrevWord(c, k) {
        var j: nat := k - 1;
        assert Word(b.mem, c1.esp - 8 * j - 8) == PrevWord(c1, j);
      }
    }
  }

  /** On a stack that is not as __try1 left it __except1 smashes things: one word too many
      and fs:0 becomes that word, which need not be a registration at all. */
  lemma {:induction false} UnbalancedLeaveSmashes(c: Cpu, handler: int, v: int)
    ensures Run(c, [Enter(handler), Push(v), Leave]).fs0 == v
    ensures !WellNested([], [Enter(handler), Push(v), Leave])
  {
    var program := [Enter(handler), Push(v), Leave];
    assert program[1..] == [Push(v), Leave] && program[1..][1..] == [Leave];
    assert [Leave][1..] == [];
    var shape := Reshape([], Enter(handler));
    assert !WellNested(Reshape(shape, Push(v)), [Leave]);
    var c1 := Exec(c, program[0]);
    assert Run(c, program) == Run(Exec(c1, Push(v)), [Leave]);
    assert Run(Exec(c1, Push(v)), [Leave]) == Run(Exec(Exec(c1, Push(v)), Leave), []);
  }
}
