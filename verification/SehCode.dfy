/** Structured programs over the macros of include/excpt.h: nested guarded bodies with local
    variables. The registration chain follows the nesting of the source. */
module SehCode {
  import opened SehChain

  // Guarded(h, body, rest) is __try1(h); body; __except1; rest. Local declares a word,
  // Assign stores into one, n bytes above esp.
  datatype Code =
    | Done
    | Local(v: int, body: Code, rest: Code)
    | Guarded(handler: int, body: Code, rest: Code)
    | Assign(n: nat, v: int, rest: Code)

  function Flatten(code: Code): seq<Instr> {
    match code
    case Done => []
    case Local(v, body, rest) => [Push(v)] + (Flatten(body) + ([Pop] + Flatten(rest)))
    case Guarded(h, body, rest) => [Enter(h)] + (Flatten(body) + ([Leave] + Flatten(rest)))
    case Assign(n, v, rest) => [Poke(n, v)] + Flatten(rest)
  }

  /** Every assignment hits a declared word, of whatever enclosing body. */
  predicate Scoped(shape: seq<Item>, code: Code)
    decreases code
  {
    match code
    case Done => true
    case Local(v, body, rest) => Scoped([Data(v)] + shape, body) && Scoped(shape, rest)
    case Guarded(h, body, rest) => Scoped([Guard(h)] + shape, body) && Scoped(shape, rest)
    case Assign(n, _, rest) => IsData(shape, n) && Scoped(shape, rest)
  }

  /** Equal up to the contents of data words. */
  predicate SameLayout(p: seq<Item>, q: seq<Item>) {
    |p| == |q| && forall k :: 0 <= k < |p| ==> if p[k].Guard? then p[k] == q[k] else q[k].Data?
  }

  lemma {:induction false} IsDataLayout(p: seq<Item>, q: seq<Item>, n: int)
    requires SameLayout(p, q) && IsData(p, n)
    ensures IsData(q, n)
    decreases |p|
  {
    if n != 0 { IsDataLayout(p[1..], q[1..], n - Bytes(p[0])); }
  }

  lemma {:induction false} ScopedLayout(p: seq<Item>, q: seq<Item>, code: Code)
    requires SameLayout(p, q) && Scoped(p, code)
    ensures Scoped(q, code)
    decreases code
  {
    match code
    case Done =>
    case Local(v, body, rest) =>
      ScopedLayout([Data(v)] + p, [Data(v)] + q, body);
      ScopedLayout(p, q, rest);
    case Guarded(h, body, rest) =>
      ScopedLayout([Guard(h)] + p, [Guard(h)] + q, body);
      ScopedLayout(p, q, rest);
    case Assign(n, _, rest) =>
      IsDataLayout(p, q, n);
      ScopedLayout(p, q, rest);
  }

  lemma {:induction false} OverwriteLayout(shape: seq<Item>, n: int, v: int)
    requires IsData(shape, n)
    ensures SameLayout(shape, Overwrite(shape, n, v))
    decreases |shape|
  {
    if n != 0 { OverwriteLayout(shape[1..], n - Bytes(shape[0]), v); }
  }

  lemma {:induction false} Prepend(shape: seq<Item>, i: Instr, rest: seq<Instr>)
    requires Disciplined(shape, i) && WellNested(Reshape(shape, i), rest)
    ensures WellNested(shape, [i] + rest) && FinalShape(shape, [i] + rest) == FinalShape(Reshape(shape, i), rest)
  {
    assert ([i] + rest)[1..] == rest;
  }

  lemma {:induction false} Concatenation(shape: seq<Item>, p: seq<Instr>, q: seq<Instr>)
    requires WellNested(shape, p) && WellNested(FinalShape(shape, p), q)
    ensures WellNested(shape, p + q) && FinalShape(shape, p + q) == FinalShape(FinalShape(shape, p), q)
    decreases |p|
  {
    if p == [] {
      assert p + q == q;
    } else {
      var i, rest := p[0], p[1..];
      assert p + q == [i] + (rest + q);
      assert FinalShape(shape, p) == FinalShape(Reshape(shape, i), rest);
      Concatenation(Reshape(shape, i), rest, q);
      Prepend(shape, i, rest + q);
    }
  }

  /** [open] body [close] rest, from shape through inner to the shape that rest starts in. */
  lemma {:induction false} OpenBodyClose(shape: seq<Item>, open: Instr, body: seq<Instr>, close: Instr,
                                         rest: seq<Instr>)
    requires open.Enter? || open.Push?
    requires WellNested(Reshape(shape, open), body)
    requires var inner := FinalShape(Reshape(shape, open), body);
             Disciplined(inner, close) && WellNested(Reshape(inner, close), rest)
    ensures var p, inner := [open] + (body + ([close] + rest)), FinalShape(Reshape(shape, open), body);
            WellNested(shape, p) && FinalShape(shape, p) == FinalShape(Reshape(inner, close), rest)
  {
    Prepend(FinalShape(Reshape(shape, open), body), close, rest);
    Concatenation(Reshape(shape, open), body, [close] + rest);
    Prepend(shape, open, body + ([close] + rest));
  }

  // ----- Program points -----

  function Length(code: Code): nat {
    match code
    case Done => 0
    case Local(_, body, rest) => Length(body) + Length(rest) + 2
    case Guarded(_, body, rest) => Length(body) + Length(rest) + 2
    case Assign(_, _, rest) => Length(rest) + 1
  }

  lemma {:induction false} FlattenLength(code: Code)
    ensures |Flatten(code)| == Length(code)
  {
    match code
    case Done =>
    case Local(_, body, rest) => FlattenLength(body); FlattenLength(rest);
    case Guarded(_, body, rest) => FlattenLength(body); FlattenLength(rest);
    case Assign(_, _, rest) => FlattenLength(rest);
  }

  /** The handlers of the guarded bodies around the point before instruction n, innermost first. */
  function Enclosing(code: Code, n: nat): seq<int>
    requires n <= Length(code)
    decreases code
  {
    match code
    case Done => []
    case Local(_, body, rest) =>
      if n == 0 then []
      else if n <= Length(body) + 1 then Enclosing(body, n - 1)
      else Enclosing(rest, n - 2 - Length(body))
    case Guarded(h, body, rest) =>
      if n == 0 then []
      else if n <= Length(body) + 1 then Enclosing(body, n - 1) + [h]
      else Enclosing(rest, n - 2 - Length(body))
    case Assign(_, _, rest) => if n == 0 then [] else Enclosing(rest, n - 1)
  }

  /** What the source says is on the stack at that point, with the values assigned so far. */
  function ShapeAt(shape: seq<Item>, code: Code, n: nat): (r: seq<Item>)
    requires Scoped(shape, code) && n <= Length(code)
    ensures n == Length(code) ==> SameLayout(shape, r)
    decreases Length(code)
  {
    match code
    case Done => shape
    case Local(v, body, rest) => InBlock(shape, Data(v), body, rest, n)
    case Guarded(h, body, rest) => InBlock(shape, Guard(h), body, rest, n)
    case Assign(o, v, rest) =>
      OverwriteLayout(shape, o, v);
      ScopedLayout(shape, Overwrite(shape, o, v), rest);
      if n == 0 then shape else ShapeAt(Overwrite(shape, o, v), rest, n - 1)
  }

  /** The same inside and after a block that puts up item. */
  function InBlock(shape: seq<Item>, item: Item, body: Code, rest: Code, n: nat): (r: seq<Item>)
    requires Scoped([item] + shape, body) && Scoped(shape, rest) && n <= Length(body) + Length(rest) + 2
    ensures n == Length(body) + Length(rest) + 2 ==> SameLayout(shape, r)
    decreases Length(body) + Length(rest) + 1
  {
    if n == 0 then shape
    else if n <= Length(body) + 1 then ShapeAt([item] + shape, body, n - 1)
    else
      var back := ShapeAt([item] + shape, body, Length(body))[1..];
      ScopedLayout(shape, back, rest);
      ShapeAt(back, rest, n - 2 - Length(body))
  }

  lemma {:induction false} PrefixInBody(open: Instr, body: seq<Instr>, close: Instr, rest: seq<Instr>, n: nat)
    requires 0 < n <= |body| + 1
    ensures ([open] + (body + ([close] + rest)))[..n] == [open] + body[..n - 1]
  {
  }

  lemma {:induction false} PrefixInRest(open: Instr, body: seq<Instr>, close: Instr, rest: seq<Instr>, n: nat)
    requires |body| + 2 <= n <= |body| + |rest| + 2
    ensures ([open] + (body + ([close] + rest)))[..n] == [open] + (body + ([close] + rest[..n - 2 - |body|]))
  {
  }

  /** The shape that the first n instructions of a program build up. */
  ghost predicate Builds(shape: seq<Item>, program: seq<Instr>, r: seq<Item>) {
    WellNested(shape, program) && FinalShape(shape, program) == r
  }

  /** The machine follows the source: after any number of instructions the stack is what the
      source says at that point. */
  lemma {:induction false} PrefixBuilds(shape: seq<Item>, code: Code, n: nat)
    requires Scoped(shape, code) && n <= Length(code)
    ensures |Flatten(code)| == Length(code) && Builds(shape, Flatten(code)[..n], ShapeAt(shape, code, n))
    decreases Length(code)
  {
    FlattenLength(code);
    if n == 0 {
      assert Flatten(code)[..0] == [];
    } else {
      match code
      case Done =>
      case Local(v, body, rest) => BlockBuilds(shape, Push(v), Data(v), body, Pop, rest, n);
      case Guarded(h, body, rest) => BlockBuilds(shape, Enter(h), Guard(h), body, Leave, rest, n);
      case Assign(o, v, rest) =>
        OverwriteLayout(shape, o, v);
        ScopedLayout(shape, Overwrite(shape, o, v), rest);
        PrefixBuilds(Overwrite(shape, o, v), rest, n - 1);
        Prepend(shape, Poke(o, v), Flatten(rest)[..n - 1]);
        assert Flatten(code)[..n] == [Poke(o, v)] + Flatten(rest)[..n - 1];
    }
  }

  lemma {:induction false} BlockBuilds(shape: seq<Item>, open: Instr, item: Item, body: Code, close: Instr, rest: Code,
                                       n: nat)
    requires (open.Push? && item == Data(open.v) && close == Pop) ||
             (open.Enter? && item == Guard(open.handler) && close == Leave)
    requires Scoped([item] + shape, body) && Scoped(shape, rest) && 0 < n <= Length(body) + Length(rest) + 2
    ensures var p := [open] + (Flatten(body) + ([close] + Flatten(rest)));
            n <= |p| && Builds(shape, p[..n], InBlock(shape, item, body, rest, n))
    decreases Length(body) + Length(rest) + 1
  {
    FlattenLength(body);
    FlattenLength(rest);
    var fb, fr := Flatten(body), Flatten(rest);
    if n <= Length(body) + 1 {
      PrefixBuilds([item] + shape, body, n - 1);
      PrefixInBody(open, fb, close, fr, n);
      Prepend(shape, open, fb[..n - 1]);
    } else {
      PrefixBuilds([item] + shape, body, Length(body));
      assert fb[..Length(body)] == fb;
      var inner := ShapeAt([item] + shape, body, Length(body));
      ScopedLayout(shape, inner[1..], rest);
      PrefixBuilds(inner[1..], rest, n - 2 - Length(body));
      PrefixInRest(open, fb, close, fr, n);
      OpenBodyClose(shape, open, fb, close, fr[..n - 2 - Length(body)]);
    }
  }

  lemma {:induction false} CodeIsWellNested(shape: seq<Item>, code: Code)
    requires Scoped(shape, code)
    ensures WellNested(shape, Flatten(code)) && SameLayout(shape, FinalShape(shape, Flatten(code)))
  {
    PrefixBuilds(shape, code, Length(code));
    assert Flatten(code)[..Length(code)] == Flatten(code);
  }

  /** However guarded bodies are nested, and whichever enclosing locals they assign to,
      running them leaves fs:0, esp and the stack above as they were. */
  lemma {:induction false} NestedCodeRestores(c: Cpu, code: Code)
    requires Scoped([], code)
    ensures var c' := Run(c, Flatten(code));
            c'.fs0 == c.fs0 && c'.esp == c.esp && forall a :: c.esp <= a ==> Word(c'.mem, a) == Word(c.mem, a)
  {
    CodeIsWellNested([], code);
    BalancedRestores(c, Flatten(code));
  }

  // ----- Handlers -----

  lemma {:induction false} HandlersLayout(p: seq<Item>, q: seq<Item>)
    requires SameLayout(p, q)
    ensures Handlers(p) == Handlers(q)
    decreases |p|
  {
    if p != [] { HandlersLayout(p[1..], q[1..]); }
  }

  lemma {:induction false} HandlersAt(shape: seq<Item>, code: Code, n: nat)
    requires Scoped(shape, code) && n <= Length(code)
    ensures Handlers(ShapeAt(shape, code, n)) == Enclosing(code, n) + Handlers(shape)
    decreases Length(code)
  {
    match code
    case Done =>
    case Local(v, body, rest) =>
      HandlersInBlock(shape, Data(v), body, rest, n);
    case Guarded(h, body, rest) =>
      HandlersInBlock(shape, Guard(h), body, rest, n);
    case Assign(o, v, rest) =>
      OverwriteLayout(shape, o, v);
      ScopedLayout(shape, Overwrite(shape, o, v), rest);
      HandlersLayout(shape, Overwrite(shape, o, v));
      if n > 0 { HandlersAt(Overwrite(shape, o, v), rest, n - 1); }
  }

  function OwnHandler(item: Item): seq<int> {
    if item.Guard? then [item.handler] else []
  }

  lemma {:induction false} HandlersCons(item: Item, shape: seq<Item>, inner: seq<int>)
    ensures inner + Handlers([item] + shape) == (inner + OwnHandler(item)) + Handlers(shape)
  {
    assert ([item] + shape)[1..] == shape;
    assert Handlers([item] + shape) == OwnHandler(item) + Handlers(shape);
  }

  lemma {:induction false} HandlersInBlock(shape: seq<Item>, item: Item, body: Code, rest: Code, n: nat)
    requires Scoped([item] + shape, body) && Scoped(shape, rest) && n <= Length(body) + Length(rest) + 2
    ensures Handlers(InBlock(shape, item, body, rest, n)) ==
            if n == 0 then Handlers(shape)
            else if n <= Length(body) + 1 then (Enclosing(body, n - 1) + OwnHandler(item)) + Handlers(shape)
            else Enclosing(rest, n - 2 - Length(body)) + Handlers(shape)
    decreases Length(body) + Length(rest) + 1
  {
    if 0 < n <= Length(body) + 1 {
      HandlersAt([item] + shape, body, n - 1);
      HandlersCons(item, shape, Enclosing(body, n - 1));
    } else if n > 0 {
      var back := ShapeAt([item] + shape, body, Length(body))[1..];
      assert SameLayout(shape, back);
      ScopedLayout(shape, back, rest);
      HandlersLayout(shape, back);
      HandlersAt(back, rest, n - 2 - Length(body));
    }
  }

  /** The chain follows the source: at every point of a nest of guarded bodies the walk from
      fs:0 finds exactly the handlers of the bodies around that point, innermost first, and
      then the chain that was there before. */
  lemma {:induction false} WalkFollowsNesting(c: Cpu, code: Code, n: nat, outer: seq<Node>, end: int)
    returns (nodes: seq<Node>)
    requires Scoped([], code) && n <= Length(code)
    requires Chain(c.mem, c.fs0, outer, end) && Ascending(outer)
    requires forall k :: 0 <= k < |outer| ==> c.esp <= outer[k].address
    ensures |Flatten(code)| == Length(code)
    ensures var c' := Run(c, Flatten(code)[..n]); Chain(c'.mem, c'.fs0, nodes + outer, end)
    ensures Ascending(nodes + outer)
    ensures |nodes| == |Enclosing(code, n)|
    ensures forall k :: 0 <= k < |nodes| ==> nodes[k].handler == Enclosing(code, n)[k]
  {
    FlattenLength(code);
    CodeIsWellNested([], code);
    PrefixBuilds([], code, n);
    HandlersAt([], code, n);
    assert Enclosing(code, n) + [] == Enclosing(code, n);
    WalkFindsHandlers(c, Flatten(code), n, outer, end);
    nodes := Nodes(ShapeAt([], code, n), Run(c, Flatten(code)[..n]).esp);
  }

  // ----- Locals -----

  /** The value of the data word n bytes above the top. */
  function DataAt(shape: seq<Item>, n: int): int
    requires IsData(shape, n)
  {
    if n == 0 then shape[0].v else DataAt(shape[1..], n - Bytes(shape[0]))
  }

  lemma {:induction false} LaidData(m: Memory, shape: seq<Item>, a: int, fs0: int, n: int)
    requires Laid(m, shape, a, fs0) && IsData(shape, n)
    ensures Word(m, a + n) == DataAt(shape, n)
    decreases |shape|
  {
    if n != 0 { LaidData(m, shape[1..], a + Bytes(shape[0]), fs0, n - Bytes(shape[0])); }
  }

  /** At every point every declared word holds what the source last put there. */
  lemma {:induction false} LocalsHold(c: Cpu, code: Code, n: nat, o: nat)
    requires Scoped([], code) && n <= Length(code) && IsData(ShapeAt([], code, n), o)
    ensures |Flatten(code)| == Length(code)
    ensures var c' := Run(c, Flatten(code)[..n]); Word(c'.mem, c'.esp + o) == DataAt(ShapeAt([], code, n), o)
  {
    PrefixBuilds([], code, n);
    RunRepresents(c, [], c, Flatten(code)[..n]);
    LaidData(Run(c, Flatten(code)[..n]).mem, ShapeAt([], code, n), Run(c, Flatten(code)[..n]).esp, c.fs0, o);
  }

  /** Putting up a block or assigning, on the machine: a local's word holds its value, a guarded
      body finds its handler in the registration at fs:0, and an assignment changes the word
      it names and no other. */
  lemma {:induction false} FirstInstruction(c: Cpu, code: Code)
    requires code != Done
    ensures |Flatten(code)| > 0
    ensures var c' := Run(c, Flatten(code)[..1]);
            match code
            case Done => true
            case Local(v, _, _) => c'.esp == c.esp - 4 && Word(c'.mem, c'.esp) == v && c'.fs0 == c.fs0
            case Guarded(h, _, _) =>
              c'.fs0 == c'.esp == c.esp - 8 && IsRegistration(c'.mem, c'.fs0, c.fs0, h)
            case Assign(n, v, _) =>
              && c'.esp == c.esp && c'.fs0 == c.fs0 && Word(c'.mem, c.esp + n) == v
              && forall a :: a != c.esp + n ==> Word(c'.mem, a) == Word(c.mem, a)
  {
    var first := Flatten(code)[..1];
    assert first == [Flatten(code)[0]] && first[1..] == [];
    assert Run(c, first) == Run(Exec(c, first[0]), []);
  }
}
