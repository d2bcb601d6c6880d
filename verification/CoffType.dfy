/** The COFF symbol type word of include/coff.h: a base type in the low four bits and above
    it a stack of two-bit derivations, the outermost one lowest. The macros are written with
    C's operators on two's complement integers of unlimited width. */
module CoffType {

  // ----- C's bitwise operators, bit by bit (0 is all zeros, -1 all ones) -----

  function Magnitude(x: int): nat {
    if x < 0 then -x - 1 else x
  }

  function And(x: int, y: int): int
    decreases Magnitude(x)
  {
    if x == 0 || y == 0 then 0 else if x == -1 then y else if y == -1 then x
    else 2 * And(x / 2, y / 2) + (x % 2) * (y % 2)
  }

  function Or(x: int, y: int): int {
    Not(And(Not(x), Not(y)))
  }

  function Not(x: int): int {
    -x - 1
  }

  function ShiftRight(x: int, n: nat): int
    decreases n
  {
    if n == 0 then x else ShiftRight(x / 2, n - 1)
  }

  function ShiftLeft(x: int, n: nat): int {
    if n == 0 then x else 2 * ShiftLeft(x, n - 1)
  }

  // ----- The macros -----

  const N_BTMASK := 0xf
  const N_TMASK := 0x30
  const N_BTSHFT := 4
  const N_TSHIFT := 2

  const DT_NON := 0
  const DT_PTR := 1
  const DT_FCN := 2
  const DT_ARY := 3

  function BTYPE(x: int): int {
    And(x, N_BTMASK)
  }

  predicate ISPTR(x: int) {
    And(x, N_TMASK) == ShiftLeft(DT_PTR, N_BTSHFT)
  }

  predicate ISFCN(x: int) {
    And(x, N_TMASK) == ShiftLeft(DT_FCN, N_BTSHFT)
  }

  predicate ISARY(x: int) {
    And(x, N_TMASK) == ShiftLeft(DT_ARY, N_BTSHFT)
  }

  function DECREF(x: int): int {
    Or(And(ShiftRight(x, N_TSHIFT), Not(N_BTMASK)), And(x, N_BTMASK))
  }

  // ----- What the masks mean -----

  lemma {:induction false} AndStep(x: int, y: int)
    ensures And(x, y) == 2 * And(x / 2, y / 2) + (x % 2) * (y % 2)
  {
  }

  lemma {:induction false} OrStep(x: int, y: int)
    ensures Or(x, y) == 2 * Or(x / 2, y / 2) + (if x % 2 == 1 || y % 2 == 1 then 1 else 0)
  {
    AndStep(Not(x), Not(y));
    assert Not(x) / 2 == Not(x / 2) && Not(y) / 2 == Not(y / 2);
    assert Not(x) % 2 == 1 - x % 2 && Not(y) % 2 == 1 - y % 2;
  }

  /** Four bits at a time. */
  lemma {:induction false} AndNibble(x: int, y: int)
    ensures And(x, y) == 16 * And(x / 16, y / 16) +
                         8 * ((x / 8 % 2) * (y / 8 % 2)) + 4 * ((x / 4 % 2) * (y / 4 % 2)) +
                         2 * ((x / 2 % 2) * (y / 2 % 2)) + (x % 2) * (y % 2)
  {
    Halves(x);
    Halves(y);
    AndStep(x, y);
    AndStep(x / 2, y / 2);
    AndStep(x / 4, y / 4);
    AndStep(x / 8, y / 8);
  }

  lemma {:induction false} Halves(x: int)
    ensures x / 2 / 2 == x / 4 && x / 4 / 2 == x / 8 && x / 8 / 2 == x / 16
  {
  }

  lemma {:induction false} LowTwoBits(y: int)
    ensures And(y, 3) == y % 4
  {
    AndStep(y, 3);
    AndStep(y / 2, 1);
    assert And(y / 4, 0) == 0;
    assert y % 4 == 2 * (y / 2 % 2) + y % 2;
  }

  lemma {:induction false} OddMask(x: int, m: int)
    ensures And(x, 2 * m + 1) == 2 * And(x / 2, m) + x % 2
  {
    AndStep(x, 2 * m + 1);
  }

  lemma {:induction false} LowBits(x: int)
    ensures And(x, 0xf) == x % 16
  {
    OddMask(x, 7);
    OddMask(x / 2, 3);
    LowTwoBits(x / 2 / 2);
    Halves(x);
    NibbleValue(x);
    NibblePairs(x);
  }

  lemma {:induction false} NibblePairs(x: int)
    ensures x / 4 % 4 == 2 * (x / 8 % 2) + x / 4 % 2
  {
  }

  lemma {:induction false} NibbleValue(x: int)
    ensures x % 16 == 8 * (x / 8 % 2) + 4 * (x / 4 % 2) + 2 * (x / 2 % 2) + x % 2
  {
    Halves(x);
  }

  lemma {:induction false} HighBits(x: int)
    ensures And(x, -16) == x / 16 * 16
  {
    AndNibble(x, -16);
  }

  lemma {:induction false} EvenMask(x: int, m: int)
    ensures And(x, 2 * m) == 2 * And(x / 2, m)
  {
    AndStep(x, 2 * m);
  }

  lemma {:induction false} MiddleBits(x: int)
    ensures And(x, 0x30) == x / 16 % 4 * 16
  {
    EvenMask(x, 24);
    EvenMask(x / 2, 12);
    EvenMask(x / 2 / 2, 6);
    EvenMask(x / 2 / 2 / 2, 3);
    Halves(x);
    LowTwoBits(x / 16);
  }

  lemma {:induction false} OrDisjoint(a: int, b: int)
    requires 0 <= b < 16
    ensures Or(16 * a, b) == 16 * a + b
  {
    Halves(b);
    OrBit(8 * a, b);
    OrBit(4 * a, b / 2);
    OrBit(2 * a, b / 4);
    OrBit(a, b / 8);
    NibbleValue(b);
    assert Or(a, 0) == a;
  }

  lemma {:induction false} OrBit(a: int, b: int)
    requires b >= 0
    ensures Or(2 * a, b) == 2 * Or(a, b / 2) + b % 2
  {
    OrStep(2 * a, b);
  }

  /** The masks and shifts of the macros, as arithmetic, for every integer. */
  lemma {:induction false} MacroValues(x: int)
    ensures BTYPE(x) == x % 16
    ensures DECREF(x) == x / 64 * 16 + x % 16
    ensures ISPTR(x) <==> x / 16 % 4 == 1
    ensures ISFCN(x) <==> x / 16 % 4 == 2
    ensures ISARY(x) <==> x / 16 % 4 == 3
  {
    LowBits(x);
    MiddleBits(x);
    ShiftValues(DT_PTR);
    ShiftValues(DT_FCN);
    ShiftValues(DT_ARY);
    DecrefValue(x);
  }

  lemma {:induction false} DecrefValue(x: int)
    ensures DECREF(x) == x / 64 * 16 + x % 16
  {
    ShiftValues(x);
    LowBits(x);
    HighBits(x / 4);
    OrDisjoint(x / 64, x % 16);
    assert x / 4 / 16 == x / 64;
  }

  lemma {:induction false} ShiftValues(x: int)
    ensures ShiftRight(x, 2) == x / 4
    ensures ShiftLeft(x, 4) == 16 * x
  {
    assert ShiftRight(x, 2) == ShiftRight(x / 2, 1) == ShiftRight(x / 2 / 2, 0);
    assert ShiftLeft(x, 4) == 2 * ShiftLeft(x, 3) == 4 * ShiftLeft(x, 2) == 8 * ShiftLeft(x, 1);
  }

  // ----- What the word stands for -----

  // A derivation code; Plain is DT_NON, a hole below a derived one.
  datatype Derivation = Plain | Pointer | Function | Array

  datatype SymbolType = SymbolType(base: int, derivations: seq<Derivation>)

  function Code(d: Derivation): (c: int)
    ensures 0 <= c < 4
  {
    match d
    case Plain => DT_NON
    case Pointer => DT_PTR
    case Function => DT_FCN
    case Array => DT_ARY
  }

  /** The outermost derivation, as the three predicates tell it. */
  function Outermost(x: int): Derivation {
    if ISPTR(x) then Pointer else if ISFCN(x) then Function else if ISARY(x) then Array else Plain
  }

  /** The derivations read as base-4 digits, the outermost one least significant. */
  function Digits(ds: seq<Derivation>): (n: nat) {
    if ds == [] then 0 else Code(ds[0]) + 4 * Digits(ds[1..])
  }

  function Encode(base: int, ds: seq<Derivation>): int {
    base + 16 * Digits(ds)
  }

  /** The words in numerals: a base type is its own word, and one more derivation shifts those
      already there up by two bits and adds its code above the base. */
  lemma {:induction false} WordValues(base: int, ds: seq<Derivation>)
    ensures Encode(base, []) == base
    ensures var shifted := base + 4 * (Encode(base, ds) - base);
            && Encode(base, [Plain] + ds) == shifted
            && Encode(base, [Pointer] + ds) == shifted + 16
            && Encode(base, [Function] + ds) == shifted + 32
            && Encode(base, [Array] + ds) == shifted + 48
  {
    forall d: Derivation ensures Digits([d] + ds) == Code(d) + 4 * Digits(ds) {
      assert ([d] + ds)[1..] == ds;
    }
  }

  /** Peels derivations off with DECREF until only a base type is left. */
  function Decode(x: int): SymbolType
    requires x >= 0
    decreases x
  {
    if x <= N_BTMASK then SymbolType(x, [])
    else
      DecrefPops(x);
      var inner := Decode(DECREF(x));
      SymbolType(inner.base, [Outermost(x)] + inner.derivations)
  }

  /** The part of a word above N_BTMASK. */
  function Above(x: int): int {
    x / 16
  }

  /** For every word DECREF keeps the base type and drops exactly the outermost derivation;
      while anything is above the base type it makes the word smaller. */
  lemma {:induction false} DecrefPops(x: int)
    ensures BTYPE(DECREF(x)) == BTYPE(x)
    ensures Above(x) == Code(Outermost(x)) + 4 * Above(DECREF(x)) && x == BTYPE(x) + 16 * Above(x)
    ensures Above(x) > 0 ==> 0 <= Above(DECREF(x)) < Above(x) && 0 <= DECREF(x) < x
    ensures Above(x) == 0 ==> DECREF(x) == x == BTYPE(x)
  {
    MacroValues(x);
    DecrefValue(x);
    LowBits(DECREF(x));
    Regroup(x, DECREF(x));
  }

  lemma {:induction false} Regroup(x: int, y: int)
    requires y == x / 64 * 16 + x % 16
    ensures y % 16 == x % 16 && y / 16 == x / 64
    ensures x / 16 == x / 16 % 4 + 4 * (x / 64)
    ensures x / 16 > 0 ==> 0 <= y / 16 < x / 16 && 0 <= y < x
    ensures x / 16 == 0 ==> y == x == x % 16
  {
    assert x / 64 == x / 16 / 4;
  }

  /** The innermost derivation is a proper one, so that no code is lost as a leading zero. */
  predicate Normal(ds: seq<Derivation>) {
    ds == [] || ds[|ds| - 1] != Plain
  }

  /** The predicates read the first derivation and DECREF drops it. */
  lemma {:induction false} DecrefEncode(base: int, ds: seq<Derivation>)
    requires 0 <= base < 16 && ds != []
    ensures BTYPE(Encode(base, ds)) == base
    ensures Outermost(Encode(base, ds)) == ds[0]
    ensures ISPTR(Encode(base, ds)) <==> ds[0] == Pointer
    ensures ISFCN(Encode(base, ds)) <==> ds[0] == Function
    ensures ISARY(Encode(base, ds)) <==> ds[0] == Array
    ensures DECREF(Encode(base, ds)) == Encode(base, ds[1..])
  {
    var x := Encode(base, ds);
    MacroValues(x);
    assert x / 16 == Digits(ds) && x % 16 == base;
    assert x / 64 == x / 16 / 4 == Digits(ds[1..]);
  }

  lemma {:induction false} DigitsPositive(ds: seq<Derivation>)
    requires Normal(ds) && ds != []
    ensures Digits(ds) > 0
  {
    if |ds| > 1 { DigitsPositive(ds[1..]); }
  }

  /** Round trip: every base type below 16 and every list of derivations comes back. */
  lemma {:induction false} DecodeEncode(base: int, ds: seq<Derivation>)
    requires 0 <= base < 16 && Normal(ds)
    ensures Decode(Encode(base, ds)) == SymbolType(base, ds)
  {
    if ds != [] {
      DigitsPositive(ds);
      DecrefEncode(base, ds);
      DecodeEncode(base, ds[1..]);
    }
  }

  /** Hence different types have different words. */
  lemma {:induction false} EncodeInjective(base: int, ds: seq<Derivation>, base': int, ds': seq<Derivation>)
    requires 0 <= base < 16 && 0 <= base' < 16 && Normal(ds) && Normal(ds')
    requires Encode(base, ds) == Encode(base', ds')
    ensures base == base' && ds == ds'
  {
    DecodeEncode(base, ds);
    DecodeEncode(base', ds');
  }

  lemma {:induction false} EncodeAbove(base: int, ds: seq<Derivation>)
    requires 0 <= base < 16
    ensures Above(Encode(base, ds)) == Digits(ds)
  {
  }

  /** The other way round: every word is the encoding of what it decodes to. */
  lemma {:induction false} EncodeDecode(x: int)
    requires x >= 0
    ensures var t := Decode(x);
            t.base == BTYPE(x) && 0 <= t.base < 16 && Normal(t.derivations) && Encode(t.base, t.derivations) == x
    decreases x
  {
    DecrefPops(x);
    LowBits(x);
    if x > N_BTMASK {
      var t := Decode(DECREF(x));
      EncodeDecode(DECREF(x));
      EncodeAbove(t.base, t.derivations);
      var ds := [Outermost(x)] + t.derivations;
      assert ds[1..] == t.derivations;
      assert Normal(ds) by {
        if t.derivations == [] { assert Above(DECREF(x)) == 0; }
      }
    }
  }

  // ----- Width -----

  function Power4(n: nat): nat {
    if n == 0 then 1 else 4 * Power4(n - 1)
  }

  lemma {:induction false} DigitsBounds(ds: seq<Derivation>)
    ensures Digits(ds) < Power4(|ds|)
    ensures Normal(ds) && ds != [] ==> Power4(|ds| - 1) <= Digits(ds)
  {
    if ds != [] { DigitsBounds(ds[1..]); }
  }

  lemma {:induction false} Power4Monotone(m: nat, n: nat)
    requires m <= n
    ensures Power4(m) <= Power4(n)
  {
    if m < n { Power4Monotone(m, n - 1); }
  }

  /** e_type is an unsigned short: a type fits exactly if it has at most six derivations. */
  lemma {:induction false} FitsInType(base: int, ds: seq<Derivation>)
    requires 0 <= base < 16 && Normal(ds)
    ensures 0 <= Encode(base, ds) < 0x1_0000 <==> |ds| <= 6
  {
    DigitsBounds(ds);
    assert Power4(6) == 4096 by {
      assert Power4(3) == 64;
      assert Power4(4) == 256;
      assert Power4(5) == 1024;
    }
    if |ds| <= 6 { Power4Monotone(|ds|, 6); } else { Power4Monotone(6, |ds| - 1); }
  }

  // ----- Signed words -----

  function Peel(x: int, n: nat): int
    decreases n
  {
    if n == 0 then x else Peel(DECREF(x), n - 1)
  }

  /** The input on which repeated DECREF never ends: -1 is its own DECREF. */
  lemma {:induction false} MinusOneIsFixed()
    ensures DECREF(-1) == -1 && BTYPE(-1) == 15
  {
    DecrefValue(-1);
    LowBits(-1);
  }

  lemma {:induction false} NegativeShift(x: int)
    requires x < 0
    ensures x / 64 * 16 + x % 16 < 0
  {
    assert x / 64 <= -1;
  }

  lemma {:induction false} NegativeStays(x: int)
    requires x < 0
    ensures DECREF(x) < 0
  {
    DecrefValue(x);
    NegativeShift(x);
  }

  /** DECREF of a negative word stays negative, however often it is applied. */
  lemma {:induction false} NegativeNeverEnds(x: int, n: nat)
    requires x < 0
    ensures Peel(x, n) < 0
    decreases n
  {
    NegativeStays(x);
    if n > 0 { NegativeNeverEnds(DECREF(x), n - 1); }
  }

  lemma {:induction false} PeelEnds(x: int)
    requires x >= 0
    ensures exists n: nat :: Peel(x, n) == BTYPE(x)
    decreases x
  {
    DecrefPops(x);
    if x <= N_BTMASK {
      assert Peel(x, 0) == BTYPE(x);
    } else {
      PeelEnds(DECREF(x));
      var n: nat :| Peel(DECREF(x), n) == BTYPE(DECREF(x));
      assert Peel(x, n + 1) == BTYPE(x);
    }
  }

  /** Repeated DECREF reaches the base type exactly when the word is not negative. */
  lemma {:induction false} PeelEndsIffNonNegative(x: int)
    ensures (exists n: nat :: Peel(x, n) == BTYPE(x)) <==> x >= 0
  {
    LowBits(x);
    if x >= 0 {
      PeelEnds(x);
    } else {
      forall n: nat ensures Peel(x, n) < 0 {
        NegativeNeverEnds(x, n);
      }
    }
  }

  /** An e_type word, being unsigned, never is such an input: repeated DECREF ends, after at
      most six steps, and every word on the way is an e_type word again. */
  lemma {:induction false} UnsignedPeels(x: int, n: nat)
    requires 0 <= x < 0x1_0000
    ensures 0 <= Peel(x, n) < 0x1_0000
    ensures exists m: nat :: m <= 6 && Peel(x, m) == BTYPE(x)
  {
    PeelBounded(x, n);
    PeelWithin(x, 6);
  }

  lemma {:induction false} PeelBounded(x: int, n: nat)
    requires 0 <= x < 0x1_0000
    ensures 0 <= Peel(x, n) < 0x1_0000
    decreases n
  {
    DecrefPops(x);
    if n > 0 { PeelBounded(DECREF(x), n - 1); }
  }

  lemma {:induction false} DecrefShrinks(x: int, n: nat)
    requires 0 <= x < 16 * Power4(n) && x >= 16
    ensures n > 0 && 0 <= DECREF(x) < 16 * Power4(n - 1)
  {
    DecrefValue(x);
    var p := Power4(n - 1);
    assert x / 64 <= p - 1;
  }

  lemma {:induction false} PeelWithin(x: int, n: nat)
    requires 0 <= x < 16 * Power4(n)
    ensures exists m: nat :: m <= n && Peel(x, m) == BTYPE(x)
    decreases n
  {
    DecrefPops(x);
    if x <= N_BTMASK {
      LowBits(x);
      assert Peel(x, 0) == BTYPE(x);
    } else {
      DecrefShrinks(x, n);
      PeelWithin(DECREF(x), n - 1);
      var m: nat :| m <= n - 1 && Peel(DECREF(x), m) == BTYPE(DECREF(x));
      assert Peel(x, m + 1) == BTYPE(x);
    }
  }
}
