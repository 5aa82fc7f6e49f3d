/**
 * The two-share masked S-box: a nine-stage pipeline that inverts by the chain to
 * the 254th power, multiplying share by share and blinding every cross product.
 */
module MaskedSBox {
  import opened Aes
  import opened AesTables

  // ---------------------------------------------------------------- field arithmetic

  function Bit(b: bv8, mask: bv8, a: bv8): bv8 { if b & mask != 0 then a else 0 }

  /** The product loop of the unit, unrolled. */
  function Mul(a: bv8, b: bv8): bv8 {
    var a1 := Double(a);
    var a2 := Double(a1);
    var a3 := Double(a2);
    var a4 := Double(a3);
    var a5 := Double(a4);
    var a6 := Double(a5);
    var a7 := Double(a6);
    Plus(Plus(Plus(Plus(Plus(Plus(Plus(Bit(b, 1, a), Bit(b, 2, a1)), Bit(b, 4, a2)), Bit(b, 8, a3)), Bit(b, 16, a4)),
      Bit(b, 32, a5)), Bit(b, 64, a6)), Bit(b, 128, a7))
  }

  lemma PlusZero(a: bv8)
    ensures Plus(a, 0) == a
  {
  }

  function Half(b: bv8): bv8 { b >> 1 }

  /** The lowest bit of `b` is the bit of `c` under `mask`. */
  predicate Aligned(b: bv8, c: bv8, mask: bv8) { b & 1 == 1 <==> c & mask != 0 }

  /** One bit of the product. */
  lemma OneBit(p: bv8, a: bv8, b: bv8, mask: bv8, c: bv8, n: nat)
    requires n > 0 && Aligned(b, c, mask)
    ensures GmulFrom(p, a, b, n) == GmulFrom(Plus(p, Bit(c, mask, a)), Double(a), Half(b), n - 1)
  {
    hide Double;
    PlusZero(p);
  }

  lemma BitsOf(b: bv8)
    ensures Aligned(b, b, 1) && Aligned(Half(b), b, 2) && Aligned(Half(Half(b)), b, 4) && Aligned(Half(Half(Half(b))), b, 8)
    ensures var c := Half(Half(Half(Half(b))));
      Aligned(c, b, 16) && Aligned(Half(c), b, 32) && Aligned(Half(Half(c)), b, 64) && Aligned(Half(Half(Half(c))), b, 128)
  {
  }

  /** The loop and its unrolling agree. */
  lemma Unrolled(a: bv8, b: bv8)
    ensures Gmul(a, b) == Mul(a, b)
  {
    hide Double;
    hide GmulFrom;
    hide Plus;
    hide Bit;
    hide Half;
    hide Aligned;
    BitsOf(b);
    var a1 := Double(a);
    var a2 := Double(a1);
    var a3 := Double(a2);
    var a4 := Double(a3);
    var a5 := Double(a4);
    var a6 := Double(a5);
    var a7 := Double(a6);
    var c := Half(Half(Half(Half(b))));
    var p1 := Plus(0, Bit(b, 1, a));
    var p2 := Plus(p1, Bit(b, 2, a1));
    var p3 := Plus(p2, Bit(b, 4, a2));
    var p4 := Plus(p3, Bit(b, 8, a3));
    var p5 := Plus(p4, Bit(b, 16, a4));
    var p6 := Plus(p5, Bit(b, 32, a5));
    var p7 := Plus(p6, Bit(b, 64, a6));
    OneBit(0, a, b, 1, b, 8);
    OneBit(p1, a1, Half(b), 2, b, 7);
    OneBit(p2, a2, Half(Half(b)), 4, b, 6);
    OneBit(p3, a3, Half(Half(Half(b))), 8, b, 5);
    OneBit(p4, a4, c, 16, b, 4);
    OneBit(p5, a5, Half(c), 32, b, 3);
    OneBit(p6, a6, Half(Half(c)), 64, b, 2);
    OneBit(p7, a7, Half(Half(Half(c))), 128, b, 1);
    End(Plus(p7, Bit(b, 128, a7)), Double(a7), Half(Half(Half(Half(c)))));
    ZeroPlus(Bit(b, 1, a));
  }

  lemma End(p: bv8, a: bv8, b: bv8)
    ensures GmulFrom(p, a, b, 0) == p
  {
  }

  lemma {:induction false} LinearFrom(p: bv8, q: bv8, a: bv8, b: bv8, c: bv8, n: nat)
    ensures GmulFrom(Plus(p, q), Plus(a, b), c, n) == Plus(GmulFrom(p, a, c, n), GmulFrom(q, b, c, n))
    decreases n
  {
    if n > 0 {
      DoubleIsLinear(a, b);
      LinearFrom(GainedFrom(p, a, c), GainedFrom(q, b, c), Double(a), Double(b), c >> 1, n - 1);
      GainIsLinear(p, q, a, b, c);
      StepFrom(p, a, c, n);
      StepFrom(q, b, c, n);
      StepFrom(Plus(p, q), Plus(a, b), c, n);
      hide *;
    }
  }

  function GainedFrom(p: bv8, a: bv8, c: bv8): bv8 { if c & 1 == 1 then Plus(p, a) else p }

  lemma StepFrom(p: bv8, a: bv8, c: bv8, n: nat)
    requires n > 0
    ensures GmulFrom(p, a, c, n) == GmulFrom(GainedFrom(p, a, c), Double(a), c >> 1, n - 1)
  {
    hide Double;
  }

  lemma GainIsLinear(p: bv8, q: bv8, a: bv8, b: bv8, c: bv8)
    ensures GainedFrom(Plus(p, q), Plus(a, b), c) == Plus(GainedFrom(p, a, c), GainedFrom(q, b, c))
  {
    hide Plus;
    Interchange(p, q, a, b);
  }

  lemma LinearLeft(a: bv8, b: bv8, c: bv8)
    ensures Gmul(Plus(a, b), c) == Plus(Gmul(a, c), Gmul(b, c))
  {
    Twice(0);
    LinearFrom(0, 0, a, b, c, 8);
    hide *;
  }

  // The bits of the second factor decide what is gained; two factors' gains add up.

  lemma GainOfSum(p: bv8, q: bv8, a: bv8, b: bv8, c: bv8)
    ensures GainedFrom(Plus(p, q), a, Plus(b, c)) == Plus(GainedFrom(p, a, b), GainedFrom(q, a, c))
    ensures Half(Plus(b, c)) == Plus(Half(b), Half(c))
  {
    assert (Plus(b, c) & 1 == 1) == ((b & 1 == 1) != (c & 1 == 1));
    hide Plus;
    Assoc(p, a, q);
    Comm(a, q);
    Assoc(p, q, a);
    Interchange(p, a, q, a);
    Twice(a);
    PlusZero(Plus(p, q));
  }

  lemma {:induction false} LinearIn(p: bv8, q: bv8, a: bv8, b: bv8, c: bv8, n: nat)
    ensures GmulFrom(Plus(p, q), a, Plus(b, c), n) == Plus(GmulFrom(p, a, b, n), GmulFrom(q, a, c, n))
    decreases n
  {
    if n > 0 {
      LinearIn(GainedFrom(p, a, b), GainedFrom(q, a, c), Double(a), b >> 1, c >> 1, n - 1);
      GainOfSum(p, q, a, b, c);
      StepFrom(p, a, b, n);
      StepFrom(q, a, c, n);
      StepFrom(Plus(p, q), a, Plus(b, c), n);
      HalfIs(b);
      HalfIs(c);
      HalfIs(Plus(b, c));
      hide *;
    }
  }

  lemma HalfIs(b: bv8)
    ensures b >> 1 == Half(b)
  {
  }

  lemma LinearRight(a: bv8, b: bv8, c: bv8)
    ensures Gmul(a, Plus(b, c)) == Plus(Gmul(a, b), Gmul(a, c))
  {
    Twice(0);
    LinearIn(0, 0, a, b, c, 8);
    hide *;
  }

  lemma {:induction false} DoubleOut(p: bv8, a: bv8, b: bv8, n: nat)
    ensures GmulFrom(Double(p), Double(a), b, n) == Double(GmulFrom(p, a, b, n))
    decreases n
  {
    if n > 0 {
      DoubleOut(GainedFrom(p, a, b), Double(a), b >> 1, n - 1);
      StepFrom(p, a, b, n);
      StepFrom(Double(p), Double(a), b, n);
      DoubleIsLinear(p, a);
      assert GainedFrom(Double(p), Double(a), b) == Double(GainedFrom(p, a, b)) by { hide Double; hide Plus; }
      hide *;
    }
  }

  lemma DoubleLeft(a: bv8, b: bv8)
    ensures Gmul(Double(a), b) == Double(Gmul(a, b))
  {
    assert Double(0) == 0;
    DoubleOut(0, a, b, 8);
    hide *;
  }

  lemma OneIsUnit(b: bv8)
    ensures Gmul(1, b) == b
  {
    Unrolled(1, b);
    hide Gmul;
    assert Mul(1, b) == b;
  }

  lemma ZeroIsNull(b: bv8)
    ensures Gmul(0, b) == 0
  {
    LinearLeft(0, 0, b);
    Twice(0);
    Twice(Gmul(0, b));
    hide *;
  }

  /** The low bit of a byte, and the rest halved and doubled again. */
  lemma Horner(c: bv8)
    ensures c == Plus(c & 1, Double(Half(c)))
    ensures c & 1 == 0 || c & 1 == 1
  {
  }

  lemma ByBits(c: bv8, b: bv8)
    ensures Gmul(c, b) == GainedFrom(Double(Gmul(Half(c), b)), b, c)
  {
    Horner(c);
    LinearLeft(c & 1, Double(Half(c)), b);
    DoubleLeft(Half(c), b);
    OneIsUnit(b);
    ZeroIsNull(b);
    ZeroPlus(Double(Gmul(Half(c), b)));
    Comm(b, Double(Gmul(Half(c), b)));
    hide Gmul;
    hide Double;
    hide Plus;
    hide Half;
  }

  function Halved(c: bv8, n: nat): bv8 { if n == 0 then c else Halved(Half(c), n - 1) }

  lemma HalvedStep(c: bv8, n: nat)
    ensures Halved(c, n + 1) == Halved(Half(c), n) && Halved(c, 0) == c
  {
  }

  lemma EightHalves(c: bv8)
    ensures Halved(c, 8) == 0
  {
    assert Half(Half(Half(Half(Half(Half(Half(Half(c)))))))) == 0;
    hide Half;
    hide Halved;
    var c2 := Half(Half(c));
    var c4 := Half(Half(c2));
    var c6 := Half(Half(c4));
    HalvedStep(c, 7);
    HalvedStep(Half(c), 6);
    HalvedStep(c2, 5);
    HalvedStep(Half(c2), 4);
    HalvedStep(c4, 3);
    HalvedStep(Half(c4), 2);
    HalvedStep(c6, 1);
    HalvedStep(Half(c6), 0);
    HalvedStep(Half(Half(c6)), 0);
  }

  lemma {:induction false} DoubleRightFrom(c: bv8, b: bv8, n: nat)
    requires Halved(c, n) == 0
    ensures Gmul(c, Double(b)) == Double(Gmul(c, b))
    decreases n
  {
    if n == 0 {
      ZeroIsNull(b);
      ZeroIsNull(Double(b));
      hide Gmul;
    } else {
      DoubleRightFrom(Half(c), b, n - 1);
      ByBits(c, Double(b));
      ByBits(c, b);
      DoubleIsLinear(Double(Gmul(Half(c), b)), b);
      assert GainedFrom(Double(Double(Gmul(Half(c), b))), Double(b), c) == Double(GainedFrom(Double(Gmul(Half(c), b)), b, c))
      by { hide Gmul; hide Double; hide Plus; hide Half; }
      hide *;
    }
  }

  lemma {:induction false} CommutesFrom(p: bv8, b: bv8, a: bv8, n: nat)
    requires Halved(a, n) == 0
    ensures GmulFrom(p, b, a, n) == Plus(p, Gmul(a, b))
    decreases n
  {
    if n == 0 {
      ZeroIsNull(b);
      PlusZero(p);
      hide Gmul;
    } else {
      StepFrom(p, b, a, n);
      HalfIs(a);
      CommutesFrom(GainedFrom(p, b, a), Double(b), Half(a), n - 1);
      DoubleRightFrom(Half(a), b, n - 1);
      ByBits(a, b);
      var d := Double(Gmul(Half(a), b));
      GainMoves(p, d, b, a);
      hide *;
    }
  }

  lemma GainMoves(p: bv8, d: bv8, b: bv8, a: bv8)
    ensures Plus(GainedFrom(p, b, a), d) == Plus(p, GainedFrom(d, b, a))
  {
    hide Plus;
    Assoc(p, b, d);
    Comm(b, d);
  }

  lemma Commutes(a: bv8, b: bv8)
    ensures Gmul(a, b) == Gmul(b, a)
  {
    EightHalves(a);
    CommutesFrom(0, b, a, 8);
    ZeroPlus(Gmul(a, b));
    hide Halved;
    hide Plus;
    hide GmulFrom;
  }

  function Square(a: bv8): bv8 { Gmul(a, a) }

  /** Squaring is linear, so it can be done share by share. */
  lemma SquareIsLinear(a: bv8, b: bv8)
    ensures Square(Plus(a, b)) == Plus(Square(a), Square(b))
  {
    hide GmulFrom;
    hide Gmul;
    hide Plus;
    LinearLeft(a, b, Plus(a, b));
    LinearRight(a, a, b);
    LinearRight(b, a, b);
    Commutes(a, b);
    var m := Gmul(a, b);
    Comm(m, Square(b));
    Interchange(Square(a), m, Square(b), m);
    Twice(m);
    PlusZero(Plus(Square(a), Square(b)));
  }

  function Pow4(a: bv8): bv8 { Square(Square(a)) }

  function Pow16(a: bv8): bv8 { Square(Square(Square(Square(a)))) }

  lemma PowersAreLinear(a: bv8, b: bv8)
    ensures Pow4(Plus(a, b)) == Plus(Pow4(a), Pow4(b)) && Pow16(Plus(a, b)) == Plus(Pow16(a), Pow16(b))
  {
    SquareIsLinear(a, b);
    SquareIsLinear(Square(a), Square(b));
    SquareIsLinear(Pow4(a), Pow4(b));
    SquareIsLinear(Square(Pow4(a)), Square(Pow4(b)));
    hide Square;
    hide Plus;
  }

  // ---------------------------------------------------------------------- the S-box

  function Power3(x: bv8): bv8 { Gmul(x, Square(x)) }

  function Power12(x: bv8): bv8 { Pow4(Power3(x)) }

  function Power15(x: bv8): bv8 { Gmul(Power3(x), Power12(x)) }

  function Power240(x: bv8): bv8 { Pow16(Power15(x)) }

  function Power252(x: bv8): bv8 { Gmul(Power240(x), Power12(x)) }

  /** The chain of the pipeline on an unmasked byte. */
  function Power254(x: bv8): bv8 { Gmul(Power252(x), Square(x)) }

  function Rot1(b: bv8): bv8 { (b << 1) | (b >> 7) }

  function Rot2(b: bv8): bv8 { (b << 2) | (b >> 6) }

  function Rot3(b: bv8): bv8 { (b << 3) | (b >> 5) }

  function Rot4(b: bv8): bv8 { (b << 4) | (b >> 4) }

  /** Bit `i` is the sum of bits `i`, `i + 4`, `i + 5`, `i + 6` and `i + 7`, counted round. */
  function AffineLin(b: bv8): bv8 { Plus(Plus(Plus(b, Rot4(b)), Plus(Rot3(b), Rot2(b))), Rot1(b)) }

  lemma RotationsAreLinear(a: bv8, b: bv8)
    ensures Rot1(Plus(a, b)) == Plus(Rot1(a), Rot1(b)) && Rot2(Plus(a, b)) == Plus(Rot2(a), Rot2(b))
    ensures Rot3(Plus(a, b)) == Plus(Rot3(a), Rot3(b)) && Rot4(Plus(a, b)) == Plus(Rot4(a), Rot4(b))
  {
  }

  lemma AffineIsLinear(a: bv8, b: bv8)
    ensures AffineLin(Plus(a, b)) == Plus(AffineLin(a), AffineLin(b))
  {
    hide Plus;
    hide Rot1;
    hide Rot2;
    hide Rot3;
    hide Rot4;
    RotationsAreLinear(a, b);
    Interchange(a, b, Rot4(a), Rot4(b));
    Interchange(Rot3(a), Rot3(b), Rot2(a), Rot2(b));
    Interchange(Plus(a, Rot4(a)), Plus(b, Rot4(b)), Plus(Rot3(a), Rot2(a)), Plus(Rot3(b), Rot2(b)));
    Interchange(Plus(Plus(a, Rot4(a)), Plus(Rot3(a), Rot2(a))), Plus(Plus(b, Rot4(b)), Plus(Rot3(b), Rot2(b))), Rot1(a), Rot1(b));
  }

  // ---------------------------------------------------- the chain inverts

  lemma GainInto(p: bv8, b: bv8, a: bv8, c: bv8)
    ensures Gmul(GainedFrom(p, b, a), c) == GainedFrom(Gmul(p, c), Gmul(b, c), a)
  {
    hide Gmul;
    hide Plus;
    LinearLeft(p, b, c);
  }

  lemma {:induction false} AssociatesFrom(a: bv8, b: bv8, c: bv8, n: nat)
    requires Halved(a, n) == 0
    ensures Gmul(Gmul(a, b), c) == Gmul(a, Gmul(b, c))
    decreases n
  {
    if n == 0 {
      ZeroIsNull(b);
      ZeroIsNull(c);
      ZeroIsNull(Gmul(b, c));
      hide Gmul;
    } else {
      var h := Half(a);
      AssociatesFrom(h, b, c, n - 1);
      ByBits(a, b);
      ByBits(a, Gmul(b, c));
      GainInto(Double(Gmul(h, b)), b, a, c);
      DoubleLeft(Gmul(h, b), c);
      hide *;
    }
  }

  lemma Associates(a: bv8, b: bv8, c: bv8)
    ensures Gmul(Gmul(a, b), c) == Gmul(a, Gmul(b, c))
  {
    EightHalves(a);
    AssociatesFrom(a, b, c, 8);
    hide *;
  }

  /** The product of two products, factor by factor. */
  lemma Cross(a: bv8, b: bv8, c: bv8, d: bv8)
    ensures Gmul(Gmul(a, b), Gmul(c, d)) == Gmul(Gmul(a, c), Gmul(b, d))
  {
    Associates(a, b, Gmul(c, d));
    Associates(b, c, d);
    Commutes(b, c);
    Associates(c, b, d);
    Associates(a, c, Gmul(b, d));
    hide *;
  }

  lemma PowersMultiply(a: bv8, b: bv8)
    ensures Square(Gmul(a, b)) == Gmul(Square(a), Square(b))
    ensures Pow4(Gmul(a, b)) == Gmul(Pow4(a), Pow4(b))
    ensures Pow16(Gmul(a, b)) == Gmul(Pow16(a), Pow16(b))
  {
    hide Gmul;
    Cross(a, b, a, b);
    Cross(Square(a), Square(b), Square(a), Square(b));
    Cross(Pow4(a), Pow4(b), Pow4(a), Pow4(b));
    Cross(Square(Pow4(a)), Square(Pow4(b)), Square(Pow4(a)), Square(Pow4(b)));
  }

  /** The 256th power. */
  function Pow256(a: bv8): bv8 { Pow16(Pow16(a)) }

  lemma Pow256IsLinear(a: bv8, b: bv8)
    ensures Pow256(Plus(a, b)) == Plus(Pow256(a), Pow256(b))
    ensures Pow256(Gmul(a, b)) == Gmul(Pow256(a), Pow256(b))
  {
    PowersAreLinear(a, b);
    PowersAreLinear(Pow16(a), Pow16(b));
    PowersMultiply(a, b);
    PowersMultiply(Pow16(a), Pow16(b));
    hide Pow16;
    hide Gmul;
    hide Plus;
  }

  lemma SquareIs(a: bv8)
    ensures Square(a) == Mul(a, a)
  {
    Unrolled(a, a);
    hide Mul;
    hide GmulFrom;
  }

  lemma SquaresOfTwo()
    ensures Mul(2, 2) == 4 && Mul(4, 4) == 0x10 && Mul(0x10, 0x10) == 0x1B && Mul(0x1B, 0x1B) == 0x5E
    ensures Mul(0x5E, 0x5E) == 0xE4 && Mul(0xE4, 0xE4) == 0x4D && Mul(0x4D, 0x4D) == 0xFA && Mul(0xFA, 0xFA) == 2
    ensures Mul(1, 1) == 1 && Mul(0, 0) == 0
  {
  }

  lemma Pow256OfTwo()
    ensures Pow256(2) == 2 && Pow256(1) == 1 && Pow256(0) == 0
  {
    hide Mul;
    hide Square;
    SquaresOfTwo();
    SquareIs(2);
    SquareIs(4);
    SquareIs(0x10);
    SquareIs(0x1B);
    SquareIs(0x5E);
    SquareIs(0xE4);
    SquareIs(0x4D);
    SquareIs(0xFA);
    SquareIs(1);
    SquareIs(0);
  }

  lemma TwoDoubles(a: bv8)
    ensures Gmul(2, a) == Double(a)
  {
    Commutes(2, a);
    TimesTwo(a);
    hide *;
  }

  /** Every byte is its own 256th power. */
  lemma {:induction false} Frobenius(x: bv8, n: nat)
    requires Halved(x, n) == 0
    ensures Pow256(x) == x
    decreases n
  {
    hide Pow256;
    hide Plus;
    hide Double;
    hide Half;
    hide Gmul;
    Pow256OfTwo();
    if n > 0 {
      var h := Half(x);
      HalvedStep(x, n - 1);
      Frobenius(h, n - 1);
      Horner(x);
      Pow256IsLinear(x & 1, Double(h));
      TwoDoubles(h);
      Pow256IsLinear(2, h);
    }
  }

  /** The chain, times the byte twice, is the byte: fifteen and one make sixteen, and so on. */
  lemma ChainCancels(x: bv8)
    ensures Gmul(Square(x), Power254(x)) == x
  {
    hide Gmul;
    var x2, x3, x12 := Square(x), Power3(x), Power12(x);
    var x15, x240, x252 := Power15(x), Power240(x), Power252(x);
    // x^2 * (x^252 * x^2) == x^252 * x^4 == x^240 * (x^12 * x^4)
    Commutes(x2, Power254(x));
    Associates(x252, x2, x2);
    Associates(x240, x12, Pow4(x));
    // x^12 * x^4 == (x^3 * x)^4 == x^16
    PowersMultiply(x3, x);
    Commutes(x3, x);
    CubeTimes(x);
    assert Gmul(x12, Pow4(x)) == Pow16(x);
    // x^15 * x == x^3 * (x^12 * x) == x^16
    FifteenTimes(x);
    PowersMultiply(x15, x);
    assert Gmul(x240, Pow16(x)) == Pow256(x);
    EightHalves(x);
    Frobenius(x, 8);
  }

  lemma CubeTimes(x: bv8)
    ensures Gmul(Power3(x), x) == Pow4(x)
  {
    hide Gmul;
    Associates(x, Square(x), x);
    Commutes(Square(x), x);
    Associates(x, x, Square(x));
  }

  lemma FifteenTimes(x: bv8)
    ensures Gmul(Power15(x), x) == Pow16(x)
  {
    hide Gmul;
    CubeTimes(x);
    Associates(Power3(x), Power12(x), x);
    Commutes(Power12(x), x);
    Associates(Power3(x), x, Power12(x));
    PowersMultiply(x, Power3(x));
    Commutes(Power3(x), x);
  }

  /** So it is the inverse wherever there is one. */
  lemma ChainInverts(x: bv8, u: bv8)
    requires Gmul(x, u) == 1
    ensures Power254(x) == u
  {
    var p := Power254(x);
    ChainCancels(x);
    Commutes(x, u);
    Associates(u, u, Gmul(Square(x), p));
    Associates(Square(u), Square(x), p);
    Cross(u, u, x, x);
    OneIsUnit(1);
    OneIsUnit(p);
    Commutes(u, 1);
    OneIsUnit(u);
    hide Power254;
    hide Gmul;
  }

  lemma ChainOfZero()
    ensures Power254(0) == 0
  {
    Commutes(Power252(0), Square(0));
    ZeroIsNull(0);
    ZeroIsNull(Power252(0));
    hide Gmul;
    hide Power252;
  }

  // ---------------------------------------------------------------- and gives the table

  /** The inverse of the affine map with its constant. */
  function Unaffine(s: bv8): bv8 { ((s << 1) | (s >> 7)) ^ ((s << 3) | (s >> 5)) ^ ((s << 6) | (s >> 2)) ^ 5 }

  lemma UnaffineInverts(s: bv8)
    ensures Plus(AffineLin(Unaffine(s)), 0x63) == s
  {
  }

  lemma Row0(n: bv4)
    requires n != 0
    ensures Mul(0x00 | (n as bv8), Unaffine(SBox0(n))) == 1
  {
  }

  lemma Row1(n: bv4)
    ensures Mul(0x10 | (n as bv8), Unaffine(SBox1(n))) == 1
  {
  }

  lemma Row2(n: bv4)
    ensures Mul(0x20 | (n as bv8), Unaffine(SBox2(n))) == 1
  {
  }

  lemma Row3(n: bv4)
    ensures Mul(0x30 | (n as bv8), Unaffine(SBox3(n))) == 1
  {
  }

  lemma Row4(n: bv4)
    ensures Mul(0x40 | (n as bv8), Unaffine(SBox4(n))) == 1
  {
  }

  lemma Row5(n: bv4)
    ensures Mul(0x50 | (n as bv8), Unaffine(SBox5(n))) == 1
  {
  }

  lemma Row6(n: bv4)
    ensures Mul(0x60 | (n as bv8), Unaffine(SBox6(n))) == 1
  {
  }

  lemma Row7(n: bv4)
    ensures Mul(0x70 | (n as bv8), Unaffine(SBox7(n))) == 1
  {
  }

  lemma Row8(n: bv4)
    ensures Mul(0x80 | (n as bv8), Unaffine(SBox8(n))) == 1
  {
  }

  lemma Row9(n: bv4)
    ensures Mul(0x90 | (n as bv8), Unaffine(SBox9(n))) == 1
  {
  }

  lemma RowA(n: bv4)
    ensures Mul(0xA0 | (n as bv8), Unaffine(SBoxA(n))) == 1
  {
  }

  lemma RowB(n: bv4)
    ensures Mul(0xB0 | (n as bv8), Unaffine(SBoxB(n))) == 1
  {
  }

  lemma RowC(n: bv4)
    ensures Mul(0xC0 | (n as bv8), Unaffine(SBoxC(n))) == 1
  {
  }

  lemma RowD(n: bv4)
    ensures Mul(0xD0 | (n as bv8), Unaffine(SBoxD(n))) == 1
  {
  }

  lemma RowE(n: bv4)
    ensures Mul(0xE0 | (n as bv8), Unaffine(SBoxE(n))) == 1
  {
  }

  lemma RowF(n: bv4)
    ensures Mul(0xF0 | (n as bv8), Unaffine(SBoxF(n))) == 1
  {
  }

  /** The table entry of a byte but zero is the affine image of its inverse. */
  lemma TableInverts(x: bv8)
    requires x != 0
    ensures Gmul(x, Unaffine(SBox(x))) == 1
  {
    var h, n := Hi(x), Lo(x);
    Halves(x);
    SBoxRows(x);
    Unrolled(x, Unaffine(SBox(x)));
    hide Gmul;
    hide Mul;
    hide Unaffine;
    hide SBox;
    hide SBox0;
    hide SBox1;
    hide SBox2;
    hide SBox3;
    hide SBox4;
    hide SBox5;
    hide SBox6;
    hide SBox7;
    hide SBox8;
    hide SBox9;
    hide SBoxA;
    hide SBoxB;
    hide SBoxC;
    hide SBoxD;
    hide SBoxE;
    hide SBoxF;
    if h == 0 { Row0(n); }
    else if h == 1 { Row1(n); }
    else if h == 2 { Row2(n); }
    else if h == 3 { Row3(n); }
    else if h == 4 { Row4(n); }
    else if h == 5 { Row5(n); }
    else if h == 6 { Row6(n); }
    else if h == 7 { Row7(n); }
    else if h == 8 { Row8(n); }
    else if h == 9 { Row9(n); }
    else if h == 10 { RowA(n); }
    else if h == 11 { RowB(n); }
    else if h == 12 { RowC(n); }
    else if h == 13 { RowD(n); }
    else if h == 14 { RowE(n); }
    else { RowF(n); }
  }

  /** For every byte the chain and the affine map give the entry of the table. */
  lemma ChainIsSBox(x: bv8)
    ensures Plus(AffineLin(Power254(x)), 0x63) == SBox(x)
  {
    hide Power254;
    hide Gmul;
    if x == 0 {
      ChainOfZero();
      assert AffineLin(0) == 0 && SBox(0) == 0x63;
    } else {
      hide AffineLin;
      hide SBox;
      TableInverts(x);
      ChainInverts(x, Unaffine(SBox(x)));
      UnaffineInverts(SBox(x));
    }
  }

  // ---------------------------------------------------------------------- the pipeline

  /** Two shares; the byte is their sum. */
  datatype Pair = Pair(s0: bv8, s1: bv8)

  function Value(p: Pair): bv8 { Plus(p.s0, p.s1) }

  /** Both shares blinded with the same mask. */
  function Refresh(p: Pair, r: bv8): Pair { Pair(Plus(p.s0, r), Plus(p.s1, r)) }

  function SquareShares(p: Pair): Pair { Pair(Square(p.s0), Square(p.s1)) }

  function Pow4Shares(p: Pair): Pair { Pair(Pow4(p.s0), Pow4(p.s1)) }

  function Pow16Shares(p: Pair): Pair { Pair(Pow16(p.s0), Pow16(p.s1)) }

  /** The registers of a multiplication: the products within a domain, and the blinded ones across. */
  datatype Dom = Dom(p00: bv8, p11: bv8, c01: bv8, c10: bv8)

  function Multiply(a: Pair, b: Pair, r: bv8): Dom {
    Dom(Gmul(a.s0, b.s0), Gmul(a.s1, b.s1), Plus(Gmul(a.s0, b.s1), r), Plus(Gmul(a.s1, b.s0), r))
  }

  function Compress(d: Dom): Pair { Pair(Plus(d.p00, d.c01), Plus(d.p11, d.c10)) }

  /** The affine map on the shares, its constant on the first only. */
  function AffineShares(p: Pair): Pair { Pair(Plus(AffineLin(p.s0), 0x63), AffineLin(p.s1)) }

  datatype Rnd = Rnd(r1: bv8, r2: bv8, r3: bv8, r4: bv8, r5: bv8, r6: bv8, r7: bv8, r8: bv8)

  datatype In = In(valid: bool, x: Pair, rnd: Rnd)

  datatype Stage1 = Stage1(x: Pair, z: Pair)
  datatype Stage2 = Stage2(m: Dom, z: Pair)
  datatype Stage3 = Stage3(y: Pair, w: Pair, z: Pair)
  datatype Stage4 = Stage4(m: Dom, w: Pair, z: Pair)
  datatype Stage5 = Stage5(y: Pair, w: Pair, z: Pair)
  datatype Stage6 = Stage6(m: Dom, z: Pair)
  datatype Stage7 = Stage7(y: Pair, z: Pair)

  datatype Pipe = Pipe(
    v: seq<bool>, s1: Stage1, s2: Stage2, s3: Stage3, s4: Stage4, s5: Stage5, s6: Stage6, s7: Stage7, s8: Dom, s9: Pair)

  /** One clock edge: every stage takes what the one before it held. */
  function Next(p: Pipe, i: In): Pipe
    requires |p.v| == 9
  {
    var cube, x15, x252 := Compress(p.s2.m), Compress(p.s4.m), Compress(p.s6.m);
    Pipe([i.valid] + p.v[..8],
         Stage1(i.x, Refresh(SquareShares(i.x), i.rnd.r1)),
         Stage2(Multiply(p.s1.x, p.s1.z, i.rnd.r2), p.s1.z),
         Stage3(cube, Refresh(Pow4Shares(cube), i.rnd.r3), p.s2.z),
         Stage4(Multiply(p.s3.y, p.s3.w, i.rnd.r4), p.s3.w, p.s3.z),
         Stage5(Refresh(Pow16Shares(x15), i.rnd.r5), p.s4.w, p.s4.z),
         Stage6(Multiply(p.s5.y, p.s5.w, i.rnd.r6), p.s5.z),
         Stage7(x252, Refresh(p.s6.z, i.rnd.r7)),
         Multiply(p.s7.y, p.s7.z, i.rnd.r8),
         AffineShares(Compress(p.s8)))
  }

  function Run(p: Pipe, ins: seq<In>): (q: Pipe)
    requires |p.v| == 9
    ensures |q.v| == 9
    decreases |ins|
  {
    if ins == [] then p else Next(Run(p, ins[..|ins| - 1]), ins[|ins| - 1])
  }

  /** A mask that both shares get cancels. */
  lemma RefreshKeeps(p: Pair, r: bv8)
    ensures Value(Refresh(p, r)) == Value(p)
  {
    hide Plus;
    Interchange(p.s0, r, p.s1, r);
    Twice(r);
    PlusZero(Value(p));
  }

  lemma PowersByShare(p: Pair)
    ensures Value(SquareShares(p)) == Square(Value(p))
    ensures Value(Pow4Shares(p)) == Pow4(Value(p)) && Value(Pow16Shares(p)) == Pow16(Value(p))
  {
    hide Plus;
    hide Gmul;
    SquareIsLinear(p.s0, p.s1);
    PowersAreLinear(p.s0, p.s1);
  }

  /** The four partial products, whatever blinds the crossed ones, add up to the product. */
  lemma MultiplyIsProduct(a: Pair, b: Pair, r: bv8)
    ensures Value(Compress(Multiply(a, b, r))) == Gmul(Value(a), Value(b))
  {
    hide Plus;
    hide Gmul;
    var p00, p11, p01, p10 := Gmul(a.s0, b.s0), Gmul(a.s1, b.s1), Gmul(a.s0, b.s1), Gmul(a.s1, b.s0);
    LinearLeft(a.s0, a.s1, Value(b));
    LinearRight(a.s0, b.s0, b.s1);
    LinearRight(a.s1, b.s0, b.s1);
    Comm(p10, p11);
    Assoc(p00, p01, r);
    Assoc(p11, p10, r);
    RefreshKeeps(Pair(Plus(p00, p01), Plus(p11, p10)), r);
  }

  lemma AffineByShare(p: Pair)
    ensures Value(AffineShares(p)) == Plus(AffineLin(Value(p)), 0x63)
  {
    hide Plus;
    hide AffineLin;
    AffineIsLinear(p.s0, p.s1);
    Assoc(AffineLin(p.s0), 0x63, AffineLin(p.s1));
    Comm(0x63, AffineLin(p.s1));
    Assoc(AffineLin(p.s0), AffineLin(p.s1), 0x63);
  }

  // What each stage holds of the byte that entered that many clocks ago.

  predicate At1(s: Stage1, x: bv8) { Value(s.x) == x && Value(s.z) == Square(x) }
  predicate At2(s: Stage2, x: bv8) { Value(Compress(s.m)) == Power3(x) && Value(s.z) == Square(x) }
  predicate At3(s: Stage3, x: bv8) { Value(s.y) == Power3(x) && Value(s.w) == Power12(x) && Value(s.z) == Square(x) }
  predicate At4(s: Stage4, x: bv8) {
    Value(Compress(s.m)) == Power15(x) && Value(s.w) == Power12(x) && Value(s.z) == Square(x)
  }
  predicate At5(s: Stage5, x: bv8) { Value(s.y) == Power240(x) && Value(s.w) == Power12(x) && Value(s.z) == Square(x) }
  predicate At6(s: Stage6, x: bv8) { Value(Compress(s.m)) == Power252(x) && Value(s.z) == Square(x) }
  predicate At7(s: Stage7, x: bv8) { Value(s.y) == Power252(x) && Value(s.z) == Square(x) }
  predicate At8(s: Dom, x: bv8) { Value(Compress(s)) == Power254(x) }
  predicate At9(s: Pair, x: bv8) { Value(s) == SBox(x) }

  /** Stage `k` holds the byte `x`, and its valid bit. */
  predicate Carries(p: Pipe, k: nat, i: In)
    requires |p.v| == 9 && 1 <= k <= 9
  {
    var x := Value(i.x);
    && p.v[k - 1] == i.valid
    && if k == 1 then At1(p.s1, x) else if k == 2 then At2(p.s2, x) else if k == 3 then At3(p.s3, x)
       else if k == 4 then At4(p.s4, x) else if k == 5 then At5(p.s5, x) else if k == 6 then At6(p.s6, x)
       else if k == 7 then At7(p.s7, x) else if k == 8 then At8(p.s8, x) else At9(p.s9, x)
  }

  lemma EnterStep(p: Pipe, i: In)
    requires |p.v| == 9
    ensures Carries(Next(p, i), 1, i)
  {
    hide Plus;
    hide Square;
    RefreshKeeps(SquareShares(i.x), i.rnd.r1);
    PowersByShare(i.x);
    hide Value;
    hide Refresh;
    hide SquareShares;
    hide Pow4Shares;
    hide Pow16Shares;
    hide Multiply;
    hide Compress;
    hide AffineShares;
  }

  /** A byte moves on by one stage at every clock. */
  lemma MoveOn(p: Pipe, k: nat, was: In, i: In)
    requires |p.v| == 9 && 1 <= k <= 8 && Carries(p, k, was)
    ensures Carries(Next(p, i), k + 1, was)
  {
    hide Value;
    hide Plus;
    hide Gmul;
    hide Square;
    hide Pow4;
    hide Pow16;
    hide SBox;
    hide AffineLin;
    hide Refresh;
    hide SquareShares;
    hide Pow4Shares;
    hide Pow16Shares;
    hide Multiply;
    hide Compress;
    hide AffineShares;
    var x := Value(was.x);
    match k {
      case 1 => MultiplyIsProduct(p.s1.x, p.s1.z, i.rnd.r2);
      case 2 =>
        PowersByShare(Compress(p.s2.m));
        RefreshKeeps(Pow4Shares(Compress(p.s2.m)), i.rnd.r3);
      case 3 => MultiplyIsProduct(p.s3.y, p.s3.w, i.rnd.r4);
      case 4 =>
        PowersByShare(Compress(p.s4.m));
        RefreshKeeps(Pow16Shares(Compress(p.s4.m)), i.rnd.r5);
      case 5 => MultiplyIsProduct(p.s5.y, p.s5.w, i.rnd.r6);
      case 6 => RefreshKeeps(p.s6.z, i.rnd.r7);
      case 7 => MultiplyIsProduct(p.s7.y, p.s7.z, i.rnd.r8);
      case _ =>
        AffineByShare(Compress(p.s8));
        ChainIsSBox(x);
    }
  }

  lemma {:induction false} CarriedInto(p: Pipe, ins: seq<In>, k: nat)
    requires |p.v| == 9 && 1 <= k <= 9 && k <= |ins|
    ensures Carries(Run(p, ins), k, ins[|ins| - k])
    decreases k
  {
    hide Carries;
    hide Next;
    var before := ins[..|ins| - 1];
    if k == 1 {
      EnterStep(Run(p, before), ins[|ins| - 1]);
    } else {
      CarriedInto(p, before, k - 1);
      MoveOn(Run(p, before), k - 1, ins[|ins| - k], ins[|ins| - 1]);
    }
  }

  /**
   * Main result. Whatever the registers held and whatever the masks are, the two
   * shares that come out sum to the S-box of the byte whose shares went in nine
   * clocks before, and the valid output is that byte's valid input.
   */
  lemma MaskedIsSBox(p: Pipe, ins: seq<In>)
    requires |p.v| == 9 && |ins| >= 9
    ensures var q, i := Run(p, ins), ins[|ins| - 9];
      q.v[8] == i.valid && Plus(q.s9.s0, q.s9.s1) == SBox(Plus(i.x.s0, i.x.s1))
  {
    hide Run;
    hide SBox;
    hide Plus;
    CarriedInto(p, ins, 9);
  }

  /** The pipeline registers as the clock drives them. */
  class SBoxUnit {
    var v: seq<bool>
    var s1: Stage1
    var s2: Stage2
    var s3: Stage3
    var s4: Stage4
    var s5: Stage5
    var s6: Stage6
    var s7: Stage7
    var s8: Dom
    var s9: Pair

    ghost predicate Valid() reads this { |v| == 9 }

    function State(): Pipe reads this { Pipe(v, s1, s2, s3, s4, s5, s6, s7, s8, s9) }

    constructor ()
      ensures Valid() && v == seq(9, _ => false)
    {
      var none, dom := Pair(0, 0), Dom(0, 0, 0, 0);
      v := seq(9, _ => false);
      s1, s2, s3 := Stage1(none, none), Stage2(dom, none), Stage3(none, none, none);
      s4, s5, s6 := Stage4(dom, none, none), Stage5(none, none, none), Stage6(dom, none);
      s7, s8, s9 := Stage7(none, none), dom, none;
    }

    /** One clock edge. The last stage goes first, so that each reads the stage before it as it was. */
    method Step(i: In)
      requires Valid()
      modifies this
      ensures Valid() && State() == Next(old(State()), i)
    {
      hide Multiply;
      hide Compress;
      hide Refresh;
      hide SquareShares;
      hide Pow4Shares;
      hide Pow16Shares;
      hide AffineShares;
      hide Value;
      ghost var was := State();
      s9 := AffineShares(Compress(s8));
      s8 := Multiply(s7.y, s7.z, i.rnd.r8);
      s7 := Stage7(Compress(s6.m), Refresh(s6.z, i.rnd.r7));
      s6 := Stage6(Multiply(s5.y, s5.w, i.rnd.r6), s5.z);
      s5 := Stage5(Refresh(Pow16Shares(Compress(s4.m)), i.rnd.r5), s4.w, s4.z);
      s4 := Stage4(Multiply(s3.y, s3.w, i.rnd.r4), s3.w, s3.z);
      s3 := Stage3(Compress(s2.m), Refresh(Pow4Shares(Compress(s2.m)), i.rnd.r3), s2.z);
      s2 := Stage2(Multiply(s1.x, s1.z, i.rnd.r2), s1.z);
      s1 := Stage1(i.x, Refresh(SquareShares(i.x), i.rnd.r1));
      v := [i.valid] + v[..8];
      assert State() == Next(was, i);
    }
  }
}
