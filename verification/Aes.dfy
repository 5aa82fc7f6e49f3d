/** AES-128 as the CPU computes it, and its inverse. */
module Aes {
  import opened Words
  import opened AesTables

  /** One column of the state, top to bottom. */
  datatype Column = Column(b0: bv8, b1: bv8, b2: bv8, b3: bv8)

  datatype State = State(c0: Column, c1: Column, c2: Column, c3: Column)

  // ------------------------------------------------------------------ field arithmetic

  /** Doubling in the field. */
  function Double(a: bv8): bv8 { if Top(a) then Plus(Shift(a), 0x1B) else Shift(a) }

  predicate Top(a: bv8) { a & 0x80 != 0 }

  function Shift(a: bv8): bv8 { a << 1 }

  /** Addition in the field. */
  function Plus(a: bv8, b: bv8): bv8 { a ^ b }

  /** The shift-and-add product, `n` bits of `b` still to go. */
  function GmulFrom(p: bv8, a: bv8, b: bv8, n: nat): bv8
    decreases n
  {
    if n == 0 then p else GmulFrom(if b & 1 == 1 then p ^ a else p, Double(a), b >> 1, n - 1)
  }

  function Gmul(a: bv8, b: bv8): bv8 { GmulFrom(0, a, b, 8) }

  /** The product loop of the source. */
  method GaloisMul(a0: bv8, b0: bv8) returns (p: bv8)
    ensures p == Gmul(a0, b0)
  {
    var a, b := a0, b0;
    p := 0;
    for i := 0 to 8
      invariant GmulFrom(p, a, b, 8 - i) == Gmul(a0, b0)
    {
      if b & 1 == 1 { p := p ^ a; }
      var hi := a & 0x80;
      a := a << 1;
      if hi != 0 { a := a ^ 0x1B; }
      b := b >> 1;
    }
  }

  // ---------------------------------------------------------------------- the layers

  function SubColumn(c: Column): Column { Column(SBox(c.b0), SBox(c.b1), SBox(c.b2), SBox(c.b3)) }

  function InvSubColumn(c: Column): Column { Column(InvSBox(c.b0), InvSBox(c.b1), InvSBox(c.b2), InvSBox(c.b3)) }

  function SubBytes(s: State): State { State(SubColumn(s.c0), SubColumn(s.c1), SubColumn(s.c2), SubColumn(s.c3)) }

  function InvSubBytes(s: State): State {
    State(InvSubColumn(s.c0), InvSubColumn(s.c1), InvSubColumn(s.c2), InvSubColumn(s.c3))
  }

  /** Row `r` moves left by `r`. */
  function ShiftRows(s: State): State {
    State(Column(s.c0.b0, s.c1.b1, s.c2.b2, s.c3.b3), Column(s.c1.b0, s.c2.b1, s.c3.b2, s.c0.b3),
          Column(s.c2.b0, s.c3.b1, s.c0.b2, s.c1.b3), Column(s.c3.b0, s.c0.b1, s.c1.b2, s.c2.b3))
  }

  function InvShiftRows(s: State): State {
    State(Column(s.c0.b0, s.c3.b1, s.c2.b2, s.c1.b3), Column(s.c1.b0, s.c0.b1, s.c3.b2, s.c2.b3),
          Column(s.c2.b0, s.c1.b1, s.c0.b2, s.c3.b3), Column(s.c3.b0, s.c2.b1, s.c1.b2, s.c0.b3))
  }

  function Sum(a: bv8, b: bv8, c: bv8, d: bv8): bv8 { Plus(Plus(Plus(a, b), c), d) }

  /** One byte of the mix: two and three times the first two bytes, and the other two. */
  function Mix(w: bv8, x: bv8, y: bv8, z: bv8): bv8 { Sum(Gmul(w, 2), Gmul(x, 3), y, z) }

  function MixColumn(c: Column): Column {
    Column(Mix(c.b0, c.b1, c.b2, c.b3), Mix(c.b1, c.b2, c.b3, c.b0), Mix(c.b2, c.b3, c.b0, c.b1), Mix(c.b3, c.b0, c.b1, c.b2))
  }

  /** One byte of the inverse mix: fourteen, eleven, thirteen and nine times the four bytes. */
  function Unmix(w: bv8, x: bv8, y: bv8, z: bv8): bv8 { Sum(Gmul(w, 0xE), Gmul(x, 0xB), Gmul(y, 0xD), Gmul(z, 9)) }

  function InvMixColumn(c: Column): Column {
    Column(Unmix(c.b0, c.b1, c.b2, c.b3), Unmix(c.b1, c.b2, c.b3, c.b0),
           Unmix(c.b2, c.b3, c.b0, c.b1), Unmix(c.b3, c.b0, c.b1, c.b2))
  }

  function MixColumns(s: State): State { State(MixColumn(s.c0), MixColumn(s.c1), MixColumn(s.c2), MixColumn(s.c3)) }

  function InvMixColumns(s: State): State {
    State(InvMixColumn(s.c0), InvMixColumn(s.c1), InvMixColumn(s.c2), InvMixColumn(s.c3))
  }

  function XorColumn(a: Column, b: Column): Column { Column(a.b0 ^ b.b0, a.b1 ^ b.b1, a.b2 ^ b.b2, a.b3 ^ b.b3) }

  function AddRoundKey(s: State, k: State): State {
    State(XorColumn(s.c0, k.c0), XorColumn(s.c1, k.c1), XorColumn(s.c2, k.c2), XorColumn(s.c3, k.c3))
  }

  // ------------------------------------------------------------------ words and states

  function Byte(w: Word, i: bv6): bv8
    requires i <= 24
  {
    ((w >> i) & 0xFF) as bv8
  }

  function Compose(b3: bv8, b2: bv8, b1: bv8, b0: bv8): Word {
    ((b3 as Word) << 24) | ((b2 as Word) << 16) | ((b1 as Word) << 8) | (b0 as Word)
  }

  function ColumnOf(w: Word): Column { Column(Byte(w, 24), Byte(w, 16), Byte(w, 8), Byte(w, 0)) }

  function WordOfColumn(c: Column): Word { Compose(c.b0, c.b1, c.b2, c.b3) }

  function StateOf(x: Block): State { State(ColumnOf(x.w0), ColumnOf(x.w1), ColumnOf(x.w2), ColumnOf(x.w3)) }

  function BlockOf(s: State): Block {
    Block(WordOfColumn(s.c0), WordOfColumn(s.c1), WordOfColumn(s.c2), WordOfColumn(s.c3))
  }

  // ------------------------------------------------------------------- key expansion

  function Rcon(r: nat): bv8 { if r <= 1 then 1 else Double(Rcon(r - 1)) }

  /** Rotates a word of the key schedule by a byte, substitutes, and adds the round constant. */
  function ScheduleCore(c: Column, rcon: bv8): Column { Column(SBox(c.b1) ^ rcon, SBox(c.b2), SBox(c.b3), SBox(c.b0)) }

  function NextKey(k: State, rcon: bv8): State {
    var c0 := XorColumn(k.c0, ScheduleCore(k.c3, rcon));
    var c1 := XorColumn(k.c1, c0);
    var c2 := XorColumn(k.c2, c1);
    State(c0, c1, c2, XorColumn(k.c3, c2))
  }

  function RoundKey(key: State, r: nat): State { if r == 0 then key else NextKey(RoundKey(key, r - 1), Rcon(r)) }

  // ------------------------------------------------------------------------ the cipher

  function Round(s: State, k: State): State { AddRoundKey(MixColumns(ShiftRows(SubBytes(s))), k) }

  function LastRound(s: State, k: State): State { AddRoundKey(ShiftRows(SubBytes(s)), k) }

  /** The state after `r` full rounds. */
  function Rounds(s: State, key: State, r: nat): State {
    if r == 0 then AddRoundKey(s, key) else Round(Rounds(s, key, r - 1), RoundKey(key, r))
  }

  function EncryptState(s: State, key: State): State { LastRound(Rounds(s, key, 9), RoundKey(key, 10)) }

  function InvRound(s: State, k: State): State { InvMixColumns(AddRoundKey(InvSubBytes(InvShiftRows(s)), k)) }

  /** Undoes the rounds `r` down to 1 of a state whose round key is still added. */
  function InvRounds(s: State, key: State, r: nat): State
    decreases r
  {
    if r == 0 then s else InvRounds(InvRound(s, RoundKey(key, r)), key, r - 1)
  }

  function DecryptState(s: State, key: State): State {
    AddRoundKey(InvSubBytes(InvShiftRows(InvRounds(AddRoundKey(s, RoundKey(key, 10)), key, 9))), key)
  }

  function Encrypt(key: Block, x: Block): Block { BlockOf(EncryptState(StateOf(x), StateOf(key))) }

  function Decrypt(key: Block, x: Block): Block { BlockOf(DecryptState(StateOf(x), StateOf(key))) }

  // ------------------------------------------------------------------------- inverses

  lemma SubBytesInverts(s: State)
    ensures InvSubBytes(SubBytes(s)) == s
  {
    hide SBox;
    hide InvSBox;
    SubColumnInverts(s.c0);
    SubColumnInverts(s.c1);
    SubColumnInverts(s.c2);
    SubColumnInverts(s.c3);
  }

  lemma SubColumnInverts(c: Column)
    ensures InvSubColumn(SubColumn(c)) == c
  {
    hide SBox;
    hide InvSBox;
    SBoxInverts(c.b0);
    SBoxInverts(c.b1);
    SBoxInverts(c.b2);
    SBoxInverts(c.b3);
  }

  lemma ShiftRowsInverts(s: State)
    ensures InvShiftRows(ShiftRows(s)) == s
  {
  }

  lemma XorByteInverts(a: bv8, b: bv8)
    ensures (a ^ b) ^ b == a
  {
  }

  lemma XorColumnInverts(a: Column, b: Column)
    ensures XorColumn(XorColumn(a, b), b) == a
  {
    XorByteInverts(a.b0, b.b0);
    XorByteInverts(a.b1, b.b1);
    XorByteInverts(a.b2, b.b2);
    XorByteInverts(a.b3, b.b3);
  }

  lemma AddRoundKeyInverts(s: State, k: State)
    ensures AddRoundKey(AddRoundKey(s, k), k) == s
  {
    hide XorColumn;
    XorColumnInverts(s.c0, k.c0);
    XorColumnInverts(s.c1, k.c1);
    XorColumnInverts(s.c2, k.c2);
    XorColumnInverts(s.c3, k.c3);
  }

  lemma {:induction false} NothingLeft(p: bv8, a: bv8, n: nat)
    ensures GmulFrom(p, a, 0, n) == p
    decreases n
  {
    if n > 0 { NothingLeft(p, Double(a), n - 1); }
  }

  lemma ZeroPlus(a: bv8)
    ensures Plus(0, a) == a
  {
  }

  lemma Skip(p: bv8, a: bv8, b: bv8, c: bv8, n: nat)
    requires n > 0 && b & 1 == 0 && c == b >> 1
    ensures GmulFrom(p, a, b, n) == GmulFrom(p, Double(a), c, n - 1)
  {
  }

  lemma Take(p: bv8, a: bv8, b: bv8, c: bv8, n: nat)
    requires n > 0 && b & 1 == 1 && c == b >> 1
    ensures GmulFrom(p, a, b, n) == GmulFrom(Plus(p, a), Double(a), c, n - 1)
  {
  }

  lemma TimesTwo(a: bv8)
    ensures var d := Double(a); Gmul(a, 0x2) == d
  {
    hide GmulFrom;
    hide Double;
    hide Plus;
    var d := Double(a);
    var q := Double(d);
    ZeroPlus(d);
    Skip(0, a, 0x2, 0x1, 8);
    Take(0, d, 0x1, 0x0, 7);
    NothingLeft(d, q, 6);
  }

  lemma TimesThree(a: bv8)
    ensures var d := Double(a); Gmul(a, 0x3) == Plus(a, d)
  {
    hide GmulFrom;
    hide Double;
    hide Plus;
    var d := Double(a);
    var q := Double(d);
    ZeroPlus(a);
    Take(0, a, 0x3, 0x1, 8);
    Take(a, d, 0x1, 0x0, 7);
    NothingLeft(Plus(a, d), q, 6);
  }

  lemma TimesNine(a: bv8)
    ensures var d := Double(a); var q := Double(d); var e := Double(q); Gmul(a, 0x9) == Plus(a, e)
  {
    hide GmulFrom;
    hide Double;
    hide Plus;
    var d := Double(a);
    var q := Double(d);
    var e := Double(q);
    ZeroPlus(a);
    Take(0, a, 0x9, 0x4, 8);
    Skip(a, d, 0x4, 0x2, 7);
    Skip(a, q, 0x2, 0x1, 6);
    Take(a, e, 0x1, 0x0, 5);
    NothingLeft(Plus(a, e), Double(e), 4);
  }

  lemma TimesEleven(a: bv8)
    ensures var d := Double(a); var q := Double(d); var e := Double(q); Gmul(a, 0xB) == Plus(Plus(a, d), e)
  {
    hide GmulFrom;
    hide Double;
    hide Plus;
    var d := Double(a);
    var q := Double(d);
    var e := Double(q);
    ZeroPlus(a);
    Take(0, a, 0xB, 0x5, 8);
    Take(a, d, 0x5, 0x2, 7);
    Skip(Plus(a, d), q, 0x2, 0x1, 6);
    Take(Plus(a, d), e, 0x1, 0x0, 5);
    NothingLeft(Plus(Plus(a, d), e), Double(e), 4);
  }

  lemma TimesThirteen(a: bv8)
    ensures var d := Double(a); var q := Double(d); var e := Double(q); Gmul(a, 0xD) == Plus(Plus(a, q), e)
  {
    hide GmulFrom;
    hide Double;
    hide Plus;
    var d := Double(a);
    var q := Double(d);
    var e := Double(q);
    ZeroPlus(a);
    Take(0, a, 0xD, 0x6, 8);
    Skip(a, d, 0x6, 0x3, 7);
    Take(a, q, 0x3, 0x1, 6);
    Take(Plus(a, q), e, 0x1, 0x0, 5);
    NothingLeft(Plus(Plus(a, q), e), Double(e), 4);
  }

  lemma TimesFourteen(a: bv8)
    ensures var d := Double(a); var q := Double(d); var e := Double(q); Gmul(a, 0xE) == Plus(Plus(d, q), e)
  {
    hide GmulFrom;
    hide Double;
    hide Plus;
    var d := Double(a);
    var q := Double(d);
    var e := Double(q);
    ZeroPlus(d);
    Skip(0, a, 0xE, 0x7, 8);
    Take(0, d, 0x7, 0x3, 7);
    Take(d, q, 0x3, 0x1, 6);
    Take(Plus(d, q), e, 0x1, 0x0, 5);
    NothingLeft(Plus(Plus(d, q), e), Double(e), 4);
  }

  // The laws of addition, one by one; what follows uses only these.

  lemma Comm(a: bv8, b: bv8)
    ensures Plus(a, b) == Plus(b, a)
  {
  }

  lemma Assoc(a: bv8, b: bv8, c: bv8)
    ensures Plus(Plus(a, b), c) == Plus(a, Plus(b, c))
  {
  }

  lemma Twice(a: bv8)
    ensures Plus(a, a) == 0
  {
  }

  lemma CancelLeft(x: bv8, y: bv8)
    ensures Plus(x, Plus(x, y)) == y
  {
    hide Plus;
    Assoc(x, x, y);
    Twice(x);
    ZeroPlus(y);
  }

  lemma CancelRight(x: bv8, y: bv8)
    ensures Plus(Plus(y, x), x) == y
  {
    hide Plus;
    Comm(y, x);
    Comm(Plus(x, y), x);
    CancelLeft(x, y);
  }

  lemma Interchange(a: bv8, b: bv8, c: bv8, d: bv8)
    ensures Plus(Plus(a, b), Plus(c, d)) == Plus(Plus(a, c), Plus(b, d))
  {
    hide Plus;
    Assoc(a, b, Plus(c, d));
    Assoc(b, c, d);
    Comm(b, c);
    Assoc(c, b, d);
    Assoc(a, c, Plus(b, d));
  }

  lemma ShiftIsLinear(a: bv8, b: bv8)
    ensures Shift(Plus(a, b)) == Plus(Shift(a), Shift(b))
  {
  }

  lemma TopIsLinear(a: bv8, b: bv8)
    ensures Top(Plus(a, b)) == (Top(a) != Top(b))
  {
  }

  /** Doubling respects addition. */
  lemma DoubleIsLinear(a: bv8, b: bv8)
    ensures Double(Plus(a, b)) == Plus(Double(a), Double(b))
  {
    hide Plus;
    hide Shift;
    hide Top;
    ShiftIsLinear(a, b);
    TopIsLinear(a, b);
    var x, y, k := Shift(a), Shift(b), 0x1B as bv8;
    Interchange(x, k, y, k);
    Twice(k);
    Comm(Plus(x, y), 0);
    ZeroPlus(Plus(x, y));
    Assoc(x, y, k);
    Comm(y, k);
    Assoc(x, k, y);
  }

  lemma PairSum(a: bv8, b: bv8, c: bv8, d: bv8, e: bv8, f: bv8, g: bv8, h: bv8)
    ensures Sum(Plus(a, e), Plus(b, f), Plus(c, g), Plus(d, h)) == Plus(Sum(a, b, c, d), Sum(e, f, g, h))
  {
    hide Plus;
    Interchange(a, e, b, f);
    Interchange(Plus(a, b), Plus(e, f), c, g);
    Interchange(Plus(Plus(a, b), c), Plus(Plus(e, f), g), d, h);
  }

  lemma DoubleSum(a: bv8, b: bv8, c: bv8, d: bv8)
    ensures Double(Sum(a, b, c, d)) == Sum(Double(a), Double(b), Double(c), Double(d))
  {
    hide Plus;
    hide Double;
    DoubleIsLinear(a, b);
    DoubleIsLinear(Plus(a, b), c);
    DoubleIsLinear(Plus(Plus(a, b), c), d);
  }

  lemma SumFirst(a: bv8, b: bv8, c: bv8, d: bv8)
    ensures Sum(a, b, c, d) == Plus(a, Plus(Plus(b, c), d)) && Sum(a, b, c, d) == Sum(b, c, d, a)
    ensures Sum(a, b, c, d) == Plus(Plus(a, b), Plus(c, d))
  {
    hide Plus;
    Assoc(Plus(a, b), c, d);
    Assoc(a, b, c);
    Assoc(a, Plus(b, c), d);
    Comm(a, Plus(Plus(b, c), d));
  }

  /** The part of an inverse mix that is doubled at most twice. */
  lemma SortLow(w1: bv8, w2: bv8, x0: bv8, x1: bv8, y0: bv8, y2: bv8, z0: bv8)
    ensures Sum(Plus(w1, w2), Plus(x0, x1), Plus(y0, y2), z0)
            == Plus(Plus(w1, x1), Plus(Plus(w2, y2), Plus(Plus(x0, y0), z0)))
  {
    hide Plus;
    var q, p := Plus(w1, x1), Plus(w2, y2);
    Comm(x0, x1);
    Interchange(w1, w2, x1, x0);
    Assoc(q, Plus(w2, x0), Plus(y0, y2));
    Comm(y0, y2);
    Interchange(w2, x0, y2, y0);
    Assoc(q, Plus(p, Plus(x0, y0)), z0);
    Assoc(p, Plus(x0, y0), z0);
  }

  /** The inverse mix as doublings of three sums. */
  lemma UnmixIs(w: bv8, x: bv8, y: bv8, z: bv8)
    ensures Unmix(w, x, y, z) ==
      Plus(Plus(Double(Plus(w, x)), Plus(Double(Double(Plus(w, y))), Plus(Plus(x, y), z))),
           Double(Double(Double(Sum(w, x, y, z)))))
  {
    hide Double;
    hide Gmul;
    hide Plus;
    hide Sum;
    var w1, x1, y1, z1 := Double(w), Double(x), Double(y), Double(z);
    var w2, x2, y2, z2 := Double(w1), Double(x1), Double(y1), Double(z1);
    TimesFourteen(w);
    TimesEleven(x);
    TimesThirteen(y);
    TimesNine(z);
    PairSum(Plus(w1, w2), Plus(x, x1), Plus(y, y2), z, Double(w2), Double(x2), Double(y2), Double(z2));
    SortLow(w1, w2, x, x1, y, y2, z);
    DoubleSum(w, x, y, z);
    DoubleSum(w1, x1, y1, z1);
    DoubleSum(w2, x2, y2, z2);
    DoubleIsLinear(w, y);
    DoubleIsLinear(w1, y1);
    DoubleIsLinear(w, x);
  }

  /** A mixed byte, from the sum of the column. */
  lemma MixIs(a: bv8, b: bv8, c: bv8, d: bv8)
    ensures Mix(a, b, c, d) == Plus(Plus(Double(a), Double(b)), Plus(Sum(a, b, c, d), a))
  {
    hide Double;
    hide Gmul;
    hide Plus;
    TimesTwo(a);
    TimesThree(b);
    var e := Plus(Double(a), Double(b));
    Comm(b, Double(b));
    Assoc(Double(a), Double(b), b);
    Assoc(e, b, c);
    Assoc(e, Plus(b, c), d);
    SumFirst(a, b, c, d);
    Comm(Sum(a, b, c, d), a);
    CancelLeft(a, Plus(Plus(b, c), d));
  }

  lemma SameFour(t: bv8)
    ensures Sum(t, t, t, t) == 0
  {
    hide Plus;
    Twice(t);
    ZeroPlus(t);
  }

  /** Sums of mixed bytes: all four, two opposite, two neighbours, all but the first. */
  lemma MixedSums(a0: bv8, a1: bv8, a2: bv8, a3: bv8, d0: bv8, d1: bv8, d2: bv8, d3: bv8, t: bv8)
    requires t == Sum(a0, a1, a2, a3)
    ensures var m0, m1 := Plus(Plus(d0, d1), Plus(t, a0)), Plus(Plus(d1, d2), Plus(t, a1));
      var m2, m3 := Plus(Plus(d2, d3), Plus(t, a2)), Plus(Plus(d3, d0), Plus(t, a3));
      && Sum(m0, m1, m2, m3) == t
      && Plus(m0, m2) == Plus(Sum(d0, d1, d2, d3), Plus(a0, a2))
      && Plus(m0, m1) == Plus(Plus(d0, d2), Plus(a0, a1))
      && Plus(Plus(m1, m2), m3) == Plus(Plus(d0, d1), a0)
  {
    hide Plus;
    hide Sum;
    var e0, e1, e2, e3 := Plus(d0, d1), Plus(d1, d2), Plus(d2, d3), Plus(d3, d0);
    var c0, c1, c2, c3 := Plus(t, a0), Plus(t, a1), Plus(t, a2), Plus(t, a3);
    var m0, m1, m2, m3 := Plus(e0, c0), Plus(e1, c1), Plus(e2, c2), Plus(e3, c3);
    PairSum(e0, e1, e2, e3, c0, c1, c2, c3);
    PairSum(d0, d1, d2, d3, d1, d2, d3, d0);
    PairSum(t, t, t, t, a0, a1, a2, a3);
    SumFirst(d0, d1, d2, d3);
    Twice(Sum(d0, d1, d2, d3));
    SameFour(t);
    ZeroPlus(t);
    Twice(t);
    Interchange(e0, c0, e2, c2);
    Interchange(t, a0, t, a2);
    ZeroPlus(Plus(a0, a2));
    Interchange(e0, c0, e1, c1);
    Interchange(t, a0, t, a1);
    ZeroPlus(Plus(a0, a1));
    Assoc(d0, d1, Plus(d1, d2));
    CancelLeft(d1, d2);
    SumFirst(m0, m1, m2, m3);
    CancelLeft(m0, Plus(Plus(m1, m2), m3));
    Assoc(e0, c0, t);
    Comm(t, a0);
    CancelRight(t, a0);
  }

  lemma Collapse(a: bv8, b: bv8, c: bv8, x: bv8)
    ensures Plus(Plus(Plus(a, b), Plus(Plus(c, a), Plus(b, x))), c) == x
  {
    hide Plus;
    Comm(c, a);
    Interchange(a, c, b, x);
    CancelLeft(Plus(a, b), Plus(c, x));
    Comm(c, x);
    CancelRight(c, x);
  }

  /** Unmixing a mixed column gives back its first byte; the others follow by rotation. */
  lemma UnmixMixed(a0: bv8, a1: bv8, a2: bv8, a3: bv8)
    ensures Unmix(Mix(a0, a1, a2, a3), Mix(a1, a2, a3, a0), Mix(a2, a3, a0, a1), Mix(a3, a0, a1, a2)) == a0
  {
    hide Plus;
    hide Sum;
    hide Double;
    hide Mix;
    hide Unmix;
    var t, u, v := Sum(a0, a1, a2, a3), Plus(a0, a2), Plus(a0, a1);
    var d0, d1, d2, d3 := Double(a0), Double(a1), Double(a2), Double(a3);
    MixIs(a0, a1, a2, a3);
    MixIs(a1, a2, a3, a0);
    MixIs(a2, a3, a0, a1);
    MixIs(a3, a0, a1, a2);
    SumFirst(a0, a1, a2, a3);
    SumFirst(a1, a2, a3, a0);
    SumFirst(a2, a3, a0, a1);
    MixedSums(a0, a1, a2, a3, d0, d1, d2, d3, t);
    UnmixIs(Mix(a0, a1, a2, a3), Mix(a1, a2, a3, a0), Mix(a2, a3, a0, a1), Mix(a3, a0, a1, a2));
    DoubleSum(a0, a1, a2, a3);
    DoubleIsLinear(a0, a2);
    DoubleIsLinear(a0, a1);
    DoubleIsLinear(Double(t), u);
    DoubleIsLinear(Double(Double(t)), Double(u));
    DoubleIsLinear(Double(u), v);
    Collapse(Double(Double(u)), Plus(d0, d1), Double(Double(Double(t))), a0);
  }

  lemma MixColumnInverts(c: Column)
    ensures InvMixColumn(MixColumn(c)) == c
  {
    hide Mix;
    hide Unmix;
    UnmixMixed(c.b0, c.b1, c.b2, c.b3);
    UnmixMixed(c.b1, c.b2, c.b3, c.b0);
    UnmixMixed(c.b2, c.b3, c.b0, c.b1);
    UnmixMixed(c.b3, c.b0, c.b1, c.b2);
  }

  lemma MixColumnsInverts(s: State)
    ensures InvMixColumns(MixColumns(s)) == s
  {
    hide MixColumn;
    hide InvMixColumn;
    MixColumnInverts(s.c0);
    MixColumnInverts(s.c1);
    MixColumnInverts(s.c2);
    MixColumnInverts(s.c3);
  }

  // ------------------------------------------------------------------------ the result

  /** Decryption's rounds, interleaved with its final layers, undo encryption's. */
  lemma {:induction false} RoundsInvert(s: State, key: State, r: nat)
    ensures AddRoundKey(InvSubBytes(InvShiftRows(InvRounds(ShiftRows(SubBytes(Rounds(s, key, r))), key, r))), key) == s
    decreases r
  {
    hide AddRoundKey;
    hide SubBytes;
    hide InvSubBytes;
    hide ShiftRows;
    hide InvShiftRows;
    hide MixColumns;
    hide InvMixColumns;
    hide RoundKey;
    var t := Rounds(s, key, r);
    ShiftRowsInverts(SubBytes(t));
    SubBytesInverts(t);
    if r == 0 {
      AddRoundKeyInverts(s, key);
    } else {
      var p, k := Rounds(s, key, r - 1), RoundKey(key, r);
      AddRoundKeyInverts(MixColumns(ShiftRows(SubBytes(p))), k);
      MixColumnsInverts(ShiftRows(SubBytes(p)));
      RoundsInvert(s, key, r - 1);
    }
  }

  lemma StateInverts(s: State, key: State)
    ensures DecryptState(EncryptState(s, key), key) == s
  {
    hide AddRoundKey;
    hide SubBytes;
    hide InvSubBytes;
    hide ShiftRows;
    hide InvShiftRows;
    hide Rounds;
    hide InvRounds;
    hide RoundKey;
    AddRoundKeyInverts(ShiftRows(SubBytes(Rounds(s, key, 9))), RoundKey(key, 10));
    RoundsInvert(s, key, 9);
  }

  lemma WordRoundTrip(w: Word)
    ensures WordOfColumn(ColumnOf(w)) == w
  {
  }

  lemma ColumnRoundTrip(c: Column)
    ensures ColumnOf(WordOfColumn(c)) == c
  {
  }

  lemma BlockRoundTrip(x: Block)
    ensures BlockOf(StateOf(x)) == x
  {
    hide WordOfColumn;
    hide ColumnOf;
    WordRoundTrip(x.w0);
    WordRoundTrip(x.w1);
    WordRoundTrip(x.w2);
    WordRoundTrip(x.w3);
  }

  lemma StateRoundTrip(s: State)
    ensures StateOf(BlockOf(s)) == s
  {
    hide WordOfColumn;
    hide ColumnOf;
    ColumnRoundTrip(s.c0);
    ColumnRoundTrip(s.c1);
    ColumnRoundTrip(s.c2);
    ColumnRoundTrip(s.c3);
  }

  /** For every key and every block, decryption undoes encryption. */
  lemma DecryptInvertsEncrypt(key: Block, x: Block)
    ensures Decrypt(key, Encrypt(key, x)) == x
  {
    hide EncryptState;
    hide DecryptState;
    hide StateOf;
    hide BlockOf;
    StateRoundTrip(EncryptState(StateOf(x), StateOf(key)));
    StateInverts(StateOf(x), StateOf(key));
    BlockRoundTrip(x);
  }

  /** The cipher of this repository. */
  function Aes128(): Cipher { Cipher(Encrypt, Decrypt) }

  /** It is one of those the CPU and the sealed image are proved for. */
  lemma Aes128Inverts()
    ensures Aes128().Inverts()
  {
    hide Encrypt;
    hide Decrypt;
    forall key, x ensures (Aes128().dec)(key, (Aes128().enc)(key, x)) == x { DecryptInvertsEncrypt(key, x); }
  }
}
