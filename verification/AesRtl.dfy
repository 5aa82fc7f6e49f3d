/** The iterative AES core: one round per clock, each round key made from the one before. */
module AesRtl {
  import opened Words
  import opened AesTables
  import opened Aes

  // ---------------------------------------------------------------- the datapath

  function XTime(b: bv8): bv8 { (b << 1) ^ (if b & 0x80 != 0 then 0x1B else 0) }

  function Mix0(a: Column): bv8 { XTime(a.b0) ^ (XTime(a.b1) ^ a.b1) ^ a.b2 ^ a.b3 }
  function Mix1(a: Column): bv8 { a.b0 ^ XTime(a.b1) ^ (XTime(a.b2) ^ a.b2) ^ a.b3 }
  function Mix2(a: Column): bv8 { a.b0 ^ a.b1 ^ XTime(a.b2) ^ (XTime(a.b3) ^ a.b3) }
  function Mix3(a: Column): bv8 { (XTime(a.b0) ^ a.b0) ^ a.b1 ^ a.b2 ^ XTime(a.b3) }

  function MixBytes(a: Column): Column { Column(Mix0(a), Mix1(a), Mix2(a), Mix3(a)) }

  function MixAll(s: State): State { State(MixBytes(s.c0), MixBytes(s.c1), MixBytes(s.c2), MixBytes(s.c3)) }

  /** Byte `r` of column `c` comes, substituted, from column `c + r`. */
  function SubShift(s: State): State {
    State(Column(SBox(s.c0.b0), SBox(s.c1.b1), SBox(s.c2.b2), SBox(s.c3.b3)),
          Column(SBox(s.c1.b0), SBox(s.c2.b1), SBox(s.c3.b2), SBox(s.c0.b3)),
          Column(SBox(s.c2.b0), SBox(s.c3.b1), SBox(s.c0.b2), SBox(s.c1.b3)),
          Column(SBox(s.c3.b0), SBox(s.c0.b1), SBox(s.c1.b2), SBox(s.c2.b3)))
  }

  function RconOf(round: nat): bv8 {
    if round == 1 then 0x01 else if round == 2 then 0x02 else if round == 3 then 0x04 else if round == 4 then 0x08
    else if round == 5 then 0x10 else if round == 6 then 0x20 else if round == 7 then 0x40 else if round == 8 then 0x80
    else if round == 9 then 0x1B else if round == 10 then 0x36 else 0
  }

  // --------------------------------------------------------------- the registers

  const BLANK: State := State(Column(0, 0, 0, 0), Column(0, 0, 0, 0), Column(0, 0, 0, 0), Column(0, 0, 0, 0))

  /** State and round key, and the result of the last operation. */
  datatype Core = Core(s: State, k: State, round: nat, busy: bool, done: bool, result: State)

  const RESET_CORE: Core := Core(BLANK, BLANK, 0, false, false, BLANK)

  /** One clock edge, with the operands presented at it. A start is ignored while the core is busy. */
  function CoreNext(c: Core, start: bool, key: Block, x: Block): Core {
    if !c.busy then
      if start then Core(AddRoundKey(StateOf(x), StateOf(key)), StateOf(key), 1, true, false, c.result)
      else c.(done := false)
    else
      var k := NextKey(c.k, RconOf(c.round));
      var out := AddRoundKey(if c.round == 10 then SubShift(c.s) else MixAll(SubShift(c.s)), k);
      if c.round == 10 then Core(BLANK, BLANK, 0, false, true, out)
      else Core(out, k, c.round + 1, true, false, c.result)
  }

  // ------------------------------------------------------------ what it computes

  lemma XTimeIsDouble(b: bv8)
    ensures XTime(b) == Double(b)
  {
  }

  lemma MixIsDoubles(w: bv8, x: bv8, y: bv8, z: bv8)
    ensures Mix(w, x, y, z) == Sum(XTime(w), Plus(x, XTime(x)), y, z)
  {
    hide Gmul;
    hide Plus;
    hide XTime;
    hide Double;
    XTimeIsDouble(w);
    XTimeIsDouble(x);
    TimesTwo(w);
    TimesThree(x);
  }

  lemma Mix0Is(a: Column)
    ensures Mix0(a) == Sum(XTime(a.b0), Plus(a.b1, XTime(a.b1)), a.b2, a.b3)
  {
    hide XTime;
  }

  lemma Mix1Is(a: Column)
    ensures Mix1(a) == Sum(XTime(a.b1), Plus(a.b2, XTime(a.b2)), a.b3, a.b0)
  {
    hide XTime;
  }

  lemma Mix2Is(a: Column)
    ensures Mix2(a) == Sum(XTime(a.b2), Plus(a.b3, XTime(a.b3)), a.b0, a.b1)
  {
    hide XTime;
  }

  lemma Mix3Is(a: Column)
    ensures Mix3(a) == Sum(XTime(a.b3), Plus(a.b0, XTime(a.b0)), a.b1, a.b2)
  {
    hide XTime;
  }

  /** The shift-and-add mix of the core is the field multiplication of the cipher. */
  lemma MixBytesIsMixColumn(a: Column)
    ensures MixBytes(a) == MixColumn(a)
  {
    hide Mix0;
    hide Mix1;
    hide Mix2;
    hide Mix3;
    hide XTime;
    hide Mix;
    hide Sum;
    hide Plus;
    Mix0Is(a);
    Mix1Is(a);
    Mix2Is(a);
    Mix3Is(a);
    MixIsDoubles(a.b0, a.b1, a.b2, a.b3);
    MixIsDoubles(a.b1, a.b2, a.b3, a.b0);
    MixIsDoubles(a.b2, a.b3, a.b0, a.b1);
    MixIsDoubles(a.b3, a.b0, a.b1, a.b2);
  }

  lemma RconIs(round: nat)
    requires 1 <= round <= 10
    ensures RconOf(round) == Rcon(round)
  {
    assert Rcon(2) == 2 && Rcon(3) == 4 && Rcon(4) == 8 && Rcon(5) == 0x10 && Rcon(6) == 0x20;
    assert Rcon(7) == 0x40 && Rcon(8) == 0x80 && Rcon(9) == 0x1B && Rcon(10) == 0x36;
  }

  lemma RoundIs(s: State, k: State)
    ensures AddRoundKey(MixAll(SubShift(s)), k) == Round(s, k)
    ensures AddRoundKey(SubShift(s), k) == LastRound(s, k)
  {
    hide SBox;
    hide MixBytes;
    hide MixColumn;
    hide XorColumn;
    var t := SubShift(s);
    assert t == ShiftRows(SubBytes(s));
    MixBytesIsMixColumn(t.c0);
    MixBytesIsMixColumn(t.c1);
    MixBytesIsMixColumn(t.c2);
    MixBytesIsMixColumn(t.c3);
  }

  /** The rounds still to go, from round `r` on. */
  function Finish(s: State, k: State, r: nat): State
    requires 1 <= r <= 10
    decreases 10 - r
  {
    var next := NextKey(k, Rcon(r));
    if r == 10 then LastRound(s, next) else Finish(Round(s, next), next, r + 1)
  }

  lemma {:induction false} FinishIs(s: State, key: State, r: nat)
    requires 1 <= r <= 10
    ensures Finish(Rounds(s, key, r - 1), RoundKey(key, r - 1), r) == EncryptState(s, key)
    decreases 10 - r
  {
    hide Round;
    hide LastRound;
    hide NextKey;
    hide Rcon;
    if r < 10 { FinishIs(s, key, r + 1); }
  }

  /** An operation is on its way that ends with the result `out` after `n` more clocks. */
  predicate Delivers(c: Core, start: bool, key: Block, x: Block, out: Block, n: nat) {
    if c.busy then !c.done && 1 <= c.round <= 10 && out == BlockOf(Finish(c.s, c.k, c.round)) && n == 11 - c.round
    else if c.done then out == BlockOf(c.result) && n == 0
    else start && out == Encrypt(key, x) && n == 11
  }

  /** Every clock brings the promised result one clock nearer, whatever is presented after it. */
  lemma DeliversStep(c: Core, start: bool, key: Block, x: Block, out: Block, n: nat, start2: bool, key2: Block, x2: Block)
    requires Delivers(c, start, key, x, out, n) && n > 0
    ensures Delivers(CoreNext(c, start, key, x), start2, key2, x2, out, n - 1)
  {
    hide StateOf;
    hide BlockOf;
    hide MixAll;
    hide SubShift;
    hide Round;
    hide LastRound;
    hide NextKey;
    hide AddRoundKey;
    hide RconOf;
    hide EncryptState;
    hide Rcon;
    if c.busy {
      RconIs(c.round);
      RoundIs(c.s, NextKey(c.k, Rcon(c.round)));
    } else {
      StartIs(key, x);
    }
  }

  lemma StartIs(key: Block, x: Block)
    ensures BlockOf(Finish(AddRoundKey(StateOf(x), StateOf(key)), StateOf(key), 1)) == Encrypt(key, x)
  {
    hide Finish;
    hide AddRoundKey;
    hide EncryptState;
    hide StateOf;
    hide BlockOf;
    FinishIs(StateOf(x), StateOf(key), 1);
  }

  /** The operands presented at one clock. */
  datatype CoreIn = CoreIn(start: bool, key: Block, x: Block)

  function CoreRun(c: Core, ins: seq<CoreIn>): Core
    decreases |ins|
  {
    if ins == [] then c else CoreRun(CoreNext(c, ins[0].start, ins[0].key, ins[0].x), ins[1..])
  }

  /** Eleven clocks after a start the result comes, for one clock, whatever is presented meanwhile. */
  lemma {:induction false} DeliversRun(c: Core, out: Block, n: nat, ins: seq<CoreIn>)
    requires 0 < |ins| <= n && Delivers(c, ins[0].start, ins[0].key, ins[0].x, out, n)
    ensures var t := CoreRun(c, ins); t.done == (|ins| == n) && t.busy == (|ins| < n) && (t.done ==> BlockOf(t.result) == out)
    decreases |ins|
  {
    hide Finish;
    hide Encrypt;
    hide BlockOf;
    hide CoreNext;
    var i := ins[0];
    var c1 := CoreNext(c, i.start, i.key, i.x);
    if |ins| == 1 {
      assert CoreRun(c1, ins[1..]) == c1;
      DeliversStep(c, i.start, i.key, i.x, out, n, false, i.key, i.x);
    } else {
      DeliversStep(c, i.start, i.key, i.x, out, n, ins[1].start, ins[1].key, ins[1].x);
      DeliversRun(c1, out, n - 1, ins[1..]);
    }
  }

  /** The core computes the cipher, in eleven clocks, for every key and block. */
  lemma CoreEncrypts(c: Core, ins: seq<CoreIn>)
    requires !c.busy && 0 < |ins| <= 11 && ins[0].start
    ensures var t := CoreRun(c, ins); t.done == (|ins| == 11) && t.busy == (|ins| < 11)
    ensures |ins| == 11 ==> BlockOf(CoreRun(c, ins).result) == Encrypt(ins[0].key, ins[0].x)
  {
    hide Finish;
    hide Encrypt;
    hide BlockOf;
    hide CoreNext;
    var i := ins[0];
    assert CoreNext(c, true, i.key, i.x) == CoreNext(c.(done := false), true, i.key, i.x) by { CoreIgnoresDone(c, i.key, i.x); }
    assert CoreRun(c, ins) == CoreRun(c.(done := false), ins);
    DeliversRun(c.(done := false), Encrypt(i.key, i.x), 11, ins);
  }

  lemma CoreIgnoresDone(c: Core, key: Block, x: Block)
    requires !c.busy
    ensures CoreNext(c, true, key, x) == CoreNext(c.(done := false), true, key, x)
  {
    hide StateOf;
    hide AddRoundKey;
  }

  /** The registers as the clock drives them. */
  class CoreUnit {
    var s: State
    var k: State
    var round: nat
    var busy: bool
    var done: bool
    var result: State

    function Registers(): Core reads this { Core(s, k, round, busy, done, result) }

    constructor ()
      ensures Registers() == RESET_CORE
    {
      s, k, round, busy, done, result := BLANK, BLANK, 0, false, false, BLANK;
    }

    method Step(i: CoreIn)
      modifies this
      ensures Registers() == CoreNext(old(Registers()), i.start, i.key, i.x)
    {
      hide StateOf;
      hide AddRoundKey;
      hide NextKey;
      hide MixAll;
      hide SubShift;
      hide RconOf;
      done := false;
      if !busy {
        if i.start {
          s, k, round, busy := AddRoundKey(StateOf(i.x), StateOf(i.key)), StateOf(i.key), 1, true;
        }
      } else {
        var next := NextKey(k, RconOf(round));
        var out := SubShift(s);
        if round != 10 { out := MixAll(out); }
        out := AddRoundKey(out, next);
        if round == 10 {
          result, busy, done, round, k, s := out, false, true, 0, BLANK, BLANK;
        } else {
          s, k, round := out, next, round + 1;
        }
      }
    }
  }
}
