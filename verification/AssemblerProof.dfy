/**
 * What assembling keeps: the CPU decodes every instruction as it was written, both
 * passes agree on every address, and control goes where its label is.
 */
module AssemblerProof {
  import opened Words
  import opened Numbers
  import opened Assembler
  import I = Isa

  // ---------------------------------------------------------------------- decoding

  // The numbers that bit vectors stand for.
  function N5(x: bv5): nat { x as nat }
  function N8(x: bv8): nat { x as nat }
  function N16(x: bv16): nat { x as nat }
  function N32(x: Word): nat { x as nat }

  lemma R5Value(r: I.RegIndex)
    ensures N5(R5(r)) == r
  {
  }

  lemma ByteIs(n: nat)
    requires n < 0x100
    ensures N8(n as bv8) == n
  {
  }

  lemma ByteValue(n: nat)
    ensures N8(ByteOf(n)) == n % 0x100
  {
    hide N8;
    ByteIs(n % 0x100);
  }

  lemma JoinValue(h: bv8, l: bv8)
    ensures N16(Join(h, l)) == 0x100 * N8(h) + N8(l)
  {
  }

  function Low16(x: int): nat { x % 0x1_0000 }

  lemma TwosComplement(x: int)
    requires -32768 <= x <= 32767
    ensures x == if Low16(x) < 0x8000 then Low16(x) else Low16(x) - 0x1_0000
  {
  }

  lemma HalfValue(x: int)
    ensures N16(HalfOf(x)) == Low16(x)
  {
    hide ByteOf;
    hide Join;
    hide N8;
    hide N16;
    var n: nat := x % 0x1_0000;
    ByteValue(n / 0x100);
    ByteValue(n);
    JoinValue(ByteOf(n / 0x100), ByteOf(n));
  }

  lemma Widened(h: bv16)
    ensures N32(h as bv32) == N16(h)
  {
  }

  lemma Widened5(r: bv5)
    ensures N32(r as bv32) == N5(r)
  {
  }

  lemma FieldsI(op: Word, s: bv5, t: bv5, imm: bv16)
    requires op <= 0x3F
    ensures var w := IBits(op, s, t, imm);
      && I.Opcode(w) == op && (w >> 21) & 0x1F == (s as bv32) && (w >> 16) & 0x1F == (t as bv32)
      && I.Imm(w) == (imm as bv32)
  {
  }

  lemma FieldsR(s: bv5, t: bv5, d: bv5, sh: bv5, fn: Word)
    requires fn <= 0x3F
    ensures var w := RBits(s, t, d, sh, fn);
      && I.Opcode(w) == 0 && (w >> 21) & 0x1F == (s as bv32) && (w >> 16) & 0x1F == (t as bv32)
      && (w >> 11) & 0x1F == (d as bv32) && (w >> 6) & 0x1F == (sh as bv32) && I.Funct(w) == fn
  {
  }

  lemma RegistersOf(w: Word)
    ensures I.Rs(w) == N32((w >> 21) & 0x1F) && I.Rt(w) == N32((w >> 16) & 0x1F) && I.Rd(w) == N32((w >> 11) & 0x1F)
  {
  }

  lemma SmallIs(w: Word)
    requires w < 0x8000
    ensures N32(w) < 0x8000
  {
    var h := w as bv15;
    assert w == (h as bv32);
  }

  lemma SmallOnly(w: Word)
    requires N32(w) < 0x8000
    ensures w < 0x8000
  {
  }

  lemma SImmOf(w: Word)
    ensures I.SImm(w) == if N32(I.Imm(w)) < 0x8000 then N32(I.Imm(w)) else N32(I.Imm(w)) - 0x1_0000
  {
    if I.Imm(w) < 0x8000 { SmallIs(I.Imm(w)); }
    if N32(I.Imm(w)) < 0x8000 { SmallOnly(I.Imm(w)); }
    hide I.Imm;
  }

  lemma FieldsOfI(op: Word, rs: I.RegIndex, rt: I.RegIndex, imm: int)
    requires op <= 0x3F
    ensures var w := EncodeI(op, rs, rt, imm);
      I.Opcode(w) == op && I.Rs(w) == rs && I.Rt(w) == rt && I.Imm(w) == (HalfOf(imm) as bv32)
  {
    hide IBits;
    hide HalfOf;
    hide R5;
    hide N5;
    hide N32;
    hide I.Rs;
    hide I.Rt;
    hide I.Imm;
    hide I.Opcode;
    var w := EncodeI(op, rs, rt, imm);
    FieldsI(op, R5(rs), R5(rt), HalfOf(imm));
    RegistersOf(w);
    R5Value(rs);
    R5Value(rt);
    Widened5(R5(rs));
    Widened5(R5(rt));
  }

  /** The CPU sees the fields of an immediate instruction as they were written. */
  lemma DecodesI(op: Word, rs: I.RegIndex, rt: I.RegIndex, imm: int)
    requires op <= 0x3F
    ensures var w := EncodeI(op, rs, rt, imm);
      && I.Opcode(w) == op && I.Rs(w) == rs && I.Rt(w) == rt && N32(I.Imm(w)) == Low16(imm)
      && (-32768 <= imm <= 32767 ==> I.SImm(w) == imm)
  {
    hide Low16;
    hide EncodeI;
    hide HalfOf;
    hide N16;
    hide N32;
    hide I.Rs;
    hide I.Rt;
    hide I.SImm;
    hide I.Imm;
    hide I.Opcode;
    FieldsOfI(op, rs, rt, imm);
    HalfValue(imm);
    Widened(HalfOf(imm));
    SImmOf(EncodeI(op, rs, rt, imm));
    if -32768 <= imm <= 32767 { TwosComplement(imm); }
  }

  lemma DecodesR(rs: I.RegIndex, rt: I.RegIndex, rd: I.RegIndex, sh: I.RegIndex, fn: Word)
    requires fn <= 0x3F
    ensures var w := EncodeR(rs, rt, rd, sh, fn);
      && I.Opcode(w) == I.OP_SPECIAL && I.Funct(w) == fn && I.Rs(w) == rs && I.Rt(w) == rt && I.Rd(w) == rd
      && N32((w >> 6) & 0x1F) == sh
  {
    hide RBits;
    hide R5;
    hide N5;
    hide N32;
    hide I.Rs;
    hide I.Rt;
    hide I.Rd;
    hide I.Opcode;
    hide I.Funct;
    var w := EncodeR(rs, rt, rd, sh, fn);
    FieldsR(R5(rs), R5(rt), R5(rd), R5(sh), fn);
    RegistersOf(w);
    R5Value(rs);
    R5Value(rt);
    R5Value(rd);
    R5Value(sh);
    Widened5(R5(rs));
    Widened5(R5(rt));
    Widened5(R5(rd));
    Widened5(R5(sh));
  }

  lemma ComposeValue(d7: bv4, d6: bv4, d5: bv4, d4: bv4, d3: bv4, d2: bv4, d1: bv4, d0: bv4)
    ensures N32(Compose(d7, d6, d5, d4, d3, d2, d1, d0)) ==
      0x1000_0000 * (d7 as nat) + 0x100_0000 * (d6 as nat) + 0x10_0000 * (d5 as nat) + 0x1_0000 * (d4 as nat)
      + 0x1000 * (d3 as nat) + 0x100 * (d2 as nat) + 0x10 * (d1 as nat) + d0 as nat
  {
    hide Half;
    hide N16;
    hide N32;
    HalvesValue(Half(d7, d6, d5, d4), Half(d3, d2, d1, d0));
    NibblesValue(d7, d6, d5, d4);
    NibblesValue(d3, d2, d1, d0);
  }

  lemma HalvesValue(h: bv16, l: bv16)
    ensures N32(((h as Word) << 16) | (l as Word)) == 0x1_0000 * N16(h) + N16(l)
  {
  }

  lemma NibblesValue(d3: bv4, d2: bv4, d1: bv4, d0: bv4)
    ensures N16(Half(d3, d2, d1, d0)) == 0x1000 * (d3 as nat) + 0x100 * (d2 as nat) + 0x10 * (d1 as nat) + d0 as nat
  {
  }

  lemma WordValue(n: nat)
    requires n < 0x1_0000_0000
    ensures N32(WordOf(n)) == n
  {
    hide Digit;
    hide Compose;
    hide N32;
    ComposeValue(Digit(n / 0x1000_0000), Digit(n / 0x100_0000), Digit(n / 0x10_0000), Digit(n / 0x1_0000),
                 Digit(n / 0x1000), Digit(n / 0x100), Digit(n / 0x10), Digit(n));
    DigitValue(n / 0x1000_0000);
    DigitValue(n / 0x100_0000);
    DigitValue(n / 0x10_0000);
    DigitValue(n / 0x1_0000);
    DigitValue(n / 0x1000);
    DigitValue(n / 0x100);
    DigitValue(n / 0x10);
    DigitValue(n);
    Hexadecimal(n);
  }

  lemma FitsTarget(w: Word)
    requires N32(w) < 0x400_0000
    ensures w < 0x400_0000
  {
  }

  lemma FieldsJ(op: Word, t: Word)
    requires op <= 0x3F && t < 0x400_0000
    ensures I.Opcode(JBits(op, t)) == op && JBits(op, t) & 0x03FF_FFFF == t
  {
  }

  lemma DecodesJ(n: nat)
    requires n < 0x400_0000
    ensures var w := JBits(I.OP_J, WordOf(n)); I.Opcode(w) == I.OP_J && I.Target(w) == n
  {
    hide WordOf;
    hide JBits;
    hide I.Opcode;
    WordValue(n);
    FitsTarget(WordOf(n));
    FieldsJ(I.OP_J, WordOf(n));
  }

  lemma N32Injective(x: Word, y: Word)
    requires N32(x) == N32(y)
    ensures x == y
  {
    assert (x as nat) as bv32 == x && (y as nat) as bv32 == y;
  }

  /** A single-word instruction as the CPU takes it apart. */
  predicate Means(syms: Symbols, w: Word, i: Instr) {
    match i
    case Nop => w == 0
    case La(_, _) => false
    case ThreeReg(op, rd, rs, rt) =>
      I.Opcode(w) == I.OP_SPECIAL && I.Funct(w) == FunctOf(op) && I.DestReg(w) == rd && I.SourceRegs(w) == (rs, rt)
    case Shift(left, rd, rt, sh) =>
      && I.Opcode(w) == I.OP_SPECIAL && I.Funct(w) == (if left then I.FN_SLL else I.FN_SRL)
      && I.DestReg(w) == rd && I.SourceRegs(w) == (0, rt) && N32((w >> 6) & 0x1F) == sh
    case AesDec(rd) => I.Opcode(w) == I.OP_SPECIAL && I.Funct(w) == I.FN_AESDEC && I.DestReg(w) == rd
    case Addi(rt, rs, imm) =>
      I.Opcode(w) == I.OP_ADDI && I.DestReg(w) == rt && I.SourceRegs(w) == (rs, 0) && I.SImm(w) == imm
    case Lui(rt, v) => I.Opcode(w) == I.OP_LUI && I.DestReg(w) == rt && Resolve(syms, v) == Some(N32(I.Imm(w)))
    case Ori(rt, rs, v) =>
      && I.Opcode(w) == I.OP_ORI && I.DestReg(w) == rt && I.SourceRegs(w) == (rs, 0)
      && Resolve(syms, v) == Some(N32(I.Imm(w)))
    case Mem(load, rt, off, rs) =>
      && (if load then I.IsLoad(w) && I.DestReg(w) == rt && I.SourceRegs(w).0 == rs
          else I.IsStore(w) && I.SourceRegs(w) == (rs, rt))
      && I.SImm(w) == off
    case Branch(eq, rs, rt, _) =>
      I.Opcode(w) == (if eq then I.OP_BEQ else I.OP_BNE) && I.SourceRegs(w) == (rs, rt)
    case Jump(_) => I.IsJump(w)
    case Malformed(_) => false
  }

  lemma SmallLow16(n: nat)
    requires n <= 0xFFFF
    ensures Low16(n) == n
  {
  }

  lemma MeansR(syms: Symbols, address: nat, i: Instr)
    requires (i.ThreeReg? || i.Shift? || i.AesDec?) && Encode(syms, address, i).Some?
    ensures var ws := Encode(syms, address, i).value; |ws| == 1 && Means(syms, ws[0], i)
  {
    hide EncodeR;
    hide N32;
    hide I.Opcode;
    hide I.Funct;
    hide I.Rs;
    hide I.Rt;
    hide I.Rd;
    hide I.SImm;
    hide I.Imm;
    match i
    case ThreeReg(op, rd, rs, rt) => DecodesR(rs, rt, rd, 0, FunctOf(op));
    case Shift(left, rd, rt, sh) => DecodesR(0, rt, rd, sh, if left then I.FN_SLL else I.FN_SRL);
    case AesDec(rd) => DecodesR(0, 0, rd, 0, I.FN_AESDEC);
  }

  lemma MeansI(syms: Symbols, address: nat, i: Instr)
    requires (i.Addi? || i.Lui? || i.Ori? || i.Mem? || i.Branch?) && Encode(syms, address, i).Some?
    ensures var ws := Encode(syms, address, i).value; |ws| == 1 && Means(syms, ws[0], i)
  {
    hide EncodeI;
    hide N32;
    hide Low16;
    hide I.Opcode;
    hide I.Rs;
    hide I.Rt;
    hide I.Imm;
    hide I.SImm;
    match i
    case Addi(rt, rs, imm) => DecodesI(I.OP_ADDI, rs, rt, imm);
    case Lui(rt, v) =>
      SmallLow16(Resolve(syms, v).value);
      DecodesI(I.OP_LUI, 0, rt, Resolve(syms, v).value);
    case Ori(rt, rs, v) =>
      SmallLow16(Resolve(syms, v).value);
      DecodesI(I.OP_ORI, rs, rt, Resolve(syms, v).value);
    case Mem(load, rt, off, rs) => DecodesI(if load then I.OP_LW else I.OP_SW, rs, rt, off);
    case Branch(eq, rs, rt, dest) =>
      DecodesI(if eq then I.OP_BEQ else I.OP_BNE, rs, rt, (TargetOf(syms, dest).value - (address + 4)) / 4);
  }

  /** Every instruction takes the words the first pass reserves, and the CPU decodes it as it was written. */
  lemma EncodesAsWritten(syms: Symbols, address: nat, i: Instr)
    requires Encode(syms, address, i).Some?
    ensures var ws := Encode(syms, address, i).value; |ws| == WordCount(i) && (i.La? || i.Jump? || Means(syms, ws[0], i))
  {
    if i.ThreeReg? || i.Shift? || i.AesDec? { MeansR(syms, address, i); }
    else if i.Addi? || i.Lui? || i.Ori? || i.Mem? || i.Branch? { MeansI(syms, address, i); }
    hide Means;
    hide EncodeI;
    hide EncodeR;
    if i.Nop? { NopMeans(syms); }
  }

  lemma NopMeans(syms: Symbols)
    ensures Means(syms, 0, Nop)
  {
  }

  lemma HighHalf(n: nat)
    requires n <= U32_MAX
    ensures Low16(n / 0x1_0000) == n / 0x1_0000 && n == 0x1_0000 * (n / 0x1_0000) + Low16(n)
  {
  }

  function Both(h: bv16, l: bv16): Word { ((h as Word) << 16) | (l as Word) }

  lemma LuiComputes(c: I.Config, w: Word, a: Word, b: Word, copro: Block)
    requires I.Opcode(w) == I.OP_LUI
    ensures I.Alu(c, w, a, b, copro) == I.Imm(w) << 16 && I.DestReg(w) == I.Rt(w)
  {
    hide I.Imm;
    hide I.Opcode;
    hide I.Rt;
    hide I.SImmWord;
  }

  lemma OriComputes(c: I.Config, w: Word, a: Word, b: Word, copro: Block)
    requires I.Opcode(w) == I.OP_ORI
    ensures I.Alu(c, w, a, b, copro) == a | I.Imm(w) && I.DestReg(w) == I.Rt(w) && I.SourceRegs(w) == (I.Rs(w), 0)
  {
    hide I.Imm;
    hide I.Opcode;
    hide I.Rt;
    hide I.Rs;
    hide I.SImmWord;
  }

  /** The two words of `la` leave the value in the register, whatever it held. */
  lemma LaLoads(syms: Symbols, address: nat, rt: I.RegIndex, v: Value, c: I.Config, a: Word, b: Word, copro: Block)
    requires Encode(syms, address, La(rt, v)).Some? && Resolve(syms, v).value <= U32_MAX
    ensures var ws := Encode(syms, address, La(rt, v)).value;
      && |ws| == 2 && I.DestReg(ws[0]) == I.DestReg(ws[1]) == I.SourceRegs(ws[1]).0 == rt
      && I.Alu(c, ws[1], I.Alu(c, ws[0], a, b, copro), b, copro) == WordOf(Resolve(syms, v).value)
  {
    hide EncodeI;
    hide Both;
    hide Low16;
    hide HalfOf;
    hide WordOf;
    hide N16;
    hide N32;
    hide I.Opcode;
    hide I.Imm;
    hide I.Rs;
    hide I.Rt;
    hide I.Alu;
    hide I.DestReg;
    hide I.SourceRegs;
    var n := Resolve(syms, v).value;
    var w0, w1 := EncodeI(I.OP_LUI, 0, rt, n / 0x1_0000), EncodeI(I.OP_ORI, rt, rt, n);
    FieldsOfI(I.OP_LUI, 0, rt, n / 0x1_0000);
    FieldsOfI(I.OP_ORI, rt, rt, n);
    LuiComputes(c, w0, a, b, copro);
    OriComputes(c, w1, I.Alu(c, w0, a, b, copro), b, copro);
    BothIs(n);
    BothUnfolds(HalfOf(n / 0x1_0000), HalfOf(n));
  }

  lemma BothUnfolds(h: bv16, l: bv16)
    ensures Both(h, l) == ((h as bv32) << 16) | (l as bv32)
  {
  }

  lemma BothIs(n: nat)
    requires n <= U32_MAX
    ensures Both(HalfOf(n / 0x1_0000), HalfOf(n)) == WordOf(n)
  {
    hide Low16;
    hide HalfOf;
    hide WordOf;
    hide N16;
    hide N32;
    var h, l := HalfOf(n / 0x1_0000), HalfOf(n);
    HalvesValue(h, l);
    HalfValue(n / 0x1_0000);
    HalfValue(n);
    HighHalf(n);
    WordValue(n);
    N32Injective(Both(h, l), WordOf(n));
  }
}
