/**
 * The instruction set of the CPU, one instruction at a time: the machine the
 * pipeline is proved to implement. It runs plaintext code on plaintext data and
 * knows nothing of caches, block mapping, sealing or forwarding.
 */
module Isa {
  import opened Words

  const MEM_WORDS: nat := 1024
  const HEADER_WORDS: nat := 32
  const MARS_TEXT_BASE_WORD: nat := 0x0010_0000
  const MARS_DATA_BASE: nat := 0x1001_0000

  // ------------------------------------------------------------------ encoding

  const OP_SPECIAL: Word := 0x00
  const OP_J: Word := 0x02
  const OP_BEQ: Word := 0x04
  const OP_BNE: Word := 0x05
  const OP_ADDI: Word := 0x08
  const OP_ORI: Word := 0x0D
  const OP_LUI: Word := 0x0F
  const OP_LW: Word := 0x23
  const OP_SW: Word := 0x2B

  const FN_SLL: Word := 0x00
  const FN_SRL: Word := 0x02
  const FN_MULT: Word := 0x18
  const FN_ADD: Word := 0x20
  const FN_SUB: Word := 0x22
  const FN_AND: Word := 0x24
  const FN_OR: Word := 0x25
  const FN_XOR: Word := 0x26
  const FN_AESENC: Word := 0x3A
  const FN_AESDEC: Word := 0x3B

  type RegIndex = i: nat | i < 32

  function Opcode(w: Word): Word { (w >> 26) & 0x3F }
  function Funct(w: Word): Word { w & 0x3F }
  function Rs(w: Word): RegIndex { ((w >> 21) & 0x1F) as nat }
  function Rt(w: Word): RegIndex { ((w >> 16) & 0x1F) as nat }
  function Rd(w: Word): RegIndex { ((w >> 11) & 0x1F) as nat }
  function Shamt(w: Word): bv6 { ((w >> 6) & 0x1F) as bv6 }
  function Imm(w: Word): Word { w & 0xFFFF }
  function SImm(w: Word): int {
    if Imm(w) < 0x8000 then Imm(w) as int else Imm(w) as int - 0x1_0000
  }
  function SImmWord(w: Word): Word {
    if Imm(w) < 0x8000 then Imm(w) else Imm(w) | 0xFFFF_0000
  }
  function Target(w: Word): nat { (w & 0x03FF_FFFF) as nat }

  predicate IsRWriteFunct(f: Word) {
    f == FN_ADD || f == FN_SUB || f == FN_AND || f == FN_OR || f == FN_XOR ||
    f == FN_SLL || f == FN_SRL || f == FN_MULT || f == FN_AESENC || f == FN_AESDEC
  }

  predicate IsWrite(w: Word) {
    if Opcode(w) == OP_SPECIAL then IsRWriteFunct(Funct(w))
    else Opcode(w) == OP_LW || Opcode(w) == OP_ADDI || Opcode(w) == OP_ORI || Opcode(w) == OP_LUI
  }

  predicate IsLoad(w: Word) { Opcode(w) == OP_LW }

  predicate IsStore(w: Word) { Opcode(w) == OP_SW }

  predicate IsConditional(w: Word) { Opcode(w) == OP_BEQ || Opcode(w) == OP_BNE }

  predicate IsJump(w: Word) { Opcode(w) == OP_J }

  function DestReg(w: Word): RegIndex {
    if Opcode(w) == OP_SPECIAL then (if IsRWriteFunct(Funct(w)) then Rd(w) else 0)
    else if IsWrite(w) then Rt(w) else 0
  }

  function SourceRegs(w: Word): (RegIndex, RegIndex) {
    var op, fn := Opcode(w), Funct(w);
    if op == OP_SPECIAL then
      if fn == FN_ADD || fn == FN_SUB || fn == FN_AND || fn == FN_OR || fn == FN_XOR ||
         fn == FN_MULT || fn == FN_AESENC then (Rs(w), Rt(w))
      else if fn == FN_SLL || fn == FN_SRL then (0, Rt(w))
      else (0, 0)
    else if op == OP_LW || op == OP_ADDI || op == OP_ORI then (Rs(w), 0)
    else if op == OP_SW || op == OP_BEQ || op == OP_BNE then (Rs(w), Rt(w))
    else (0, 0)
  }

  function JumpTargetBlock(w: Word): nat {
    var t := Target(w);
    (if t >= MARS_TEXT_BASE_WORD then HEADER_WORDS + (t - MARS_TEXT_BASE_WORD) else t) / 4
  }

  function BranchTargetBlock(pc: nat, simm: int): nat {
    var next := pc + 1 + simm;
    if next < 0 then 0 else next / 4
  }

  // ------------------------------------------------------------- configuration

  /** What a validated image header fixes for a run. Addresses are word addresses. */
  datatype Config = Config(
    cipher: Cipher,
    key: Block,
    textStart: nat, textEnd: nat,
    dataStart: nat, dataEnd: nat,
    encrypted: bool)
  {
    /** What header decoding checks before anything runs. */
    predicate Valid() {
      && HEADER_WORDS <= textStart <= textEnd <= dataStart <= dataEnd <= MEM_WORDS
      && textStart % 4 == 0 && textEnd % 4 == 0 && dataStart % 4 == 0 && dataEnd % 4 == 0
    }

    predicate IsData(a: nat) { dataStart <= a < dataEnd }

    predicate IsText(a: nat) { textStart <= a < textEnd }

    /** A byte or word address as a word address, or none when it maps nowhere. */
    function Translate(e: nat): (r: Option<nat>)
      ensures r.Some? ==> r.value < MEM_WORDS
    {
      if e < MEM_WORDS then Some(e)
      else if e % 4 != 0 then None
      else if e >= MARS_DATA_BASE && dataStart + (e - MARS_DATA_BASE) / 4 < MEM_WORDS then
        Some(dataStart + (e - MARS_DATA_BASE) / 4)
      else if e / 4 < MEM_WORDS then Some(e / 4)
      else None
    }
  }

  datatype Option<T> = None | Some(value: T)

  // ----------------------------------------------------------------- execution

  /** The architectural state: all that a program can observe. */
  datatype Arch = Arch(pc: nat, regs: seq<Word>, copro: Block, data: seq<Word>) {
    predicate Fits(c: Config) {
      |regs| == 32 && regs[0] == 0 && c.dataStart <= c.dataEnd && |data| == c.dataEnd - c.dataStart
    }
  }

  /** Result of the execute step: ALU output, coprocessor, and where control goes. */
  datatype Executed = Executed(alu: Word, copro: Block, taken: bool, target: nat)

  function Alu(c: Config, w: Word, rs: Word, rt: Word, copro: Block): Word {
    var op, fn := Opcode(w), Funct(w);
    if op == OP_SPECIAL then
      if fn == FN_ADD then rs + rt
      else if fn == FN_SUB then rs - rt
      else if fn == FN_AND then rs & rt
      else if fn == FN_OR then rs | rt
      else if fn == FN_XOR then rs ^ rt
      else if fn == FN_SLL then rt << Shamt(w)
      else if fn == FN_SRL then rt >> Shamt(w)
      else if fn == FN_MULT then rs * rt
      else if fn == FN_AESENC then (c.cipher.enc)(c.key, Block(rs, rt, rs, rt)).w0
      else if fn == FN_AESDEC then (c.cipher.dec)(c.key, copro).w0
      else 0
    else if op == OP_LW || op == OP_SW || op == OP_ADDI then rs + SImmWord(w)
    else if op == OP_ORI then rs | Imm(w)
    else if op == OP_LUI then Imm(w) << 16
    else 0
  }

  predicate IsAesEnc(w: Word) { Opcode(w) == OP_SPECIAL && Funct(w) == FN_AESENC }

  predicate Taken(w: Word, rs: Word, rt: Word) {
    IsJump(w) || (Opcode(w) == OP_BEQ && rs == rt) || (Opcode(w) == OP_BNE && rs != rt)
  }

  function Execute(c: Config, w: Word, pc: nat, rs: Word, rt: Word, copro: Block): Executed {
    Executed(
      Alu(c, w, rs, rt, copro),
      if IsAesEnc(w) then (c.cipher.enc)(c.key, Block(rs, rt, rs, rt)) else copro,
      Taken(w, rs, rt),
      if IsJump(w) then JumpTargetBlock(w)
      else if Taken(w, rs, rt) then BranchTargetBlock(pc, SImm(w))
      else 0)
  }

  /** A data access either faults (and locks the machine) or yields new data and a loaded value. */
  datatype Access = Fault | Done(data: seq<Word>, value: Word)

  /** Data access of an instruction on the plaintext data region; `value` is what writeback will store. */
  function DataAccess(c: Config, w: Word, alu: Word, rt: Word, data: seq<Word>): (r: Access)
    requires c.Valid() && |data| == c.dataEnd - c.dataStart
    ensures r.Done? ==> |r.data| == |data|
  {
    if !IsLoad(w) && !IsStore(w) then Done(data, alu)
    else match c.Translate(alu as nat)
      case None => Done(data, if IsLoad(w) then 0 else alu)
      case Some(a) =>
        if !c.IsData(a) then Fault
        else if IsLoad(w) then Done(data, data[a - c.dataStart])
        else Done(data[a - c.dataStart := rt], alu)
  }

  function WriteReg(regs: seq<Word>, w: Word, value: Word): (r: seq<Word>)
    requires |regs| == 32
    ensures |r| == 32
    ensures regs[0] == 0 ==> r[0] == 0
  {
    if IsWrite(w) && DestReg(w) != 0 then regs[DestReg(w) := value] else regs
  }

  /** Control falling below the text region is moved to its first word. */
  function Clamp(c: Config, pc: nat): nat {
    if pc / 4 < c.textStart / 4 then c.textStart else pc
  }

  /** Control past the text region stops the program. */
  predicate AtEnd(c: Config, pc: nat) { Clamp(c, pc) / 4 >= c.textEnd / 4 }

  /** The instruction the state is about to run. */
  function Current(c: Config, text: seq<Word>, a: Arch): Word
    requires c.Valid() && |text| == c.textEnd - c.textStart && !AtEnd(c, a.pc)
  {
    text[Clamp(c, a.pc) - c.textStart]
  }

  function Operands(c: Config, text: seq<Word>, a: Arch): (Word, Word)
    requires c.Valid() && |text| == c.textEnd - c.textStart && !AtEnd(c, a.pc) && |a.regs| == 32
  {
    var (s, t) := SourceRegs(Current(c, text, a));
    (a.regs[s], a.regs[t])
  }

  function ExecuteCurrent(c: Config, text: seq<Word>, a: Arch): Executed
    requires c.Valid() && |text| == c.textEnd - c.textStart && !AtEnd(c, a.pc) && |a.regs| == 32
  {
    var (rs, rt) := Operands(c, text, a);
    Execute(c, Current(c, text, a), Clamp(c, a.pc), rs, rt, a.copro)
  }

  function AccessCurrent(c: Config, text: seq<Word>, a: Arch): Access
    requires c.Valid() && |text| == c.textEnd - c.textStart && !AtEnd(c, a.pc) && a.Fits(c)
  {
    DataAccess(c, Current(c, text, a), ExecuteCurrent(c, text, a).alu, Operands(c, text, a).1, a.data)
  }

  /**
   * A taken conditional branch whose target lies in the block of the next word.
   * Control then simply continues with the next word: the machine compares
   * blocks, not words, when it decides whether a prediction was wrong.
   */
  predicate FallsThrough(w: Word, pc: nat, x: Executed) {
    IsConditional(w) && x.taken && x.target == (pc + 1) / 4
  }

  function NextPc(w: Word, pc: nat, x: Executed): nat {
    if x.taken && !FallsThrough(w, pc, x) then 4 * x.target else pc + 1
  }

  /** The instruction at `a` is a store to an unencrypted data word. */
  predicate StoresPlain(c: Config, text: seq<Word>, a: Arch)
    requires c.Valid() && |text| == c.textEnd - c.textStart && a.Fits(c)
  {
    !c.encrypted && !AtEnd(c, a.pc) && IsStore(Current(c, text, a)) &&
    match c.Translate(ExecuteCurrent(c, text, a).alu as nat)
      case Some(w) => c.IsData(w)
      case None => false
  }

  /**
   * Where the machine goes on after a store to an unencrypted word at `pc`. The
   * store empties the front end, as if the program text might have changed, but
   * the fetch unit goes on with the block it would have handed over next: the rest
   * of the store's block is lost, or all of the next block behind a store in the
   * last slot. A jump right behind the store has been followed already.
   */
  function ResumePc(c: Config, text: seq<Word>, pc: nat): nat
    requires c.Valid() && |text| == c.textEnd - c.textStart && c.textStart <= pc < c.textEnd
  {
    if pc % 4 == 3 then (if pc + 1 < c.textEnd then pc + 5 else pc + 1)
    else if IsJump(text[pc + 1 - c.textStart]) then 4 * JumpTargetBlock(text[pc + 1 - c.textStart])
    else 4 * (pc / 4) + 4
  }

  /** Where control goes from the instruction at `a`. */
  function Successor(c: Config, text: seq<Word>, a: Arch): nat
    requires c.Valid() && |text| == c.textEnd - c.textStart && a.Fits(c) && !AtEnd(c, a.pc)
  {
    if StoresPlain(c, text, a) then ResumePc(c, text, Clamp(c, a.pc))
    else NextPc(Current(c, text, a), Clamp(c, a.pc), ExecuteCurrent(c, text, a))
  }

  datatype Outcome = Next(arch: Arch) | Lock | Halt

  /** One instruction, as the machine really orders control flow. */
  function Step(c: Config, text: seq<Word>, a: Arch): (r: Outcome)
    requires c.Valid() && |text| == c.textEnd - c.textStart && a.Fits(c)
    ensures r.Next? ==> r.arch.Fits(c)
  {
    if AtEnd(c, a.pc) then Halt
    else match AccessCurrent(c, text, a)
      case Fault => Lock
      case Done(data, value) =>
        var w, x := Current(c, text, a), ExecuteCurrent(c, text, a);
        Next(Arch(Successor(c, text, a), WriteReg(a.regs, w, value), x.copro, data))
  }

  /** A taken conditional branch in slot 0, 1 or 2 of a block that targets its own block. */
  predicate BranchesIntoOwnBlock(c: Config, text: seq<Word>, a: Arch)
    requires c.Valid() && |text| == c.textEnd - c.textStart && a.Fits(c)
  {
    !AtEnd(c, a.pc) &&
    var pc, x := Clamp(c, a.pc), ExecuteCurrent(c, text, a);
    IsConditional(Current(c, text, a)) && x.taken && pc % 4 != 3 && x.target == pc / 4
  }

  /** The documented rule: every taken branch or jump continues at the start of the target's block. */
  function NominalStep(c: Config, text: seq<Word>, a: Arch): Outcome
    requires c.Valid() && |text| == c.textEnd - c.textStart && a.Fits(c)
  {
    match Step(c, text, a)
    case Next(b) =>
      var x := ExecuteCurrent(c, text, a);
      Next(b.(pc := if x.taken then 4 * x.target else Clamp(c, a.pc) + 1))
    case o => o
  }

  /** A store to an unencrypted word that is not the last word of the program. */
  predicate SkipsAfterStore(c: Config, text: seq<Word>, a: Arch)
    requires c.Valid() && |text| == c.textEnd - c.textStart && a.Fits(c)
  {
    StoresPlain(c, text, a) && Clamp(c, a.pc) + 1 < c.textEnd
  }

  /** The machine leaves the documented rule at `a`. */
  predicate Departs(c: Config, text: seq<Word>, a: Arch)
    requires c.Valid() && |text| == c.textEnd - c.textStart && a.Fits(c)
  {
    BranchesIntoOwnBlock(c, text, a) || SkipsAfterStore(c, text, a)
  }

  lemma ResumesAhead(c: Config, text: seq<Word>, pc: nat)
    requires c.Valid() && |text| == c.textEnd - c.textStart && c.textStart <= pc < c.textEnd
    ensures ResumePc(c, text, pc) == pc + 1 <==> pc + 1 == c.textEnd
  {
    hide JumpTargetBlock;
    hide IsJump;
    if pc % 4 != 3 { assert 4 * JumpTargetBlock(text[pc + 1 - c.textStart]) != pc + 1; }
  }

  lemma StoresGoStraight(c: Config, text: seq<Word>, a: Arch)
    requires c.Valid() && |text| == c.textEnd - c.textStart && a.Fits(c) && StoresPlain(c, text, a)
    ensures !ExecuteCurrent(c, text, a).taken && AccessCurrent(c, text, a).Done?
  {
    hide Alu;
    hide SourceRegs;
    hide Config.Translate;
    hide JumpTargetBlock;
    hide BranchTargetBlock;
  }

  /** The documented successor. */
  function NominalPc(c: Config, text: seq<Word>, a: Arch): nat
    requires c.Valid() && |text| == c.textEnd - c.textStart && a.Fits(c) && !AtEnd(c, a.pc)
  {
    var x := ExecuteCurrent(c, text, a);
    if x.taken then 4 * x.target else Clamp(c, a.pc) + 1
  }

  lemma NextPcExactly(w: Word, pc: nat, x: Executed)
    ensures NextPc(w, pc, x) == (if x.taken then 4 * x.target else pc + 1) <==>
      !(IsConditional(w) && x.taken && pc % 4 != 3 && x.target == pc / 4)
  {
    hide IsConditional;
  }

  lemma DepartsExactly(c: Config, text: seq<Word>, a: Arch)
    requires c.Valid() && |text| == c.textEnd - c.textStart && a.Fits(c) && !AtEnd(c, a.pc)
    ensures Successor(c, text, a) == NominalPc(c, text, a) <==> !Departs(c, text, a)
  {
    NextPcExactly(Current(c, text, a), Clamp(c, a.pc), ExecuteCurrent(c, text, a));
    if StoresPlain(c, text, a) {
      StoresGoStraight(c, text, a);
      ResumesAhead(c, text, Clamp(c, a.pc));
    }
    hide ExecuteCurrent;
    hide ResumePc;
    hide NextPc;
    hide StoresPlain;
  }

  lemma OnlyAccessesFault(c: Config, text: seq<Word>, a: Arch)
    requires c.Valid() && |text| == c.textEnd - c.textStart && a.Fits(c) && !AtEnd(c, a.pc)
    requires AccessCurrent(c, text, a).Fault?
    ensures !ExecuteCurrent(c, text, a).taken && !IsAesEnc(Current(c, text, a)) && !StoresPlain(c, text, a)
  {
    hide Alu;
    hide SourceRegs;
    hide Config.Translate;
    hide JumpTargetBlock;
    hide BranchTargetBlock;
  }

  lemma FaultsStay(c: Config, text: seq<Word>, a: Arch)
    requires c.Valid() && |text| == c.textEnd - c.textStart && a.Fits(c) && Step(c, text, a).Lock?
    ensures !Departs(c, text, a)
  {
    OnlyAccessesFault(c, text, a);
    hide ExecuteCurrent;
    hide StoresPlain;
  }

  /**
   * The two rules agree on exactly the states that neither branch into their own
   * block from slots 0 to 2 nor store to an unencrypted word before the end.
   */
  lemma NominalStepExactly(c: Config, text: seq<Word>, a: Arch)
    requires c.Valid() && |text| == c.textEnd - c.textStart && a.Fits(c)
    ensures Step(c, text, a) == NominalStep(c, text, a) <==> !Departs(c, text, a)
    ensures Step(c, text, a).Next? == NominalStep(c, text, a).Next?
  {
    if !AtEnd(c, a.pc) {
      DepartsExactly(c, text, a);
      if Step(c, text, a).Lock? { FaultsStay(c, text, a); }
    }
    hide ExecuteCurrent;
    hide AccessCurrent;
    hide Successor;
    hide StoresPlain;
    hide BranchesIntoOwnBlock;
  }

  /** `n` instructions; a locked or finished program stays where it is. */
  function Run(c: Config, text: seq<Word>, a: Arch, n: nat): (r: Arch)
    requires c.Valid() && |text| == c.textEnd - c.textStart && a.Fits(c)
    ensures r.Fits(c)
  {
    if n == 0 then a
    else
      var b := Run(c, text, a, n - 1);
      match Step(c, text, b) case Next(d) => d case _ => b
  }

  function NominalRun(c: Config, text: seq<Word>, a: Arch, n: nat): (r: Arch)
    requires c.Valid() && |text| == c.textEnd - c.textStart && a.Fits(c)
    ensures r.Fits(c)
  {
    if n == 0 then a
    else
      var b := NominalRun(c, text, a, n - 1);
      match NominalStep(c, text, b) case Next(d) => d case _ => b
  }

  /** After `n` instructions the machine is where the documented rule puts it. */
  predicate Agrees(c: Config, text: seq<Word>, a: Arch, n: nat)
    requires c.Valid() && |text| == c.textEnd - c.textStart && a.Fits(c)
  {
    NominalRun(c, text, a, n) == Run(c, text, a, n)
  }

  /** Instruction `k` of the run does not depart from the documented rule. */
  predicate Stays(c: Config, text: seq<Word>, a: Arch, k: nat)
    requires c.Valid() && |text| == c.textEnd - c.textStart && a.Fits(c)
  {
    !Departs(c, text, Run(c, text, a, k))
  }

  /**
   * A run follows the documented rule for `n` instructions if and only if none of
   * them departs from it.
   */
  lemma {:induction false} NominalRunAgrees(c: Config, text: seq<Word>, a: Arch, n: nat)
    requires c.Valid() && |text| == c.textEnd - c.textStart && a.Fits(c)
    ensures (forall k: nat :: k <= n ==> Agrees(c, text, a, k)) <==> (forall k: nat :: k < n ==> Stays(c, text, a, k))
  {
    hide Agrees;
    hide Stays;
    if n == 0 {
      AgreesAtStart(c, text, a);
    } else {
      NominalRunAgrees(c, text, a, n - 1);
      if Agrees(c, text, a, n - 1) { StepAgreesExactly(c, text, a, n); }
    }
  }

  lemma AgreesAtStart(c: Config, text: seq<Word>, a: Arch)
    requires c.Valid() && |text| == c.textEnd - c.textStart && a.Fits(c)
    ensures Agrees(c, text, a, 0)
  {
  }

  /** One more instruction from a common state. */
  lemma StepAgreesExactly(c: Config, text: seq<Word>, a: Arch, n: nat)
    requires c.Valid() && |text| == c.textEnd - c.textStart && a.Fits(c)
    requires n > 0 && Agrees(c, text, a, n - 1)
    ensures Agrees(c, text, a, n) <==> Stays(c, text, a, n - 1)
  {
    hide Departs;
    NominalStepExactly(c, text, Run(c, text, a, n - 1));
    StaysTogether(c, text, Run(c, text, a, n - 1));
    hide Step;
    hide NominalStep;
  }

  /** Where the rules differ at all, both go on. */
  lemma StaysTogether(c: Config, text: seq<Word>, b: Arch)
    requires c.Valid() && |text| == c.textEnd - c.textStart && b.Fits(c)
    ensures !Step(c, text, b).Next? ==> Step(c, text, b) == NominalStep(c, text, b)
  {
    hide Successor;
    hide AccessCurrent;
    hide ExecuteCurrent;
    hide WriteReg;
  }
}
