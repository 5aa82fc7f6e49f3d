/**
 * The six-stage pipeline as functions on its state: what each stage does to the
 * pipeline registers, register file, coprocessor, memory and caches in a cycle.
 * Class `CpuTop.Cpu` runs these stages in place.
 */
module Pipeline {
  import opened Words
  import opened Isa

  const MEM_BLOCKS: nat := MEM_WORDS / 4
  const BOOT_BLOCK: nat := HEADER_WORDS / 4

  datatype FetchReg = FetchReg(valid: bool, blockAddr: nat, data: Block)
  datatype DecryptReg = DecryptReg(valid: bool, blockAddr: nat, block: Block, idx: nat)
  datatype DecodeReg = DecodeReg(
    valid: bool, instr: Word, wordAddr: nat,
    rsVal: Word, rtVal: Word, rsIdx: RegIndex, rtIdx: RegIndex,
    predictedTaken: bool, predictedBlock: nat, fallthroughBlock: nat, isControl: bool)
  datatype ExecReg = ExecReg(
    valid: bool, alu: Word, instr: Word, rtForward: Word, mispredict: bool, recovery: nat)
  datatype MemReg = MemReg(valid: bool, alu: Word, instr: Word, readVal: Word)
  datatype WbReg = WbReg(valid: bool, value: Word, instr: Word)

  datatype ILine = ILine(valid: bool, tag: nat, data: Block)
  datatype DLine = DLine(valid: bool, tag: nat, data: Word)

  datatype Machine = Machine(
    fetch: FetchReg, decr: DecryptReg, decode: DecodeReg, exec: ExecReg, mem: MemReg, wb: WbReg,
    regs: seq<Word>, copro: Block, ram: seq<Word>,
    icache: seq<ILine>, dcache: seq<DLine>,
    keyValid: bool, keyFailed: bool, locked: bool)
  {
    predicate Shaped() {
      |regs| == 32 && |ram| == MEM_WORDS && |icache| == 4 && |dcache| == 4 && decr.idx <= 4 &&
      (decr.valid ==> decr.idx < 4)
    }

    /** Locked by an access, and not because the image was rejected. */
    predicate Faulted() { locked && !keyFailed }
  }

  /**
   * What surrounds the pipeline: the validated header, where each logical text
   * block is stored, and whether image validation and key extraction succeed.
   */
  datatype Platform = Platform(c: Config, place: nat -> nat, boots: bool) {
    function FirstBlock(): nat { c.textStart / 4 }
    function EndBlock(): nat { c.textEnd / 4 }

    ghost predicate Valid() {
      && c.Valid()
      && forall b :: FirstBlock() <= b < EndBlock() ==> FirstBlock() <= place(b) < EndBlock()
    }
  }

  // -------------------------------------------------------------- memory access

  function ReadEncrypted(c: Config, ram: seq<Word>, a: nat): Word
    requires |ram| == MEM_WORDS && a < MEM_WORDS
  {
    (c.cipher.dec)(c.key, BlockAt(ram, a / 4)).At(a % 4)
  }

  function WriteEncrypted(c: Config, ram: seq<Word>, a: nat, v: Word): (r: seq<Word>)
    requires |ram| == MEM_WORDS && a < MEM_WORDS
    ensures |r| == MEM_WORDS
  {
    var plain := (c.cipher.dec)(c.key, BlockAt(ram, a / 4)).Set(a % 4, v);
    PutBlock(ram, a / 4, (c.cipher.enc)(c.key, plain))
  }

  /** A data-cache line that holds a word of block `b` is dropped. */
  function DropBlock(dcache: seq<DLine>, b: nat): (r: seq<DLine>)
    requires |dcache| == 4
    ensures |r| == 4
  {
    seq(4, i requires 0 <= i < 4 =>
      if dcache[i].valid && dcache[i].tag == b then dcache[i].(valid := false) else dcache[i])
  }

  function FillLine(dcache: seq<DLine>, a: nat, v: Word): (r: seq<DLine>)
    requires |dcache| == 4
    ensures |r| == 4
  {
    dcache[a % 4 := DLine(true, a / 4, v)]
  }

  function CachedRead(dcache: seq<DLine>, ram: seq<Word>, a: nat): Word
    requires |dcache| == 4 && |ram| == MEM_WORDS && a < MEM_WORDS
  {
    if dcache[a % 4].valid && dcache[a % 4].tag == a / 4 then dcache[a % 4].data else ram[a]
  }

  // --------------------------------------------------------------------- stages

  function Writeback(s: Machine): (t: Machine)
    requires s.Shaped()
    ensures t.Shaped() && t.keyFailed == s.keyFailed && t.keyValid == s.keyValid
  {
    var value := if IsLoad(s.mem.instr) then s.mem.readVal else if IsWrite(s.mem.instr) then s.mem.alu else 0;
    s.(regs := WriteReg(s.regs, s.mem.instr, value),
       wb := WbReg(true, value, s.mem.instr),
       mem := s.mem.(valid := false))
  }

  /** Drops everything that was fetched but not yet executed. */
  function DropFrontend(s: Machine): (t: Machine)
    requires s.Shaped()
    ensures t.Shaped() && t.keyFailed == s.keyFailed && t.keyValid == s.keyValid && t.regs == s.regs
  {
    s.(fetch := s.fetch.(valid := false), decr := s.decr.(valid := false), decode := s.decode.(valid := false))
  }

  function Recover(s: Machine): (t: Machine)
    requires s.Shaped()
    ensures t.Shaped() && t.keyFailed == s.keyFailed && t.keyValid == s.keyValid && t.regs == s.regs
  {
    if s.exec.mispredict then
      var t := DropFrontend(s);
      t.(fetch := t.fetch.(blockAddr := s.exec.recovery))
    else s
  }

  /** Moves the instruction in the execute register on; `loaded` is what a load has read. */
  function Retire(s: Machine, loaded: Word): (t: Machine)
    requires s.Shaped()
    ensures t.Shaped() && t.keyFailed == s.keyFailed && t.keyValid == s.keyValid && t.regs == s.regs && !t.exec.valid
  {
    var e := s.exec;
    s.(mem := MemReg(true, e.alu, e.instr, if IsLoad(e.instr) then loaded else e.alu),
       exec := e.(valid := false))
  }

  function LoadStage(p: Platform, s: Machine, a: nat): (t: Machine)
    requires s.Shaped() && a < MEM_WORDS
    ensures t.Shaped() && t.keyFailed == s.keyFailed && t.keyValid == s.keyValid && t.regs == s.regs && !t.exec.valid
  {
    if !p.c.IsData(a) then Retire(s.(locked := true), 0)
    else if p.c.encrypted then Retire(s, ReadEncrypted(p.c, s.ram, a))
    else
      var v := CachedRead(s.dcache, s.ram, a);
      Retire(s.(dcache := FillLine(s.dcache, a, v)), v)
  }

  function StoreStage(p: Platform, s: Machine, a: nat): (t: Machine)
    requires s.Shaped() && a < MEM_WORDS
    ensures t.Shaped() && t.keyFailed == s.keyFailed && t.keyValid == s.keyValid && t.regs == s.regs && !t.exec.valid
  {
    var v := s.exec.rtForward;
    if a < HEADER_WORDS || p.c.IsText(a) || !p.c.IsData(a) then Retire(s.(locked := true), 0)
    else if p.c.encrypted then
      Retire(s.(ram := WriteEncrypted(p.c, s.ram, a, v), dcache := DropBlock(s.dcache, a / 4)), 0)
    else
      Retire(DropFrontend(s.(ram := s.ram[a := v], dcache := FillLine(s.dcache, a, v))), 0)
  }

  function Memory(p: Platform, s: Machine): (t: Machine)
    requires s.Shaped()
    ensures t.Shaped() && t.keyFailed == s.keyFailed && t.keyValid == s.keyValid && t.regs == s.regs && !t.exec.valid
  {
    var w := s.exec.instr;
    if !IsLoad(w) && !IsStore(w) then Retire(s, 0)
    else match p.c.Translate(s.exec.alu as nat)
      case None => Retire(s, 0)
      case Some(a) => if IsLoad(w) then LoadStage(p, s, a) else StoreStage(p, s, a)
  }

  /** Newest value of a source register: from the memory stage, else from writeback, else as decoded. */
  function Forward(s: Machine, idx: RegIndex, decoded: Word): Word {
    if s.mem.valid && IsWrite(s.mem.instr) && DestReg(s.mem.instr) != 0 && DestReg(s.mem.instr) == idx then
      s.mem.readVal
    else if s.wb.valid && IsWrite(s.wb.instr) && DestReg(s.wb.instr) != 0 && DestReg(s.wb.instr) == idx then
      s.wb.value
    else decoded
  }

  function ExecuteStage(p: Platform, s: Machine): (t: Machine)
    requires s.Shaped()
    ensures t.Shaped() && t.keyFailed == s.keyFailed && t.keyValid == s.keyValid && t.regs == s.regs
  {
    var d := s.decode;
    var rs, rt := Forward(s, d.rsIdx, d.rsVal), Forward(s, d.rtIdx, d.rtVal);
    var x := Execute(p.c, d.instr, d.wordAddr, rs, rt, s.copro);
    var actual := if x.taken then x.target else d.fallthroughBlock;
    var predicted := if d.predictedTaken then d.predictedBlock else d.fallthroughBlock;
    s.(exec := ExecReg(true, x.alu, d.instr, rt, d.isControl && actual != predicted, actual),
       copro := x.copro,
       decode := d.(valid := false))
  }

  /** A load in the execute register whose result the next instruction needs. */
  predicate MustStall(s: Machine)
    requires s.Shaped() && s.decr.valid
  {
    var (rs, rt) := SourceRegs(s.decr.block.At(s.decr.idx));
    var d := DestReg(s.exec.instr);
    s.exec.valid && IsWrite(s.exec.instr) && d != 0 && (rs == d || rt == d) && IsLoad(s.exec.instr)
  }

  /** The word at address `pc` with its registers read and, if it is a jump, its target predicted. */
  function Decoded(regs: seq<Word>, w: Word, pc: nat): DecodeReg
    requires |regs| == 32
  {
    var (rs, rt) := SourceRegs(w);
    DecodeReg(true, w, pc, regs[rs], regs[rt], rs, rt, IsJump(w),
              if IsJump(w) then JumpTargetBlock(w) else (pc + 1) / 4, (pc + 1) / 4, IsConditional(w) || IsJump(w))
  }

  function Decode(s: Machine): (t: Machine)
    requires s.Shaped() && s.decr.valid && !s.decode.valid
    ensures t.Shaped() && t.decode.valid
    ensures t == s.(decode := t.decode, decr := t.decr, fetch := t.fetch)
  {
    var w := s.decr.block.At(s.decr.idx);
    var t := s.(
      decode := Decoded(s.regs, w, 4 * s.decr.blockAddr + s.decr.idx),
      decr := s.decr.(idx := s.decr.idx + 1, valid := s.decr.idx + 1 < 4));
    if IsJump(w) then
      t.(fetch := t.fetch.(valid := false, blockAddr := JumpTargetBlock(w)), decr := t.decr.(valid := false))
    else t
  }

  function Decrypt(p: Platform, s: Machine): (t: Machine)
    requires s.Shaped() && !s.decr.valid
    ensures t.Shaped() && t.decr.valid == s.fetch.valid
    ensures t == s.(decr := t.decr, fetch := t.fetch)
  {
    if !s.fetch.valid then s
    else
      var plain := if s.fetch.blockAddr >= p.FirstBlock() then (p.c.cipher.dec)(p.c.key, s.fetch.data)
                   else s.fetch.data;
      s.(decr := DecryptReg(true, s.fetch.blockAddr, plain, 0),
         fetch := s.fetch.(valid := false, blockAddr := s.fetch.blockAddr + 1))
  }

  function TextFromRam(p: Platform, ram: seq<Word>, b: nat): Block
    requires |ram| == MEM_WORDS
  {
    if p.place(b) >= MEM_BLOCKS then ZERO else BlockAt(ram, p.place(b))
  }

  function FillICache(p: Platform, s: Machine, b: nat): (r: seq<ILine>)
    requires s.Shaped()
    ensures |r| == 4 && r[b % 4].valid && r[b % 4].tag == b / 4
  {
    if s.icache[b % 4].valid && s.icache[b % 4].tag == b / 4 then s.icache
    else s.icache[b % 4 := ILine(true, b / 4, TextFromRam(p, s.ram, b))]
  }

  function Fetch(p: Platform, s: Machine): (t: Machine)
    requires s.Shaped() && !s.fetch.valid
    ensures t.Shaped()
    ensures t == s.(fetch := t.fetch, icache := t.icache, keyValid := t.keyValid, keyFailed := t.keyFailed,
                    locked := t.locked)
  {
    if !s.keyValid && (!p.boots || s.locked) then s.(keyFailed := true, locked := true)
    else
      var b := if s.fetch.blockAddr < p.FirstBlock() then p.FirstBlock() else s.fetch.blockAddr;
      var t := s.(keyValid := true, keyFailed := if s.keyValid then s.keyFailed else false,
                  fetch := s.fetch.(blockAddr := b));
      if b >= p.EndBlock() then t
      else
        var lines := FillICache(p, t, b);
        t.(icache := lines, fetch := FetchReg(true, b, lines[b % 4].data))
  }

  // ---------------------------------------------------------------------- cycle

  /** Writeback, memory (with misprediction recovery) and execute: oldest instruction first. */
  function Backend(p: Platform, s: Machine): (t: Machine)
    requires s.Shaped()
    ensures t.Shaped() && t.keyFailed == s.keyFailed && t.keyValid == s.keyValid && !t.decode.valid
  {
    var s0 := s.(wb := s.wb.(valid := false));
    var s1 := if s0.mem.valid then Writeback(s0) else s0;
    var s2 := if s1.exec.valid then Memory(p, Recover(s1)) else s1;
    if s2.decode.valid then ExecuteStage(p, s2) else s2
  }

  /** Decode (or decrypt the next block) and fetch. */
  function Frontend(p: Platform, s: Machine): (t: Machine)
    requires s.Shaped() && !s.decode.valid
    ensures t.Shaped()
    ensures t == s.(decode := t.decode, decr := t.decr, fetch := t.fetch, icache := t.icache,
                    keyValid := t.keyValid, keyFailed := t.keyFailed, locked := t.locked)
  {
    var s1 := if s.decr.valid then (if MustStall(s) then s else Decode(s)) else Decrypt(p, s);
    if s1.fetch.valid then s1 else Fetch(p, s1)
  }

  function Cycle(p: Platform, s: Machine): (t: Machine)
    requires s.Shaped()
    ensures t.Shaped()
  {
    if s.keyFailed || s.locked then s else Frontend(p, Backend(p, s))
  }

  function Cycles(p: Platform, s: Machine, n: nat): (t: Machine)
    requires s.Shaped()
    ensures t.Shaped()
  {
    if n == 0 then s else Cycle(p, Cycles(p, s, n - 1))
  }

  /** Completes what is in flight in the back end, fetching and decoding nothing more. */
  function Drain(p: Platform, s: Machine): (t: Machine)
    requires s.Shaped()
    ensures t.Shaped()
  {
    DrainStep(p, DrainStep(p, DrainStep(p, s)))
  }

  function DrainStep(p: Platform, s: Machine): (t: Machine)
    requires s.Shaped()
    ensures t.Shaped()
  {
    if s.keyFailed || s.locked then s else Backend(p, s)
  }
}
