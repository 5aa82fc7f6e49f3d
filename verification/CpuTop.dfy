/**
 * The CPU as the program runs it: pipeline registers, register file, caches and
 * memory are variables that the stage methods update in place, oldest stage
 * first, once per pass of the cycle loop. Each method is tied to the pipeline
 * function of the same stage, and so the loop to the refinement theorem.
 */
module CpuTop {
  import opened Words
  import opened Isa
  import opened Pipeline
  import opened PipelineProof

  class Cpu {
    const p: Platform
    const regFile: array<Word>
    const ram: array<Word>
    var fetch: FetchReg
    var decr: DecryptReg
    var decode: DecodeReg
    var exec: ExecReg
    var mem: MemReg
    var wb: WbReg
    var copro: Block
    var icache: seq<ILine>
    var dcache: seq<DLine>
    var keyValid: bool
    var keyFailed: bool
    var locked: bool

    ghost predicate Valid()
      reads this, regFile, ram
    {
      regFile != ram && regFile.Length == 32 && ram.Length == MEM_WORDS && State().Shaped()
    }

    ghost function State(): Machine
      reads this, regFile, ram
    {
      Machine(fetch, decr, decode, exec, mem, wb, regFile[..], copro, ram[..], icache, dcache,
              keyValid, keyFailed, locked)
    }

    /** Power-on state over a memory image. */
    constructor (p: Platform, image: seq<Word>)
      requires |image| == MEM_WORDS
      ensures Valid() && this.p == p && fresh(regFile) && fresh(ram)
      ensures Reset(State()) && ram[..] == image
    {
      this.p := p;
      regFile := new Word[32](_ => 0);
      ram := new Word[MEM_WORDS](i requires 0 <= i < MEM_WORDS => image[i]);
      fetch := FetchReg(false, BOOT_BLOCK, ZERO);
      decr := DecryptReg(false, 0, ZERO, 0);
      decode := DecodeReg(false, 0, 0, 0, 0, 0, 0, false, 0, 0, false);
      exec := ExecReg(false, 0, 0, 0, false, 0);
      mem := MemReg(false, 0, 0, 0);
      wb := WbReg(false, 0, 0);
      copro := ZERO;
      icache := seq(4, _ => ILine(false, 0, ZERO));
      dcache := seq(4, _ => DLine(false, 0, 0));
      keyValid, keyFailed, locked := false, false, false;
    }

    method StageWriteback()
      requires Valid()
      modifies this, regFile
      ensures Valid() && State() == Writeback(old(State()))
    {
      var value: Word := 0;
      if IsLoad(mem.instr) {
        value := mem.readVal;
      } else if IsWrite(mem.instr) {
        value := mem.alu;
      }
      if IsWrite(mem.instr) && DestReg(mem.instr) != 0 {
        regFile[DestReg(mem.instr)] := value;
      }
      wb := WbReg(true, value, mem.instr);
      mem := mem.(valid := false);
    }

    method RecoverFromMisprediction()
      requires Valid()
      modifies this
      ensures Valid() && State() == Recover(old(State()))
    {
      if exec.mispredict {
        decr := decr.(valid := false);
        decode := decode.(valid := false);
        fetch := FetchReg(false, exec.recovery, fetch.data);
      }
    }

    /** Writes the words of block `b` one by one; a cached word of the block is dropped with each. */
    method StoreBlock(b: nat, v: Block)
      requires Valid() && b < MEM_WORDS / 4
      modifies ram, `dcache
      ensures Valid()
      ensures ram[..] == PutBlock(old(ram[..]), b, v) && dcache == DropBlock(old(dcache), b)
    {
      hide Block.At;
      hide PutBlock;
      for i := 0 to 4
        invariant |dcache| == 4
        invariant forall k :: 0 <= k < MEM_WORDS ==>
          ram[k] == if 4 * b <= k < 4 * b + i then v.At(k - 4 * b) else old(ram[k])
        invariant forall j :: 0 <= j < 4 ==> dcache[j] == if j < i then DropBlock(old(dcache), b)[j] else old(dcache)[j]
      {
        ram[4 * b + i] := v.At(i);
        if dcache[i].valid && dcache[i].tag == b {
          dcache := dcache[i := dcache[i].(valid := false)];
        }
      }
      PutBlockAt(old(ram[..]), b, v);
    }

    /** Rewrites the encrypted block that holds word `a`, and drops it from the data cache. */
    method WriteEncryptedWord(a: nat, v: Word)
      requires Valid() && a < MEM_WORDS
      modifies ram, `dcache
      ensures Valid()
      ensures ram[..] == WriteEncrypted(p.c, old(ram[..]), a, v)
      ensures dcache == DropBlock(old(dcache), a / 4)
    {
      hide Block.Set;
      hide BlockAt;
      hide PutBlock;
      hide DropBlock;
      var b := a / 4;
      BlockAtWords(ram[..], b);
      var plain := (p.c.cipher.dec)(p.c.key, Block(ram[4 * b], ram[4 * b + 1], ram[4 * b + 2], ram[4 * b + 3]));
      StoreBlock(b, (p.c.cipher.enc)(p.c.key, plain.Set(a % 4, v)));
    }

    method ReadThroughCache(a: nat) returns (v: Word)
      requires Valid() && a < MEM_WORDS
      modifies `dcache
      ensures Valid() && v == CachedRead(old(dcache), ram[..], a)
      ensures dcache == FillLine(old(dcache), a, v)
    {
      var i := a % 4;
      if !dcache[i].valid || dcache[i].tag != a / 4 {
        dcache := dcache[i := DLine(true, a / 4, ram[a])];
      }
      v := dcache[i].data;
      assert dcache == FillLine(old(dcache), a, v);
    }

    method WriteThroughCache(a: nat, v: Word)
      requires Valid() && a < MEM_WORDS
      modifies ram, `dcache
      ensures Valid()
      ensures ram[..] == old(ram[..])[a := v] && dcache == FillLine(old(dcache), a, v)
    {
      dcache := dcache[a % 4 := DLine(true, a / 4, v)];
      ram[a] := v;
    }

    method StageLoad(a: nat) returns (loaded: Word)
      requires Valid() && a < MEM_WORDS
      modifies this
      ensures Valid() && exec == old(exec)
      ensures Retire(State(), loaded) == LoadStage(p, old(State()), a)
    {
      hide Opcode;
      hide ReadEncrypted;
      hide CachedRead;
      loaded := 0;
      if !p.c.IsData(a) {
        locked := true;
      } else if p.c.encrypted {
        loaded := ReadEncrypted(p.c, ram[..], a);
      } else {
        loaded := ReadThroughCache(a);
      }
    }

    method StageStore(a: nat)
      requires Valid() && a < MEM_WORDS
      modifies this, ram
      ensures Valid() && exec == old(exec)
      ensures Retire(State(), 0) == StoreStage(p, old(State()), a)
    {
      hide Opcode;
      hide WriteEncrypted;
      hide DropBlock;
      hide FillLine;
      if a < HEADER_WORDS || p.c.IsText(a) || !p.c.IsData(a) {
        locked := true;
      } else if p.c.encrypted {
        WriteEncryptedWord(a, exec.rtForward);
      } else {
        WriteThroughCache(a, exec.rtForward);
        fetch := fetch.(valid := false);
        decr := decr.(valid := false);
        decode := decode.(valid := false);
      }
    }

    method StageMemory()
      requires Valid()
      modifies this, ram
      ensures Valid() && State() == Memory(p, old(State()))
    {
      hide Opcode;
      hide LoadStage;
      hide StoreStage;
      hide Config.Translate;
      var w, loaded := exec.instr, 0;
      if IsLoad(w) || IsStore(w) {
        match p.c.Translate(exec.alu as nat) {
          case None =>
          case Some(a) =>
            if IsLoad(w) {
              loaded := StageLoad(a);
            } else {
              StageStore(a);
            }
        }
      }
      mem := MemReg(true, exec.alu, w, if IsLoad(w) then loaded else exec.alu);
      exec := exec.(valid := false);
    }

    method ForwardSource(idx: RegIndex, decoded: Word) returns (v: Word)
      requires Valid()
      ensures v == Forward(State(), idx, decoded)
    {
      v := decoded;
      if wb.valid && IsWrite(wb.instr) && DestReg(wb.instr) != 0 && DestReg(wb.instr) == idx {
        v := wb.value;
      }
      if mem.valid && IsWrite(mem.instr) && DestReg(mem.instr) != 0 && DestReg(mem.instr) == idx {
        v := mem.readVal;
      }
    }

    method StageExecute()
      requires Valid()
      modifies this
      ensures Valid() && State() == ExecuteStage(p, old(State()))
    {
      hide Opcode;
      hide Execute;
      hide Forward;
      var rs := ForwardSource(decode.rsIdx, decode.rsVal);
      var rt := ForwardSource(decode.rtIdx, decode.rtVal);
      var x := Execute(p.c, decode.instr, decode.wordAddr, rs, rt, copro);
      var actual := if x.taken then x.target else decode.fallthroughBlock;
      var predicted := if decode.predictedTaken then decode.predictedBlock else decode.fallthroughBlock;
      exec := ExecReg(true, x.alu, decode.instr, rt, decode.isControl && actual != predicted, actual);
      copro := x.copro;
      decode := decode.(valid := false);
    }

    method StageDecode()
      requires Valid() && decr.valid && !decode.valid
      modifies this
      ensures Valid() && State() == Decode(old(State()))
    {
      hide Opcode;
      hide SourceRegs;
      hide JumpTargetBlock;
      hide IsJump;
      hide IsConditional;
      hide Block.At;
      hide Decoded;
      DecodedIs(regFile[..], decr.block.At(decr.idx), 4 * decr.blockAddr + decr.idx);
      var w := decr.block.At(decr.idx);
      var pc := 4 * decr.blockAddr + decr.idx;
      var (rs, rt) := SourceRegs(w);
      var predicted := (pc + 1) / 4;
      if IsJump(w) {
        predicted := JumpTargetBlock(w);
      }
      decode := DecodeReg(true, w, pc, regFile[rs], regFile[rt], rs, rt,
                          IsJump(w), predicted, (pc + 1) / 4, IsConditional(w) || IsJump(w));
      decr := decr.(idx := decr.idx + 1);
      if decr.idx >= 4 {
        decr := decr.(valid := false);
      }
      if IsJump(w) {
        fetch := FetchReg(false, predicted, fetch.data);
        decr := decr.(valid := false);
      }
    }

    method StageDecrypt()
      requires Valid() && !decr.valid
      modifies this
      ensures Valid() && State() == Decrypt(p, old(State()))
    {
      if fetch.valid {
        var plain := fetch.data;
        if fetch.blockAddr >= p.FirstBlock() {
          plain := (p.c.cipher.dec)(p.c.key, fetch.data);
        }
        decr := DecryptReg(true, fetch.blockAddr, plain, 0);
        fetch := FetchReg(false, fetch.blockAddr + 1, fetch.data);
      }
    }

    /** The instruction cache: a line that misses is filled from memory. */
    method ReadInstructionBlock(b: nat) returns (data: Block)
      requires Valid()
      modifies this`icache
      ensures Valid() && State() == old(State()).(icache := icache)
      ensures icache == FillICache(p, old(State()), b) && data == icache[b % 4].data
    {
      hide TextFromRam;
      var i := b % 4;
      if !icache[i].valid || icache[i].tag != b / 4 {
        icache := icache[i := ILine(true, b / 4, TextFromRam(p, ram[..], b))];
      }
      data := icache[i].data;
    }

    method StageFetch()
      requires Valid() && !fetch.valid
      modifies this
      ensures Valid() && State() == Fetch(p, old(State()))
    {
      hide FillICache;
      if !keyValid {
        if !p.boots || locked {
          keyFailed, locked := true, true;
          return;
        }
        keyFailed, keyValid := false, true;
      }
      if fetch.blockAddr < p.FirstBlock() {
        fetch := fetch.(blockAddr := p.FirstBlock());
      }
      if fetch.blockAddr >= p.EndBlock() {
        return;
      }
      var data := ReadInstructionBlock(fetch.blockAddr);
      fetch := FetchReg(true, fetch.blockAddr, data);
    }

    method OldestFirst()
      requires Valid()
      modifies this, regFile, ram
      ensures Valid() && State() == Backend(p, old(State()))
    {
      hide Opcode;
      hide IsWrite;
      hide Writeback;
      hide Recover;
      hide Memory;
      hide ExecuteStage;
      wb := wb.(valid := false);
      if mem.valid {
        StageWriteback();
      }
      if exec.valid {
        RecoverFromMisprediction();
        StageMemory();
      }
      if decode.valid {
        StageExecute();
      }
    }

    method SupplyNext()
      requires Valid() && !decode.valid
      modifies this
      ensures Valid() && State() == Frontend(p, old(State()))
    {
      hide Opcode;
      hide SourceRegs;
      hide DestReg;
      hide IsWrite;
      hide Decode;
      hide Decrypt;
      hide Fetch;
      if decr.valid {
        var (rs, rt) := SourceRegs(decr.block.At(decr.idx));
        var d := DestReg(exec.instr);
        var mustStall := exec.valid && IsWrite(exec.instr) && d != 0 && (rs == d || rt == d) && IsLoad(exec.instr);
        if !mustStall {
          StageDecode();
        }
      } else {
        StageDecrypt();
      }
      if !fetch.valid {
        StageFetch();
      }
    }

    /** One pass of the cycle loop. */
    method CycleOnce()
      requires Valid() && !keyFailed && !locked
      modifies this, regFile, ram
      ensures Valid() && State() == Cycle(p, old(State()))
    {
      OldestFirst();
      SupplyNext();
    }

    /** The cycle loop, for any bound: it leaves early when the machine locks or the image is rejected. */
    method Run(n: nat)
      requires Valid()
      modifies this, regFile, ram
      ensures Valid() && State() == Cycles(p, old(State()), n)
    {
      for cycle := 0 to n
        invariant Valid() && State() == Cycles(p, old(State()), cycle)
      {
        if keyFailed || locked {
          StoppedStays(p, old(State()), cycle, n);
          break;
        }
        CycleOnce();
      }
    }
  }

  lemma DecodedIs(regs: seq<Word>, w: Word, pc: nat)
    requires |regs| == 32
    ensures var (rs, rt) := SourceRegs(w);
      Decoded(regs, w, pc) ==
      DecodeReg(true, w, pc, regs[rs], regs[rt], rs, rt, IsJump(w),
                if IsJump(w) then JumpTargetBlock(w) else (pc + 1) / 4, (pc + 1) / 4, IsConditional(w) || IsJump(w))
  {
  }

  lemma BlockAtWords(ram: seq<Word>, b: nat)
    requires 4 * b + 4 <= |ram|
    ensures BlockAt(ram, b) == Block(ram[4 * b], ram[4 * b + 1], ram[4 * b + 2], ram[4 * b + 3])
  {
  }

  lemma PutBlockAt(ram: seq<Word>, b: nat, v: Block)
    requires 4 * b + 4 <= |ram|
    ensures forall k :: 0 <= k < |ram| ==> PutBlock(ram, b, v)[k] == if 4 * b <= k < 4 * b + 4 then v.At(k - 4 * b) else ram[k]
  {
  }

  lemma {:induction false} StoppedStays(p: Platform, s: Machine, n: nat, m: nat)
    requires s.Shaped() && n <= m && (Cycles(p, s, n).keyFailed || Cycles(p, s, n).locked)
    ensures Cycles(p, s, m) == Cycles(p, s, n)
  {
    hide Backend;
    hide Frontend;
    if n < m {
      StoppedStays(p, s, n, m - 1);
    }
  }
}
