/**
 * The pipeline implements the instruction set. Every state the pipeline can
 * reach stands for a state of the sequential machine plus at most three
 * instructions in flight; a cycle advances the sequential machine by exactly
 * the instruction that is written back in it.
 */
module PipelineProof {
  import opened Words
  import opened Isa
  import opened Pipeline

  // ----------------------------------------------------------- the two memories

  function TextBlock(c: Config, text: seq<Word>, b: nat): Block
    requires c.Valid() && |text| == c.textEnd - c.textStart && c.textStart / 4 <= b < c.textEnd / 4
  {
    BlockAt(text, b - c.textStart / 4)
  }

  /** Every logical block of the program is stored, encrypted, where the block map puts it. */
  ghost predicate Loaded(p: Platform, ram: seq<Word>, text: seq<Word>)
    requires p.Valid() && |ram| == MEM_WORDS && |text| == p.c.textEnd - p.c.textStart
  {
    forall b :: p.FirstBlock() <= b < p.EndBlock() ==>
      (p.c.cipher.dec)(p.c.key, BlockAt(ram, p.place(b))) == TextBlock(p.c, text, b)
  }

  /** The plaintext word stored at data address `a`. */
  function PlainWord(c: Config, ram: seq<Word>, a: nat): Word
    requires |ram| == MEM_WORDS && a < MEM_WORDS
  {
    if c.encrypted then ReadEncrypted(c, ram, a) else ram[a]
  }

  /** The data region as the program sees it. */
  function PlainData(c: Config, ram: seq<Word>): (d: seq<Word>)
    requires c.Valid() && |ram| == MEM_WORDS
    ensures |d| == c.dataEnd - c.dataStart
  {
    seq(c.dataEnd - c.dataStart, i requires 0 <= i < c.dataEnd - c.dataStart => PlainWord(c, ram, c.dataStart + i))
  }

  lemma StoredWord(c: Config, ram: seq<Word>, a: nat, v: Word, b: nat)
    requires c.cipher.Inverts() && |ram| == MEM_WORDS && a < MEM_WORDS && b < MEM_WORDS
    ensures ReadEncrypted(c, WriteEncrypted(c, ram, a, v), b) == if b == a then v else ReadEncrypted(c, ram, b)
  {
    hide BlockAt;
    hide PutBlock;
    hide Block.At;
    hide Block.Set;
    SetAt((c.cipher.dec)(c.key, BlockAt(ram, a / 4)), a % 4, b % 4, v);
  }

  /** Storing a word re-encrypts its block: exactly that plaintext word changes, and no word outside the data region. */
  lemma StoreIsPointUpdate(p: Platform, ram: seq<Word>, a: nat, v: Word)
    requires p.Valid() && p.c.cipher.Inverts() && |ram| == MEM_WORDS && p.c.IsData(a) && p.c.encrypted
    ensures PlainData(p.c, WriteEncrypted(p.c, ram, a, v)) == PlainData(p.c, ram)[a - p.c.dataStart := v]
    ensures forall i :: 0 <= i < MEM_WORDS && !p.c.IsData(i) ==> WriteEncrypted(p.c, ram, a, v)[i] == ram[i]
  {
    hide ReadEncrypted;
    hide PutBlock;
    hide BlockAt;
    var c, ram' := p.c, WriteEncrypted(p.c, ram, a, v);
    var before, after := PlainData(c, ram), PlainData(c, ram');
    forall i | 0 <= i < c.dataEnd - c.dataStart
      ensures after[i] == before[a - c.dataStart := v][i]
    {
      StoredWord(c, ram, a, v, c.dataStart + i);
      assert after[i] == PlainWord(c, ram', c.dataStart + i);
      assert before[i] == PlainWord(c, ram, c.dataStart + i);
    }
  }

  lemma LoadedFrame(p: Platform, ram: seq<Word>, ram': seq<Word>, text: seq<Word>)
    requires p.Valid() && |ram| == |ram'| == MEM_WORDS && |text| == p.c.textEnd - p.c.textStart
    requires Loaded(p, ram, text)
    requires forall i :: 0 <= i < MEM_WORDS && !p.c.IsData(i) ==> ram'[i] == ram[i]
    ensures Loaded(p, ram', text)
    ensures forall b :: p.FirstBlock() <= b < p.EndBlock() ==> BlockAt(ram', p.place(b)) == BlockAt(ram, p.place(b))
  {
    forall b | p.FirstBlock() <= b < p.EndBlock()
      ensures BlockAt(ram', p.place(b)) == BlockAt(ram, p.place(b))
    {
      var q := p.place(b);
      assert forall k :: 4 * q <= k < 4 * q + 4 ==> !p.c.IsData(k);
    }
  }

  // ------------------------------------------------------------------ invariant

  /**
   * The state an instruction leaves behind. It differs from the sequential
   * machine only for a faulting access, which younger instructions see as a
   * load of 0 or a store without effect.
   */
  function Past(c: Config, text: seq<Word>, a: Arch): (r: Arch)
    requires c.Valid() && |text| == c.textEnd - c.textStart && a.Fits(c) && !AtEnd(c, a.pc)
    ensures r.Fits(c)
    ensures Step(c, text, a).Next? ==> Step(c, text, a) == Next(r)
  {
    var w, x := Current(c, text, a), ExecuteCurrent(c, text, a);
    var (data, value) := match AccessCurrent(c, text, a)
      case Done(data, value) => (data, value)
      case Fault => (a.data, if IsLoad(w) then 0 else x.alu);
    Arch(Successor(c, text, a), WriteReg(a.regs, w, value), x.copro, data)
  }

  function PastIf(c: Config, text: seq<Word>, a: Arch, inFlight: bool): (r: Arch)
    requires c.Valid() && |text| == c.textEnd - c.textStart && a.Fits(c) && (inFlight ==> !AtEnd(c, a.pc))
    ensures r.Fits(c)
  {
    if inFlight then Past(c, text, a) else a
  }

  predicate MemHolds(c: Config, text: seq<Word>, r: MemReg, a: Arch)
    requires c.Valid() && |text| == c.textEnd - c.textStart && a.Fits(c)
  {
    && Step(c, text, a).Next?
    && r.instr == Current(c, text, a)
    && r.alu == ExecuteCurrent(c, text, a).alu
    && r.readVal == AccessCurrent(c, text, a).value
  }

  predicate ExecHolds(c: Config, text: seq<Word>, r: ExecReg, m: Arch)
    requires c.Valid() && |text| == c.textEnd - c.textStart && m.Fits(c)
  {
    && !AtEnd(c, m.pc)
    && var w, x := Current(c, text, m), ExecuteCurrent(c, text, m);
    && r.instr == w
    && r.alu == x.alu
    && r.rtForward == Operands(c, text, m).1
    && r.mispredict == (IsConditional(w) && x.taken && !FallsThrough(w, Clamp(c, m.pc), x))
    && (r.mispredict ==> r.recovery == x.target)
  }

  predicate DecodeHolds(c: Config, text: seq<Word>, r: DecodeReg, e: Arch, regs: seq<Word>)
    requires c.Valid() && |text| == c.textEnd - c.textStart && e.Fits(c) && |regs| == 32
  {
    && !AtEnd(c, e.pc)
    && var w, pc := Current(c, text, e), Clamp(c, e.pc);
    && r.instr == w
    && r.wordAddr == pc
    && (r.rsIdx, r.rtIdx) == SourceRegs(w)
    && r.rsVal == regs[r.rsIdx]
    && r.rtVal == regs[r.rtIdx]
    && r.predictedTaken == IsJump(w)
    && r.predictedBlock == (if IsJump(w) then JumpTargetBlock(w) else (pc + 1) / 4)
    && r.fallthroughBlock == (pc + 1) / 4
    && r.isControl == (IsConditional(w) || IsJump(w))
  }

  /** Where the front end goes on after decoding the instruction at `e`. */
  function PredictedPc(c: Config, text: seq<Word>, e: Arch): nat
    requires c.Valid() && |text| == c.textEnd - c.textStart && e.Fits(c) && !AtEnd(c, e.pc)
  {
    var w := Current(c, text, e);
    if IsJump(w) then 4 * JumpTargetBlock(w) else Clamp(c, e.pc) + 1
  }

  /** The front end will deliver the program from `pc` on. */
  predicate FrontHolds(p: Platform, text: seq<Word>, s: Machine, pc: nat)
    requires p.Valid() && |text| == p.c.textEnd - p.c.textStart && s.Shaped()
  {
    if s.decr.valid then
      && p.FirstBlock() <= s.decr.blockAddr < p.EndBlock()
      && Clamp(p.c, pc) == 4 * s.decr.blockAddr + s.decr.idx
      && s.decr.block == TextBlock(p.c, text, s.decr.blockAddr)
      && s.fetch.blockAddr == s.decr.blockAddr + 1
    else
      Clamp(p.c, pc) == Clamp(p.c, 4 * s.fetch.blockAddr)
  }

  ghost predicate FetchHolds(p: Platform, s: Machine)
    requires p.Valid() && s.Shaped()
  {
    s.fetch.valid ==>
      p.FirstBlock() <= s.fetch.blockAddr < p.EndBlock() && s.fetch.data == BlockAt(s.ram, p.place(s.fetch.blockAddr))
  }

  /** Valid instruction-cache lines agree with memory, as far as text blocks go. */
  ghost predicate TextCached(p: Platform, icache: seq<ILine>, ram: seq<Word>)
    requires p.Valid() && |icache| == 4 && |ram| == MEM_WORDS
  {
    forall i :: 0 <= i < 4 && icache[i].valid && p.FirstBlock() <= 4 * icache[i].tag + i < p.EndBlock() ==>
      icache[i].data == BlockAt(ram, p.place(4 * icache[i].tag + i))
  }

  /** Valid data-cache lines agree with memory. They matter only when the data region is not encrypted. */
  predicate DataCached(dcache: seq<DLine>, ram: seq<Word>)
    requires |dcache| == 4 && |ram| == MEM_WORDS
  {
    forall i :: 0 <= i < 4 && dcache[i].valid && 4 * dcache[i].tag + i < MEM_WORDS ==>
      dcache[i].data == ram[4 * dcache[i].tag + i]
  }

  lemma CachedReadIsMemory(dcache: seq<DLine>, ram: seq<Word>, a: nat)
    requires |dcache| == 4 && |ram| == MEM_WORDS && DataCached(dcache, ram) && a < MEM_WORDS
    ensures CachedRead(dcache, ram, a) == ram[a]
    ensures DataCached(FillLine(dcache, a, ram[a]), ram)
  {
    assert 4 * (a / 4) + a % 4 == a;
  }

  ghost predicate Background(p: Platform, text: seq<Word>, s: Machine) {
    && p.Valid() && p.c.cipher.Inverts() && |text| == p.c.textEnd - p.c.textStart
    && s.Shaped() && Loaded(p, s.ram, text) && FetchHolds(p, s)
    && TextCached(p, s.icache, s.ram) && (!p.c.encrypted ==> DataCached(s.dcache, s.ram))
  }

  lemma BackgroundShaped(p: Platform, text: seq<Word>, s: Machine)
    requires Background(p, text, s)
    ensures p.Valid() && |text| == p.c.textEnd - p.c.textStart && s.Shaped() && FetchHolds(p, s)
  {
  }

  /**
   * The back end: `a` is the sequential state all of whose instructions have been
   * written back in `s`, and the instructions in flight are those that follow it.
   */
  ghost predicate BackHolds(p: Platform, text: seq<Word>, s: Machine, a: Arch) {
    && Background(p, text, s) && a.Fits(p.c) && !s.locked
    && s.regs == a.regs
    && (s.mem.valid ==> MemHolds(p.c, text, s.mem, a))
    && var m := PastIf(p.c, text, a, s.mem.valid);
    && PlainData(p.c, s.ram) == m.data
    && (s.exec.valid ==> ExecHolds(p.c, text, s.exec, m))
    && var e := PastIf(p.c, text, m, s.exec.valid);
    && s.copro == e.copro
    && (s.decode.valid && !Doomed(p.c, text, s.exec, m) ==> DecodeHolds(p.c, text, s.decode, e, s.regs))
  }

  /** The instruction in the execute register, reached in state `m`, will empty the front end. */
  predicate Doomed(c: Config, text: seq<Word>, r: ExecReg, m: Arch)
    requires c.Valid() && |text| == c.textEnd - c.textStart && m.Fits(c)
  {
    r.valid && (r.mispredict || StoresPlain(c, text, m))
  }

  /** The fetch register is full, unless the text ends, and nothing but the rest of a block is decrypted. */
  predicate Supplied(p: Platform, s: Machine) {
    !s.keyFailed ==> (s.fetch.valid || s.fetch.blockAddr >= p.EndBlock()) && (s.decr.valid ==> s.decr.idx >= 1)
  }

  /** Where the front end goes on behind the decode register. */
  function NextFetched(c: Config, text: seq<Word>, decoded: bool, e: Arch): nat
    requires c.Valid() && |text| == c.textEnd - c.textStart && e.Fits(c)
  {
    if decoded && !AtEnd(c, e.pc) then PredictedPc(c, text, e) else e.pc
  }

  /** The next instruction needs what a load loads, and waits for it. */
  predicate LoadUse(w: Word, next: Word) {
    var (rs, rt) := SourceRegs(next);
    var d := DestReg(w);
    IsLoad(w) && IsWrite(w) && d != 0 && (rs == d || rt == d)
  }

  /** The instruction behind the access at `m` is issued right behind it: it is in the same block, and need not wait. */
  predicate Issued(c: Config, text: seq<Word>, m: Arch)
    requires c.Valid() && |text| == c.textEnd - c.textStart && m.Fits(c) && !AtEnd(c, m.pc)
  {
    var pc := Clamp(c, m.pc);
    pc % 4 != 3 && !LoadUse(Current(c, text, m), text[pc + 1 - c.textStart])
  }

  /** An access has the next instruction behind it exactly if that was issued. */
  predicate IssueKnown(c: Config, text: seq<Word>, r: ExecReg, behind: bool, m: Arch)
    requires c.Valid() && |text| == c.textEnd - c.textStart && m.Fits(c)
  {
    r.valid && (IsLoad(r.instr) || IsStore(r.instr)) && !AtEnd(c, m.pc) ==> (behind <==> Issued(c, text, m))
  }

  /**
   * The front end between two cycles. Behind a store that will empty it, all that
   * counts is the block the fetch unit comes to next.
   */
  ghost predicate FrontReady(p: Platform, text: seq<Word>, s: Machine, m: Arch, e: Arch)
    requires p.Valid() && |text| == p.c.textEnd - p.c.textStart && s.Shaped() && m.Fits(p.c) && e.Fits(p.c)
  {
    if s.exec.valid && s.exec.mispredict then true
    else if s.exec.valid && StoresPlain(p.c, text, m) then Clamp(p.c, e.pc) == Clamp(p.c, 4 * s.fetch.blockAddr)
    else
      && FrontHolds(p, text, s, NextFetched(p.c, text, s.decode.valid, e)) && (s.decode.valid ==> Supplied(p, s))
      && (!s.keyFailed ==> IssueKnown(p.c, text, s.exec, s.decode.valid, m))
  }

  /** The front end in mid-cycle, before it supplies the next instruction. */
  ghost predicate FrontWaits(p: Platform, text: seq<Word>, s: Machine, m: Arch, e: Arch)
    requires p.Valid() && |text| == p.c.textEnd - p.c.textStart && s.Shaped() && m.Fits(p.c) && e.Fits(p.c)
  {
    if s.exec.valid && s.exec.mispredict then true
    else if s.exec.valid && StoresPlain(p.c, text, m) then FrontHolds(p, text, s, Clamp(p.c, m.pc) + 1) && Supplied(p, s)
    else FrontHolds(p, text, s, e.pc) && (s.exec.valid ==> Supplied(p, s))
  }

  /** The state in which the instruction in the execute register runs, and the state behind it. */
  function ExecArch(p: Platform, text: seq<Word>, s: Machine, a: Arch): (m: Arch)
    requires p.Valid() && |text| == p.c.textEnd - p.c.textStart && a.Fits(p.c) && (s.mem.valid ==> !AtEnd(p.c, a.pc))
    ensures m.Fits(p.c)
  {
    PastIf(p.c, text, a, s.mem.valid)
  }

  function DecodeArch(p: Platform, text: seq<Word>, s: Machine, a: Arch): (e: Arch)
    requires p.Valid() && |text| == p.c.textEnd - p.c.textStart && a.Fits(p.c) && (s.mem.valid ==> !AtEnd(p.c, a.pc))
    requires s.exec.valid ==> !AtEnd(p.c, ExecArch(p, text, s, a).pc)
    ensures e.Fits(p.c)
  {
    PastIf(p.c, text, ExecArch(p, text, s, a), s.exec.valid)
  }

  /** Between two cycles `s` stands for `a` and the instructions in flight behind it. */
  ghost predicate Holds(p: Platform, text: seq<Word>, s: Machine, a: Arch) {
    BackHolds(p, text, s, a) && FrontReady(p, text, s, ExecArch(p, text, s, a), DecodeArch(p, text, s, a))
  }

  /** The same in mid-cycle. */
  ghost predicate HoldsMidCycle(p: Platform, text: seq<Word>, s: Machine, a: Arch) {
    BackHolds(p, text, s, a) && FrontWaits(p, text, s, ExecArch(p, text, s, a), DecodeArch(p, text, s, a))
  }

  /**
   * The machine has locked on the access at `a`: registers and data are those of
   * `a`. Only the coprocessor can be one instruction ahead, because the next
   * instruction executes in the cycle in which the access faults.
   */
  ghost predicate LockedAt(p: Platform, text: seq<Word>, s: Machine, a: Arch) {
    && Background(p, text, s) && a.Fits(p.c) && s.locked
    && Step(p.c, text, a).Lock?
    && s.regs == a.regs && PlainData(p.c, s.ram) == a.data
    && var e := Past(p.c, text, a);
    && (s.exec.valid ==> !AtEnd(p.c, e.pc))
    && s.copro == PastIf(p.c, text, e, s.exec.valid).copro
  }

  /** And the next instruction has been executed exactly if it was issued. */
  ghost predicate LockedPrecisely(p: Platform, text: seq<Word>, s: Machine, a: Arch) {
    LockedAt(p, text, s, a) && (s.exec.valid <==> Issued(p.c, text, a))
  }

  /** The image was rejected, which latches the lock as well: nothing else tells `s` from a machine that stands for `a`. */
  ghost predicate Refused(p: Platform, text: seq<Word>, s: Machine, a: Arch) {
    s.locked && s.keyFailed && Holds(p, text, s.(locked := false), a)
  }

  ghost predicate Stands(p: Platform, text: seq<Word>, s: Machine, a: Arch) {
    Holds(p, text, s, a) || LockedPrecisely(p, text, s, a) || Refused(p, text, s, a)
  }

  ghost predicate StandsMidCycle(p: Platform, text: seq<Word>, s: Machine, a: Arch) {
    HoldsMidCycle(p, text, s, a) || LockedPrecisely(p, text, s, a)
  }

  // ------------------------------------------------------------ back-end stages

  /** The value the instruction at `a` stores in its destination register, if it has one. */
  function ValueOf(c: Config, text: seq<Word>, a: Arch): Word
    requires c.Valid() && |text| == c.textEnd - c.textStart && a.Fits(c) && !AtEnd(c, a.pc)
  {
    match AccessCurrent(c, text, a)
    case Done(_, value) => value
    case Fault => if IsLoad(Current(c, text, a)) then 0 else ExecuteCurrent(c, text, a).alu
  }

  lemma WritebackHolds(p: Platform, text: seq<Word>, s: Machine, a: Arch)
    requires p.Valid() && |text| == p.c.textEnd - p.c.textStart && s.Shaped() && a.Fits(p.c)
    requires s.regs == a.regs && MemHolds(p.c, text, s.mem, a)
    ensures var t, b := Writeback(s), Past(p.c, text, a);
      && t.regs == b.regs
      && t.wb.valid && t.wb.instr == Current(p.c, text, a)
      && (IsWrite(t.wb.instr) ==> t.wb.value == ValueOf(p.c, text, a))
  {
    hide Execute;
  }

  /** The data access of the instruction in the execute register, on the plaintext data. */
  function PlainAccess(p: Platform, s: Machine): Access
    requires p.c.Valid() && s.Shaped()
  {
    DataAccess(p.c, s.exec.instr, s.exec.alu, s.exec.rtForward, PlainData(p.c, s.ram))
  }

  predicate PlainStore(p: Platform, s: Machine) {
    !p.c.encrypted && IsStore(s.exec.instr) && match p.c.Translate(s.exec.alu as nat)
      case Some(a) => p.c.IsData(a)
      case None => false
  }

  /** The memory stage performs that access on the stored image, and touches nothing else. */
  ghost predicate Accessed(p: Platform, s: Machine, t: Machine, acc: Access)
    requires p.c.Valid() && s.Shaped()
  {
    var unread := if IsLoad(s.exec.instr) then 0 else s.exec.alu;
    && t.Shaped()
    && t.locked == acc.Fault?
    && (acc.Fault? ==> IsLoad(s.exec.instr) || IsStore(s.exec.instr))
    && PlainData(p.c, t.ram) == (if acc.Fault? then PlainData(p.c, s.ram) else acc.data)
    && t.mem == MemReg(true, s.exec.alu, s.exec.instr, if acc.Fault? then unread else acc.value)
    && t == s.(mem := t.mem, exec := s.exec.(valid := false), ram := t.ram, dcache := t.dcache, locked := t.locked)
    && (forall i :: 0 <= i < MEM_WORDS && !p.c.IsData(i) ==> t.ram[i] == s.ram[i])
  }

  lemma LoadAccesses(p: Platform, s: Machine, a: nat)
    requires p.Valid() && s.Shaped() && !s.locked && (!p.c.encrypted ==> DataCached(s.dcache, s.ram))
    requires IsLoad(s.exec.instr) && p.c.Translate(s.exec.alu as nat) == Some(a)
    ensures Accessed(p, s, Memory(p, s), PlainAccess(p, s))
    ensures !p.c.encrypted ==> DataCached(Memory(p, s).dcache, s.ram)
  {
    hide Opcode;
    hide Config.Translate;
    hide ReadEncrypted;
    hide CachedRead;
    hide FillLine;
    hide DataCached;
    if p.c.IsData(a) {
      assert PlainData(p.c, s.ram)[a - p.c.dataStart] == PlainWord(p.c, s.ram, a);
      if !p.c.encrypted {
        CachedReadIsMemory(s.dcache, s.ram, a);
      }
    }
  }

  lemma StoreAccesses(p: Platform, s: Machine, a: nat)
    requires p.Valid() && s.Shaped() && !s.locked && p.c.cipher.Inverts()
    requires IsStore(s.exec.instr) && !IsLoad(s.exec.instr) && p.c.Translate(s.exec.alu as nat) == Some(a)
    requires !PlainStore(p, s)
    ensures Accessed(p, s, Memory(p, s), PlainAccess(p, s))
    ensures !p.c.encrypted ==> Memory(p, s).dcache == s.dcache && Memory(p, s).ram == s.ram
  {
    hide WriteEncrypted;
    hide DropBlock;
    hide Config.Translate;
    hide Opcode;
    hide PlainData;
    if p.c.IsData(a) {
      StoreIsPointUpdate(p, s.ram, a, s.exec.rtForward);
    }
  }

  lemma MemoryAccesses(p: Platform, s: Machine)
    requires p.Valid() && s.Shaped() && !s.locked && p.c.cipher.Inverts()
    requires !p.c.encrypted ==> DataCached(s.dcache, s.ram)
    requires !PlainStore(p, s)
    ensures Accessed(p, s, Memory(p, s), PlainAccess(p, s))
    ensures !p.c.encrypted ==> DataCached(Memory(p, s).dcache, Memory(p, s).ram)
  {
    var w := s.exec.instr;
    assert !(IsLoad(w) && IsStore(w));
    hide Opcode;
    hide Config.Translate;
    hide PlainData;
    hide DataCached;
    match p.c.Translate(s.exec.alu as nat) {
      case None =>
      case Some(a) =>
        if IsLoad(w) {
          LoadAccesses(p, s, a);
        } else if IsStore(w) {
          StoreAccesses(p, s, a);
        }
    }
  }

  lemma MemoryKeepsBackground(p: Platform, text: seq<Word>, s: Machine)
    requires Background(p, text, s) && !s.locked && !PlainStore(p, s)
    ensures Accessed(p, s, Memory(p, s), PlainAccess(p, s))
    ensures Background(p, text, Memory(p, s))
  {
    hide Memory;
    hide PlainData;
    hide DataCached;
    hide BlockAt;
    MemoryAccesses(p, s);
    LoadedFrame(p, s.ram, Memory(p, s).ram, text);
  }

  /** The value and coprocessor that forwarding reads belong to the newest older instruction. */
  lemma ForwardIsNewest(s: Machine, committed: seq<Word>, idx: RegIndex)
    requires s.Shaped() && |committed| == 32
    ensures
      var older := if s.wb.valid then WriteReg(committed, s.wb.instr, s.wb.value) else committed;
      var newer := if s.mem.valid then WriteReg(older, s.mem.instr, s.mem.readVal) else older;
      Forward(s, idx, committed[idx]) == newer[idx]
  {
    hide IsWrite;
    hide DestReg;
  }

  lemma OpcodesDiffer(w: Word)
    ensures !(IsJump(w) && IsConditional(w))
  {
  }

  /** Executing a decoded instruction gives its sequential result, and mispredicts exactly when control leaves the predicted path. */
  lemma ExecuteHolds(p: Platform, text: seq<Word>, s: Machine, e: Arch, committed: seq<Word>)
    requires p.c.Valid() && |text| == p.c.textEnd - p.c.textStart && s.Shaped() && e.Fits(p.c) && |committed| == 32
    requires DecodeHolds(p.c, text, s.decode, e, committed) && s.copro == e.copro
    requires e.regs ==
      var older := if s.wb.valid then WriteReg(committed, s.wb.instr, s.wb.value) else committed;
      if s.mem.valid then WriteReg(older, s.mem.instr, s.mem.readVal) else older
    ensures var t := ExecuteStage(p, s);
      && t == s.(exec := t.exec, copro := t.copro, decode := s.decode.(valid := false))
      && ExecHolds(p.c, text, t.exec, e) && t.exec.valid
      && t.copro == Past(p.c, text, e).copro
      && (!Doomed(p.c, text, t.exec, e) ==> PredictedPc(p.c, text, e) == Past(p.c, text, e).pc)
      && (StoresPlain(p.c, text, e) ==> !t.exec.mispredict && PredictedPc(p.c, text, e) == Clamp(p.c, e.pc) + 1)
  {
    hide Forward;
    hide WriteReg;
    hide SourceRegs;
    hide Alu;
    hide Opcode;
    hide DataAccess;
    hide JumpTargetBlock;
    hide BranchTargetBlock;
    OpcodesDiffer(s.decode.instr);
    ForwardIsNewest(s, committed, s.decode.rsIdx);
    ForwardIsNewest(s, committed, s.decode.rtIdx);
  }

  /** Writeback commits the instruction at `a`, if one is in the memory register. */
  lemma WritebackStep(p: Platform, text: seq<Word>, s: Machine, s1: Machine, a: Arch)
    requires BackHolds(p, text, s, a)
    requires var s0 := s.(wb := s.wb.(valid := false)); s1 == if s0.mem.valid then Writeback(s0) else s0
    ensures var b := PastIf(p.c, text, a, s.mem.valid);
      && (s.mem.valid ==> Step(p.c, text, a) == Next(b))
      && s1.regs == b.regs && !s1.mem.valid
      && s1 == s.(regs := s1.regs, wb := s1.wb, mem := s1.mem)
      && s1.regs == (if s1.wb.valid then WriteReg(a.regs, s1.wb.instr, s1.wb.value) else a.regs)
  {
    hide Opcode;
    hide ExecHolds;
    hide DecodeHolds;
    hide FrontHolds;
    hide PredictedPc;
    hide Loaded;
    hide TextCached;
    if s.mem.valid {
      WritebackHolds(p, text, s.(wb := s.wb.(valid := false)), a);
    }
  }

  /** The memory stage performs the access of the instruction at `m`, which locks the machine exactly if it faults. */
  lemma QuietMemoryStep(p: Platform, text: seq<Word>, s: Machine, m: Arch)
    requires Background(p, text, s) && m.Fits(p.c) && !s.locked
    requires s.exec.valid && ExecHolds(p.c, text, s.exec, m) && PlainData(p.c, s.ram) == m.data
    requires !StoresPlain(p.c, text, m)
    ensures var t, e := Memory(p, Recover(s)), Past(p.c, text, m);
      && Background(p, text, t)
      && t.locked == Step(p.c, text, m).Lock?
      && (t.locked ==> !s.exec.mispredict && PlainData(p.c, t.ram) == m.data)
      && PlainData(p.c, t.ram) == e.data
      && t.mem.valid && t.mem.instr == s.exec.instr && e.regs == WriteReg(m.regs, t.mem.instr, t.mem.readVal)
      && (!t.locked ==> MemHolds(p.c, text, t.mem, m))
      && t == Recover(s).(mem := t.mem, exec := s.exec.(valid := false), ram := t.ram, dcache := t.dcache, locked := t.locked)
  {
    assert IsLoad(s.exec.instr) || IsStore(s.exec.instr) ==> !s.exec.mispredict;
    hide Opcode;
    hide Alu;
    hide Loaded;
    hide TextCached;
    hide Memory;
    hide Successor;
    MemoryKeepsBackground(p, text, Recover(s));
  }

  /** Write-through keeps the data cache in agreement with memory. */
  lemma FillWritten(dcache: seq<DLine>, ram: seq<Word>, a: nat, v: Word)
    requires |dcache| == 4 && |ram| == MEM_WORDS && DataCached(dcache, ram) && a < MEM_WORDS
    ensures DataCached(FillLine(dcache, a, v), ram[a := v])
  {
    assert 4 * (a / 4) + a % 4 == a;
  }

  lemma PlainStoreAccesses(p: Platform, s: Machine, a: nat)
    requires p.Valid() && s.Shaped() && !s.locked && DataCached(s.dcache, s.ram)
    requires IsStore(s.exec.instr) && p.c.Translate(s.exec.alu as nat) == Some(a)
    requires !p.c.encrypted && p.c.IsData(a)
    ensures var t := Memory(p, s);
      && PlainAccess(p, s) == Done(PlainData(p.c, t.ram), s.exec.alu)
      && t.mem == MemReg(true, s.exec.alu, s.exec.instr, s.exec.alu)
      && t == DropFrontend(s).(mem := t.mem, exec := s.exec.(valid := false), ram := t.ram, dcache := t.dcache)
      && t.ram == s.ram[a := s.exec.rtForward]
      && DataCached(t.dcache, t.ram)
  {
    hide Config.Translate;
    assert !IsLoad(s.exec.instr);
    hide Opcode;
    hide FillLine;
    hide DataCached;
    var c, ram' := p.c, s.ram[a := s.exec.rtForward];
    forall i | 0 <= i < c.dataEnd - c.dataStart
      ensures PlainData(c, ram')[i] == PlainData(c, s.ram)[a - c.dataStart := s.exec.rtForward][i]
    {
      assert PlainData(c, ram')[i] == PlainWord(c, ram', c.dataStart + i);
      assert PlainData(c, s.ram)[i] == PlainWord(c, s.ram, c.dataStart + i);
    }
    assert PlainData(c, ram') == PlainData(c, s.ram)[a - c.dataStart := s.exec.rtForward];
    FillWritten(s.dcache, s.ram, a, s.exec.rtForward);
  }

  lemma StoreDoesNotBranch(c: Config, text: seq<Word>, m: Arch, r: ExecReg)
    requires c.Valid() && |text| == c.textEnd - c.textStart && m.Fits(c)
    requires ExecHolds(c, text, r, m) && IsStore(r.instr)
    ensures !r.mispredict && Past(c, text, m).copro == m.copro && Past(c, text, m).regs == m.regs
  {
    hide Alu;
  }

  lemma PlainStoreMemory(p: Platform, text: seq<Word>, s: Machine, m: Arch)
    requires Background(p, text, s) && m.Fits(p.c) && !s.locked && ExecHolds(p.c, text, s.exec, m)
    requires PlainData(p.c, s.ram) == m.data && StoresPlain(p.c, text, m)
    ensures var t, e := Memory(p, Recover(s)), Past(p.c, text, m);
      && Background(p, text, t) && MemHolds(p.c, text, t.mem, m) && t.mem.valid && Step(p.c, text, m).Next?
      && PlainData(p.c, t.ram) == e.data && e.regs == WriteReg(m.regs, t.mem.instr, t.mem.readVal)
      && t == DropFrontend(s).(mem := t.mem, exec := s.exec.(valid := false), ram := t.ram, dcache := t.dcache)
  {
    hide Alu;
    hide Loaded;
    hide BlockAt;
    hide DataCached;
    hide PlainData;
    hide Memory;
    hide Config.Translate;
    hide DataAccess;
    hide ResumePc;
    StoreDoesNotBranch(p.c, text, m, s.exec);
    hide Opcode;
    var w := p.c.Translate(s.exec.alu as nat).value;
    PlainStoreAccesses(p, s, w);
    assert AccessCurrent(p.c, text, m) == PlainAccess(p, s);
    LoadedFrame(p, s.ram, s.ram[w := s.exec.rtForward], text);
  }

  /** What the memory stage leaves of the front end: nothing behind a plain store or a mispredicted branch. */
  function AfterMemory(p: Platform, text: seq<Word>, s: Machine, m: Arch): (t: Machine)
    requires p.c.Valid() && |text| == p.c.textEnd - p.c.textStart && s.Shaped() && m.Fits(p.c)
    ensures t.Shaped()
  {
    if StoresPlain(p.c, text, m) then DropFrontend(s) else Recover(s)
  }

  lemma StoreDoesNotBranchIf(c: Config, text: seq<Word>, m: Arch, r: ExecReg)
    requires c.Valid() && |text| == c.textEnd - c.textStart && m.Fits(c) && ExecHolds(c, text, r, m)
    ensures r.mispredict ==> !StoresPlain(c, text, m)
  {
    hide Alu;
    hide SourceRegs;
    hide Config.Translate;
    hide BranchTargetBlock;
    hide JumpTargetBlock;
  }

  lemma MemoryStep(p: Platform, text: seq<Word>, s: Machine, m: Arch)
    requires Background(p, text, s) && m.Fits(p.c) && !s.locked
    requires s.exec.valid && ExecHolds(p.c, text, s.exec, m) && PlainData(p.c, s.ram) == m.data
    ensures var t, e := Memory(p, Recover(s)), Past(p.c, text, m);
      && Background(p, text, t)
      && t.locked == Step(p.c, text, m).Lock?
      && (t.locked ==> !Doomed(p.c, text, s.exec, m) && PlainData(p.c, t.ram) == m.data)
      && PlainData(p.c, t.ram) == e.data
      && t.mem.valid && e.regs == WriteReg(m.regs, t.mem.instr, t.mem.readVal)
      && (!t.locked ==> MemHolds(p.c, text, t.mem, m))
      && t == AfterMemory(p, text, s, m).(mem := t.mem, exec := s.exec.(valid := false), ram := t.ram, dcache := t.dcache, locked := t.locked)
  {
    hide Background;
    hide Past;
    hide PlainData;
    hide Memory;
    hide ExecHolds;
    hide MemHolds;
    hide StoresPlain;
    hide Step;
    BackgroundShaped(p, text, s);
    StoreDoesNotBranchIf(p.c, text, m, s.exec);
    if StoresPlain(p.c, text, m) {
      PlainStoreMemory(p, text, s, m);
    } else {
      QuietMemoryStep(p, text, s, m);
    }
  }

  /** Between the memory and execute stages: `b` is committed, and `e` is the state the next instruction executes in. */
  ghost predicate Midway(p: Platform, text: seq<Word>, s: Machine, b: Arch, e: Arch) {
    && Background(p, text, s) && b.Fits(p.c) && e.Fits(p.c)
    && !s.exec.valid && s.regs == b.regs && s.copro == e.copro
    && (s.mem.valid ==> !AtEnd(p.c, b.pc) && e == Past(p.c, text, b))
    && (!s.mem.valid ==> e == b)
    && s.locked == (s.mem.valid && Step(p.c, text, b).Lock?)
    && PlainData(p.c, s.ram) == e.data
    && (s.locked ==> e.data == b.data)
    && (s.mem.valid && !s.locked ==> MemHolds(p.c, text, s.mem, b))
  }

  /** The front end in the middle of the back end. */
  ghost predicate FrontMidway(p: Platform, text: seq<Word>, s: Machine, e: Arch)
    requires p.Valid() && |text| == p.c.textEnd - p.c.textStart && s.Shaped() && e.Fits(p.c)
  {
    FrontHolds(p, text, s, NextFetched(p.c, text, s.decode.valid, e)) && (s.decode.valid ==> Supplied(p, s))
  }

  lemma MispredictTarget(c: Config, text: seq<Word>, m: Arch, r: ExecReg)
    requires c.Valid() && |text| == c.textEnd - c.textStart && m.Fits(c) && ExecHolds(c, text, r, m) && r.mispredict
    ensures !StoresPlain(c, text, m) && Past(c, text, m).pc == 4 * r.recovery
  {
    hide Alu;
    hide SourceRegs;
    hide BranchTargetBlock;
    hide JumpTargetBlock;
    hide WriteReg;
  }

  /** What holds midway, in `s2`, of a cycle that starts in `s`. */
  ghost predicate Reached(p: Platform, text: seq<Word>, s: Machine, s2: Machine, a: Arch)
    requires BackHolds(p, text, s, a)
  {
    var b := ExecArch(p, text, s, a);
    var e := DecodeArch(p, text, s, a);
    && Midway(p, text, s2, b, e)
    && s2.mem.valid == s.exec.valid
    && e.regs == (if s2.mem.valid then WriteReg(b.regs, s2.mem.instr, s2.mem.readVal) else b.regs)
    && b.regs == (if s2.wb.valid then WriteReg(a.regs, s2.wb.instr, s2.wb.value) else a.regs)
    && (s2.locked ==> !Doomed(p.c, text, s.exec, b))
    && s2.decode.valid == (s.decode.valid && !Doomed(p.c, text, s.exec, b))
    && (s2.decode.valid ==> DecodeHolds(p.c, text, s2.decode, e, a.regs))
    && FrontCarried(p, text, s, s2, b)
  }

  lemma AfterMemoryIs(p: Platform, text: seq<Word>, s: Machine, t: Machine, m: Arch)
    requires p.c.Valid() && |text| == p.c.textEnd - p.c.textStart && s.Shaped() && m.Fits(p.c) && s.exec.valid
    requires t == AfterMemory(p, text, s, m).(mem := t.mem, exec := s.exec.(valid := false), ram := t.ram, dcache := t.dcache, locked := t.locked)
    ensures t.regs == s.regs && t.copro == s.copro && t.wb == s.wb && !t.exec.valid
    ensures FrontCarried(p, text, s, t, m)
    ensures t.decode.valid ==> t.decode == s.decode
    ensures t.decode.valid == (s.decode.valid && !Doomed(p.c, text, s.exec, m))
  {
    hide StoresPlain;
  }

  lemma CarriedOn(p: Platform, text: seq<Word>, s: Machine, s1: Machine, t: Machine, m: Arch)
    requires p.c.Valid() && |text| == p.c.textEnd - p.c.textStart && s.Shaped() && s1.Shaped() && m.Fits(p.c)
    requires s1 == s.(regs := s1.regs, wb := s1.wb, mem := s1.mem) && FrontCarried(p, text, s1, t, m)
    ensures FrontCarried(p, text, s, t, m)
  {
    hide StoresPlain;
  }

  /** The memory stage leads midway. */
  lemma ReachMidway(p: Platform, text: seq<Word>, s: Machine, s1: Machine, a: Arch)
    requires BackHolds(p, text, s, a) && s.exec.valid
    requires var s0 := s.(wb := s.wb.(valid := false)); s1 == if s0.mem.valid then Writeback(s0) else s0
    ensures Reached(p, text, s, Memory(p, Recover(s1)), a)
  {
    hide Alu;
    hide Opcode;
    hide Memory;
    hide Writeback;
    hide Background;
    hide PlainData;
    hide DataAccess;
    hide WriteReg;
    hide IsWrite;
    hide StoresPlain;
    hide Past;
    hide DecodeHolds;
    hide MemHolds;
    hide ExecHolds;
    hide Step;
    hide AtEnd;
    BackgroundShaped(p, text, s);
    WritebackStep(p, text, s, s1, a);
    WritebackBackground(p, text, s, s1);
    hide FrontCarried;
    hide AfterMemory;
    hide Recover;
    hide Doomed;
    ExecIs(p, text, s, a);
    var m, t := ExecArch(p, text, s, a), Memory(p, Recover(s1));
    MemoryStep(p, text, s1, m);
    AfterMemoryIs(p, text, s1, t, m);
    CarriedOn(p, text, s, s1, t, m);
  }

  lemma IdleMidway(p: Platform, text: seq<Word>, s: Machine, s1: Machine, a: Arch)
    requires BackHolds(p, text, s, a) && !s.exec.valid
    requires var s0 := s.(wb := s.wb.(valid := false)); s1 == if s0.mem.valid then Writeback(s0) else s0
    ensures Reached(p, text, s, s1, a)
  {
    hide Alu;
    hide Opcode;
    hide Writeback;
    hide Background;
    hide PlainData;
    hide WriteReg;
    hide IsWrite;
    hide StoresPlain;
    hide Past;
    hide DecodeHolds;
    hide MemHolds;
    hide Step;
    hide AtEnd;
    BackgroundShaped(p, text, s);
    WritebackStep(p, text, s, s1, a);
    WritebackBackground(p, text, s, s1);
    ExecIs(p, text, s, a);
  }

  /** The memory stage empties the front end or leaves it alone. */
  predicate FrontCarried(p: Platform, text: seq<Word>, s: Machine, t: Machine, m: Arch)
    requires p.c.Valid() && |text| == p.c.textEnd - p.c.textStart && s.Shaped() && m.Fits(p.c)
  {
    t.keyFailed == s.keyFailed &&
    if s.exec.valid && StoresPlain(p.c, text, m) then !t.decr.valid && !t.decode.valid && t.fetch.blockAddr == s.fetch.blockAddr
    else if s.exec.valid && s.exec.mispredict then !t.decr.valid && !t.decode.valid && t.fetch.blockAddr == s.exec.recovery
    else t.decr == s.decr && t.fetch == s.fetch && t.decode == s.decode
  }

  lemma WritebackBackground(p: Platform, text: seq<Word>, s: Machine, s1: Machine)
    requires Background(p, text, s)
    requires var s0 := s.(wb := s.wb.(valid := false)); s1 == if s0.mem.valid then Writeback(s0) else s0
    ensures Background(p, text, s1)
  {
    hide Loaded;
    hide TextCached;
    hide DataCached;
    hide Opcode;
    hide WriteReg;
  }

  lemma ExecArchIs(p: Platform, text: seq<Word>, s: Machine, a: Arch)
    requires BackHolds(p, text, s, a)
    ensures s.mem.valid ==> !AtEnd(p.c, a.pc)
    ensures ExecArch(p, text, s, a) == if s.mem.valid then Past(p.c, text, a) else a
    ensures s.mem.valid ==> Step(p.c, text, a) == Next(Past(p.c, text, a))
  {
    hide Background;
    hide ExecHolds;
    hide DecodeHolds;
    hide PlainData;
    hide Successor;
    BackgroundShaped(p, text, s);
  }

  lemma FaultingAccess(c: Config, text: seq<Word>, m: Arch, r: ExecReg)
    requires c.Valid() && |text| == c.textEnd - c.textStart && m.Fits(c) && ExecHolds(c, text, r, m) && Step(c, text, m).Lock?
    ensures (IsLoad(r.instr) || IsStore(r.instr)) && !r.mispredict && !StoresPlain(c, text, m)
  {
    hide Alu;
    hide SourceRegs;
    hide Config.Translate;
    hide BranchTargetBlock;
    hide JumpTargetBlock;
    hide Successor;
  }

  /** So the front end is ready midway if it was before the cycle. */
  lemma FrontReachesMidway(p: Platform, text: seq<Word>, s: Machine, t: Machine, m: Arch, e: Arch)
    requires p.Valid() && |text| == p.c.textEnd - p.c.textStart && s.Shaped() && t.Shaped() && m.Fits(p.c) && e.Fits(p.c)
    requires s.exec.valid ==> ExecHolds(p.c, text, s.exec, m)
    requires s.exec.valid ==> e == Past(p.c, text, m)
    requires FrontReady(p, text, s, m, e) && FrontCarried(p, text, s, t, m)
    ensures FrontMidway(p, text, t, e)
    ensures s.exec.valid && Step(p.c, text, m).Lock? && !s.keyFailed ==> (t.decode.valid <==> Issued(p.c, text, m))
  {
    if s.exec.valid && s.exec.mispredict { MispredictTarget(p.c, text, m, s.exec); }
    if s.exec.valid && Step(p.c, text, m).Lock? { FaultingAccess(p.c, text, m, s.exec); }
    hide Step;
    hide Issued;
    hide StoresPlain;
    hide Past;
    hide PredictedPc;
    hide TextBlock;
    hide Clamp;
    hide AtEnd;
    hide ExecHolds;
  }

  /** Executing the decoded instruction from midway keeps every younger and older instruction in place. */
  lemma LeaveMidway(p: Platform, text: seq<Word>, s: Machine, committed: seq<Word>, b: Arch, e: Arch)
    requires Midway(p, text, s, b, e) && |committed| == 32
    requires e.regs == if s.mem.valid then WriteReg(b.regs, s.mem.instr, s.mem.readVal) else b.regs
    requires b.regs == if s.wb.valid then WriteReg(committed, s.wb.instr, s.wb.value) else committed
    requires s.decode.valid ==> DecodeHolds(p.c, text, s.decode, e, committed)
    ensures var t := if s.decode.valid then ExecuteStage(p, s) else s;
      && (BackHolds(p, text, t, b) || LockedAt(p, text, t, b))
      && t.locked == s.locked && t.mem == s.mem && t.exec.valid == s.decode.valid && !t.decode.valid
      && (FrontMidway(p, text, s, e) && !t.locked ==> FrontWaits(p, text, t, ExecArch(p, text, t, b), DecodeArch(p, text, t, b)))
  {
    hide Alu;
    hide Opcode;
    hide ExecuteStage;
    hide Loaded;
    hide TextCached;
    hide DataCached;
    hide PlainData;
    hide DataAccess;
    hide WriteReg;
    hide StoresPlain;
    hide PredictedPc;
    hide Past;
    hide Step;
    hide Clamp;
    hide TextBlock;
    hide MemHolds;
    hide DecodeHolds;
    if s.decode.valid {
      DecodedNotAtEnd(p.c, text, s.decode, e, committed);
      ExecuteHolds(p, text, s, e, committed);
    }
  }

  lemma DecodedNotAtEnd(c: Config, text: seq<Word>, r: DecodeReg, e: Arch, regs: seq<Word>)
    requires c.Valid() && |text| == c.textEnd - c.textStart && e.Fits(c) && |regs| == 32 && DecodeHolds(c, text, r, e, regs)
    ensures !AtEnd(c, e.pc)
  {
  }

  /** The back end of a cycle commits the oldest instruction and keeps the others in order. */
  lemma BackendHolds(p: Platform, text: seq<Word>, s: Machine, a: Arch)
    requires BackHolds(p, text, s, a)
    ensures var t, b := Backend(p, s), ExecArch(p, text, s, a);
      && (BackHolds(p, text, t, b) || LockedAt(p, text, t, b))
      && (Holds(p, text, s, a) && !s.keyFailed ==> StandsMidCycle(p, text, t, b))
      && (s.mem.valid ==> Step(p.c, text, a) == Next(b))
      && (t.locked ==> s.exec.valid)
      && (!t.locked ==> t.mem.valid == s.exec.valid)
      && t.exec.valid == (s.decode.valid && !Doomed(p.c, text, s.exec, b)) && !t.decode.valid
      && t.keyFailed == s.keyFailed
  {
    hide Alu;
    hide Opcode;
    hide Memory;
    hide ExecuteStage;
    hide Writeback;
    hide Loaded;
    hide TextCached;
    hide DataCached;
    hide FetchHolds;
    hide PlainData;
    hide DataAccess;
    hide WriteReg;
    hide FrontHolds;
    hide DecodeHolds;
    hide FrontReady;
    hide FrontWaits;
    hide FrontMidway;
    hide StoresPlain;
    hide Doomed;
    hide Past;
    var s0 := s.(wb := s.wb.(valid := false));
    var s1 := if s0.mem.valid then Writeback(s0) else s0;
    var b, e := ExecArch(p, text, s, a), DecodeArch(p, text, s, a);
    ExecArchIs(p, text, s, a);
    ExecIs(p, text, s, a);
    WritebackStep(p, text, s, s1, a);
    if s.exec.valid { ReachMidway(p, text, s, s1, a); } else { IdleMidway(p, text, s, s1, a); }
    var s2 := if s1.exec.valid then Memory(p, Recover(s1)) else s1;
    if Holds(p, text, s, a) { FrontReachesMidway(p, text, s, s2, b, e); }
    LeaveMidway(p, text, s2, a.regs, b, e);
  }

  // ----------------------------------------------------------- front-end stages

  lemma TextBlockAt(c: Config, text: seq<Word>, b: nat, i: nat)
    requires c.Valid() && |text| == c.textEnd - c.textStart && c.textStart / 4 <= b < c.textEnd / 4 && i < 4
    ensures TextBlock(c, text, b).At(i) == text[4 * b + i - c.textStart]
  {
  }

  lemma DecodeKeepsBackground(p: Platform, text: seq<Word>, s: Machine)
    requires Background(p, text, s) && s.decr.valid && !s.decode.valid
    ensures Background(p, text, Decode(s))
  {
    hide Opcode;
    hide SourceRegs;
    hide JumpTargetBlock;
    hide Loaded;
    hide TextCached;
    hide DataCached;
  }

  lemma DecodedHolds(c: Config, text: seq<Word>, e: Arch, regs: seq<Word>)
    requires c.Valid() && |text| == c.textEnd - c.textStart && e.Fits(c) && !AtEnd(c, e.pc) && |regs| == 32
    ensures DecodeHolds(c, text, Decoded(regs, Current(c, text, e), Clamp(c, e.pc)), e, regs)
  {
    hide Opcode;
    hide SourceRegs;
    hide JumpTargetBlock;
    hide Current;
    hide Clamp;
  }

  /** A decrypted text block supplies the instruction at its position. */
  lemma SuppliesCurrent(c: Config, text: seq<Word>, e: Arch, b: nat, i: nat)
    requires c.Valid() && |text| == c.textEnd - c.textStart && c.textStart / 4 <= b < c.textEnd / 4 && i < 4
    requires Clamp(c, e.pc) == 4 * b + i
    ensures !AtEnd(c, e.pc) && TextBlock(c, text, b).At(i) == Current(c, text, e)
    ensures Clamp(c, 4 * b + i + 1) == 4 * b + i + 1
  {
    TextBlockAt(c, text, b, i);
    assert (4 * b + i) / 4 == b;
  }

  lemma DecodeStep(p: Platform, text: seq<Word>, s: Machine, e: Arch)
    requires p.Valid() && |text| == p.c.textEnd - p.c.textStart && s.Shaped()
    requires e.Fits(p.c) && s.decr.valid && !s.decode.valid
    requires FrontHolds(p, text, s, e.pc)
    ensures var t := Decode(s);
      && DecodeHolds(p.c, text, t.decode, e, s.regs)
      && FrontHolds(p, text, t, PredictedPc(p.c, text, e))
  {
    hide DecodeHolds;
    hide Decoded;
    hide Opcode;
    hide JumpTargetBlock;
    hide TextBlock;
    hide Block.At;
    hide Clamp;
    hide AtEnd;
    hide Current;
    hide IsJump;
    SuppliesCurrent(p.c, text, e, s.decr.blockAddr, s.decr.idx);
    DecodedHolds(p.c, text, e, s.regs);
  }

  lemma DecryptStep(p: Platform, text: seq<Word>, s: Machine, pc: nat)
    requires Background(p, text, s) && !s.decr.valid
    ensures FrontHolds(p, text, s, pc) ==> FrontHolds(p, text, Decrypt(p, s), pc)
    ensures Background(p, text, Decrypt(p, s))
  {
    hide TextCached;
    hide DataCached;
    hide BlockAt;
  }

  /** A filled line holds the block, and the other lines are as before. */
  lemma FillHolds(p: Platform, s: Machine, b: nat)
    requires p.Valid() && s.Shaped() && TextCached(p, s.icache, s.ram) && p.FirstBlock() <= b < p.EndBlock()
    ensures FillICache(p, s, b)[b % 4].data == BlockAt(s.ram, p.place(b))
    ensures TextCached(p, FillICache(p, s, b), s.ram)
  {
    hide BlockAt;
    assert 4 * (b / 4) + b % 4 == b;
  }

  lemma FetchStep(p: Platform, text: seq<Word>, s: Machine, pc: nat)
    requires Background(p, text, s) && !s.fetch.valid
    ensures FrontHolds(p, text, s, pc) ==> FrontHolds(p, text, Fetch(p, s), pc)
    ensures Background(p, text, Fetch(p, s))
  {
    hide DataCached;
    hide TextCached;
    hide Loaded;
    hide BlockAt;
    hide FillICache;
    var b := if s.fetch.blockAddr < p.FirstBlock() then p.FirstBlock() else s.fetch.blockAddr;
    if b < p.EndBlock() {
      FillHolds(p, s, b);
      var t := s.(keyValid := true, keyFailed := if s.keyValid then s.keyFailed else false,
                  fetch := s.fetch.(blockAddr := b));
      FillHolds(p, t, b);
    }
  }

  lemma FrontendSupplies(p: Platform, s: Machine)
    requires s.Shaped() && !s.decode.valid
    ensures Frontend(p, s).decode.valid ==> Supplied(p, Frontend(p, s))
  {
    hide Decoded;
    hide MustStall;
    hide FillICache;
    hide JumpTargetBlock;
    hide Opcode;
  }

  /** Fetching goes on where it was, from the first text block at least. */
  lemma FetchAddress(p: Platform, s: Machine)
    requires p.Valid() && s.Shaped() && !s.fetch.valid
    ensures Clamp(p.c, 4 * Fetch(p, s).fetch.blockAddr) == Clamp(p.c, 4 * s.fetch.blockAddr)
  {
    hide FillICache;
  }

  /** Behind a store in slots 0 to 2 the rest of the block is decrypted: the next word of it is decoded. */
  lemma ResumeInBlock(p: Platform, text: seq<Word>, s: Machine, pc: nat)
    requires p.Valid() && |text| == p.c.textEnd - p.c.textStart && s.Shaped() && !s.decode.valid && p.c.textStart <= pc < p.c.textEnd
    requires s.decr.valid && FrontHolds(p, text, s, pc + 1) && s.decr.idx >= 1
    ensures ResumePc(p.c, text, pc) == 4 * Decode(s).fetch.blockAddr
  {
    hide Opcode;
    hide JumpTargetBlock;
    hide TextBlock;
    hide Block.At;
    hide Decoded;
    hide IsJump;
    TextBlockAt(p.c, text, s.decr.blockAddr, s.decr.idx);
    assert Clamp(p.c, pc + 1) == pc + 1;
    assert pc / 4 == s.decr.blockAddr && pc % 4 == s.decr.idx - 1;
  }

  /** Behind a store in the last slot the next block has just been fetched, unless the text ends. */
  lemma ResumePastBlock(p: Platform, text: seq<Word>, s: Machine, pc: nat)
    requires p.Valid() && |text| == p.c.textEnd - p.c.textStart && s.Shaped() && !s.decode.valid && p.c.textStart <= pc < p.c.textEnd
    requires !s.decr.valid && FrontHolds(p, text, s, pc + 1) && FetchHolds(p, s)
    requires s.fetch.valid || s.fetch.blockAddr >= p.EndBlock()
    ensures ResumePc(p.c, text, pc) == 4 * Decrypt(p, s).fetch.blockAddr
  {
    hide IsJump;
    hide JumpTargetBlock;
    hide BlockAt;
    assert Clamp(p.c, pc + 1) == pc + 1;
    assert pc + 1 == 4 * s.fetch.blockAddr;
    assert pc % 4 == 3;
  }

  /** While a plain store executes, the front end comes to the block it will resume with. */
  lemma ResumeStep(p: Platform, text: seq<Word>, s: Machine, pc: nat)
    requires p.Valid() && |text| == p.c.textEnd - p.c.textStart && s.Shaped() && FetchHolds(p, s)
    requires !s.decode.valid && !s.keyFailed && !IsLoad(s.exec.instr) && p.c.textStart <= pc < p.c.textEnd
    requires FrontHolds(p, text, s, pc + 1) && Supplied(p, s)
    ensures Clamp(p.c, ResumePc(p.c, text, pc)) == Clamp(p.c, 4 * Frontend(p, s).fetch.blockAddr)
  {
    hide Clamp;
    hide ResumePc;
    hide Decode;
    hide Decrypt;
    hide Fetch;
    hide FrontHolds;
    hide FetchHolds;
    hide IsLoad;
    hide SourceRegs;
    hide IsWrite;
    hide DestReg;
    if s.decr.valid {
      assert !MustStall(s);
      ResumeInBlock(p, text, s, pc);
      if !Decode(s).fetch.valid { FetchAddress(p, Decode(s)); }
    } else {
      ResumePastBlock(p, text, s, pc);
      if !Decrypt(p, s).fetch.valid { FetchAddress(p, Decrypt(p, s)); }
    }
  }

  lemma PastStore(c: Config, text: seq<Word>, m: Arch, r: ExecReg)
    requires c.Valid() && |text| == c.textEnd - c.textStart && m.Fits(c) && ExecHolds(c, text, r, m) && StoresPlain(c, text, m)
    ensures c.textStart <= Clamp(c, m.pc) < c.textEnd
    ensures Past(c, text, m).pc == ResumePc(c, text, Clamp(c, m.pc)) && !IsLoad(r.instr) && !r.mispredict
  {
    hide ResumePc;
    hide Alu;
    hide SourceRegs;
    hide Config.Translate;
    hide BranchTargetBlock;
    hide JumpTargetBlock;
    hide WriteReg;
  }

  /** The front end of a cycle keeps what the older instructions depend on. */
  lemma FrontendKeepsBackground(p: Platform, text: seq<Word>, s: Machine)
    requires Background(p, text, s) && !s.decode.valid
    ensures Background(p, text, Frontend(p, s))
  {
    hide MustStall;
    hide Decode;
    hide Decrypt;
    hide Fetch;
    hide Background;
    BackgroundShaped(p, text, s);
    var s1 := if s.decr.valid then (if MustStall(s) then s else Decode(s)) else Decrypt(p, s);
    if s.decr.valid { DecodeKeepsBackground(p, text, s); } else { DecryptStep(p, text, s, 0); }
    if !s1.fetch.valid { FetchStep(p, text, s1, 0); }
  }

  /** It delivers the program in order. */
  lemma FrontendFollows(p: Platform, text: seq<Word>, s: Machine, e: Arch)
    requires Background(p, text, s) && !s.decode.valid && e.Fits(p.c) && FrontHolds(p, text, s, e.pc)
    ensures var t := Frontend(p, s);
      && (t.decode.valid ==> DecodeHolds(p.c, text, t.decode, e, s.regs))
      && FrontHolds(p, text, t, NextFetched(p.c, text, t.decode.valid, e))
  {
    hide MustStall;
    hide Decode;
    hide Decrypt;
    hide Fetch;
    hide FrontHolds;
    hide DecodeHolds;
    hide PredictedPc;
    hide Background;
    BackgroundShaped(p, text, s);
    var s1 := if s.decr.valid then (if MustStall(s) then s else Decode(s)) else Decrypt(p, s);
    var pc := e.pc;
    if s.decr.valid {
      DecodeKeepsBackground(p, text, s);
      if !MustStall(s) {
        DecodeStep(p, text, s, e);
        DecodedNotAtEnd(p.c, text, s1.decode, e, s.regs);
        pc := PredictedPc(p.c, text, e);
      }
    } else {
      DecryptStep(p, text, s, pc);
    }
    if !s1.fetch.valid {
      FetchStep(p, text, s1, pc);
    }
  }

  lemma PastAccess(c: Config, text: seq<Word>, m: Arch, r: ExecReg)
    requires c.Valid() && |text| == c.textEnd - c.textStart && m.Fits(c) && ExecHolds(c, text, r, m)
    requires !StoresPlain(c, text, m) && (IsLoad(r.instr) || IsStore(r.instr))
    ensures c.textStart <= Clamp(c, m.pc) < c.textEnd && !AtEnd(c, m.pc) && r.instr == Current(c, text, m)
    ensures Past(c, text, m).pc == Clamp(c, m.pc) + 1
  {
    hide Alu;
    hide SourceRegs;
    hide Config.Translate;
    hide BranchTargetBlock;
    hide JumpTargetBlock;
    hide WriteReg;
    hide StoresPlain;
  }

  /** The word behind the access at `pc` is decrypted exactly if it is in the same block. */
  lemma NextInBlock(p: Platform, text: seq<Word>, s: Machine, pc: nat)
    requires p.Valid() && |text| == p.c.textEnd - p.c.textStart && s.Shaped() && p.c.textStart <= pc < p.c.textEnd
    requires FrontHolds(p, text, s, pc + 1) && (s.decr.valid ==> s.decr.idx >= 1)
    ensures s.decr.valid <==> pc % 4 != 3
    ensures s.decr.valid ==> s.decr.block.At(s.decr.idx) == text[pc + 1 - p.c.textStart]
  {
    hide Block.At;
    hide TextBlock;
    assert Clamp(p.c, pc + 1) == pc + 1;
    if s.decr.valid {
      TextBlockAt(p.c, text, s.decr.blockAddr, s.decr.idx);
    } else {
      assert pc + 1 == 4 * s.fetch.blockAddr;
    }
  }

  lemma IssueStep(p: Platform, text: seq<Word>, s: Machine, m: Arch)
    requires p.Valid() && |text| == p.c.textEnd - p.c.textStart && s.Shaped() && !s.decode.valid && !s.keyFailed && m.Fits(p.c)
    requires p.c.textStart <= Clamp(p.c, m.pc) < p.c.textEnd && !AtEnd(p.c, m.pc)
    requires s.exec.valid && s.exec.instr == Current(p.c, text, m)
    requires FrontHolds(p, text, s, Clamp(p.c, m.pc) + 1) && Supplied(p, s)
    ensures Frontend(p, s).decode.valid <==> Issued(p.c, text, m)
  {
    hide Opcode;
    hide Clamp;
    hide AtEnd;
    hide FrontHolds;
    hide SourceRegs;
    hide DestReg;
    hide IsWrite;
    hide IsLoad;
    hide Decoded;
    hide FillICache;
    hide Block.At;
    hide Current;
    NextInBlock(p, text, s, Clamp(p.c, m.pc));
  }

  /** What the back end of the invariant depends on. */
  lemma SameBack(p: Platform, text: seq<Word>, s: Machine, t: Machine, a: Arch)
    requires BackHolds(p, text, s, a) && !s.decode.valid && Background(p, text, t)
    requires t == s.(decode := t.decode, decr := t.decr, fetch := t.fetch, icache := t.icache,
                     keyValid := t.keyValid, keyFailed := t.keyFailed)
    requires t.decode.valid && !Doomed(p.c, text, s.exec, ExecArch(p, text, s, a)) ==>
               DecodeHolds(p.c, text, t.decode, DecodeArch(p, text, s, a), s.regs)
    ensures BackHolds(p, text, t, a)
    ensures ExecArch(p, text, t, a) == ExecArch(p, text, s, a) && DecodeArch(p, text, t, a) == DecodeArch(p, text, s, a)
  {
    hide Background;
    hide PlainData;
    hide DecodeHolds;
    hide ExecHolds;
    hide MemHolds;
    hide Past;
    hide StoresPlain;
  }

  lemma LockedStays(p: Platform, text: seq<Word>, s: Machine, t: Machine, a: Arch)
    requires LockedAt(p, text, s, a) && Background(p, text, t) && t.locked
    requires t == s.(decode := t.decode, decr := t.decr, fetch := t.fetch, icache := t.icache,
                     keyValid := t.keyValid, keyFailed := t.keyFailed, locked := t.locked)
    ensures LockedAt(p, text, t, a)
  {
    hide Background;
    hide PlainData;
    hide Past;
    hide Step;
  }

  /** The front end of a cycle supplies the next instruction. */
  lemma FrontBecomesReady(p: Platform, text: seq<Word>, s: Machine, m: Arch, e: Arch)
    requires Background(p, text, s) && s.Shaped() && m.Fits(p.c) && e.Fits(p.c) && !s.decode.valid && !s.keyFailed
    requires s.exec.valid ==> ExecHolds(p.c, text, s.exec, m) && !AtEnd(p.c, m.pc) && e == Past(p.c, text, m)
    requires FrontWaits(p, text, s, m, e)
    ensures FrontReady(p, text, Frontend(p, s), m, e)
    ensures Frontend(p, s).decode.valid && !Doomed(p.c, text, s.exec, m) ==>
              DecodeHolds(p.c, text, Frontend(p, s).decode, e, s.regs)
  {
    hide Frontend;
    hide FrontHolds;
    hide DecodeHolds;
    hide Past;
    hide StoresPlain;
    hide ExecHolds;
    hide Background;
    hide Supplied;
    hide NextFetched;
    hide AtEnd;
    hide IsLoad;
    hide IsStore;
    BackgroundShaped(p, text, s);
    FrontendSupplies(p, s);
    if !Doomed(p.c, text, s.exec, m) {
      FrontendFollows(p, text, s, e);
      if s.exec.valid && (IsLoad(s.exec.instr) || IsStore(s.exec.instr)) {
        PastAccess(p.c, text, m, s.exec);
        IssueStep(p, text, s, m);
      }
    } else if StoresPlain(p.c, text, m) && !s.exec.mispredict {
      PastStore(p.c, text, m, s.exec);
      ResumeStep(p, text, s, Clamp(p.c, m.pc));
    }
  }

  /** And it changes nothing the older instructions depend on. */
  lemma FrontendHolds(p: Platform, text: seq<Word>, s: Machine, a: Arch)
    requires StandsMidCycle(p, text, s, a) && !s.decode.valid && !s.keyFailed
    ensures Stands(p, text, Frontend(p, s), a)
  {
    hide Frontend;
    hide BackHolds;
    hide LockedAt;
    hide FrontWaits;
    hide FrontReady;
    hide DecodeHolds;
    hide Past;
    hide StoresPlain;
    hide ExecHolds;
    hide Doomed;
    StandsBackground(p, text, s, a);
    FrontendKeepsBackground(p, text, s);
    var t := Frontend(p, s);
    LockOnlyIfRefused(p, s);
    if LockedAt(p, text, s, a) {
      LockedStays(p, text, s, t, a);
    } else {
      ExecIs(p, text, s, a);
      var m, e := ExecArch(p, text, s, a), DecodeArch(p, text, s, a);
      FrontBecomesReady(p, text, s, m, e);
      WithoutLock(p, text, t, m, e);
      SameBack(p, text, s, t.(locked := false), a);
    }
  }

  lemma LockOnlyIfRefused(p: Platform, s: Machine)
    requires s.Shaped() && !s.decode.valid
    ensures s.locked ==> Frontend(p, s).locked
    ensures Frontend(p, s).locked && !s.locked ==> Frontend(p, s).keyFailed
  {
    hide Decoded;
    hide MustStall;
    hide FillICache;
    hide JumpTargetBlock;
    hide Opcode;
  }

  /** The lock is no part of what the front end and the caches hold. */
  lemma WithoutLock(p: Platform, text: seq<Word>, s: Machine, m: Arch, e: Arch)
    requires Background(p, text, s) && m.Fits(p.c) && e.Fits(p.c)
    ensures var t := s.(locked := false);
      Background(p, text, t) && t.Shaped() && (FrontReady(p, text, s, m, e) ==> FrontReady(p, text, t, m, e))
  {
    hide Loaded;
    hide TextCached;
    hide DataCached;
    hide StoresPlain;
    hide IssueKnown;
    hide NextFetched;
  }

  lemma StandsBackground(p: Platform, text: seq<Word>, s: Machine, a: Arch)
    requires BackHolds(p, text, s, a) || LockedAt(p, text, s, a)
    ensures Background(p, text, s) && p.Valid() && |text| == p.c.textEnd - p.c.textStart && s.Shaped() && FetchHolds(p, s)
    ensures a.Fits(p.c) && (s.locked <==> LockedAt(p, text, s, a)) && (s.locked <==> !BackHolds(p, text, s, a))
  {
  }

  lemma ExecIs(p: Platform, text: seq<Word>, s: Machine, a: Arch)
    requires BackHolds(p, text, s, a)
    ensures s.mem.valid ==> !AtEnd(p.c, a.pc)
    ensures s.exec.valid ==> ExecHolds(p.c, text, s.exec, ExecArch(p, text, s, a)) && !AtEnd(p.c, ExecArch(p, text, s, a).pc)
    ensures s.exec.valid ==> DecodeArch(p, text, s, a) == Past(p.c, text, ExecArch(p, text, s, a))
  {
    hide Background;
    hide PlainData;
    hide DecodeHolds;
    BackgroundShaped(p, text, s);
  }

  // ------------------------------------------------------------------- runs

  /** The power-on state of the pipeline over an image in memory. */
  predicate Reset(s: Machine) {
    && s.Shaped()
    && s.regs == seq(32, _ => 0) && s.copro == ZERO
    && s.fetch.blockAddr == BOOT_BLOCK
    && !s.fetch.valid && !s.decr.valid && !s.decode.valid && !s.exec.valid && !s.mem.valid && !s.wb.valid
    && (forall i :: 0 <= i < 4 ==> !s.icache[i].valid && !s.dcache[i].valid)
    && !s.keyValid && !s.keyFailed && !s.locked
  }

  function Boot(c: Config, ram: seq<Word>): (a: Arch)
    requires c.Valid() && |ram| == MEM_WORDS
    ensures a.Fits(c)
  {
    Arch(HEADER_WORDS, seq(32, _ => 0), ZERO, PlainData(c, ram))
  }

  lemma ResetHolds(p: Platform, text: seq<Word>, s: Machine)
    requires p.Valid() && p.c.cipher.Inverts() && |text| == p.c.textEnd - p.c.textStart
    requires Reset(s) && Loaded(p, s.ram, text)
    ensures Stands(p, text, s, Boot(p.c, s.ram))
  {
  }

  /** How many instructions `n` cycles write back: one in every cycle that starts with a full memory register. */
  function Retired(p: Platform, s: Machine, n: nat): (k: nat)
    requires s.Shaped()
    ensures k <= n
  {
    if n == 0 then 0
    else
      var b := Cycles(p, s, n - 1);
      Retired(p, s, n - 1) + if !b.keyFailed && !b.locked && b.mem.valid then 1 else 0
  }

  /** One cycle: the pipeline goes on standing for the same state, or for the next one. */
  lemma CycleHolds(p: Platform, text: seq<Word>, s: Machine, a: Arch)
    requires Stands(p, text, s, a)
    ensures var retires := !s.keyFailed && !s.locked && s.mem.valid;
      && (retires ==> Step(p.c, text, a).Next?)
      && Stands(p, text, Cycle(p, s), if retires then Step(p.c, text, a).arch else a)
  {
    hide Backend;
    hide Frontend;
    hide BackHolds;
    hide FrontReady;
    hide FrontWaits;
    hide Step;
    hide ExecArch;
    StandsShaped(p, text, s, a);
    if !s.keyFailed && !s.locked {
      ExecArchIs(p, text, s, a);
      BackendHolds(p, text, s, a);
      FrontendHolds(p, text, Backend(p, s), ExecArch(p, text, s, a));
    }
  }

  lemma StandsShaped(p: Platform, text: seq<Word>, s: Machine, a: Arch)
    requires Stands(p, text, s, a)
    ensures p.Valid() && |text| == p.c.textEnd - p.c.textStart && s.Shaped() && a.Fits(p.c)
    ensures !s.locked <==> Holds(p, text, s, a)
    ensures s.Faulted() ==> LockedPrecisely(p, text, s, a)
  {
  }

  lemma CycleStands(p: Platform, text: seq<Word>, a: Arch, s: Machine, k: nat)
    requires p.Valid() && |text| == p.c.textEnd - p.c.textStart && a.Fits(p.c)
    requires Stands(p, text, s, Run(p.c, text, a, k))
    ensures var retires := !s.keyFailed && !s.locked && s.mem.valid;
      Stands(p, text, Cycle(p, s), Run(p.c, text, a, if retires then k + 1 else k))
  {
    CycleHolds(p, text, s, Run(p.c, text, a, k));
    hide Stands;
    hide Cycle;
    hide Step;
    assert Run(p.c, text, a, k + 1) == match Step(p.c, text, Run(p.c, text, a, k))
      case Next(d) => d
      case _ => Run(p.c, text, a, k);
  }

  /**
   * Main result. After any number of cycles the pipeline stands for the state
   * the sequential machine reaches after as many instructions as were retired.
   */
  lemma {:induction false} PipelineRefinesIsa(p: Platform, text: seq<Word>, s: Machine, n: nat)
    requires p.Valid() && p.c.cipher.Inverts() && |text| == p.c.textEnd - p.c.textStart
    requires Reset(s) && Loaded(p, s.ram, text)
    ensures Stands(p, text, Cycles(p, s, n), Run(p.c, text, Boot(p.c, s.ram), Retired(p, s, n)))
  {
    hide Cycle;
    hide Step;
    hide Stands;
    hide Loaded;
    hide Boot;
    hide Cipher.Inverts;
    hide Config.Valid;
    if n == 0 {
      ResetHolds(p, text, s);
    } else {
      PipelineRefinesIsa(p, text, s, n - 1);
      CycleStands(p, text, Boot(p.c, s.ram), Cycles(p, s, n - 1), Retired(p, s, n - 1));
    }
  }
}
