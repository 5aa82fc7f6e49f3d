/**
 * Runs from power-on in which the machine departs from the documented rule: a
 * branch into its own block, a store to an unencrypted word, and a lock with the
 * coprocessor one instruction ahead.
 */
module Departures {
  import opened Words
  import opened Isa
  import opened Pipeline
  import opened PipelineProof
  import opened PipelineResults

  // ------------------------------------------------------------------- power-on

  /** The registers after reset, over an image in memory. */
  function PowerOn(ram: seq<Word>): (s: Machine)
    ensures s.ram == ram
  {
    Machine(FetchReg(false, BOOT_BLOCK, ZERO), DecryptReg(false, 0, ZERO, 0),
            DecodeReg(false, 0, 0, 0, 0, 0, 0, false, 0, 0, false), ExecReg(false, 0, 0, 0, false, 0),
            MemReg(false, 0, 0, 0), WbReg(false, 0, 0),
            seq(32, _ => 0), ZERO, ram, seq(4, _ => ILine(false, 0, ZERO)), seq(4, _ => DLine(false, 0, 0)),
            false, false, false)
  }

  lemma PowerOnResets(ram: seq<Word>)
    requires |ram| == MEM_WORDS
    ensures Reset(PowerOn(ram))
  {
  }

  /** An image with the blocks `x` and `y` behind the header, and zeros. */
  function ImageOf(x: Block, y: Block): (ram: seq<Word>)
    ensures |ram| == MEM_WORDS && BlockAt(ram, 8) == x && BlockAt(ram, 9) == y
  {
    PutBlock(PutBlock(seq(MEM_WORDS, _ => 0), 8, x), 9, y)
  }

  /** A cipher that flips the first bit, and one that leaves blocks alone. */
  const FLIP := Cipher((_: Block, x: Block) => x.(w0 := x.w0 ^ 1), (_: Block, x: Block) => x.(w0 := x.w0 ^ 1))
  const SAME := Cipher((_: Block, x: Block) => x, (_: Block, x: Block) => x)

  lemma CiphersInvert()
    ensures FLIP.Inverts() && SAME.Inverts()
  {
    forall x: Block ensures (FLIP.dec)(ZERO, (FLIP.enc)(ZERO, x)) == x { FlipTwice(x.w0); }
  }

  lemma FlipTwice(w: Word)
    ensures (w ^ 1) ^ 1 == w
  {
  }

  const LUI_1: Word := 0x3C01_0001      // lui $1, 1
  const LUI_2: Word := 0x3C02_0001      // lui $2, 1
  const SW_40: Word := 0xAC00_0028      // sw  $0, 40($0)
  const BEQ_SELF: Word := 0x1000_FFFF   // beq $0, $0, -1
  const LW_0: Word := 0x8C01_0000       // lw  $1, 0($0)
  const AESENC_2: Word := 0x0000_103A   // aesenc $2, $0, $0

  lemma Fields()
    ensures Opcode(LUI_1) == OP_LUI && Rt(LUI_1) == 1 && Imm(LUI_1) == 1
    ensures Opcode(LUI_2) == OP_LUI && Rt(LUI_2) == 2 && Imm(LUI_2) == 1
    ensures Opcode(SW_40) == OP_SW && Rs(SW_40) == 0 && Rt(SW_40) == 0 && SImmWord(SW_40) == 40
    ensures Opcode(BEQ_SELF) == OP_BEQ && Rs(BEQ_SELF) == 0 && Rt(BEQ_SELF) == 0 && SImm(BEQ_SELF) == -1
    ensures Opcode(LW_0) == OP_LW && Rs(LW_0) == 0 && Rt(LW_0) == 1 && SImmWord(LW_0) == 0
    ensures Opcode(AESENC_2) == OP_SPECIAL && Funct(AESENC_2) == FN_AESENC && Rs(AESENC_2) == 0 && Rt(AESENC_2) == 0
  {
  }

  /** The pipeline shows the registers of every state the sequential machine comes to. */
  lemma RegistersShow(p: Platform, text: seq<Word>, s: Machine, k: nat)
    requires Started(p, text, s) && RunsFor(p.c, text, Boot(p.c, s.ram), k)
    ensures exists n: nat :: Cycles(p, s, n).regs == Run(p.c, text, Boot(p.c, s.ram), k).regs
  {
    hide RunsFor;
    hide Boot;
    hide Cycles;
    hide Run;
    EveryInstructionRetires(p, text, s, k);
    var n: nat :| Retired(p, s, n) == k && Stands(p, text, Cycles(p, s, n), Run(p.c, text, Boot(p.c, s.ram), k));
    StandsRegs(p, text, Cycles(p, s, n), Run(p.c, text, Boot(p.c, s.ram), k));
  }

  lemma StandsRegs(p: Platform, text: seq<Word>, s: Machine, a: Arch)
    requires Stands(p, text, s, a)
    ensures s.regs == a.regs
  {
    hide Background;
    hide FrontReady;
  }

  // ------------------------------------------------------ a lock, one encryption ahead

  const LOCK_TEXT: seq<Word> := [LW_0, AESENC_2, 0, 0]
  const LOCK_CONFIG := Config(FLIP, ZERO, 32, 36, 36, 40, true)
  const LOCKING := Platform(LOCK_CONFIG, (b: nat) => b, true)
  const LOCK_IMAGE: seq<Word> := ImageOf(Block(LW_0 ^ 1, AESENC_2, 0, 0), ZERO)

  lemma LockLoaded()
    ensures Loaded(LOCKING, LOCK_IMAGE, LOCK_TEXT)
  {
    assert (LW_0 ^ 1) ^ 1 == LW_0;
    assert TextBlock(LOCK_CONFIG, LOCK_TEXT, 8) == Block(LW_0, AESENC_2, 0, 0);
    hide BlockAt;
    hide TextBlock;
  }

  lemma FaultsAtOnce(a: Arch)
    requires a.Fits(LOCK_CONFIG) && a.pc == 32
    ensures Step(LOCK_CONFIG, LOCK_TEXT, a).Lock? && Issued(LOCK_CONFIG, LOCK_TEXT, a)
    ensures Past(LOCK_CONFIG, LOCK_TEXT, a).pc == 33 && Past(LOCK_CONFIG, LOCK_TEXT, a).regs[0] == 0
  {
    Fields();
    assert (0 as Word) as nat == 0;
    assert LOCK_CONFIG.Translate(0) == Some(0);
    assert Current(LOCK_CONFIG, LOCK_TEXT, a) == LW_0;
    assert LOCK_TEXT[1] == AESENC_2;
    hide Opcode;
    hide Funct;
    hide Rs;
    hide Rt;
    hide SImmWord;
    hide Config.Translate;
  }

  lemma EncryptsNext(e: Arch)
    requires e.Fits(LOCK_CONFIG) && e.pc == 33
    ensures CoproBehind(LOCK_CONFIG, LOCK_TEXT, e) == Block(1, 0, 0, 0)
  {
    Fields();
    assert Current(LOCK_CONFIG, LOCK_TEXT, e) == AESENC_2;
    assert (0 as Word) ^ 1 == 1;
    hide Opcode;
    hide Funct;
    hide Rs;
    hide Rt;
  }

  /** The load locks the machine before its first instruction, with the encryption behind it done. */
  lemma CoprocessorAheadAtLock()
    ensures exists n: nat ::
      Cycles(LOCKING, PowerOn(LOCK_IMAGE), n).Faulted() && Retired(LOCKING, PowerOn(LOCK_IMAGE), n) == 0 &&
      Cycles(LOCKING, PowerOn(LOCK_IMAGE), n).copro == Block(1, 0, 0, 0)
    ensures Boot(LOCK_CONFIG, LOCK_IMAGE).copro == ZERO
  {
    var s := PowerOn(LOCK_IMAGE);
    PowerOnResets(LOCK_IMAGE);
    LockLoaded();
    CiphersInvert();
    var a := Boot(LOCK_CONFIG, LOCK_IMAGE);
    assert a.pc == 32 && a.copro == ZERO;
    hide Reset;
    hide Loaded;
    hide Cycles;
    hide Boot;
    hide PowerOn;
    hide ImageOf;
    hide Issued;
    hide CoproBehind;
    hide Step;
    hide Past;
    assert Run(LOCK_CONFIG, LOCK_TEXT, a, 0) == a;
    hide Run;
    FaultsAtOnce(a);
    FaultsLock(LOCKING, LOCK_TEXT, s, 0);
    var n: nat :| Cycles(LOCKING, s, n).Faulted() && Retired(LOCKING, s, n) == 0;
    LocksArePrecise(LOCKING, LOCK_TEXT, s, n);
    EncryptsNext(Past(LOCK_CONFIG, LOCK_TEXT, a));
  }

  // ------------------------------------------------------ a branch into its own block

  const LOOP_TEXT: seq<Word> := [BEQ_SELF, LUI_1, LUI_1, LUI_1]
  const LOOP_CONFIG := Config(SAME, ZERO, 32, 36, 36, 40, true)
  const LOOPING := Platform(LOOP_CONFIG, (b: nat) => b, true)
  const LOOP_IMAGE: seq<Word> := ImageOf(Block(BEQ_SELF, LUI_1, LUI_1, LUI_1), ZERO)

  lemma LoopLoaded()
    ensures Loaded(LOOPING, LOOP_IMAGE, LOOP_TEXT)
  {
    assert TextBlock(LOOP_CONFIG, LOOP_TEXT, 8) == Block(BEQ_SELF, LUI_1, LUI_1, LUI_1);
    hide BlockAt;
    hide TextBlock;
  }

  /** The branch is taken to the start of its block, and the machine goes on with the next word. */
  lemma BranchesBack(a: Arch)
    requires a.Fits(LOOP_CONFIG) && a.pc == 32
    ensures Step(LOOP_CONFIG, LOOP_TEXT, a) == Next(a.(pc := 33)) && NominalStep(LOOP_CONFIG, LOOP_TEXT, a) == Next(a)
  {
    Fields();
    assert Current(LOOP_CONFIG, LOOP_TEXT, a) == BEQ_SELF;
    hide Opcode;
    hide Rs;
    hide Rt;
    hide SImm;
    hide Alu;
  }

  lemma ThenLoads(a: Arch)
    requires a.Fits(LOOP_CONFIG) && a.pc == 33
    ensures Step(LOOP_CONFIG, LOOP_TEXT, a) == Next(a.(pc := 34, regs := a.regs[1 := 0x1_0000]))
  {
    Fields();
    assert Current(LOOP_CONFIG, LOOP_TEXT, a) == LUI_1;
    hide Opcode;
    hide Rt;
    hide Rs;
  }

  lemma {:induction false} DocumentedLoops(a: Arch, k: nat)
    requires a.Fits(LOOP_CONFIG) && a.pc == 32
    ensures NominalRun(LOOP_CONFIG, LOOP_TEXT, a, k) == a
  {
    hide NominalStep;
    BranchesBack(a);
    if k > 0 { DocumentedLoops(a, k - 1); }
  }

  lemma TwoSteps(c: Config, text: seq<Word>, a: Arch)
    requires c.Valid() && |text| == c.textEnd - c.textStart && a.Fits(c)
    requires Step(c, text, a).Next? && Step(c, text, Step(c, text, a).arch).Next?
    ensures RunsFor(c, text, a, 2) && Run(c, text, a, 2) == Step(c, text, Step(c, text, a).arch).arch
  {
    hide Step;
    assert Run(c, text, a, 0) == a && Run(c, text, a, 1) == Step(c, text, a).arch;
  }

  lemma LoopStarts()
    ensures Started(LOOPING, LOOP_TEXT, PowerOn(LOOP_IMAGE))
    ensures Boot(LOOP_CONFIG, LOOP_IMAGE).pc == 32 && Boot(LOOP_CONFIG, LOOP_IMAGE).regs == seq(32, _ => 0)
  {
    PowerOnResets(LOOP_IMAGE);
    LoopLoaded();
    CiphersInvert();
    hide Reset;
    hide Loaded;
    hide PowerOn;
    hide ImageOf;
  }

  /** The documented machine never leaves the branch, and the pipeline loads register 1. */
  lemma OwnBlockBranchFallsThrough()
    ensures exists n: nat :: Cycles(LOOPING, PowerOn(LOOP_IMAGE), n).regs[1] == 0x1_0000
    ensures forall k: nat :: NominalRun(LOOP_CONFIG, LOOP_TEXT, Boot(LOOP_CONFIG, LOOP_IMAGE), k).regs[1] == 0
  {
    hide Started;
    hide Cycles;
    hide Boot;
    hide PowerOn;
    hide ImageOf;
    hide Step;
    hide RunsFor;
    hide Run;
    LoopStarts();
    var s, a := PowerOn(LOOP_IMAGE), Boot(LOOP_CONFIG, LOOP_IMAGE);
    BranchesBack(a);
    ThenLoads(a.(pc := 33));
    TwoSteps(LOOP_CONFIG, LOOP_TEXT, a);
    RegistersShow(LOOPING, LOOP_TEXT, s, 2);
    forall k: nat ensures NominalRun(LOOP_CONFIG, LOOP_TEXT, a, k) == a { DocumentedLoops(a, k); }
  }

  // ---------------------------------------------------- a store to an unencrypted word

  const STORE_TEXT: seq<Word> := [SW_40, LUI_1, LUI_1, LUI_1, LUI_2, LUI_2, LUI_2, LUI_2]
  const STORE_CONFIG := Config(SAME, ZERO, 32, 40, 40, 44, false)
  const STORING := Platform(STORE_CONFIG, (b: nat) => b, true)
  const STORE_IMAGE: seq<Word> := ImageOf(Block(SW_40, LUI_1, LUI_1, LUI_1), Block(LUI_2, LUI_2, LUI_2, LUI_2))

  lemma StoreLoaded()
    ensures Loaded(STORING, STORE_IMAGE, STORE_TEXT)
  {
    assert TextBlock(STORE_CONFIG, STORE_TEXT, 8) == Block(SW_40, LUI_1, LUI_1, LUI_1);
    assert TextBlock(STORE_CONFIG, STORE_TEXT, 9) == Block(LUI_2, LUI_2, LUI_2, LUI_2);
    hide BlockAt;
    hide TextBlock;
  }

  lemma Stores(a: Arch)
    requires a.Fits(STORE_CONFIG) && a.pc == 32
    ensures Step(STORE_CONFIG, STORE_TEXT, a) == Next(a.(pc := 36, data := a.data[0 := 0]))
    ensures NominalStep(STORE_CONFIG, STORE_TEXT, a) == Next(a.(pc := 33, data := a.data[0 := 0]))
  {
    Fields();
    assert (40 as Word) as nat == 40;
    assert STORE_CONFIG.Translate(40) == Some(40);
    assert Current(STORE_CONFIG, STORE_TEXT, a) == SW_40;
    assert STORE_TEXT[1] == LUI_1;
    hide Opcode;
    hide Rs;
    hide Rt;
    hide SImmWord;
    hide Config.Translate;
  }

  lemma Loads(a: Arch)
    requires a.Fits(STORE_CONFIG) && 32 < a.pc < 40
    ensures var b := a.(pc := a.pc + 1, regs := a.regs[(if a.pc < 36 then 1 else 2) := 0x1_0000]);
      Step(STORE_CONFIG, STORE_TEXT, a) == Next(b) && NominalStep(STORE_CONFIG, STORE_TEXT, a) == Next(b)
  {
    Fields();
    var w := if a.pc < 36 then LUI_1 else LUI_2;
    assert Current(STORE_CONFIG, STORE_TEXT, a) == w;
    hide Opcode;
    hide Rt;
    hide Rs;
  }

  lemma Ends(a: Arch)
    requires a.Fits(STORE_CONFIG) && a.pc >= 40
    ensures NominalStep(STORE_CONFIG, STORE_TEXT, a) == Halt
  {
  }

  /** In the documented machine register 1 is written before register 2. */
  lemma {:induction false} Register1First(a: Arch, k: nat)
    requires a.Fits(STORE_CONFIG) && a.pc == 32 && a.regs[2] == 0
    ensures var b := NominalRun(STORE_CONFIG, STORE_TEXT, a, k);
      b.pc >= 32 && (b.pc == 32 ==> b == a) && (b.pc <= 33 ==> b.regs[2] == 0) && (b.pc > 33 ==> b.regs[1] == 0x1_0000)
  {
    hide NominalStep;
    if k > 0 {
      Register1First(a, k - 1);
      var b := NominalRun(STORE_CONFIG, STORE_TEXT, a, k - 1);
      if b.pc == 32 { Stores(b); } else if b.pc < 40 { Loads(b); } else { Ends(b); }
    }
  }

  lemma StoreStarts()
    ensures Started(STORING, STORE_TEXT, PowerOn(STORE_IMAGE))
    ensures Boot(STORE_CONFIG, STORE_IMAGE).pc == 32 && Boot(STORE_CONFIG, STORE_IMAGE).regs == seq(32, _ => 0)
  {
    PowerOnResets(STORE_IMAGE);
    StoreLoaded();
    CiphersInvert();
    hide Reset;
    hide Loaded;
    hide PowerOn;
    hide ImageOf;
  }

  /** The pipeline loads register 2 with register 1 still 0: the three loads behind the store are lost. */
  lemma PlainStoreLosesInstructions()
    ensures exists n: nat ::
      Cycles(STORING, PowerOn(STORE_IMAGE), n).regs[1] == 0 && Cycles(STORING, PowerOn(STORE_IMAGE), n).regs[2] == 0x1_0000
    ensures forall k: nat ::
      var b := NominalRun(STORE_CONFIG, STORE_TEXT, Boot(STORE_CONFIG, STORE_IMAGE), k); b.regs[1] == 0 ==> b.regs[2] == 0
  {
    hide Started;
    hide Cycles;
    hide Boot;
    hide PowerOn;
    hide ImageOf;
    hide Step;
    hide RunsFor;
    hide Run;
    hide NominalRun;
    StoreStarts();
    var s, a := PowerOn(STORE_IMAGE), Boot(STORE_CONFIG, STORE_IMAGE);
    Stores(a);
    var b := Step(STORE_CONFIG, STORE_TEXT, a).arch;
    Loads(b);
    TwoSteps(STORE_CONFIG, STORE_TEXT, a);
    RegistersShow(STORING, STORE_TEXT, s, 2);
    forall k: nat
      ensures var b := NominalRun(STORE_CONFIG, STORE_TEXT, a, k); b.regs[1] == 0 ==> b.regs[2] == 0
    {
      Register1First(a, k);
    }
  }
}
