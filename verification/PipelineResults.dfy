/**
 * What refinement means for a user of the CPU: draining gives a sequential
 * state, the pipeline always makes progress, security locks are precise, and
 * the two places where the machine departs from the documented rules.
 */
module PipelineResults {
  import opened Words
  import opened Isa
  import opened Pipeline
  import opened PipelineProof

  // ------------------------------------------------------------- what memory holds

  /**
   * After any number of cycles without a faulting access, and without draining
   * anything, the stored data decrypt to those of the sequential machine after the
   * retired instructions and the one that has passed the memory stage.
   */
  lemma MemoryIsIsa(p: Platform, text: seq<Word>, s: Machine, n: nat)
    requires p.Valid() && p.c.cipher.Inverts() && |text| == p.c.textEnd - p.c.textStart
    requires Reset(s) && Loaded(p, s.ram, text)
    requires !Cycles(p, s, n).Faulted()
    ensures PlainData(p.c, Cycles(p, s, n).ram) == Run(p.c, text, Boot(p.c, s.ram), Stored(p, s, n)).data
  {
    hide Cycles;
    hide Loaded;
    hide PlainData;
    hide Retired;
    var t, k := Cycles(p, s, n), Retired(p, s, n);
    PipelineRefinesIsa(p, text, s, n);
    hide Boot;
    if t.keyFailed {
      RejectedMemory(p, text, s, n);
    } else {
      MemoryStands(p, text, Boot(p.c, s.ram), t, k);
    }
  }

  lemma RejectedMemory(p: Platform, text: seq<Word>, s: Machine, n: nat)
    requires p.c.Valid() && |text| == p.c.textEnd - p.c.textStart && Reset(s) && Cycles(p, s, n).keyFailed
    ensures PlainData(p.c, Cycles(p, s, n).ram) == Run(p.c, text, Boot(p.c, s.ram), Stored(p, s, n)).data
  {
    hide Cycles;
    hide PlainData;
    hide Retired;
    hide Step;
    KeyFailsExactly(p, s, n);
    RejectedImageRunsNothing(p, s, n);
  }

  /** How many instructions have passed the memory stage. */
  function Stored(p: Platform, s: Machine, n: nat): nat
    requires s.Shaped()
  {
    Retired(p, s, n) + if Cycles(p, s, n).mem.valid then 1 else 0
  }

  lemma MemoryStands(p: Platform, text: seq<Word>, a: Arch, s: Machine, k: nat)
    requires p.Valid() && |text| == p.c.textEnd - p.c.textStart && a.Fits(p.c)
    requires Stands(p, text, s, Run(p.c, text, a, k)) && s.Shaped() && !s.Faulted() && !s.keyFailed
    ensures PlainData(p.c, s.ram) == Run(p.c, text, a, if s.mem.valid then k + 1 else k).data
  {
    var b := Run(p.c, text, a, k);
    StandsShaped(p, text, s, b);
    ExecArchIs(p, text, s, b);
    hide Background;
    hide PlainData;
    hide DecodeHolds;
    hide ExecHolds;
    hide FrontReady;
    hide Past;
    hide Step;
  }

  // ------------------------------------------------------------------- draining

  /** The instruction in the execute register is a mispredicted branch, or a store that empties the front end. */
  predicate Emptying(p: Platform, s: Machine) { s.exec.valid && (s.exec.mispredict || PlainStore(p, s)) }

  /** Instructions still in the back end, on the right path. */
  function InFlight(p: Platform, s: Machine): nat {
    (if s.mem.valid then 1 else 0) + (if s.exec.valid then 1 else 0) +
    (if s.decode.valid && !Emptying(p, s) then 1 else 0)
  }

  lemma EmptyingIsDoomed(p: Platform, text: seq<Word>, s: Machine, m: Arch)
    requires p.c.Valid() && |text| == p.c.textEnd - p.c.textStart && m.Fits(p.c)
    requires s.exec.valid ==> ExecHolds(p.c, text, s.exec, m)
    ensures Emptying(p, s) == Doomed(p.c, text, s.exec, m)
  {
    hide Alu;
    hide Opcode;
    hide SourceRegs;
    hide Config.Translate;
    hide BranchTargetBlock;
    hide JumpTargetBlock;
  }

  /** The back end stands for `a`, whatever the front end does. */
  ghost predicate BackStands(p: Platform, text: seq<Word>, s: Machine, a: Arch) {
    BackHolds(p, text, s, a) || LockedAt(p, text, s, a)
  }

  lemma DrainStands(p: Platform, text: seq<Word>, a: Arch, s: Machine, k: nat)
    requires p.Valid() && |text| == p.c.textEnd - p.c.textStart && a.Fits(p.c)
    requires BackStands(p, text, s, Run(p.c, text, a, k)) && !s.keyFailed && s.Shaped()
    ensures var t, j := DrainStep(p, s), if !s.locked && s.mem.valid then k + 1 else k;
      && BackStands(p, text, t, Run(p.c, text, a, j))
      && t.keyFailed == s.keyFailed
      && (!t.locked ==> !s.locked && j + InFlight(p, t) == k + InFlight(p, s))
      && (!t.locked ==> t.mem.valid == s.exec.valid && !t.decode.valid && (t.exec.valid ==> s.decode.valid))
  {
    var b := Run(p.c, text, a, k);
    StandsBackground(p, text, s, b);
    hide BackHolds;
    hide LockedAt;
    hide Backend;
    hide Step;
    hide Emptying;
    hide Doomed;
    if !s.locked {
      ExecArchIs(p, text, s, b);
      ExecIs(p, text, s, b);
      EmptyingIsDoomed(p, text, s, ExecArch(p, text, s, b));
      BackendHolds(p, text, s, b);
      assert Run(p.c, text, a, k + 1) == match Step(p.c, text, Run(p.c, text, a, k))
        case Next(d) => d
        case _ => Run(p.c, text, a, k);
    }
  }

  /** A machine with nothing in flight, or locked, shows exactly the sequential state it stands for. */
  ghost predicate Shows(p: Platform, s: Machine, a: Arch)
    requires p.c.Valid() && s.Shaped()
  {
    s.regs == a.regs && s.copro == a.copro && PlainData(p.c, s.ram) == a.data
  }

  /**
   * After any number of cycles, completing the instructions in flight leaves the
   * registers, coprocessor and data of the sequential machine after exactly the
   * retired and the in-flight instructions.
   */
  lemma DrainedPipelineIsIsa(p: Platform, text: seq<Word>, s: Machine, n: nat)
    requires p.Valid() && p.c.cipher.Inverts() && |text| == p.c.textEnd - p.c.textStart
    requires Reset(s) && Loaded(p, s.ram, text)
    requires !Cycles(p, s, n).keyFailed
    ensures var t := Drain(p, Cycles(p, s, n));
      !t.locked ==>
        Shows(p, t, Run(p.c, text, Boot(p.c, s.ram), Retired(p, s, n) + InFlight(p, Cycles(p, s, n))))
  {
    hide Drain;
    hide Cycle;
    hide BackHolds;
    hide LockedAt;
    hide FrontReady;
    hide Shows;
    hide Loaded;
    hide PlainData;
    hide Run;
    PipelineRefinesIsa(p, text, s, n);
    DrainShows(p, text, Boot(p.c, s.ram), Cycles(p, s, n), Retired(p, s, n));
  }

  lemma DrainShows(p: Platform, text: seq<Word>, a: Arch, s: Machine, k: nat)
    requires p.Valid() && |text| == p.c.textEnd - p.c.textStart && a.Fits(p.c)
    requires BackStands(p, text, s, Run(p.c, text, a, k)) && !s.keyFailed && s.Shaped()
    ensures var t := Drain(p, s); !t.locked ==> Shows(p, t, Run(p.c, text, a, k + InFlight(p, s)))
  {
    hide DrainStep;
    hide BackStands;
    hide Run;
    hide Shows;
    hide Emptying;
    var s1 := DrainStep(p, s);
    var k1 := if !s.locked && s.mem.valid then k + 1 else k;
    DrainStands(p, text, a, s, k);
    var s2 := DrainStep(p, s1);
    var k2 := if !s1.locked && s1.mem.valid then k1 + 1 else k1;
    DrainStands(p, text, a, s1, k1);
    DrainStands(p, text, a, s2, k2);
    if !DrainStep(p, s2).locked {
      IdleShows(p, text, DrainStep(p, s2), Run(p.c, text, a, k + InFlight(p, s)));
    }
  }

  lemma IdleShows(p: Platform, text: seq<Word>, s: Machine, a: Arch)
    requires BackStands(p, text, s, a) && !s.locked && !s.mem.valid && !s.exec.valid && s.Shaped() && p.c.Valid()
    ensures Shows(p, s, a)
  {
    hide Background;
    hide PlainData;
    hide DecodeHolds;
  }

  // ---------------------------------------------------------------------- locks

  /** The instruction at `e` is an AES encryption, the one instruction that writes the coprocessor. */
  predicate EncryptsAt(c: Config, text: seq<Word>, e: Arch)
    requires c.Valid() && |text| == c.textEnd - c.textStart && e.Fits(c)
  {
    !AtEnd(c, e.pc) && IsAesEnc(Current(c, text, e))
  }

  /** The coprocessor behind the instruction at `e`. */
  function CoproBehind(c: Config, text: seq<Word>, e: Arch): Block
    requires c.Valid() && |text| == c.textEnd - c.textStart && e.Fits(c)
  {
    if EncryptsAt(c, text, e) then
      var (rs, rt) := Operands(c, text, e);
      (c.cipher.enc)(c.key, Block(rs, rt, rs, rt))
    else e.copro
  }

  /**
   * Locks are precise for registers and data: a machine that has locked, other than
   * by rejecting its image, shows the state just before the faulting access, and the
   * sequential machine locks there too.
   * The coprocessor is that state's if and only if the instruction behind the
   * access was not issued, or leaves the coprocessor as it is.
   */
  lemma LocksArePrecise(p: Platform, text: seq<Word>, s: Machine, n: nat)
    requires p.Valid() && p.c.cipher.Inverts() && |text| == p.c.textEnd - p.c.textStart
    requires Reset(s) && Loaded(p, s.ram, text)
    requires Cycles(p, s, n).Faulted()
    ensures
      var t, a := Cycles(p, s, n), Run(p.c, text, Boot(p.c, s.ram), Retired(p, s, n));
      && Step(p.c, text, a).Lock?
      && t.regs == a.regs && PlainData(p.c, t.ram) == a.data
      && t.copro == (if Issued(p.c, text, a) then CoproBehind(p.c, text, Past(p.c, text, a)) else a.copro)
      && (t.copro == a.copro <==>
            (Issued(p.c, text, a) && EncryptsAt(p.c, text, Past(p.c, text, a)) ==>
               CoproBehind(p.c, text, Past(p.c, text, a)) == a.copro))
  {
    hide Cycles;
    hide Loaded;
    hide PlainData;
    hide Boot;
    hide Run;
    hide Retired;
    hide FrontReady;
    hide BackHolds;
    hide LockedAt;
    var t, a := Cycles(p, s, n), Run(p.c, text, Boot(p.c, s.ram), Retired(p, s, n));
    PipelineRefinesIsa(p, text, s, n);
    StandsShaped(p, text, t, a);
    LockedCopro(p, text, t, a);
  }

  lemma LockedCopro(p: Platform, text: seq<Word>, s: Machine, a: Arch)
    requires LockedPrecisely(p, text, s, a)
    ensures Step(p.c, text, a).Lock? && s.regs == a.regs && PlainData(p.c, s.ram) == a.data
    ensures Past(p.c, text, a).copro == a.copro
    ensures s.copro == if Issued(p.c, text, a) then CoproBehind(p.c, text, Past(p.c, text, a)) else a.copro
  {
    hide Background;
    hide PlainData;
    hide Issued;
    hide AtEnd;
    BackgroundShaped(p, text, s);
    FaultKeepsCopro(p.c, text, a);
    hide Step;
    var e := Past(p.c, text, a);
    if s.exec.valid { PastCopro(p.c, text, e); }
    hide Past;
    hide CoproBehind;
  }

  lemma FaultKeepsCopro(c: Config, text: seq<Word>, a: Arch)
    requires c.Valid() && |text| == c.textEnd - c.textStart && a.Fits(c) && Step(c, text, a).Lock?
    ensures !AtEnd(c, a.pc) && Past(c, text, a).copro == a.copro
  {
    OnlyAccessesFault(c, text, a);
    hide Alu;
    hide SourceRegs;
    hide Taken;
    hide Successor;
  }

  lemma PastCopro(c: Config, text: seq<Word>, e: Arch)
    requires c.Valid() && |text| == c.textEnd - c.textStart && e.Fits(c) && !AtEnd(c, e.pc)
    ensures Past(c, text, e).copro == CoproBehind(c, text, e)
  {
    hide Alu;
    hide SourceRegs;
    hide Taken;
    hide Successor;
    hide Config.Translate;
    hide BranchTargetBlock;
    hide JumpTargetBlock;
  }

  /**
   * An image that fails validation never runs: the first cycle latches the failure
   * and the security lock, and no register and no memory word ever changes.
   */
  lemma {:induction false} RejectedImageRunsNothing(p: Platform, s: Machine, n: nat)
    requires Reset(s) && !p.boots && n > 0
    ensures Cycles(p, s, n) == s.(wb := s.wb.(valid := false), keyFailed := true, locked := true)
    ensures Retired(p, s, n) == 0
  {
    if n > 1 {
      RejectedImageRunsNothing(p, s, n - 1);
    }
  }

  /** The key is refused in the first cycle, exactly if the image fails validation, and it is never lost afterwards. */
  lemma KeyFailsExactly(p: Platform, s: Machine, n: nat)
    requires Reset(s)
    ensures Cycles(p, s, n).keyFailed <==> n > 0 && !p.boots
    ensures Cycles(p, s, n).keyValid <==> n > 0 && p.boots
  {
    if n > 0 {
      if p.boots { KeyStays(p, s, n); } else { RejectedImageRunsNothing(p, s, n); }
    }
  }

  lemma {:induction false} KeyStays(p: Platform, s: Machine, n: nat)
    requires Reset(s) && p.boots && n > 0
    ensures Cycles(p, s, n).keyValid && !Cycles(p, s, n).keyFailed
  {
    if n == 1 {
      assert Cycles(p, s, 0) == s;
    } else {
      KeyStays(p, s, n - 1);
      hide Cycles;
      var t := Cycles(p, s, n - 1);
      FrontendKeepsKey(p, Backend(p, t));
      hide Backend;
      hide Frontend;
      assert Cycles(p, s, n) == Cycle(p, t) by { CyclesAre(p, s, n); }
    }
  }

  lemma CyclesAre(p: Platform, s: Machine, n: nat)
    requires s.Shaped() && n > 0
    ensures Cycles(p, s, n) == Cycle(p, Cycles(p, s, n - 1))
  {
    hide Cycle;
  }


  // ------------------------------------------------------------------- progress

  /** Cycles until the next writeback, if nothing else happens. */
  function Distance(s: Machine): nat {
    if s.mem.valid then 0 else if s.exec.valid then 1 else if s.decode.valid then 2
    else if s.decr.valid then 3 else if s.fetch.valid then 4 else 5
  }

  lemma FetchFills(p: Platform, s: Machine, pc: nat)
    requires p.Valid() && s.Shaped() && p.boots && !s.locked && !s.fetch.valid
    requires !AtEnd(p.c, pc) && Clamp(p.c, pc) == Clamp(p.c, 4 * s.fetch.blockAddr)
    ensures Fetch(p, s).fetch.valid
  {
    hide FillICache;
  }

  lemma FrontendAdvances(p: Platform, text: seq<Word>, s: Machine, pc: nat)
    requires p.Valid() && |text| == p.c.textEnd - p.c.textStart && s.Shaped()
    requires p.boots && !AtEnd(p.c, pc) && FrontHolds(p, text, s, pc)
    requires !s.mem.valid && !s.exec.valid && !s.decode.valid && !s.locked
    ensures Distance(Frontend(p, s)) < Distance(s)
  {
    if !s.decr.valid && !s.fetch.valid {
      FetchFills(p, s, pc);
    }
    hide Fetch;
    hide Decode;
    hide Decrypt;
    hide SourceRegs;
    hide DestReg;
    hide IsWrite;
    hide IsLoad;
    hide FrontHolds;
    hide Block.At;
    if !s.decr.valid && !s.fetch.valid {
      assert Decrypt(p, s) == s by { EmptyFetchDecryptsNothing(p, s); }
    }
  }

  lemma EmptyFetchDecryptsNothing(p: Platform, s: Machine)
    requires s.Shaped() && !s.decr.valid && !s.fetch.valid
    ensures Decrypt(p, s) == s
  {
  }

  lemma FrontendKeepsKey(p: Platform, s: Machine)
    requires s.Shaped() && !s.decode.valid && p.boots && !s.keyFailed && (s.keyValid || !s.locked)
    ensures !Frontend(p, s).keyFailed && (s.keyValid ==> Frontend(p, s).keyValid)
  {
    hide SourceRegs;
    hide Opcode;
    hide JumpTargetBlock;
  }

  /** Every cycle either writes an instruction back or brings the next one closer. */
  lemma CycleAdvances(p: Platform, text: seq<Word>, s: Machine, a: Arch)
    requires Holds(p, text, s, a) && !s.keyFailed && p.boots && s.Shaped() && (s.keyValid || !s.exec.valid)
    requires p.Valid() && |text| == p.c.textEnd - p.c.textStart && !AtEnd(p.c, a.pc)
    ensures var t := Cycle(p, s); !t.keyFailed && (s.mem.valid || t.locked || Distance(t) < Distance(s))
  {
    if !s.mem.valid && !s.exec.valid && !s.decode.valid { IdleFront(p, text, s, a); }
    hide BackHolds;
    hide LockedAt;
    hide FrontReady;
    hide FrontWaits;
    hide FrontHolds;
    hide ExecArch;
    hide Backend;
    hide Frontend;
    hide Past;
    hide Doomed;
    hide AtEnd;
    var t := Backend(p, s);
    StandsShaped(p, text, s, a);
    ExecArchIs(p, text, s, a);
    BackendHolds(p, text, s, a);
    FrontendKeepsKey(p, t);
    LockOnlyIfRefused(p, t);
    if !s.mem.valid && !s.exec.valid && !s.decode.valid {
      IdleBackend(p, s);
      FrontendAdvances(p, text, t, a.pc);
    } else if !s.mem.valid && !s.exec.valid {
      NothingDoomed(p, text, s, a);
    }
  }

  lemma IdleFront(p: Platform, text: seq<Word>, s: Machine, a: Arch)
    requires Holds(p, text, s, a) && p.Valid() && |text| == p.c.textEnd - p.c.textStart && s.Shaped()
    requires !s.mem.valid && !s.exec.valid && !s.decode.valid
    ensures FrontHolds(p, text, s.(wb := s.wb.(valid := false)), a.pc)
  {
    hide Background;
    hide PlainData;
  }

  lemma IdleBackend(p: Platform, s: Machine)
    requires s.Shaped() && !s.mem.valid && !s.exec.valid && !s.decode.valid
    ensures Backend(p, s) == s.(wb := s.wb.(valid := false))
  {
    hide Memory;
    hide ExecuteStage;
    hide Writeback;
    hide Recover;
  }

  lemma NothingDoomed(p: Platform, text: seq<Word>, s: Machine, a: Arch)
    requires BackHolds(p, text, s, a) && !s.exec.valid && (s.mem.valid ==> !AtEnd(p.c, a.pc))
    ensures !Doomed(p.c, text, s.exec, ExecArch(p, text, s, a))
  {
    hide Background;
    hide PlainData;
    hide StoresPlain;
  }

  /** The program has ended, or the machine has locked, by cycle `n`. */
  ghost predicate Stopped(p: Platform, text: seq<Word>, s: Machine, n: nat)
    requires p.c.Valid() && |text| == p.c.textEnd - p.c.textStart && s.Shaped()
  {
    Cycles(p, s, n).locked || AtEnd(p.c, Run(p.c, text, Boot(p.c, s.ram), Retired(p, s, n)).pc)
  }

  ghost predicate Started(p: Platform, text: seq<Word>, s: Machine) {
    && p.Valid() && p.c.cipher.Inverts() && |text| == p.c.textEnd - p.c.textStart && p.boots
    && Reset(s) && Loaded(p, s.ram, text)
  }

  lemma OneCycle(p: Platform, text: seq<Word>, s: Machine, n: nat)
    requires Started(p, text, s) && !Cycles(p, s, n).keyFailed && !Stopped(p, text, s, n)
    ensures var t, u := Cycles(p, s, n), Cycles(p, s, n + 1);
      && !u.keyFailed
      && Retired(p, s, n + 1) == Retired(p, s, n) + (if t.mem.valid then 1 else 0)
      && (t.mem.valid || Stopped(p, text, s, n + 1) || Distance(u) < Distance(t))
  {
    hide BackHolds;
    hide LockedAt;
    hide FrontReady;
    hide Cycle;
    hide Boot;
    hide Run;
    hide Loaded;
    var t, a := Cycles(p, s, n), Run(p.c, text, Boot(p.c, s.ram), Retired(p, s, n));
    PipelineRefinesIsa(p, text, s, n);
    StandsShaped(p, text, t, a);
    KeyFailsExactly(p, s, n);
    CycleAdvances(p, text, t, a);
  }

  /** A finished program stays finished, in the same state. */
  lemma {:induction false} EndIsFinal(c: Config, text: seq<Word>, a: Arch, k: nat, m: nat)
    requires c.Valid() && |text| == c.textEnd - c.textStart && a.Fits(c)
    requires k <= m && AtEnd(c, Run(c, text, a, k).pc)
    ensures Run(c, text, a, m) == Run(c, text, a, k)
  {
    hide AccessCurrent;
    hide ExecuteCurrent;
    hide Successor;
    hide WriteReg;
    if k < m {
      EndIsFinal(c, text, a, k, m - 1);
    }
  }

  lemma StopIsFinal(p: Platform, text: seq<Word>, s: Machine, n: nat)
    requires p.c.Valid() && |text| == p.c.textEnd - p.c.textStart && s.Shaped()
    requires Stopped(p, text, s, n)
    ensures Stopped(p, text, s, n + 1)
  {
    hide Step;
    hide Backend;
    hide Frontend;
    var k := Retired(p, s, n);
    if AtEnd(p.c, Run(p.c, text, Boot(p.c, s.ram), k).pc) {
      EndIsFinal(p.c, text, Boot(p.c, s.ram), k, Retired(p, s, n + 1));
    }
  }

  /**
   * Progress: until the program ends or the machine locks, `n` cycles write back
   * at least (n - 5) / 6 instructions.
   */
  lemma {:induction false} PipelineMakesProgress(p: Platform, text: seq<Word>, s: Machine, n: nat)
    requires Started(p, text, s)
    ensures Stopped(p, text, s, n) ||
            (!Cycles(p, s, n).keyFailed && n + Distance(Cycles(p, s, n)) <= 6 * Retired(p, s, n) + 5)
  {
    hide Stopped;
    hide Cycle;
    if n == 0 {
      assert Cycles(p, s, 0) == s && Retired(p, s, 0) == 0;
    } else {
      PipelineMakesProgress(p, text, s, n - 1);
      if Stopped(p, text, s, n - 1) {
        StopIsFinal(p, text, s, n - 1);
      } else {
        OneCycle(p, text, s, n - 1);
      }
    }
  }

  lemma RetiredGrows(p: Platform, s: Machine, n: nat)
    requires s.Shaped()
    ensures Retired(p, s, n) <= Retired(p, s, n + 1) <= Retired(p, s, n) + 1
  {
    hide Cycles;
  }

  lemma NoneAtStart(p: Platform, s: Machine)
    requires s.Shaped()
    ensures Retired(p, s, 0) == 0
  {
  }

  /** Counts grow by one at a time, so every count below the last one occurs. */
  lemma {:induction false} CountOccurs(p: Platform, s: Machine, n: nat, k: nat)
    requires s.Shaped() && k <= Retired(p, s, n)
    ensures exists m: nat :: m <= n && Retired(p, s, m) == k
  {
    hide Retired;
    NoneAtStart(p, s);
    if Retired(p, s, n) != k && n > 0 {
      RetiredGrows(p, s, n - 1);
      CountOccurs(p, s, n - 1, k);
    }
  }

  /** The sequential machine runs `k` instructions without stopping. */
  ghost predicate RunsFor(c: Config, text: seq<Word>, a: Arch, k: nat)
    requires c.Valid() && |text| == c.textEnd - c.textStart && a.Fits(c)
  {
    forall j: nat :: j < k ==> Step(c, text, Run(c, text, a, j)).Next?
  }

  /**
   * The converse of refinement: every state of the sequential machine is one the
   * pipeline comes to stand for, after some number of cycles.
   */
  lemma EveryInstructionRetires(p: Platform, text: seq<Word>, s: Machine, k: nat)
    requires Started(p, text, s) && RunsFor(p.c, text, Boot(p.c, s.ram), k)
    ensures exists n: nat :: Retired(p, s, n) == k && Stands(p, text, Cycles(p, s, n), Run(p.c, text, Boot(p.c, s.ram), k))
  {
    hide Stopped;
    hide Stands;
    hide RunsFor;
    hide Boot;
    hide Retired;
    var n := 6 * k + 6;
    PipelineMakesProgress(p, text, s, n);
    PipelineRefinesIsa(p, text, s, n);
    StoppedLate(p, text, s, n, k);
    CountOccurs(p, s, n, k);
    var m: nat :| Retired(p, s, m) == k;
    PipelineRefinesIsa(p, text, s, m);
  }

  /** A machine that stands for a state has stopped only if the sequential machine goes no further. */
  lemma StopsAt(p: Platform, text: seq<Word>, t: Machine, b: Arch)
    requires Stands(p, text, t, b) && p.c.Valid() && (t.Faulted() || AtEnd(p.c, b.pc))
    requires |text| == p.c.textEnd - p.c.textStart && b.Fits(p.c)
    ensures !Step(p.c, text, b).Next?
  {
    StandsShaped(p, text, t, b);
    hide Background;
    hide PlainData;
    hide BackHolds;
    hide FrontReady;
    hide Past;
    hide Successor;
  }

  lemma StoppedLate(p: Platform, text: seq<Word>, s: Machine, n: nat, k: nat)
    requires p.c.Valid() && |text| == p.c.textEnd - p.c.textStart && Reset(s) && p.boots
    requires RunsFor(p.c, text, Boot(p.c, s.ram), k)
    requires Stands(p, text, Cycles(p, s, n), Run(p.c, text, Boot(p.c, s.ram), Retired(p, s, n)))
    ensures Stopped(p, text, s, n) ==> k <= Retired(p, s, n)
  {
    hide Cycles;
    hide Retired;
    hide Stands;
    hide Boot;
    hide Step;
    hide Run;
    var t, j := Cycles(p, s, n), Retired(p, s, n);
    KeyFailsExactly(p, s, n);
    hide Reset;
    if Stopped(p, text, s, n) { StopsAt(p, text, t, Run(p.c, text, Boot(p.c, s.ram), j)); }
  }

  /** And a faulting access locks the pipeline. */
  lemma FaultsLock(p: Platform, text: seq<Word>, s: Machine, k: nat)
    requires Started(p, text, s) && RunsFor(p.c, text, Boot(p.c, s.ram), k)
    requires Step(p.c, text, Run(p.c, text, Boot(p.c, s.ram), k)).Lock?
    ensures exists n: nat :: Cycles(p, s, n).Faulted() && Retired(p, s, n) == k
  {
    hide Stands;
    hide RunsFor;
    hide Boot;
    hide Retired;
    hide Cycles;
    hide Run;
    var n := 6 * k + 6;
    PipelineMakesProgress(p, text, s, n);
    PipelineRefinesIsa(p, text, s, n);
    KeyFailsExactly(p, s, n);
    NeverPast(p, text, s, n, k);
    StoppedLate(p, text, s, n, k);
    if Stopped(p, text, s, n) { LockedNotEnded(p, text, s, n, k); }
    hide Stopped;
  }

  lemma LockedNotEnded(p: Platform, text: seq<Word>, s: Machine, n: nat, k: nat)
    requires p.c.Valid() && |text| == p.c.textEnd - p.c.textStart && s.Shaped() && Stopped(p, text, s, n)
    requires Retired(p, s, n) == k && Step(p.c, text, Run(p.c, text, Boot(p.c, s.ram), k)).Lock?
    ensures Cycles(p, s, n).locked
  {
    hide Cycles;
    hide Retired;
  }

  /** Nothing behind a faulting access retires. */
  lemma {:induction false} NeverPast(p: Platform, text: seq<Word>, s: Machine, n: nat, k: nat)
    requires Started(p, text, s)
    requires Step(p.c, text, Run(p.c, text, Boot(p.c, s.ram), k)).Lock?
    ensures Retired(p, s, n) <= k
  {
    hide Cycle;
    hide Boot;
    hide Run;
    hide Step;
    hide Stands;
    if n > 0 {
      NeverPast(p, text, s, n - 1, k);
      RetiredGrows(p, s, n - 1);
      if Retired(p, s, n - 1) == k {
        PipelineRefinesIsa(p, text, s, n - 1);
        CycleHolds(p, text, Cycles(p, s, n - 1), Run(p.c, text, Boot(p.c, s.ram), k));
      }
    }
  }

  /**
   * The documented rule, under which every taken branch continues at the start of
   * its target's block and every other instruction with the next word, describes
   * the machine as long as no instruction departs from it.
   */
  lemma PipelineRefinesDocumentedIsa(p: Platform, text: seq<Word>, s: Machine, n: nat)
    requires p.Valid() && p.c.cipher.Inverts() && |text| == p.c.textEnd - p.c.textStart
    requires Reset(s) && Loaded(p, s.ram, text)
    requires forall k: nat :: k < Retired(p, s, n) ==> Stays(p.c, text, Boot(p.c, s.ram), k)
    ensures Stands(p, text, Cycles(p, s, n), NominalRun(p.c, text, Boot(p.c, s.ram), Retired(p, s, n)))
  {
    hide Stands;
    hide Cycles;
    hide Retired;
    hide Boot;
    hide Loaded;
    hide Run;
    hide NominalRun;
    hide Stays;
    PipelineRefinesIsa(p, text, s, n);
    NominalRunAgrees(p.c, text, Boot(p.c, s.ram), Retired(p, s, n));
    assert Agrees(p.c, text, Boot(p.c, s.ram), Retired(p, s, n));
  }
}
