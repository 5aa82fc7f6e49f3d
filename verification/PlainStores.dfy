/**
 * Stores to an unencrypted data region lose instructions. This module compares
 * the machine with the documented rule behind such stores: which words are
 * dropped, and exactly when dropping them shows.
 */
module PlainStores {
  import opened Words
  import opened Isa
  import opened Pipeline
  import opened PipelineProof

  /**
   * How many words behind a plain store at `pc` are not executed: the rest of its
   * block, or the next block behind the last slot. A jump right behind the store
   * is not executed either, but it has been followed.
   */
  function DroppedCount(c: Config, text: seq<Word>, pc: nat): nat
    requires c.Valid() && |text| == c.textEnd - c.textStart && c.textStart <= pc < c.textEnd
  {
    if pc % 4 == 3 then (if pc + 1 < c.textEnd then 4 else 0)
    else if IsJump(text[pc + 1 - c.textStart]) then 1
    else 3 - pc % 4
  }

  lemma InText(c: Config, pc: nat)
    requires c.Valid() && !AtEnd(c, pc)
    ensures c.textStart <= Clamp(c, pc) < c.textEnd
  {
  }

  /** The documented machine, `n` instructions from `a`, started again from a state on its way. */
  lemma {:induction false} NominalRunFrom(c: Config, text: seq<Word>, a: Arch, m: nat, n: nat)
    requires c.Valid() && |text| == c.textEnd - c.textStart && a.Fits(c)
    ensures NominalRun(c, text, a, m + n) == NominalRun(c, text, NominalRun(c, text, a, m), n)
  {
    hide NominalStep;
    if n > 0 { NominalRunFrom(c, text, a, m, n - 1); }
  }

  /** The dropped instructions, run from the state `b` behind the store, would together leave the state `r`. */
  predicate NothingLost(c: Config, text: seq<Word>, a: Arch)
    requires c.Valid() && |text| == c.textEnd - c.textStart && a.Fits(c) && StoresPlain(c, text, a)
  {
    InText(c, a.pc);
    match (NominalStep(c, text, a), Step(c, text, a))
    case (Next(b), Next(r)) => NominalRun(c, text, b, DroppedCount(c, text, Clamp(c, a.pc))) == r
    case _ => false
  }

  /** What the machine does at `a` shows no difference: a store loses nothing, and a branch leaves its block. */
  predicate Harmless(c: Config, text: seq<Word>, a: Arch)
    requires c.Valid() && |text| == c.textEnd - c.textStart && a.Fits(c)
  {
    if StoresPlain(c, text, a) then NothingLost(c, text, a) else !BranchesIntoOwnBlock(c, text, a)
  }

  /** How many documented instructions the first `k` of the machine stand for, counting the dropped ones. */
  function Position(c: Config, text: seq<Word>, a: Arch, k: nat): nat
    requires c.Valid() && |text| == c.textEnd - c.textStart && a.Fits(c)
  {
    if k == 0 then 0 else Position(c, text, a, k - 1) + Advance(c, text, Run(c, text, a, k - 1))
  }

  function Advance(c: Config, text: seq<Word>, a: Arch): nat
    requires c.Valid() && |text| == c.textEnd - c.textStart && a.Fits(c)
  {
    if StoresPlain(c, text, a) then
      InText(c, a.pc);
      1 + DroppedCount(c, text, Clamp(c, a.pc))
    else 1
  }

  /** One instruction of the machine against the documented instructions it stands for. */
  lemma AdvanceExactly(c: Config, text: seq<Word>, a: Arch)
    requires c.Valid() && |text| == c.textEnd - c.textStart && a.Fits(c)
    ensures NominalRun(c, text, a, Advance(c, text, a)) == Run(c, text, a, 1) <==> Harmless(c, text, a)
  {
    NominalStepExactly(c, text, a);
    RunOnce(c, text, a);
    hide Step;
    hide NominalStep;
    hide BranchesIntoOwnBlock;
    if StoresPlain(c, text, a) {
      InText(c, a.pc);
      StoreGoesOn(c, text, a);
      var d := DroppedCount(c, text, Clamp(c, a.pc));
      NominalRunFrom(c, text, a, 1, d);
    } else {
      StepsDiffer(c, text, a);
      hide StoresPlain;
    }
  }

  lemma RunOnce(c: Config, text: seq<Word>, a: Arch)
    requires c.Valid() && |text| == c.textEnd - c.textStart && a.Fits(c)
    ensures Run(c, text, a, 0) == NominalRun(c, text, a, 0) == a
    ensures Run(c, text, a, 1) == match Step(c, text, a) case Next(r) => r case _ => a
    ensures NominalRun(c, text, a, 1) == match NominalStep(c, text, a) case Next(r) => r case _ => a
  {
    hide Step;
    hide NominalStep;
  }

  lemma StoreGoesOn(c: Config, text: seq<Word>, a: Arch)
    requires c.Valid() && |text| == c.textEnd - c.textStart && a.Fits(c) && StoresPlain(c, text, a)
    ensures Step(c, text, a).Next? && NominalStep(c, text, a).Next?
  {
    StoresGoStraight(c, text, a);
    hide ExecuteCurrent;
    hide Successor;
    hide WriteReg;
  }

  lemma StepsDiffer(c: Config, text: seq<Word>, a: Arch)
    requires c.Valid() && |text| == c.textEnd - c.textStart && a.Fits(c)
    ensures !Step(c, text, a).Next? ==> Step(c, text, a) == NominalStep(c, text, a)
    ensures !StoresPlain(c, text, a) ==> (Departs(c, text, a) <==> BranchesIntoOwnBlock(c, text, a))
  {
    StaysTogether(c, text, a);
  }

  /** After `k` instructions the machine is where the documented rule is after those it stands for. */
  predicate InStep(c: Config, text: seq<Word>, a: Arch, k: nat)
    requires c.Valid() && |text| == c.textEnd - c.textStart && a.Fits(c)
  {
    NominalRun(c, text, a, Position(c, text, a, k)) == Run(c, text, a, k)
  }

  predicate HarmlessAt(c: Config, text: seq<Word>, a: Arch, k: nat)
    requires c.Valid() && |text| == c.textEnd - c.textStart && a.Fits(c)
  {
    Harmless(c, text, Run(c, text, a, k))
  }

  lemma RunNext(c: Config, text: seq<Word>, a: Arch, n: nat)
    requires c.Valid() && |text| == c.textEnd - c.textStart && a.Fits(c)
    ensures Run(c, text, a, n + 1) == Run(c, text, Run(c, text, a, n), 1)
    ensures Position(c, text, a, n + 1) == Position(c, text, a, n) + Advance(c, text, Run(c, text, a, n))
  {
    hide Step;
    hide Advance;
    RunOnce(c, text, Run(c, text, a, n));
  }

  /** One more instruction from a common state. */
  lemma InStepExactly(c: Config, text: seq<Word>, a: Arch, n: nat)
    requires c.Valid() && |text| == c.textEnd - c.textStart && a.Fits(c) && InStep(c, text, a, n)
    ensures InStep(c, text, a, n + 1) <==> HarmlessAt(c, text, a, n)
  {
    hide Harmless;
    hide Advance;
    hide NominalRun;
    hide Run;
    hide Position;
    var b := Run(c, text, a, n);
    RunNext(c, text, a, n);
    AdvanceExactly(c, text, b);
    NominalRunFrom(c, text, a, Position(c, text, a, n), Advance(c, text, b));
  }

  /**
   * Main result. A run shows the documented states, at the positions that count
   * the dropped instructions, if and only if no store to an unencrypted word drops
   * instructions that would together have changed something, and no branch in
   * slots 0 to 2 goes to its own block.
   */
  lemma {:induction false} RunIsDocumentedExactly(c: Config, text: seq<Word>, a: Arch, n: nat)
    requires c.Valid() && |text| == c.textEnd - c.textStart && a.Fits(c)
    ensures (forall k: nat :: k <= n ==> InStep(c, text, a, k)) <==> (forall k: nat :: k < n ==> HarmlessAt(c, text, a, k))
  {
    hide InStep;
    hide HarmlessAt;
    if n == 0 {
      StartsInStep(c, text, a);
    } else {
      RunIsDocumentedExactly(c, text, a, n - 1);
      if InStep(c, text, a, n - 1) { InStepExactly(c, text, a, n - 1); }
    }
  }

  lemma StartsInStep(c: Config, text: seq<Word>, a: Arch)
    requires c.Valid() && |text| == c.textEnd - c.textStart && a.Fits(c)
    ensures InStep(c, text, a, 0)
  {
  }

  // ------------------------------------------------- what the dropped words do

  /** The instruction at `x` changes nothing: control goes to the next word. */
  predicate Inert(c: Config, text: seq<Word>, x: Arch)
    requires c.Valid() && |text| == c.textEnd - c.textStart && x.Fits(c)
  {
    NominalStep(c, text, x) == Next(x.(pc := Clamp(c, x.pc) + 1))
  }

  /** The state `j` words further on. */
  function Ahead(b: Arch, j: nat): Arch { b.(pc := b.pc + j) }

  predicate InertAt(c: Config, text: seq<Word>, b: Arch, j: nat)
    requires c.Valid() && |text| == c.textEnd - c.textStart && b.Fits(c)
  {
    Inert(c, text, Ahead(b, j))
  }

  predicate WalkedTo(c: Config, text: seq<Word>, b: Arch, j: nat)
    requires c.Valid() && |text| == c.textEnd - c.textStart && b.Fits(c)
  {
    NominalRun(c, text, b, j) == Ahead(b, j)
  }

  /** The documented machine walks over `d` words behind `b` and changes nothing exactly if each is inert. */
  lemma {:induction false} WalksOver(c: Config, text: seq<Word>, b: Arch, d: nat)
    requires c.Valid() && |text| == c.textEnd - c.textStart && b.Fits(c) && b.pc >= c.textStart
    ensures (forall j: nat :: j <= d ==> WalkedTo(c, text, b, j)) <==> (forall j: nat :: j < d ==> InertAt(c, text, b, j))
  {
    hide InertAt;
    hide WalkedTo;
    if d == 0 {
      WalkStarts(c, text, b);
    } else {
      WalksOver(c, text, b, d - 1);
      WalkOne(c, text, b, d - 1);
    }
  }

  lemma WalkStarts(c: Config, text: seq<Word>, b: Arch)
    requires c.Valid() && |text| == c.textEnd - c.textStart && b.Fits(c)
    ensures WalkedTo(c, text, b, 0)
  {
  }

  lemma WalkOne(c: Config, text: seq<Word>, b: Arch, j: nat)
    requires c.Valid() && |text| == c.textEnd - c.textStart && b.Fits(c) && b.pc >= c.textStart
    ensures WalkedTo(c, text, b, j) ==> (WalkedTo(c, text, b, j + 1) <==> InertAt(c, text, b, j))
  {
    hide NominalStep;
    var x := Ahead(b, j);
    assert Clamp(c, x.pc) == x.pc;
    StepFromEnd(c, text, x);
    assert WalkedTo(c, text, b, j) ==>
      NominalRun(c, text, b, j + 1) == match NominalStep(c, text, x) case Next(r) => r case _ => x;
  }

  /** Standing still is not walking on. */
  lemma StepFromEnd(c: Config, text: seq<Word>, x: Arch)
    ensures x != Ahead(x, 1)
  {
  }

  /** Where no jump follows, the machine resumes behind the dropped words. */
  lemma ResumesBehind(c: Config, text: seq<Word>, pc: nat)
    requires c.Valid() && |text| == c.textEnd - c.textStart && c.textStart <= pc < c.textEnd
    requires pc % 4 == 3 || !IsJump(text[pc + 1 - c.textStart])
    ensures ResumePc(c, text, pc) == pc + 1 + DroppedCount(c, text, pc)
  {
    hide IsJump;
    hide JumpTargetBlock;
  }

  lemma StoreStates(c: Config, text: seq<Word>, a: Arch)
    requires c.Valid() && |text| == c.textEnd - c.textStart && a.Fits(c) && StoresPlain(c, text, a)
    ensures Step(c, text, a).Next? && NominalStep(c, text, a).Next? && c.textStart <= Clamp(c, a.pc) < c.textEnd
    ensures var b, r := NominalStep(c, text, a).arch, Step(c, text, a).arch;
      b.pc == Clamp(c, a.pc) + 1 && r == b.(pc := ResumePc(c, text, Clamp(c, a.pc))) && b.Fits(c)
    ensures NothingLost(c, text, a) <==>
      NominalRun(c, text, NominalStep(c, text, a).arch, DroppedCount(c, text, Clamp(c, a.pc))) == Step(c, text, a).arch
  {
    InText(c, a.pc);
    StoreGoesOn(c, text, a);
    StoresGoStraight(c, text, a);
    hide ExecuteCurrent;
    hide AccessCurrent;
    hide StoresPlain;
    hide ResumePc;
    hide DroppedCount;
    hide NominalRun;
  }

  /**
   * Where no jump follows the store, the documented machine comes to where the
   * machine resumes without changing anything on the way if and only if every
   * dropped instruction is inert; then nothing is lost.
   */
  lemma NothingLostIfInert(c: Config, text: seq<Word>, a: Arch)
    requires c.Valid() && |text| == c.textEnd - c.textStart && a.Fits(c) && StoresPlain(c, text, a)
    requires c.textStart <= Clamp(c, a.pc) < c.textEnd && NominalStep(c, text, a).Next?
    requires Clamp(c, a.pc) % 4 == 3 || !IsJump(text[Clamp(c, a.pc) + 1 - c.textStart])
    ensures var b, d := NominalStep(c, text, a).arch, DroppedCount(c, text, Clamp(c, a.pc));
      && b.Fits(c)
      && ((forall j: nat :: j <= d ==> WalkedTo(c, text, b, j)) <==> (forall j: nat :: j < d ==> InertAt(c, text, b, j)))
      && ((forall j: nat :: j < d ==> InertAt(c, text, b, j)) ==> NothingLost(c, text, a))
  {
    hide StoresPlain;
    hide Step;
    hide NominalStep;
    hide NominalRun;
    hide DroppedCount;
    hide ResumePc;
    hide NothingLost;
    hide InertAt;
    hide IsJump;
    StoreStates(c, text, a);
    ResumesBehind(c, text, Clamp(c, a.pc));
    var b, d := NominalStep(c, text, a).arch, DroppedCount(c, text, Clamp(c, a.pc));
    WalksOver(c, text, b, d);
    if forall j: nat :: j < d ==> InertAt(c, text, b, j) { assert WalkedTo(c, text, b, d); }
  }

  lemma JumpResumes(c: Config, text: seq<Word>, pc: nat)
    requires c.Valid() && |text| == c.textEnd - c.textStart && c.textStart <= pc < c.textEnd
    requires pc % 4 != 3 && IsJump(text[pc + 1 - c.textStart])
    ensures ResumePc(c, text, pc) == 4 * JumpTargetBlock(text[pc + 1 - c.textStart]) && DroppedCount(c, text, pc) == 1
  {
  }

  /** A jump right behind the store has been followed: nothing is lost. */
  lemma NothingLostByJump(c: Config, text: seq<Word>, a: Arch)
    requires c.Valid() && |text| == c.textEnd - c.textStart && a.Fits(c) && StoresPlain(c, text, a)
    requires var pc := Clamp(c, a.pc); c.textStart <= pc < c.textEnd && pc % 4 != 3 && IsJump(text[pc + 1 - c.textStart])
    ensures NothingLost(c, text, a)
  {
    hide StoresPlain;
    hide Step;
    hide NominalStep;
    hide NominalRun;
    hide NothingLost;
    hide IsJump;
    hide JumpTargetBlock;
    hide ResumePc;
    hide DroppedCount;
    JumpResumes(c, text, Clamp(c, a.pc));
    StoreStates(c, text, a);
    var b := NominalStep(c, text, a).arch;
    JumpStep(c, text, b);
    RunOnce(c, text, b);
  }

  lemma JumpStep(c: Config, text: seq<Word>, b: Arch)
    requires c.Valid() && |text| == c.textEnd - c.textStart && b.Fits(c) && c.textStart <= b.pc < c.textEnd
    requires IsJump(text[b.pc - c.textStart])
    ensures NominalStep(c, text, b) == Next(b.(pc := 4 * JumpTargetBlock(text[b.pc - c.textStart])))
  {
    assert !AtEnd(c, b.pc) && Clamp(c, b.pc) == b.pc;
    var w := text[b.pc - c.textStart];
    assert !IsWrite(w) && !IsLoad(w) && !IsStore(w) && !IsAesEnc(w) && !IsConditional(w);
    hide Alu;
    hide SourceRegs;
    hide IsWrite;
    hide JumpTargetBlock;
    hide BranchTargetBlock;
    hide IsAesEnc;
  }

  /** A word that does nothing in any state, such as a shift into register 0. */
  predicate InertWord(w: Word) {
    !IsLoad(w) && !IsStore(w) && !IsConditional(w) && !IsJump(w) && !IsAesEnc(w) && !(IsWrite(w) && DestReg(w) != 0)
  }

  lemma InertWordsAreInert(c: Config, text: seq<Word>, x: Arch)
    requires c.Valid() && |text| == c.textEnd - c.textStart && x.Fits(c) && c.textStart <= x.pc < c.textEnd
    requires InertWord(text[x.pc - c.textStart])
    ensures Inert(c, text, x)
  {
    assert !AtEnd(c, x.pc) && Clamp(c, x.pc) == x.pc;
    hide Alu;
    hide SourceRegs;
    hide IsWrite;
    hide JumpTargetBlock;
    hide BranchTargetBlock;
    hide IsAesEnc;
    hide DestReg;
  }

  /** A program in which every store is followed by a jump, or by words that do nothing as far as they are dropped. */
  predicate PaddedStores(c: Config, text: seq<Word>)
    requires c.Valid() && |text| == c.textEnd - c.textStart
  {
    forall pc: nat :: c.textStart <= pc < c.textEnd && IsStore(text[pc - c.textStart]) ==> Padded(c, text, pc)
  }

  predicate Padded(c: Config, text: seq<Word>, pc: nat)
    requires c.Valid() && |text| == c.textEnd - c.textStart && c.textStart <= pc < c.textEnd
  {
    (pc % 4 != 3 && IsJump(text[pc + 1 - c.textStart])) ||
    forall q: nat :: pc < q <= pc + DroppedCount(c, text, pc) ==> InertWordAt(c, text, q)
  }

  predicate InertWordAt(c: Config, text: seq<Word>, q: nat)
    requires c.Valid() && |text| == c.textEnd - c.textStart
  {
    c.textStart <= q < c.textEnd && InertWord(text[q - c.textStart])
  }

  lemma PlainStoreIsPadded(c: Config, text: seq<Word>, a: Arch)
    requires c.Valid() && |text| == c.textEnd - c.textStart && a.Fits(c) && PaddedStores(c, text) && StoresPlain(c, text, a)
    ensures c.textStart <= Clamp(c, a.pc) < c.textEnd && Padded(c, text, Clamp(c, a.pc))
  {
    hide Padded;
    hide ExecuteCurrent;
    InText(c, a.pc);
    assert IsStore(text[Clamp(c, a.pc) - c.textStart]);
  }

  lemma PaddedWalk(c: Config, text: seq<Word>, b: Arch, pc: nat, j: nat)
    requires c.Valid() && |text| == c.textEnd - c.textStart && b.Fits(c) && c.textStart <= pc < c.textEnd && b.pc == pc + 1
    requires Padded(c, text, pc) && !(pc % 4 != 3 && IsJump(text[pc + 1 - c.textStart])) && j < DroppedCount(c, text, pc)
    ensures InertAt(c, text, b, j)
  {
    hide InertWord;
    hide IsJump;
    hide Inert;
    var q := pc + 1 + j;
    assert InertWordAt(c, text, q);
    InertWordsAreInert(c, text, Ahead(b, j));
  }

  /** In such a program stores lose nothing, in any state. */
  lemma PaddedStoresLoseNothing(c: Config, text: seq<Word>, a: Arch)
    requires c.Valid() && |text| == c.textEnd - c.textStart && a.Fits(c) && PaddedStores(c, text) && StoresPlain(c, text, a)
    ensures NothingLost(c, text, a)
  {
    hide StoresPlain;
    hide Step;
    hide NominalStep;
    hide NothingLost;
    hide IsJump;
    hide Padded;
    hide PaddedStores;
    hide DroppedCount;
    hide InertAt;
    hide WalkedTo;
    PlainStoreIsPadded(c, text, a);
    StoreStates(c, text, a);
    var pc, b := Clamp(c, a.pc), NominalStep(c, text, a).arch;
    if pc % 4 != 3 && IsJump(text[pc + 1 - c.textStart]) {
      NothingLostByJump(c, text, a);
    } else {
      NothingLostIfInert(c, text, a);
      forall j: nat | j < DroppedCount(c, text, pc) ensures InertAt(c, text, b, j) {
        PaddedWalk(c, text, b, pc, j);
      }
    }
  }

  /**
   * The documented rule describes the pipeline over any such program, encrypted
   * data or not, that does not branch into its own block from slots 0 to 2.
   */
  lemma PaddedProgramsAreDocumented(p: Platform, text: seq<Word>, s: Machine, n: nat)
    requires p.Valid() && p.c.cipher.Inverts() && |text| == p.c.textEnd - p.c.textStart
    requires Reset(s) && Loaded(p, s.ram, text) && PaddedStores(p.c, text)
    requires forall k: nat :: k < Retired(p, s, n) ==> !BranchesIntoOwnBlock(p.c, text, Run(p.c, text, Boot(p.c, s.ram), k))
    ensures var a, k := Boot(p.c, s.ram), Retired(p, s, n);
      Stands(p, text, Cycles(p, s, n), NominalRun(p.c, text, a, Position(p.c, text, a, k)))
  {
    hide Stands;
    hide Cycles;
    hide Retired;
    hide Boot;
    hide Loaded;
    hide Run;
    hide NominalRun;
    hide Position;
    hide BranchesIntoOwnBlock;
    hide PaddedStores;
    hide NothingLost;
    hide StoresPlain;
    var a, m := Boot(p.c, s.ram), Retired(p, s, n);
    PipelineRefinesIsa(p, text, s, n);
    RunIsDocumentedExactly(p.c, text, a, m);
    forall k: nat | k < m ensures HarmlessAt(p.c, text, a, k) {
      var b := Run(p.c, text, a, k);
      if StoresPlain(p.c, text, b) { PaddedStoresLoseNothing(p.c, text, b); }
    }
    assert InStep(p.c, text, a, m);
  }
}
