/**
 * What a zeroize leaves in the key schedule. The unit clears its own registers,
 * but has no hand in the AES core: an operation under way goes on to its end, and
 * the core never clears its result register.
 */
module KeyWipe {
  import opened Words
  import opened Aes
  import opened AesRtl
  import opened KeySchedule
  import CmacRtl

  /** An idle core holds nothing but its last result. */
  predicate Tidy(c: Core) {
    if c.busy then 1 <= c.round <= 10 && !c.done else c == RESET_CORE.(done := c.done, result := c.result)
  }

  /** The key of the operation the unit waits for. */
  function Operand(h: bool, s: Sched, root: Block): Block {
    match s.fsm
    case K_BASE_REQ => root
    case K_BASE_RSP => root
    case K_DERIVE => BaseKey(root, s.idx)
    case K_SUBKEY => WorkKey(h, root, s.epoch, if h || s.idx == 0 then s.idx else REQUESTERS)
    case K_EMPTY => ZERO
    case K_READY => ZERO
  }

  /** The core works on the operation the unit asked for. */
  predicate WorksFor(s: Sched, key: Block) {
    s.aesKey == key && (s.core.busy && s.core.round > 0 ==> s.core.k == RoundKey(StateOf(key), s.core.round - 1))
  }

  /** The result register goes on showing what the unit took last. */
  predicate Shows(h: bool, s: Sched)
    requires s.Shaped()
  {
    var last := BlockOf(s.core.result);
    match s.fsm
    case K_BASE_RSP => last == s.baseReq
    case K_SUBKEY => if h then last == s.key[s.idx] else if s.idx == 0 then last == s.key[REQUESTERS] else true
    case K_READY => CmacRtl.Dbl(last) == s.k1[REQUESTERS]
    case K_EMPTY => true
    case K_BASE_REQ => true
    case K_DERIVE => true
  }

  /** Where key material is in the core, besides where the unit keeps it. */
  predicate Traced(h: bool, s: Sched, root: Block)
    requires s.Shaped()
  {
    && Tidy(s.core) && (s.fsm == K_READY ==> !s.core.done)
    && (Waits(s) ==> WorksFor(s, Operand(h, s, root)))
    && (!s.core.done ==> Shows(h, s))
  }

  lemma TidyStep(c: Core, start: bool, key: Block, x: Block)
    requires Tidy(c)
    ensures Tidy(CoreNext(c, start, key, x))
  {
    hide StateOf;
    hide AddRoundKey;
    hide NextKey;
    hide MixAll;
    hide SubShift;
    hide RconOf;
  }

  /** A start loads the key, and every round makes the next round key from it. */
  lemma ScheduleStep(c: Core, start: bool, key: Block, x: Block)
    requires Tidy(c) && (c.busy ==> c.k == RoundKey(StateOf(key), c.round - 1))
    ensures var d := CoreNext(c, start, key, x); Tidy(d) && (d.busy ==> d.k == RoundKey(StateOf(key), d.round - 1))
  {
    hide StateOf;
    hide AddRoundKey;
    hide NextKey;
    hide MixAll;
    hide SubShift;
    hide Rcon;
    if c.busy { RconIs(c.round); }
    hide RconOf;
  }

  /** A result stays until the next operation ends. */
  lemma ResultStays(c: Core, start: bool, key: Block, x: Block)
    requires Tidy(c)
    ensures var d := CoreNext(c, start, key, x); !d.done ==> d.result == c.result
    ensures c.done ==> !CoreNext(c, start, key, x).done
  {
    hide StateOf;
    hide AddRoundKey;
    hide NextKey;
    hide MixAll;
    hide SubShift;
    hide RconOf;
  }

  lemma TracedAtStart(h: bool, s: Sched, root: Block, i: In)
    requires Sane(s) && Holds(h, s, root) && Traced(h, s, root) && !i.zeroize
    requires Loads(s, i) || (s.fsm == K_READY && h && i.epoch != s.epoch)
    ensures Traced(h, Next(h, s, i), RootNext(s, root, i))
  {
    hide Encrypt;
    hide KdfBlock;
    hide CmacRtl.Dbl;
    hide StateOf;
    hide BlockOf;
    hide KeysTo;
    hide SubkeysTo;
  }

  lemma TracedAtRest(h: bool, s: Sched, root: Block, i: In)
    requires Sane(s) && Traced(h, s, root) && !i.zeroize && !Loads(s, i)
    requires s.fsm == K_EMPTY || (s.fsm == K_READY && (h ==> i.epoch == s.epoch))
    ensures Traced(h, Next(h, s, i), root)
  {
    TidyStep(s.core, s.start, s.aesKey, s.aesIn);
    hide DoneWith;
    hide CmacRtl.Dbl;
    hide StateOf;
    hide BlockOf;
    hide AddRoundKey;
    hide NextKey;
    hide MixAll;
    hide SubShift;
    hide RconOf;
  }

  lemma TracedWaiting(h: bool, s: Sched, root: Block, n: nat, i: In)
    requires Sane(s) && Traced(h, s, root) && Waits(s) && Awaits(h, s, root, n) && n > 0 && !i.zeroize
    ensures Traced(h, Next(h, s, i), root)
  {
    hide Awaits;
    hide Next;
    hide Tidy;
    hide CoreNext;
    hide CmacRtl.Dbl;
    hide StateOf;
    hide BlockOf;
    hide RoundKey;
    hide WorkKey;
    hide BaseKey;
    Waiting(h, s, root, n);
    WaitStep(h, s, root, n, i);
    ScheduleOf(s);
    ScheduleStep(s.core, s.start, s.aesKey, s.aesIn);
    ResultStays(s.core, s.start, s.aesKey, s.aesIn);
    BusyRound(Next(h, s, i).core);
  }

  lemma ScheduleOf(s: Sched)
    requires Tidy(s.core) && WorksFor(s, s.aesKey)
    ensures s.core.busy ==> s.core.round > 0 && s.core.k == RoundKey(StateOf(s.aesKey), s.core.round - 1)
  {
    hide RoundKey;
    hide StateOf;
  }

  lemma BusyRound(c: Core)
    requires Tidy(c)
    ensures c.busy ==> 1 <= c.round <= 10 && !c.done
  {
  }

  /** The core has delivered what the unit waits for. */
  predicate Delivered(h: bool, s: Sched, root: Block) {
    Sane(s) && Holds(h, s, root) && Traced(h, s, root) && Waits(s) && Awaits(h, s, root, 0)
  }

  lemma CoreWhenDone(c: Core, key: Block, x: Block)
    requires c.done && !c.busy
    ensures CoreNext(c, false, key, x) == c.(done := false)
  {
  }

  lemma OutIsPromised(h: bool, s: Sched, root: Block)
    requires Delivered(h, s, root)
    ensures s.core.done && !s.core.busy && !s.start && BlockOf(s.core.result) == Promised(h, s, root)
  {
    hide Encrypt;
    hide Finish;
    hide BlockOf;
    hide WorkKey;
    hide BaseKey;
    hide Holds;
    hide Traced;
  }

  lemma NextWhenDone(h: bool, s: Sched, i: In)
    requires s.Shaped() && Waits(s) && !s.start && s.core.done && !s.core.busy && !i.zeroize
    ensures Next(h, s, i) == DoneWith(h, s.(core := s.core.(done := false)), BlockOf(s.core.result), i.epoch)
  {
    hide CoreNext;
    hide DoneWith;
    hide BlockOf;
    CoreWhenDone(s.core, s.aesKey, s.aesIn);
  }

  lemma SameOperation(h: bool, s: Sched, core: Core, root: Block)
    ensures var t := s.(core := core); Operand(h, t, root) == Operand(h, s, root) && Promised(h, t, root) == Promised(h, s, root)
  {
    hide Encrypt;
    hide WorkKey;
    hide BaseKey;
  }

  lemma TidyIdle(c: Core)
    requires Tidy(c) && !c.busy
    ensures Tidy(c.(done := false))
  {
  }

  /** The core is idle again, and its result is what the unit takes now. */
  predicate Took(h: bool, b: Sched, root: Block) {
    && b.Shaped() && Waits(b) && Holds(h, b, root) && Tidy(b.core) && !b.core.busy && !b.core.done
    && b.aesKey == Operand(h, b, root) && BlockOf(b.core.result) == Promised(h, b, root)
  }

  lemma TakesBaseReq(h: bool, b: Sched, root: Block, epoch: Word)
    requires Took(h, b, root) && b.fsm == K_BASE_REQ
    ensures Traced(h, DoneWith(h, b, BlockOf(b.core.result), epoch), root)
  {
    hide Encrypt;
    hide BlockOf;
    hide StateOf;
    hide CmacRtl.Dbl;
    hide KdfBlock;
    hide SubkeysTo;
    hide RoundKey;
    hide Tidy;
  }

  lemma TakesBaseRsp(h: bool, b: Sched, root: Block, epoch: Word)
    requires Took(h, b, root) && b.fsm == K_BASE_RSP
    ensures Traced(h, DoneWith(h, b, BlockOf(b.core.result), epoch), root)
  {
    hide Encrypt;
    hide BlockOf;
    hide StateOf;
    hide CmacRtl.Dbl;
    hide KdfBlock;
    hide SubkeysTo;
    hide RoundKey;
    hide Tidy;
  }

  lemma TakesKey(h: bool, b: Sched, root: Block, epoch: Word)
    requires Took(h, b, root) && b.fsm == K_DERIVE
    ensures Traced(h, DoneWith(h, b, BlockOf(b.core.result), epoch), root)
  {
    hide Encrypt;
    hide BlockOf;
    hide StateOf;
    hide CmacRtl.Dbl;
    hide KdfBlock;
    hide SubkeysTo;
    hide RoundKey;
    hide Tidy;
  }

  lemma TakesSubkey(h: bool, b: Sched, root: Block, epoch: Word)
    requires Took(h, b, root) && b.fsm == K_SUBKEY
    ensures Traced(h, DoneWith(h, b, BlockOf(b.core.result), epoch), root)
  {
    hide Encrypt;
    hide BlockOf;
    hide StateOf;
    hide CmacRtl.Dbl;
    hide KdfBlock;
    hide SubkeysTo;
    hide RoundKey;
    hide Tidy;
  }

  lemma DeliveredIsTaken(h: bool, s: Sched, root: Block)
    requires Delivered(h, s, root)
    ensures s.Shaped() && Waits(s) && !s.start && s.core.done && !s.core.busy && Took(h, s.(core := s.core.(done := false)), root)
  {
    hide BlockOf;
    hide Awaits;
    hide Shows;
    hide Promised;
    hide Operand;
    hide Holds;
    hide Tidy;
    OutIsPromised(h, s, root);
    var c := s.core.(done := false);
    SameOperation(h, s, c, root);
    TidyIdle(s.core);
    HoldsStays(h, s, s.(core := c), root);
  }

  lemma TracedWhenDone(h: bool, s: Sched, root: Block, i: In)
    requires Delivered(h, s, root) && !i.zeroize
    ensures s.Shaped() && Traced(h, Next(h, s, i), root)
  {
    hide Next;
    hide Traced;
    hide DoneWith;
    hide Delivered;
    hide Took;
    DeliveredIsTaken(h, s, root);
    NextWhenDone(h, s, i);
    var b := s.(core := s.core.(done := false));
    match s.fsm
    case K_BASE_REQ => TakesBaseReq(h, b, root, i.epoch);
    case K_BASE_RSP => TakesBaseRsp(h, b, root, i.epoch);
    case K_DERIVE => TakesKey(h, b, root, i.epoch);
    case K_SUBKEY => TakesSubkey(h, b, root, i.epoch);
  }

  lemma TracedStep(h: bool, s: Sched, root: Block, i: In)
    requires Sound(h, s, root) && Traced(h, s, root)
    ensures Traced(h, Next(h, s, i), RootNext(s, root, i))
  {
    hide Sane;
    hide Holds;
    hide Awaits;
    hide Next;
    hide Traced;
    SaneIsShaped(s);
    LoadedNotEmpty(s, i);
    if i.zeroize {
      TracedWhenWiped(h, s, root, i);
    } else if Loads(s, i) || (s.fsm == K_READY && h && i.epoch != s.epoch) {
      TracedAtStart(h, s, root, i);
    } else if !Waits(s) {
      TracedAtRest(h, s, root, i);
    } else {
      var n: nat :| Awaits(h, s, root, n);
      if n == 0 { TracedWhenDone(h, s, root, i); } else { TracedWaiting(h, s, root, n, i); }
    }
  }

  lemma TracedWhenWiped(h: bool, s: Sched, root: Block, i: In)
    requires s.Shaped() && Traced(h, s, root) && i.zeroize
    ensures Traced(h, Next(h, s, i), RootNext(s, root, i))
  {
    TidyStep(s.core, s.start, s.aesKey, s.aesIn);
    hide CoreNext;
    hide Tidy;
    hide Shows;
  }

  // -------------------------------------------------------------------- whole runs

  lemma {:induction false} EveryRunIsTraced(h: bool, s: Sched, root: Block, ins: seq<In>)
    requires Sound(h, s, root) && s.Shaped() && Traced(h, s, root)
    ensures Sound(h, Run(h, s, ins), RootAfter(h, s, root, ins)) && Traced(h, Run(h, s, ins), RootAfter(h, s, root, ins))
    decreases |ins|
  {
    hide Sound;
    hide Traced;
    hide Next;
    hide RootNext;
    if ins != [] {
      SoundStep(h, s, root, ins[0]);
      TracedStep(h, s, root, ins[0]);
      EveryRunIsTraced(h, Next(h, s, ins[0]), RootNext(s, root, ins[0]), ins[1..]);
    }
  }

  lemma ReachedIsTraced(h: bool, ins: seq<In>)
    ensures var s, root := Run(h, Reset(), ins), RootAfter(h, Reset(), ZERO, ins);
      Sound(h, s, root) && Traced(h, s, root) && Sane(s) && Tidy(s.core)
  {
    ResetIsSound(h, ZERO);
    ResetIsTraced(h);
    hide Reset;
    hide Run;
    hide RootAfter;
    EveryRunIsTraced(h, Reset(), ZERO, ins);
    hide Holds;
    hide Awaits;
    hide Shows;
    hide WorksFor;
    hide Operand;
    hide Tidy;
  }

  lemma ResetIsTraced(h: bool)
    ensures Traced(h, Reset(), ZERO)
  {
  }

  // --------------------------------------------------------------------- the exact wipe

  /** As at reset, but for the epoch and the index, which hold no key. */
  predicate Clean(s: Sched) { s == Reset().(epoch := s.epoch, idx := s.idx) }

  /** The unit's own registers are wiped. */
  predicate Wiped(s: Sched) { s == Reset().(epoch := s.epoch, idx := s.idx, core := s.core) }

  lemma WipeStep(h: bool, s: Sched, i: In)
    requires s.Shaped() && i.zeroize
    ensures var t := Next(h, s, i);
      Wiped(t) && t.core == CoreNext(s.core, s.start, s.aesKey, s.aesIn) && t.epoch == s.epoch && t.idx == s.idx
  {
    hide CoreNext;
  }

  lemma CoreCleanExactly(c: Core, start: bool, key: Block, x: Block)
    requires Tidy(c)
    ensures CoreNext(c, start, key, x) == RESET_CORE <==> !start && !c.busy && c.result == BLANK
  {
    hide StateOf;
    hide AddRoundKey;
    hide NextKey;
    hide MixAll;
    hide SubShift;
    hide RconOf;
  }

  /**
   * In any run, a zeroize leaves the whole unit as it is after a reset, the
   * registers of the AES core among them, if and only if the core is neither at
   * work nor about to start, and its result register was never written or happens
   * to be blank.
   */
  lemma ZeroizeCleansExactly(h: bool, ins: seq<In>, i: In)
    requires i.zeroize
    ensures var s := Run(h, Reset(), ins);
      Clean(Next(h, s, i)) <==> !s.start && !s.core.busy && s.core.result == BLANK
  {
    var s := Run(h, Reset(), ins);
    ReachedIsTraced(h, ins);
    SaneIsShaped(s);
    WipeStep(h, s, i);
    CoreCleanExactly(s.core, s.start, s.aesKey, s.aesIn);
    hide Run;
    hide Next;
    hide CoreNext;
    hide Sound;
    hide Traced;
    hide Tidy;
    hide Blank;
  }

  /** No clock of the run accepts a root. */
  predicate NoRoot(h: bool, s: Sched, ins: seq<In>)
    requires s.Shaped()
    decreases |ins|
  {
    ins == [] || (!Loads(s, ins[0]) && NoRoot(h, Next(h, s, ins[0]), ins[1..]))
  }

  lemma WipedStays(h: bool, s: Sched, i: In)
    requires s.Shaped() && Wiped(s) && !Loads(s, i)
    ensures var t := Next(h, s, i);
      Wiped(t) && t.core == CoreNext(s.core, false, ZERO, ZERO) && t.epoch == s.epoch && t.idx == s.idx
  {
    hide CoreNext;
    hide BlockOf;
    hide Loads;
  }

  /** A unit that has never accepted a root holds nothing. */
  lemma {:induction false} NoRootNoTrace(h: bool, ins: seq<In>)
    requires NoRoot(h, Reset(), ins)
    ensures Run(h, Reset(), ins) == Reset()
    decreases |ins|
  {
    hide Blank;
    if ins != [] {
      WipedStays(h, Reset(), ins[0]);
      hide Next;
      assert Next(h, Reset(), ins[0]) == Reset();
      NoRootNoTrace(h, ins[1..]);
    }
  }

  // ------------------------------------------------------------ what is left at rest

  /** The block in the result register once the core has come to rest. */
  function Remnant(s: Sched): Block
    requires Tidy(s.core)
  {
    if s.core.busy then BlockOf(Finish(s.core.s, s.core.k, s.core.round))
    else if s.start then Encrypt(s.aesKey, s.aesIn)
    else BlockOf(s.core.result)
  }

  /** The core comes to rest in `n` clocks with `out` in its result register. */
  predicate RestsIn(c: Core, out: Block, n: nat) {
    && Tidy(c)
    && if c.busy then n == 12 - c.round && out == BlockOf(Finish(c.s, c.k, c.round))
       else n == (if c.done then 1 else 0) && out == BlockOf(c.result)
  }

  lemma RestsStep(c: Core, out: Block, n: nat)
    requires RestsIn(c, out, n)
    ensures RestsIn(CoreNext(c, false, ZERO, ZERO), out, if n == 0 then 0 else n - 1)
  {
    hide Finish;
    hide BlockOf;
    hide Encrypt;
    TidyStep(c, false, ZERO, ZERO);
    if c.busy {
      DeliversStep(c, false, ZERO, ZERO, out, n - 1, false, ZERO, ZERO);
      hide CoreNext;
    }
  }

  lemma AtRest(c: Core, out: Block)
    requires RestsIn(c, out, 0)
    ensures c == RESET_CORE.(result := StateOf(out))
  {
    hide BlockOf;
    hide StateOf;
    hide Finish;
    StateRoundTrip(c.result);
  }

  lemma {:induction false} WipedRun(h: bool, s: Sched, out: Block, n: nat, ins: seq<In>)
    requires s.Shaped() && Wiped(s) && RestsIn(s.core, out, n) && NoRoot(h, s, ins) && |ins| >= n
    ensures Run(h, s, ins) == Reset().(epoch := s.epoch, idx := s.idx, core := RESET_CORE.(result := StateOf(out)))
    decreases |ins|
  {
    if ins == [] {
      AtRest(s.core, out);
    } else {
      WipedStays(h, s, ins[0]);
      RestsStep(s.core, out, n);
      hide Next;
      hide Loads;
      hide RestsIn;
      hide CoreNext;
      hide Reset;
      WipedRun(h, Next(h, s, ins[0]), out, if n == 0 then 0 else n - 1, ins[1..]);
    }
  }

  /** The clock of the zeroize itself. */
  lemma WipeRests(s: Sched)
    requires Sane(s) && Tidy(s.core)
    ensures exists n: nat :: n <= 11 && RestsIn(CoreNext(s.core, s.start, s.aesKey, s.aesIn), Remnant(s), n)
  {
    hide Finish;
    hide BlockOf;
    hide Encrypt;
    var d := CoreNext(s.core, s.start, s.aesKey, s.aesIn);
    TidyStep(s.core, s.start, s.aesKey, s.aesIn);
    if s.core.busy {
      RestsStepAny(s.core, s.start, s.aesKey, s.aesIn);
      assert RestsIn(d, Remnant(s), 11 - s.core.round);
    } else if s.start {
      DeliversStep(s.core, true, s.aesKey, s.aesIn, Remnant(s), 11, false, ZERO, ZERO);
      assert RestsIn(d, Remnant(s), 11);
    } else {
      assert RestsIn(d, Remnant(s), 0);
    }
  }

  /** A start is ignored while the core is at work. */
  lemma RestsStepAny(c: Core, start: bool, key: Block, x: Block)
    requires Tidy(c) && c.busy
    ensures RestsIn(CoreNext(c, start, key, x), BlockOf(Finish(c.s, c.k, c.round)), 11 - c.round)
  {
    hide Finish;
    hide BlockOf;
    assert CoreNext(c, start, key, x) == CoreNext(c, false, ZERO, ZERO);
    RestsStep(c, BlockOf(Finish(c.s, c.k, c.round)), 12 - c.round);
  }

  lemma WipeSettles(h: bool, s: Sched, i: In, later: seq<In>)
    requires Sane(s) && s.Shaped() && Tidy(s.core) && i.zeroize && |later| >= 11 && NoRoot(h, Next(h, s, i), later)
    ensures Run(h, Next(h, s, i), later)
            == Reset().(epoch := s.epoch, idx := s.idx, core := RESET_CORE.(result := StateOf(Remnant(s))))
  {
    hide Next;
    hide RestsIn;
    hide CoreNext;
    hide Remnant;
    hide Reset;
    hide Run;
    WipeStep(h, s, i);
    WipeRests(s);
    var n: nat :| n <= 11 && RestsIn(CoreNext(s.core, s.start, s.aesKey, s.aesIn), Remnant(s), n);
    WipedRun(h, Next(h, s, i), Remnant(s), n, later);
  }

  lemma BlankIsZero(x: Block)
    ensures StateOf(x) == BLANK <==> x == ZERO
  {
    BlockRoundTrip(x);
    assert StateOf(ZERO) == BLANK;
    assert BlockOf(BLANK) == ZERO;
    hide StateOf;
    hide BlockOf;
  }

  /**
   * Eleven clocks after a zeroize, if no root has been accepted, state and round key
   * of the core are blank too, and the result register holds the block of the
   * operation that was under way, or else of the last one: the unit is as after a
   * reset if and only if that block is zero.
   */
  lemma ZeroizeSettles(h: bool, ins: seq<In>, i: In, later: seq<In>)
    requires i.zeroize && |later| >= 11 && NoRoot(h, Next(h, Run(h, Reset(), ins), i), later)
    ensures Tidy(Run(h, Reset(), ins).core)
    ensures var s := Run(h, Reset(), ins); var t := Run(h, Next(h, s, i), later);
      && t == Reset().(epoch := s.epoch, idx := s.idx, core := RESET_CORE.(result := StateOf(Remnant(s))))
      && (Clean(t) <==> Remnant(s) == ZERO)
  {
    var s := Run(h, Reset(), ins);
    ReachedIsTraced(h, ins);
    SaneIsShaped(s);
    WipeSettles(h, s, i, later);
    BlankIsZero(Remnant(s));
    hide Run;
    hide Next;
    hide Sound;
    hide Traced;
    hide Tidy;
    hide Blank;
    hide Remnant;
    hide Sane;
  }

  /**
   * And that block is key material whenever a root was accepted and not yet wiped:
   * a base key, a working key or the block a subkey is made from. In a ready unit
   * it is the one its response subkey came from.
   */
  lemma RemnantIsKey(h: bool, ins: seq<In>)
    ensures Tidy(Run(h, Reset(), ins).core)
    ensures var s, root := Run(h, Reset(), ins), RootAfter(h, Reset(), ZERO, ins);
      && (Waits(s) ==> Remnant(s) == Promised(h, s, root))
      && (s.fsm == K_READY ==>
            CmacRtl.Dbl(Remnant(s)) == s.k1[REQUESTERS] == CmacRtl.Subkey(WorkKey(h, root, s.epoch, REQUESTERS)))
  {
    var s, root := Run(h, Reset(), ins), RootAfter(h, Reset(), ZERO, ins);
    ReachedIsTraced(h, ins);
    hide Run;
    hide RootAfter;
    SaneIsShaped(s);
    if Waits(s) {
      var n: nat :| Awaits(h, s, root, n);
      PromisedRemains(h, s, root, n);
    }
    if s.fsm == K_READY { ReadyRemains(h, s, root); }
  }

  lemma PromisedRemains(h: bool, s: Sched, root: Block, n: nat)
    requires Sane(s) && Tidy(s.core) && Waits(s) && Awaits(h, s, root, n)
    ensures Remnant(s) == Promised(h, s, root)
  {
    hide Finish;
    hide BlockOf;
    hide Encrypt;
    hide WorkKey;
    hide BaseKey;
  }

  lemma ReadyRemains(h: bool, s: Sched, root: Block)
    requires Sane(s) && s.Shaped() && Holds(h, s, root) && Traced(h, s, root) && s.fsm == K_READY
    ensures Tidy(s.core) && !s.core.busy && !s.start && Remnant(s) == BlockOf(s.core.result)
    ensures CmacRtl.Dbl(BlockOf(s.core.result)) == s.k1[REQUESTERS]
    ensures s.key[REQUESTERS] == WorkKey(h, root, s.epoch, REQUESTERS)
    ensures s.k1[REQUESTERS] == CmacRtl.Subkey(WorkKey(h, root, s.epoch, REQUESTERS))
  {
    hide CmacRtl.Dbl;
    hide CmacRtl.Subkey;
    hide WorkKey;
    hide BaseKey;
    hide BlockOf;
    hide Finish;
    hide Encrypt;
  }

  // ---------------------------------------------------------------- what is left at once

  /** A core that started in this clock holds the key itself, and one at work a round key of it. */
  lemma CoreKeepsKey(h: bool, ins: seq<In>, i: In)
    requires i.zeroize
    ensures var s, root := Run(h, Reset(), ins), RootAfter(h, Reset(), ZERO, ins); var t := Next(h, s, i);
      && (s.start ==> Waits(s) && t.core.k == StateOf(Operand(h, s, root)))
      && (Waits(s) && s.core.busy && s.core.round < 10 ==> t.core.k == RoundKey(StateOf(Operand(h, s, root)), s.core.round))
  {
    hide Next;
    hide Operand;
    hide RoundKey;
    hide StateOf;
    hide Sound;
    hide Traced;
    hide Run;
    hide RootAfter;
    hide Tidy;
    hide Sane;
    var s, root := Run(h, Reset(), ins), RootAfter(h, Reset(), ZERO, ins);
    ReachedIsTraced(h, ins);
    WipeKeepsKey(h, s, root, i);
  }

  lemma WipeKeepsKey(h: bool, s: Sched, root: Block, i: In)
    requires s.Shaped() && Sane(s) && Tidy(s.core) && Traced(h, s, root) && i.zeroize
    ensures var t := Next(h, s, i);
      && (s.start ==> Waits(s) && t.core.k == StateOf(Operand(h, s, root)))
      && (Waits(s) && s.core.busy && s.core.round < 10 ==> t.core.k == RoundKey(StateOf(Operand(h, s, root)), s.core.round))
  {
    hide Next;
    hide Operand;
    hide RoundKey;
    hide StateOf;
    hide CoreNext;
    hide Traced;
    WipeStep(h, s, i);
    TracedWorks(h, s, root);
    if Waits(s) { ScheduleStep(s.core, s.start, s.aesKey, s.aesIn); }
    StartsWithKey(s.core, s.start, s.aesKey, s.aesIn);
  }

  lemma TracedWorks(h: bool, s: Sched, root: Block)
    requires s.Shaped() && Traced(h, s, root)
    ensures Waits(s) ==>
      s.aesKey == Operand(h, s, root) && (s.core.busy ==> s.core.k == RoundKey(StateOf(s.aesKey), s.core.round - 1))
  {
    hide Shows;
    hide Operand;
    hide RoundKey;
    hide StateOf;
  }

  lemma StartsWithKey(c: Core, start: bool, key: Block, x: Block)
    requires Tidy(c)
    ensures var d := CoreNext(c, start, key, x);
      && (start && !c.busy ==> d.k == StateOf(key))
      && (c.busy && c.round < 10 ==> d.busy && d.round == c.round + 1)
  {
    hide StateOf;
    hide AddRoundKey;
    hide NextKey;
    hide MixAll;
    hide SubShift;
    hide RconOf;
  }

  /**
   * And the result register shows what the unit had just erased: behind a working
   * key's delivery that key itself, until the block for its subkey replaces it.
   */
  lemma ResultKeepsKey(h: bool, ins: seq<In>, i: In)
    requires i.zeroize
    ensures var s, root := Run(h, Reset(), ins), RootAfter(h, Reset(), ZERO, ins); var t := Next(h, s, i);
      s.fsm == K_SUBKEY && h && !s.core.done && !t.core.done ==>
        BlockOf(t.core.result) == s.key[s.idx] == WorkKey(h, root, s.epoch, s.idx)
  {
    hide Next;
    hide WorkKey;
    hide BlockOf;
    hide Sound;
    hide Traced;
    hide Run;
    hide RootAfter;
    hide Tidy;
    var s, root := Run(h, Reset(), ins), RootAfter(h, Reset(), ZERO, ins);
    ReachedIsTraced(h, ins);
    SaneIsShaped(s);
    WipeStep(h, s, i);
    hide CoreNext;
    ResultStays(s.core, s.start, s.aesKey, s.aesIn);
    hide Sane;
    if s.fsm == K_SUBKEY && h && !s.core.done { SubkeyShows(s, root); }
  }

  lemma SubkeyShows(s: Sched, root: Block)
    requires s.Shaped() && Sound(true, s, root) && Traced(true, s, root) && s.fsm == K_SUBKEY && !s.core.done
    ensures BlockOf(s.core.result) == s.key[s.idx] == WorkKey(true, root, s.epoch, s.idx)
  {
    hide Awaits;
    hide Sane;
    hide WorkKey;
    hide BlockOf;
    hide CmacRtl.Subkey;
    hide Operand;
    hide Tidy;
    hide WorksFor;
    hide BaseKey;
  }

  /**
   * A unit that has come up from any root and is then zeroized, its core idle, goes
   * on holding the block whose double is the erased response subkey.
   */
  lemma ReadyWipeKeepsSubkey(h: bool, ins: seq<In>, i: In)
    requires ins != [] && Loads(Reset(), ins[0]) && Steady(ins, ins[0].epoch) && |ins| >= (if h then 169 else 49)
    requires i.zeroize
    ensures var s := Run(h, Reset(), ins); var t := Next(h, s, i);
      && s.fsm == K_READY && !s.core.busy && !s.start && !t.core.busy && t.core.result == s.core.result
      && CmacRtl.Dbl(BlockOf(t.core.result)) == s.k1[REQUESTERS]
      && s.k1[REQUESTERS] == CmacRtl.Subkey(WorkKey(h, ins[0].root, ins[0].epoch, REQUESTERS))
  {
    var s := Run(h, Reset(), ins);
    ReachedIsTraced(h, ins);
    ComesUp(h, ins);
    SaneIsShaped(s);
    WipeStep(h, s, i);
    IdleCore(s.core, s.aesKey, s.aesIn);
    hide Run;
    hide RootAfter;
    hide Next;
    hide Tidy;
    hide Loads;
    ReadyRemains(h, s, RootAfter(h, Reset(), ZERO, ins));
    ReadyKey(h, s, ins[0].root);
    hide CoreNext;
    hide WorkKey;
    hide CmacRtl.Subkey;
    hide CmacRtl.Dbl;
    hide BlockOf;
    hide Holds;
    hide Sound;
    hide Traced;
  }

  lemma IdleCore(c: Core, key: Block, x: Block)
    ensures !c.busy ==> CoreNext(c, false, key, x) == c.(done := false)
  {
    hide StateOf;
  }

  lemma ReadyKey(h: bool, s: Sched, root: Block)
    requires s.Shaped() && Holds(h, s, root) && s.fsm == K_READY
    ensures s.k1[REQUESTERS] == CmacRtl.Subkey(WorkKey(h, root, s.epoch, REQUESTERS))
  {
    hide CmacRtl.Subkey;
    hide WorkKey;
  }

  /** From the first root on, in a steady epoch: the unit is ready, with the keys of that root and epoch. */
  lemma ComesUp(h: bool, ins: seq<In>)
    requires ins != [] && Loads(Reset(), ins[0]) && Steady(ins, ins[0].epoch) && |ins| >= if h then 169 else 49
    ensures var s := Run(h, Reset(), ins);
      s.fsm == K_READY && Holds(h, s, ins[0].root) && (h ==> s.epoch == ins[0].epoch)
      && WorkKey(h, ins[0].root, s.epoch, REQUESTERS) == WorkKey(h, ins[0].root, ins[0].epoch, REQUESTERS)
  {
    hide Awaits;
    hide Holds;
    hide Next;
    hide Steady;
    hide WorkKey;
    var i, s, l := ins[0], Reset(), if h then 168 else 48;
    ResetIsSound(h, ZERO);
    SaneStep(h, s, i);
    NotWipedFirst(ins);
    LoadStarts(h, s, ZERO, i);
    hide Sane;
    var t := Next(h, s, i);
    SaneIsShaped(t);
    assert Awaits(h, t, i.root, 11) && l == Left(h, t, i.epoch, 11);
    assert ReadyIn(h, t, i.root, i.epoch, l);
    SteadyRest(ins, i.epoch);
    hide ReadyIn;
    hide Loads;
    hide Reset;
    KeysComeUp(h, t, i.root, i.epoch, l, ins[1..]);
    assert Run(h, t, ins[1..]) == Run(h, s, ins);
    hide Run;
    BroughtUp(h, Run(h, s, ins), i.root, i.epoch);
  }

  lemma NotWipedFirst(ins: seq<In>)
    requires ins != [] && Steady(ins, ins[0].epoch)
    ensures !ins[0].zeroize
  {
  }

  lemma SteadyRest(ins: seq<In>, epoch: Word)
    requires ins != [] && Steady(ins, epoch)
    ensures Steady(ins[1..], epoch)
  {
  }

  lemma BroughtUp(h: bool, s: Sched, root: Block, epoch: Word)
    requires ReadyIn(h, s, root, epoch, 0)
    ensures s.Shaped() && s.fsm == K_READY && Holds(h, s, root) && (h ==> s.epoch == epoch)
    ensures WorkKey(h, root, s.epoch, REQUESTERS) == WorkKey(h, root, epoch, REQUESTERS)
  {
    ReadyInShaped(h, s, root, epoch, 0);
    hide Awaits;
    hide Holds;
    hide BaseKey;
    hide Encrypt;
    hide KdfBlock;
  }

  // ------------------------------------------------------------- and it is not nothing

  /** Nothing is zeroized. */
  predicate Undisturbed(ins: seq<In>) { forall k :: 0 <= k < |ins| ==> !ins[k].zeroize }

  lemma {:induction false} WaitRun(h: bool, s: Sched, root: Block, n: nat, ins: seq<In>)
    requires Sane(s) && Waits(s) && Awaits(h, s, root, n) && Undisturbed(ins) && |ins| <= n
    ensures s.Shaped()
    ensures var t := Run(h, s, ins); Sane(t) && t.fsm == s.fsm && t.baseReq == s.baseReq && Awaits(h, t, root, n - |ins|)
    decreases |ins|
  {
    hide Sane;
    hide Awaits;
    hide Next;
    SaneIsShaped(s);
    if ins != [] {
      WaitStep(h, s, root, n, ins[0]);
      SaneStep(h, s, ins[0]);
      WaitRun(h, Next(h, s, ins[0]), root, n - 1, ins[1..]);
    }
  }

  /** The unit one clock behind a root. */
  function Loaded(h: bool, load: In): (s: Sched)
    ensures s.Shaped()
  {
    Next(h, Reset(), load)
  }

  lemma LoadedWaits(h: bool, load: In)
    requires Loads(Reset(), load)
    ensures var s := Loaded(h, load); s.fsm == K_BASE_REQ && Sane(s) && Tidy(s.core) && Awaits(h, s, load.root, 11)
  {
    hide Encrypt;
    hide BlockOf;
  }

  lemma {:induction false} RunAppend(h: bool, s: Sched, ins: seq<In>, i: In)
    requires s.Shaped()
    ensures Run(h, s, ins + [i]) == Next(h, Run(h, s, ins), i)
    decreases |ins|
  {
    hide Next;
    if ins == [] {
      assert ins + [i] == [i];
      assert Run(h, Next(h, s, i), []) == Next(h, s, i);
    } else {
      assert (ins + [i])[0] == ins[0] && (ins + [i])[1..] == ins[1..] + [i];
      RunAppend(h, Next(h, s, ins[0]), ins[1..], i);
    }
  }

  /** Twelve clocks behind a root the first base key is there and the second is being made. */
  lemma SecondWaits(h: bool, load: In, wait: seq<In>)
    requires Loads(Reset(), load) && Undisturbed(wait) && |wait| == 12
    ensures var s := Run(h, Loaded(h, load), wait);
      s.fsm == K_BASE_RSP && Sane(s) && Awaits(h, s, load.root, 11)
  {
    hide Sane;
    hide Awaits;
    hide Next;
    hide Loaded;
    hide Holds;
    hide Run;
    var a, first, last := Loaded(h, load), wait[..11], wait[11];
    LoadedWaits(h, load);
    WaitRun(h, a, load.root, 11, first);
    var b := Run(h, a, first);
    assert wait == first + [last];
    RunAppend(h, a, first, last);
    NothingHeld(h, b, load.root);
    BaseReqDone(h, b, load.root, last);
    SaneStep(h, b, last);
  }

  lemma NothingHeld(h: bool, s: Sched, root: Block)
    ensures s.Shaped() && s.fsm == K_BASE_REQ ==> Holds(h, s, root)
  {
    hide KeysTo;
    hide SubkeysTo;
  }

  lemma DomainsApart(root: Block)
    ensures BaseKey(root, 0) != BaseKey(root, REQUESTERS)
  {
    DecryptInvertsEncrypt(root, REQ_DOMAIN);
    DecryptInvertsEncrypt(root, RSP_DOMAIN);
    hide Encrypt;
    hide Decrypt;
  }

  /**
   * From every root there is a zeroize that does not wipe: one that comes while the
   * first base key is made, or one that comes while the second is, leaves the unit
   * with that base key in the core's result register, and they are not both zero.
   */
  lemma SomeWipeFails(h: bool, load: In, wait: seq<In>, i: In, later: seq<In>, later2: seq<In>)
    requires Loads(Reset(), load) && Undisturbed(wait) && |wait| == 12 && i.zeroize && |later| >= 11 && |later2| >= 11
    requires NoRoot(h, Next(h, Loaded(h, load), i), later)
    requires NoRoot(h, Next(h, Run(h, Loaded(h, load), wait), i), later2)
    ensures var t := Run(h, Next(h, Loaded(h, load), i), later);
            var u := Run(h, Next(h, Run(h, Loaded(h, load), wait), i), later2);
      && !t.core.busy && t.core.result == StateOf(BaseKey(load.root, 0))
      && !u.core.busy && u.core.result == StateOf(BaseKey(load.root, REQUESTERS))
      && !(Clean(t) && Clean(u))
  {
    hide *;
    FirstWipe(h, load, i, later);
    SecondWipe(h, load, wait, i, later2);
    NotBoth(load.root, Run(h, Next(h, Loaded(h, load), i), later),
            Run(h, Next(h, Run(h, Loaded(h, load), wait), i), later2));
  }

  lemma NotBoth(root: Block, t: Sched, u: Sched)
    requires t.core.result == StateOf(BaseKey(root, 0)) && u.core.result == StateOf(BaseKey(root, REQUESTERS))
    ensures !(Clean(t) && Clean(u))
  {
    DomainsApart(root);
    hide BaseKey;
    hide StateOf;
    BlankIsZero(BaseKey(root, 0));
    BlankIsZero(BaseKey(root, REQUESTERS));
    CleanResult(t);
    CleanResult(u);
  }

  lemma FirstWipe(h: bool, load: In, i: In, later: seq<In>)
    requires Loads(Reset(), load) && i.zeroize && |later| >= 11 && NoRoot(h, Next(h, Loaded(h, load), i), later)
    ensures var t := Run(h, Next(h, Loaded(h, load), i), later);
      !t.core.busy && t.core.result == StateOf(BaseKey(load.root, 0))
  {
    hide BaseKey;
    hide StateOf;
    hide Run;
    hide Next;
    hide NoRoot;
    hide Loaded;
    hide Loads;
    hide Awaits;
    hide Tidy;
    hide Sane;
    var s := Loaded(h, load);
    LoadedWaits(h, load);
    WipeSettlesOn(h, s, load.root, 11, i, later);
  }

  lemma SecondWipe(h: bool, load: In, wait: seq<In>, i: In, later: seq<In>)
    requires Loads(Reset(), load) && Undisturbed(wait) && |wait| == 12 && i.zeroize && |later| >= 11
    requires NoRoot(h, Next(h, Run(h, Loaded(h, load), wait), i), later)
    ensures var u := Run(h, Next(h, Run(h, Loaded(h, load), wait), i), later);
      !u.core.busy && u.core.result == StateOf(BaseKey(load.root, REQUESTERS))
  {
    hide BaseKey;
    hide StateOf;
    hide Run;
    hide Next;
    hide NoRoot;
    hide Loaded;
    hide Loads;
    hide Awaits;
    hide Tidy;
    hide Sane;
    var s := Run(h, Loaded(h, load), wait);
    SecondWaits(h, load, wait);
    LoadedIsTidy(h, load, wait);
    WipeSettlesOn(h, s, load.root, 11, i, later);
  }

  lemma CleanResult(s: Sched)
    ensures Clean(s) ==> s.core.result == BLANK
  {
  }

  lemma LoadedIsTidy(h: bool, load: In, wait: seq<In>)
    ensures Tidy(Run(h, Loaded(h, load), wait).core)
  {
    var ins := [load] + wait;
    assert ins[0] == load && ins[1..] == wait;
    ReachedIsTraced(h, ins);
    assert Run(h, Reset(), ins) == Run(h, Loaded(h, load), wait);
  }

  lemma WipeSettlesOn(h: bool, s: Sched, root: Block, n: nat, i: In, later: seq<In>)
    requires Sane(s) && s.Shaped() && Tidy(s.core) && Waits(s) && Awaits(h, s, root, n) && i.zeroize
    requires |later| >= 11 && NoRoot(h, Next(h, s, i), later)
    ensures var t := Run(h, Next(h, s, i), later);
      !t.core.busy && t.core.result == StateOf(Promised(h, s, root))
  {
    hide Run;
    hide Next;
    hide NoRoot;
    hide StateOf;
    hide Promised;
    hide Sane;
    hide Awaits;
    hide Tidy;
    hide Remnant;
    WipeSettles(h, s, i, later);
    PromisedRemains(h, s, root, n);
  }
}
