/**
 * The key schedule of the fabric: base keys from the device root, and from them
 * the working keys of an epoch with their CMAC subkeys, derived one AES operation
 * at a time. Without the hierarchy the base keys are the working keys.
 */
module KeySchedule {
  import opened Words
  import opened Aes
  import opened AesRtl
  import CmacRtl

  const REQUESTERS: nat := 5

  /** Working keys are numbered: one per requester, and then the response key. */
  const NKEYS: nat := 6

  const REQ_DOMAIN: Block := Block(0x5654_4652, 0x4551_5545, 0x5354_4B31, 1)
  const RSP_DOMAIN: Block := Block(0x5654_4652, 0x4553_504F, 0x4E53_454B, 1)

  function IndexWord(i: nat): Word { if i == 0 then 0 else if i == 1 then 1 else if i == 2 then 2 else if i == 3 then 3 else 4 }

  /** What is encrypted to derive working key `i` of an epoch. */
  function KdfBlock(i: nat, epoch: Word): Block {
    Block(0x5654_4645, epoch, if i < REQUESTERS then IndexWord(i) else 0x5253_5030, 0x4B44_4631)
  }

  // ---------------------------------------------------------------- the keys themselves

  /** The base key that working key `i` comes from. */
  function BaseKey(root: Block, i: nat): Block { Encrypt(root, if i < REQUESTERS then REQ_DOMAIN else RSP_DOMAIN) }

  /** Working key `i` of a root in an epoch. */
  function WorkKey(hierarchy: bool, root: Block, epoch: Word, i: nat): Block {
    if hierarchy then Encrypt(BaseKey(root, i), KdfBlock(i, epoch)) else BaseKey(root, i)
  }

  // -------------------------------------------------------------------------- the unit

  datatype KState = K_EMPTY | K_BASE_REQ | K_BASE_RSP | K_DERIVE | K_SUBKEY | K_READY

  datatype Sched = Sched(
    fsm: KState, baseReq: Block, baseRsp: Block, key: seq<Block>, k1: seq<Block>, epoch: Word, idx: nat,
    start: bool, aesKey: Block, aesIn: Block, core: Core)
  {
    predicate Shaped() { |key| == |k1| == NKEYS && idx < NKEYS }
  }

  datatype In = In(load: bool, root: Block, epoch: Word, zeroize: bool)

  function Blank(): (r: seq<Block>)
    ensures |r| == NKEYS && forall i :: 0 <= i < NKEYS ==> r[i] == ZERO
  {
    seq(NKEYS, _ => ZERO)
  }

  function Reset(): Sched {
    Sched(K_EMPTY, ZERO, ZERO, Blank(), Blank(), 0, 0, false, ZERO, ZERO, RESET_CORE)
  }

  predicate Ready(h: bool, s: Sched, epoch: Word) { s.fsm == K_READY && (h ==> s.epoch == epoch) }

  /** The keys the unit shows: zeros while it is not ready. */
  function KeyOut(h: bool, s: Sched, epoch: Word, i: nat): Block
    requires s.Shaped() && i < NKEYS
  {
    if Ready(h, s, epoch) then s.key[i] else ZERO
  }

  function SubkeyOut(h: bool, s: Sched, epoch: Word, i: nat): Block
    requires s.Shaped() && i < NKEYS
  {
    if Ready(h, s, epoch) then s.k1[i] else ZERO
  }

  predicate Loads(s: Sched, i: In) { s.fsm == K_EMPTY && i.load && !s.core.busy && !i.zeroize }

  /** All entries but the last. */
  function ForRequesters(was: seq<Block>, x: Block): (r: seq<Block>)
    requires |was| == NKEYS
    ensures |r| == NKEYS && r[REQUESTERS] == was[REQUESTERS] && forall i :: 0 <= i < REQUESTERS ==> r[i] == x
  {
    seq(REQUESTERS, _ => x) + [was[REQUESTERS]]
  }

  /** Asks the core for `x` under `key`; `b` has the defaults applied. */
  function Ask(b: Sched, fsm: KState, key: Block, x: Block): Sched {
    b.(fsm := fsm, aesKey := key, aesIn := x, start := true)
  }

  /** What happens when the core has delivered `out`. */
  function DoneWith(h: bool, b: Sched, out: Block, epoch: Word): (n: Sched)
    requires b.Shaped()
    ensures n.Shaped() && n.core == b.core
  {
    match b.fsm
    case K_BASE_REQ => Ask(b.(baseReq := out), K_BASE_RSP, b.aesKey, RSP_DOMAIN)
    case K_BASE_RSP =>
      if h then Ask(b.(baseRsp := out, epoch := epoch, idx := 0), K_DERIVE, b.baseReq, KdfBlock(0, epoch))
      else Ask(b.(baseRsp := out, key := ForRequesters(b.key, b.baseReq)[REQUESTERS := out], epoch := epoch, idx := 0),
               K_SUBKEY, b.baseReq, ZERO)
    case K_DERIVE => Ask(b.(key := b.key[b.idx := out]), K_SUBKEY, out, ZERO)
    case K_SUBKEY =>
      if h then
        var c := b.(k1 := b.k1[b.idx := CmacRtl.Dbl(out)]);
        if b.idx == REQUESTERS then c.(fsm := K_READY)
        else Ask(c.(idx := b.idx + 1), K_DERIVE, if b.idx + 1 < REQUESTERS then b.baseReq else b.baseRsp,
                 KdfBlock(b.idx + 1, b.epoch))
      else if b.idx == 0 then Ask(b.(k1 := ForRequesters(b.k1, CmacRtl.Dbl(out)), idx := 1), K_SUBKEY, b.baseRsp, ZERO)
      else b.(k1 := b.k1[REQUESTERS := CmacRtl.Dbl(out)], fsm := K_READY)
    case _ => b
  }

  /** One clock edge. */
  function Next(h: bool, s: Sched, i: In): (n: Sched)
    requires s.Shaped()
    ensures n.Shaped() && n.core == CoreNext(s.core, s.start, s.aesKey, s.aesIn)
  {
    var b := s.(start := false, core := CoreNext(s.core, s.start, s.aesKey, s.aesIn));
    if i.zeroize then
      b.(fsm := K_EMPTY, baseReq := ZERO, baseRsp := ZERO, aesKey := ZERO, aesIn := ZERO, key := Blank(), k1 := Blank())
    else if Loads(s, i) then Ask(b, K_BASE_REQ, i.root, REQ_DOMAIN)
    else if s.fsm == K_READY && h && i.epoch != s.epoch && !s.core.busy then
      Ask(b.(key := Blank(), k1 := Blank(), epoch := i.epoch, idx := 0), K_DERIVE, s.baseReq, KdfBlock(0, i.epoch))
    else if s.core.done then DoneWith(h, b, BlockOf(s.core.result), i.epoch)
    else b
  }

  // ------------------------------------------------------------------- what it keeps

  predicate CoreWill(s: Sched, out: Block, n: nat) { Delivers(s.core, s.start, s.aesKey, s.aesIn, out, n) }

  /** The first `n` working keys of the epoch being derived are in place. */
  predicate KeysTo(h: bool, s: Sched, root: Block, n: nat)
    requires s.Shaped() && n <= NKEYS
  {
    forall i :: 0 <= i < n ==> s.key[i] == WorkKey(h, root, s.epoch, i)
  }

  /** And the first `n` subkeys. */
  predicate SubkeysTo(h: bool, s: Sched, root: Block, n: nat)
    requires s.Shaped() && n <= NKEYS
  {
    forall i :: 0 <= i < n ==> s.k1[i] == CmacRtl.Subkey(WorkKey(h, root, s.epoch, i))
  }

  predicate BasesAre(s: Sched, root: Block) { s.baseReq == BaseKey(root, 0) && s.baseRsp == BaseKey(root, REQUESTERS) }

  /** How many keys and subkeys are in place while the unit waits for the next subkey. */
  function KeysDone(h: bool, s: Sched): (n: nat)
    requires s.Shaped()
    ensures n <= NKEYS
  {
    if h then s.idx + 1 else NKEYS
  }

  function SubkeysDone(h: bool, s: Sched): (n: nat)
    requires s.Shaped()
    ensures n <= NKEYS
  {
    if h then s.idx else if s.idx == 0 then 0 else REQUESTERS
  }

  /** The operation the unit waits for ends in `n` clocks with what the state needs. */
  predicate Awaits(h: bool, s: Sched, root: Block, n: nat)
    requires s.Shaped()
  {
    match s.fsm
    case K_EMPTY => true
    case K_BASE_REQ => s.aesKey == root && CoreWill(s, BaseKey(root, 0), n)
    case K_BASE_RSP => CoreWill(s, BaseKey(root, REQUESTERS), n)
    case K_DERIVE => CoreWill(s, WorkKey(h, root, s.epoch, s.idx), n)
    case K_SUBKEY => CoreWill(s, Encrypt(WorkKey(h, root, s.epoch, if h || s.idx == 0 then s.idx else REQUESTERS), ZERO), n)
    case K_READY => true
  }

  /** What is in place so far. */
  predicate Holds(h: bool, s: Sched, root: Block)
    requires s.Shaped()
  {
    match s.fsm
    case K_EMPTY => s.baseReq == s.baseRsp == ZERO && s.key == Blank() && s.k1 == Blank()
    case K_BASE_REQ => true
    case K_BASE_RSP => s.baseReq == BaseKey(root, 0)
    case K_DERIVE => h && BasesAre(s, root) && KeysTo(h, s, root, s.idx) && SubkeysTo(h, s, root, s.idx)
    case K_SUBKEY =>
      && BasesAre(s, root) && (h || s.idx <= 1)
      && KeysTo(h, s, root, KeysDone(h, s)) && SubkeysTo(h, s, root, SubkeysDone(h, s))
    case K_READY => BasesAre(s, root) && KeysTo(h, s, root, NKEYS) && SubkeysTo(h, s, root, NKEYS)
  }

  /** The core is in range, and a waiting unit has an operation under way. */
  predicate Sane(s: Sched) {
    && s.Shaped() && (s.core.busy ==> 1 <= s.core.round <= 10 && !s.core.done)
    && (s.start ==> !s.core.busy && !s.core.done)
    && (s.fsm == K_READY ==> !s.start && !s.core.busy)
    && (s.fsm == K_EMPTY ==> !s.start)
  }

  ghost predicate Sound(h: bool, s: Sched, root: Block) {
    Sane(s) && Holds(h, s, root) && exists n: nat :: Awaits(h, s, root, n)
  }

  /** The root whose keys the unit makes: the last one it accepted. */
  function RootNext(s: Sched, root: Block, i: In): Block { if Loads(s, i) then i.root else root }

  lemma Waiting(h: bool, s: Sched, root: Block, n: nat)
    requires Sane(s) && Awaits(h, s, root, n) && s.fsm != K_EMPTY && s.fsm != K_READY
    ensures s.core.done == (n == 0)
  {
    hide Encrypt;
    hide Finish;
    hide BlockOf;
    hide WorkKey;
    hide BaseKey;
  }

  /** While the core works, nothing else moves. */
  lemma WaitStep(h: bool, s: Sched, root: Block, n: nat, i: In)
    requires Sane(s) && Awaits(h, s, root, n) && s.fsm != K_EMPTY && s.fsm != K_READY && n > 0 && !i.zeroize
    ensures var t := Next(h, s, i); t == s.(start := false, core := t.core) && Awaits(h, t, root, n - 1)
  {
    hide Encrypt;
    hide Finish;
    hide BlockOf;
    hide WorkKey;
    hide BaseKey;
    hide CoreNext;
    Waiting(h, s, root, n);
    var out := Promised(h, s, root);
    DeliversStep(s.core, s.start, s.aesKey, s.aesIn, out, n, false, s.aesKey, s.aesIn);
  }

  /** What the unit waits for. */
  function Promised(h: bool, s: Sched, root: Block): Block {
    if s.fsm == K_BASE_REQ then BaseKey(root, 0)
    else if s.fsm == K_BASE_RSP then BaseKey(root, REQUESTERS)
    else if s.fsm == K_DERIVE then WorkKey(h, root, s.epoch, s.idx)
    else Encrypt(WorkKey(h, root, s.epoch, if h || s.idx == 0 then s.idx else REQUESTERS), ZERO)
  }

  lemma BaseReqDone(h: bool, s: Sched, root: Block, i: In)
    requires Sane(s) && s.fsm == K_BASE_REQ && Awaits(h, s, root, 0) && !i.zeroize
    ensures var t := Next(h, s, i); Holds(h, t, root) && Awaits(h, t, root, 11) && t.fsm == K_BASE_RSP
  {
    hide Encrypt;
    hide Finish;
    hide BlockOf;
  }

  lemma BaseRspDone(h: bool, s: Sched, root: Block, i: In)
    requires Sane(s) && s.fsm == K_BASE_RSP && Holds(h, s, root) && Awaits(h, s, root, 0) && !i.zeroize
    ensures var t := Next(h, s, i);
      && Holds(h, t, root) && Awaits(h, t, root, 11) && t.epoch == i.epoch && t.idx == 0
      && t.fsm == if h then K_DERIVE else K_SUBKEY
  {
    hide Encrypt;
    hide Finish;
    hide BlockOf;
    hide CmacRtl.Dbl;
    hide KdfBlock;
  }

  lemma DeriveDone(h: bool, s: Sched, root: Block, i: In)
    requires Sane(s) && s.fsm == K_DERIVE && Holds(h, s, root) && Awaits(h, s, root, 0) && !i.zeroize
    ensures var t := Next(h, s, i);
      Holds(h, t, root) && Awaits(h, t, root, 11) && t.fsm == K_SUBKEY && t.epoch == s.epoch && t.idx == s.idx
  {
    hide Encrypt;
    hide Finish;
    hide BlockOf;
    hide CmacRtl.Dbl;
    hide KdfBlock;
    hide WorkKey;
    hide BaseKey;
  }

  lemma EpochSubkeyDone(s: Sched, root: Block, i: In)
    requires Sane(s) && s.fsm == K_SUBKEY && Holds(true, s, root) && Awaits(true, s, root, 0) && !i.zeroize
    ensures var t := Next(true, s, i);
      && Holds(true, t, root) && Awaits(true, t, root, 11) && t.epoch == s.epoch
      && (if s.idx == REQUESTERS then t.fsm == K_READY else t.idx == s.idx + 1 && t.fsm == K_DERIVE)
  {
    hide Encrypt;
    hide Finish;
    hide BlockOf;
    hide CmacRtl.Dbl;
    hide KdfBlock;
  }

  lemma BaseSubkeyDone(s: Sched, root: Block, i: In)
    requires Sane(s) && s.fsm == K_SUBKEY && Holds(false, s, root) && Awaits(false, s, root, 0) && !i.zeroize
    ensures var t := Next(false, s, i);
      && Holds(false, t, root) && Awaits(false, t, root, 11) && t.epoch == s.epoch
      && (if s.idx == 1 then t.fsm == K_READY else t.idx == s.idx + 1 && t.fsm == K_SUBKEY)
  {
    hide Encrypt;
    hide Finish;
    hide BlockOf;
    hide CmacRtl.Dbl;
    hide KdfBlock;
  }

  lemma SubkeyDone(h: bool, s: Sched, root: Block, i: In)
    requires Sane(s) && s.fsm == K_SUBKEY && Holds(h, s, root) && Awaits(h, s, root, 0) && !i.zeroize
    ensures var t, last := Next(h, s, i), if h then REQUESTERS else 1;
      && Holds(h, t, root) && Awaits(h, t, root, 11) && t.epoch == s.epoch
      && (if s.idx == last then t.fsm == K_READY else t.idx == s.idx + 1 && t.fsm == if h then K_DERIVE else K_SUBKEY)
  {
    hide Next;
    hide Holds;
    hide Awaits;
    hide Sane;
    SaneIsShaped(s);
    if h { EpochSubkeyDone(s, root, i); } else { BaseSubkeyDone(s, root, i); }
  }

  lemma SaneStep(h: bool, s: Sched, i: In)
    requires Sane(s)
    ensures Sane(Next(h, s, i))
  {
    hide StateOf;
    hide BlockOf;
    hide AddRoundKey;
    hide NextKey;
    hide MixAll;
    hide SubShift;
    hide RconOf;
    hide CmacRtl.Dbl;
    hide KdfBlock;
  }

  /**
   * Zeroizing wipes the unit's own key registers in one clock. The registers of the
   * core are not among them: `KeyWipe` says what stays there, and when nothing does.
   */
  lemma ZeroizeWipes(h: bool, s: Sched, i: In, epoch: Word)
    requires s.Shaped() && i.zeroize
    ensures var t := Next(h, s, i);
      && t.fsm == K_EMPTY && !Ready(h, t, epoch) && t.baseReq == t.baseRsp == t.aesKey == t.aesIn == ZERO
      && t.key == t.k1 == Blank() && t.core == CoreNext(s.core, s.start, s.aesKey, s.aesIn)
  {
    hide CoreNext;
  }

  /** A root accepted, or a new epoch noticed: the first operation is under way. */
  lemma LoadStarts(h: bool, s: Sched, root: Block, i: In)
    requires Sane(s) && Holds(h, s, root) && !i.zeroize
    requires Loads(s, i) || (s.fsm == K_READY && h && i.epoch != s.epoch)
    ensures var t := Next(h, s, i);
      && Holds(h, t, RootNext(s, root, i)) && Awaits(h, t, RootNext(s, root, i), 11)
      && (if Loads(s, i) then t.fsm == K_BASE_REQ else t.fsm == K_DERIVE && t.epoch == i.epoch && t.idx == 0)
  {
    hide Encrypt;
    hide Finish;
    hide BlockOf;
    hide CmacRtl.Dbl;
    hide KdfBlock;
  }

  /** Nothing to do: an empty unit without a root, or a ready one in its epoch. */
  lemma RestStep(h: bool, s: Sched, root: Block, i: In)
    requires Sane(s) && Holds(h, s, root) && !i.zeroize && !Loads(s, i)
    requires s.fsm == K_EMPTY || (s.fsm == K_READY && (h ==> i.epoch == s.epoch))
    ensures var t := Next(h, s, i); t == s.(start := false, core := t.core)
  {
    hide CoreNext;
  }

  lemma HoldsStays(h: bool, s: Sched, t: Sched, root: Block)
    requires s.Shaped() && Holds(h, s, root) && t == s.(start := false, core := t.core)
    ensures Holds(h, t, root)
  {
    hide Encrypt;
    hide CmacRtl.Dbl;
    hide WorkKey;
    hide BaseKey;
    hide KdfBlock;
  }

  predicate Waits(s: Sched) { s.fsm != K_EMPTY && s.fsm != K_READY }

  lemma DoneStep(h: bool, s: Sched, root: Block, i: In)
    requires Sane(s) && Waits(s) && Holds(h, s, root) && Awaits(h, s, root, 0) && !i.zeroize
    ensures var t := Next(h, s, i); Holds(h, t, root) && Awaits(h, t, root, 11)
  {
    hide Next;
    hide Holds;
    hide Awaits;
    match s.fsm
    case K_BASE_REQ => BaseReqDone(h, s, root, i);
    case K_BASE_RSP => BaseRspDone(h, s, root, i);
    case K_DERIVE => DeriveDone(h, s, root, i);
    case K_SUBKEY => SubkeyDone(h, s, root, i);
  }

  lemma SoundStep(h: bool, s: Sched, root: Block, i: In)
    requires Sound(h, s, root)
    ensures Sound(h, Next(h, s, i), RootNext(s, root, i))
  {
    hide Sane;
    hide Holds;
    hide Awaits;
    hide Next;
    SaneIsShaped(s);
    SaneStep(h, s, i);
    var t, r := Next(h, s, i), RootNext(s, root, i);
    if i.zeroize {
      ZeroizeIsSound(h, s, root, i);
    } else if Loads(s, i) || (s.fsm == K_READY && h && i.epoch != s.epoch) {
      LoadStarts(h, s, root, i);
    } else if !Waits(s) {
      RestStep(h, s, root, i);
      HoldsStays(h, s, t, root);
      NothingAwaited(h, t, root);
    } else {
      var n: nat :| Awaits(h, s, root, n);
      if n == 0 {
        DoneStep(h, s, root, i);
      } else {
        WaitStep(h, s, root, n, i);
        HoldsStays(h, s, t, root);
      }
    }
  }

  lemma NothingAwaited(h: bool, s: Sched, root: Block)
    requires s.Shaped() && !Waits(s)
    ensures Awaits(h, s, root, 0)
  {
    hide Encrypt;
    hide CoreWill;
  }

  lemma SaneIsShaped(s: Sched)
    requires Sane(s)
    ensures s.Shaped()
  {
  }

  lemma ZeroizeIsSound(h: bool, s: Sched, root: Block, i: In)
    requires s.Shaped() && i.zeroize
    ensures Holds(h, Next(h, s, i), root) && Awaits(h, Next(h, s, i), root, 0)
  {
    hide CoreNext;
  }

  // ------------------------------------------------------------------------ whole runs

  function Run(h: bool, s: Sched, ins: seq<In>): (t: Sched)
    requires s.Shaped()
    ensures t.Shaped()
    decreases |ins|
  {
    if ins == [] then s else Run(h, Next(h, s, ins[0]), ins[1..])
  }

  /** The last root accepted in a run that starts with the keys of `root`. */
  function RootAfter(h: bool, s: Sched, root: Block, ins: seq<In>): Block
    requires s.Shaped()
    decreases |ins|
  {
    if ins == [] then root else RootAfter(h, Next(h, s, ins[0]), RootNext(s, root, ins[0]), ins[1..])
  }

  lemma ResetIsSound(h: bool, root: Block)
    ensures Sound(h, Reset(), root)
  {
    assert Awaits(h, Reset(), root, 0);
  }

  lemma {:induction false} EveryRunIsSound(h: bool, s: Sched, root: Block, ins: seq<In>)
    requires Sound(h, s, root)
    ensures Sound(h, Run(h, s, ins), RootAfter(h, s, root, ins))
    decreases |ins|
  {
    hide Sound;
    hide Next;
    hide RootNext;
    SoundIsShaped(h, s, root);
    if ins != [] {
      SoundStep(h, s, root, ins[0]);
      EveryRunIsSound(h, Next(h, s, ins[0]), RootNext(s, root, ins[0]), ins[1..]);
    }
  }

  lemma SoundIsShaped(h: bool, s: Sched, root: Block)
    requires Sound(h, s, root)
    ensures s.Shaped()
  {
  }

  /**
   * Main result. Under any interleaving of loads, epoch changes and zeroize, a
   * ready unit shows exactly the working keys and subkeys of the last root
   * accepted, for the epoch that is active now; any other shows zeros.
   */
  lemma OutputsAreDerived(h: bool, ins: seq<In>, epoch: Word, i: nat)
    requires i < NKEYS
    ensures var s, root := Run(h, Reset(), ins), RootAfter(h, Reset(), ZERO, ins);
      if Ready(h, s, epoch) then
        KeyOut(h, s, epoch, i) == WorkKey(h, root, epoch, i) && SubkeyOut(h, s, epoch, i) == CmacRtl.Subkey(WorkKey(h, root, epoch, i))
      else KeyOut(h, s, epoch, i) == ZERO && SubkeyOut(h, s, epoch, i) == ZERO
  {
    hide Run;
    hide RootAfter;
    hide Reset;
    hide Encrypt;
    hide CmacRtl.Dbl;
    hide KdfBlock;
    hide CmacRtl.Subkey;
    ResetIsSound(h, ZERO);
    EveryRunIsSound(h, Reset(), ZERO, ins);
  }

  // ------------------------------------------------------------------------ progress

  /** How many clocks a unit needs until it is ready, with the epoch steady and the core `n` clocks from its result. */
  function Left(h: bool, s: Sched, epoch: Word, n: nat): nat
    requires s.Shaped()
  {
    LeftFor(h, s.fsm, s.idx, s.epoch != epoch, n)
  }

  function LeftFor(h: bool, fsm: KState, idx: nat, stale: bool, n: nat): nat
    requires idx < NKEYS
  {
    var derive := if h then 144 else 24;
    var again := if h && stale then 145 else 0;
    match fsm
    case K_EMPTY => 0
    case K_BASE_REQ => n + 1 + 12 + derive
    case K_BASE_RSP => n + 1 + derive
    case K_DERIVE => n + 1 + 12 + 24 * (REQUESTERS - idx) + again
    case K_SUBKEY => n + 1 + (if h then 24 * (REQUESTERS - idx) else if idx == 0 then 12 else 0) + again
    case K_READY => again
  }

  /** The order of the operations, without what they compute. */
  predicate Follows(h: bool, fsm: KState, idx: nat, stale: bool, next: KState, idx2: nat, stale2: bool) {
    match fsm
    case K_EMPTY => false
    case K_BASE_REQ => next == K_BASE_RSP
    case K_BASE_RSP => next == (if h then K_DERIVE else K_SUBKEY) && idx2 == 0 && !stale2
    case K_DERIVE => h && next == K_SUBKEY && idx2 == idx && stale2 == stale
    case K_SUBKEY =>
      && stale2 == stale && (h || idx <= 1)
      && if idx == (if h then REQUESTERS else 1) then next == K_READY
         else idx2 == idx + 1 && next == if h then K_DERIVE else K_SUBKEY
    case K_READY => false
  }

  lemma LeftFollows(h: bool, fsm: KState, idx: nat, stale: bool, next: KState, idx2: nat, stale2: bool)
    requires idx < NKEYS && idx2 < NKEYS && Follows(h, fsm, idx, stale, next, idx2, stale2)
    ensures LeftFor(h, next, idx2, stale2, 11) == LeftFor(h, fsm, idx, stale, 0) - 1
  {
  }

  /** The unit has a root, and will be ready in `l` clocks if the epoch stays. */
  ghost predicate ReadyIn(h: bool, s: Sched, root: Block, epoch: Word, l: nat) {
    Sane(s) && Holds(h, s, root) && s.fsm != K_EMPTY && exists n: nat :: Awaits(h, s, root, n) && l == Left(h, s, epoch, n)
  }

  lemma LeftWhenDone(h: bool, s: Sched, root: Block, i: In)
    requires Sane(s) && Waits(s) && Holds(h, s, root) && Awaits(h, s, root, 0) && !i.zeroize
    ensures var t := Next(h, s, i);
      && Holds(h, t, root) && Awaits(h, t, root, 11) && t.fsm != K_EMPTY
      && Left(h, t, i.epoch, 11) == Left(h, s, i.epoch, 0) - 1
  {
    hide Awaits;
    hide Next;
    hide Holds;
    hide Sane;
    hide LeftFor;
    SaneIsShaped(s);
    IndexInRange(h, s, root);
    match s.fsm {
      case K_BASE_REQ => BaseReqDone(h, s, root, i);
      case K_BASE_RSP => BaseRspDone(h, s, root, i);
      case K_DERIVE => DeriveDone(h, s, root, i);
      case K_SUBKEY => SubkeyDone(h, s, root, i);
    }
    var t := Next(h, s, i);
    LeftFollows(h, s.fsm, s.idx, s.epoch != i.epoch, t.fsm, t.idx, t.epoch != i.epoch);
  }

  lemma LeftStep(h: bool, s: Sched, root: Block, l: nat, i: In)
    requires ReadyIn(h, s, root, i.epoch, l) && !i.zeroize
    ensures ReadyIn(h, Next(h, s, i), root, i.epoch, if l == 0 then 0 else l - 1)
  {
    hide Sane;
    hide Awaits;
    hide Next;
    hide Loads;
    hide Holds;
    SaneIsShaped(s);
    SaneStep(h, s, i);
    LoadedNotEmpty(s, i);
    var t := Next(h, s, i);
    SaneIsShaped(t);
    var n: nat :| Awaits(h, s, root, n) && l == Left(h, s, i.epoch, n);
    var m: nat := 11;
    if s.fsm == K_READY && h && i.epoch != s.epoch {
      LoadStarts(h, s, root, i);
    } else if s.fsm == K_READY {
      RestStep(h, s, root, i);
      HoldsStays(h, s, t, root);
      m := 0;
      NothingAwaited(h, t, root);
    } else if n > 0 {
      WaitStep(h, s, root, n, i);
      HoldsStays(h, s, t, root);
      m := n - 1;
    } else {
      LeftWhenDone(h, s, root, i);
    }
    assert Awaits(h, t, root, m) && Left(h, t, i.epoch, m) == if l == 0 then 0 else l - 1;
  }

  /** The epoch stays, and nothing is zeroized. */
  predicate Steady(ins: seq<In>, epoch: Word) { forall k :: 0 <= k < |ins| ==> ins[k].epoch == epoch && !ins[k].zeroize }

  lemma {:induction false} KeysComeUp(h: bool, s: Sched, root: Block, epoch: Word, l: nat, ins: seq<In>)
    requires ReadyIn(h, s, root, epoch, l) && Steady(ins, epoch)
    ensures s.Shaped() && ReadyIn(h, Run(h, s, ins), root, epoch, if |ins| >= l then 0 else l - |ins|)
    decreases |ins|
  {
    hide ReadyIn;
    hide Next;
    ReadyInShaped(h, s, root, epoch, l);
    if ins != [] {
      LeftStep(h, s, root, l, ins[0]);
      KeysComeUp(h, Next(h, s, ins[0]), root, epoch, if l == 0 then 0 else l - 1, ins[1..]);
    }
  }

  lemma ReadyInShaped(h: bool, s: Sched, root: Block, epoch: Word, l: nat)
    requires ReadyIn(h, s, root, epoch, l)
    ensures s.Shaped() && (l == 0 <==> Ready(h, s, epoch))
  {
    hide Holds;
    hide Awaits;
  }

  /**
   * An empty unit that accepts a root is ready 169 clocks later with the hierarchy
   * and 49 without it, not before, and for as long as the epoch stays.
   */
  lemma RootBringsKeys(h: bool, s: Sched, root: Block, ins: seq<In>)
    requires Sound(h, s, root) && ins != [] && Loads(s, ins[0]) && Steady(ins, ins[0].epoch)
    ensures s.Shaped() && Ready(h, Run(h, s, ins), ins[0].epoch) == (|ins| >= if h then 169 else 49)
  {
    hide Sane;
    hide Awaits;
    hide Holds;
    hide Next;
    var i := ins[0];
    SaneIsShaped(s);
    SaneStep(h, s, i);
    LoadStarts(h, s, root, i);
    var t, l := Next(h, s, i), if h then 168 else 48;
    SaneIsShaped(t);
    assert Awaits(h, t, i.root, 11) && l == Left(h, t, i.epoch, 11);
    assert ReadyIn(h, t, i.root, i.epoch, l);
    hide ReadyIn;
    KeysComeUp(h, t, i.root, i.epoch, l, ins[1..]);
    ReadyInShaped(h, Run(h, s, ins), i.root, i.epoch, if |ins| - 1 >= l then 0 else l - (|ins| - 1));
  }

  lemma LoadedNotEmpty(s: Sched, i: In)
    ensures s.fsm != K_EMPTY ==> !Loads(s, i)
  {
  }

  lemma IndexInRange(h: bool, s: Sched, root: Block)
    requires s.Shaped() && Holds(h, s, root)
    ensures (s.fsm == K_DERIVE ==> h) && (s.fsm == K_SUBKEY && !h ==> s.idx <= 1)
  {
    hide Encrypt;
    hide KeysTo;
    hide SubkeysTo;
    hide BasesAre;
  }

  // ------------------------------------------------------------------ the registers

  class KeyUnit {
    const hierarchy: bool
    const key: array<Block>
    const k1: array<Block>
    var fsm: KState
    var baseReq: Block
    var baseRsp: Block
    var epoch: Word
    var idx: nat
    var start: bool
    var aesKey: Block
    var aesIn: Block
    var core: Core

    ghost predicate Valid() reads this { key != k1 && key.Length == k1.Length == NKEYS && idx < NKEYS }

    function State(): (s: Sched)
      requires Valid()
      reads this, key, k1
      ensures s.Shaped()
    {
      Sched(fsm, baseReq, baseRsp, key[..], k1[..], epoch, idx, start, aesKey, aesIn, core)
    }

    constructor (hierarchy: bool)
      ensures Valid() && fresh(key) && fresh(k1) && this.hierarchy == hierarchy && State() == Reset()
    {
      this.hierarchy := hierarchy;
      key := new Block[NKEYS](_ => ZERO);
      k1 := new Block[NKEYS](_ => ZERO);
      fsm, baseReq, baseRsp, epoch, idx, start := K_EMPTY, ZERO, ZERO, 0, 0, false;
      aesKey, aesIn, core := ZERO, ZERO, RESET_CORE;
      new;
      assert key[..] == Blank() && k1[..] == Blank();
    }

    method WipeKeys()
      requires Valid()
      modifies key, k1
      ensures key[..] == Blank() && k1[..] == Blank()
    {
      for k := 0 to NKEYS
        invariant forall j :: 0 <= j < k ==> key[j] == ZERO && k1[j] == ZERO
      {
        key[k], k1[k] := ZERO, ZERO;
      }
      assert key[..] == Blank() && k1[..] == Blank();
    }

    /** Sets the entry of every requester. */
    method FillRequesters(a: array<Block>, x: Block)
      requires Valid() && (a == key || a == k1)
      modifies a
      ensures a[..] == ForRequesters(old(a[..]), x)
    {
      for r := 0 to REQUESTERS
        invariant a[REQUESTERS] == old(a[REQUESTERS])
        invariant forall j :: 0 <= j < r ==> a[j] == x
      {
        a[r] := x;
      }
      assert a[..] == ForRequesters(old(a[..]), x);
    }

    method AskFor(next: KState, k: Block, x: Block)
      requires Valid()
      modifies this
      ensures Valid() && State() == Ask(old(State()), next, k, x)
    {
      fsm, aesKey, aesIn, start := next, k, x, true;
    }

    /** The core is done. */
    method Take(out: Block, activeEpoch: Word)
      requires Valid()
      modifies this, key, k1
      ensures Valid() && State() == DoneWith(hierarchy, old(State()), out, activeEpoch)
    {
      hide CmacRtl.Dbl;
      hide KdfBlock;
      match fsm {
        case K_BASE_REQ =>
          baseReq := out;
          AskFor(K_BASE_RSP, aesKey, RSP_DOMAIN);
        case K_BASE_RSP =>
          baseRsp, epoch, idx := out, activeEpoch, 0;
          if hierarchy {
            AskFor(K_DERIVE, baseReq, KdfBlock(0, activeEpoch));
          } else {
            FillRequesters(key, baseReq);
            key[REQUESTERS] := out;
            assert key[..] == ForRequesters(old(key[..]), baseReq)[REQUESTERS := out];
            AskFor(K_SUBKEY, baseReq, ZERO);
          }
        case K_DERIVE =>
          key[idx] := out;
          AskFor(K_SUBKEY, out, ZERO);
        case K_SUBKEY => TakeSubkey(out);
        case _ =>
      }
    }

    method TakeSubkey(out: Block)
      requires Valid() && fsm == K_SUBKEY
      modifies this, k1
      ensures Valid() && State() == DoneWith(hierarchy, old(State()), out, 0)
    {
      hide CmacRtl.Dbl;
      hide KdfBlock;
      if hierarchy {
        k1[idx] := CmacRtl.Dbl(out);
        if idx == REQUESTERS {
          fsm := K_READY;
        } else {
          idx := idx + 1;
          AskFor(K_DERIVE, if idx < REQUESTERS then baseReq else baseRsp, KdfBlock(idx, epoch));
        }
      } else if idx == 0 {
        FillRequesters(k1, CmacRtl.Dbl(out));
        idx := 1;
        AskFor(K_SUBKEY, baseRsp, ZERO);
      } else {
        k1[REQUESTERS] := CmacRtl.Dbl(out);
        fsm := K_READY;
      }
    }

    method Zeroize()
      requires Valid()
      modifies this, key, k1
      ensures Valid() && State() == old(State()).(fsm := K_EMPTY, baseReq := ZERO, baseRsp := ZERO, aesKey := ZERO,
        aesIn := ZERO, key := Blank(), k1 := Blank())
    {
      fsm, baseReq, baseRsp, aesKey, aesIn := K_EMPTY, ZERO, ZERO, ZERO, ZERO;
      WipeKeys();
    }

    /** Drops the keys and starts over for a new epoch. */
    method BeginDerive(newEpoch: Word)
      requires Valid()
      modifies this, key, k1
      ensures Valid() && State() == Ask(old(State()).(key := Blank(), k1 := Blank(), epoch := newEpoch, idx := 0),
        K_DERIVE, old(baseReq), KdfBlock(0, newEpoch))
    {
      hide KdfBlock;
      WipeKeys();
      epoch, idx := newEpoch, 0;
      AskFor(K_DERIVE, baseReq, KdfBlock(0, newEpoch));
    }

    /** One clock edge. */
    method Step(i: In)
      requires Valid()
      modifies this, key, k1
      ensures Valid() && State() == Next(hierarchy, old(State()), i)
    {
      hide CoreNext;
      hide DoneWith;
      hide KdfBlock;
      hide BlockOf;
      hide Blank;
      hide Ask;
      var was := core;
      core := CoreNext(was, start, aesKey, aesIn);
      start := false;
      if i.zeroize {
        Zeroize();
      } else if fsm == K_EMPTY && i.load && !was.busy {
        AskFor(K_BASE_REQ, i.root, REQ_DOMAIN);
      } else if fsm == K_READY && hierarchy && i.epoch != epoch && !was.busy {
        BeginDerive(i.epoch);
      } else if was.done {
        Take(BlockOf(was.result), i.epoch);
      }
    }
  }

  // ----------------------------------------------------------------------- the software

  /** The keys as the software fabric keeps them. */
  class FabricKeys {
    var rootKey: Block
    var reqKey: Block
    var rspKey: Block
    var baseRspKey: Block
    const epochReqKey: array<Block>
    var epoch: Word
    var hierarchy: bool

    ghost predicate Valid() reads this { epochReqKey.Length == REQUESTERS }

    /** The keys in use are those of the root, the epoch and the mode. */
    ghost predicate Derived()
      requires Valid()
      reads this, epochReqKey
    {
      && reqKey == BaseKey(rootKey, 0) && baseRspKey == BaseKey(rootKey, REQUESTERS)
      && (forall r :: 0 <= r < REQUESTERS ==> RequestKey(r) == WorkKey(hierarchy, rootKey, epoch, r))
      && rspKey == WorkKey(hierarchy, rootKey, epoch, REQUESTERS)
    }

    function RequestKey(r: nat): Block
      requires Valid()
      reads this, epochReqKey
    {
      if hierarchy && r < REQUESTERS then epochReqKey[r] else reqKey
    }

    constructor (root: Block)
      ensures Valid() && Derived() && fresh(epochReqKey) && rootKey == root && epoch == 1 && !hierarchy
    {
      hide BaseKey;
      hide WorkKey;
      rootKey, reqKey, rspKey, baseRspKey, epoch, hierarchy := root, ZERO, ZERO, ZERO, 1, false;
      epochReqKey := new Block[REQUESTERS](_ => ZERO);
      new;
      DeriveDomainKeys();
    }

    method DeriveDomainKeys()
      requires Valid()
      modifies this, epochReqKey
      ensures Valid() && Derived() && rootKey == old(rootKey) && epoch == old(epoch) && hierarchy == old(hierarchy)
    {
      hide Encrypt;
      reqKey := Encrypt(rootKey, REQ_DOMAIN);
      rspKey := Encrypt(rootKey, RSP_DOMAIN);
      baseRspKey := rspKey;
      if hierarchy { DeriveEpochKeys(); }
    }

    method DeriveEpochKeys()
      requires Valid() && hierarchy && reqKey == BaseKey(rootKey, 0) && baseRspKey == BaseKey(rootKey, REQUESTERS)
      modifies this`rspKey, epochReqKey
      ensures Derived()
    {
      hide Encrypt;
      hide KdfBlock;
      for r := 0 to REQUESTERS
        invariant forall j :: 0 <= j < r ==> epochReqKey[j] == WorkKey(true, rootKey, epoch, j)
      {
        epochReqKey[r] := Encrypt(reqKey, KdfBlock(r, epoch));
      }
      rspKey := Encrypt(baseRspKey, KdfBlock(REQUESTERS, epoch));
    }

    method SetEpochKeyHierarchy(enabled: bool)
      requires Valid()
      modifies this, epochReqKey
      ensures Valid() && Derived() && hierarchy == enabled && rootKey == old(rootKey) && epoch == old(epoch)
    {
      hierarchy := enabled;
      DeriveDomainKeys();
    }

    method AdvanceEpoch()
      requires Valid() && Derived()
      modifies this, epochReqKey
      ensures Valid() && Derived() && epoch == old(epoch) + 1 && rootKey == old(rootKey) && hierarchy == old(hierarchy)
    {
      hide Encrypt;
      epoch := epoch + 1;
      if hierarchy { DeriveEpochKeys(); }
    }
  }
}
