/**
 * The hardware engine on its two real ciphers: the CMAC unit and the AES core. They
 * keep the time the engine relies on, so its guarantees hold without assuming it.
 */
module MitCores {
  import opened Words
  import Aes
  import A = AesRtl
  import C = CmacRtl
  import opened MitTree
  import Spec = MitSpec
  import opened MitRtl
  import Quiet = MitQuiet

  /** The key registers, with the subkeys kept beside the keys of the two CMACs. */
  datatype Keys = Keys(enc: Block, mac: Block, tree: Block, k1Mac: Block, k1Tree: Block) {
    function Of(key: Key): Block { if key == TreeKey then tree else mac }
    function SubkeyOf(key: Key): Block { if key == TreeKey then k1Tree else k1Mac }
    predicate Derived() { k1Tree == C.Subkey(tree) && k1Mac == C.Subkey(mac) }
  }

  /** What the unit computes under a key and the subkey presented with it. */
  function TagOf(k: Keys, key: Key, a: Block, b: Block): Block {
    C.TagFrom(k.Of(key), Aes.Encrypt(k.Of(key), a), b, k.SubkeyOf(key))
  }

  function EngineOf(k: Keys): Engine {
    Engine((a, b) => TagOf(k, TreeKey, a, b), (a, b) => TagOf(k, MacKey, a, b), x => Aes.Encrypt(k.enc, x))
  }

  /** With derived subkeys the engine's primitives are CMAC and AES under its keys. */
  lemma EngineIsCmac(k: Keys, a: Block, b: Block)
    requires k.Derived()
    ensures var e := EngineOf(k);
      && (e.tree)(a, b) == C.Cmac32(k.tree, a, b) && (e.mac)(a, b) == C.Cmac32(k.mac, a, b)
      && (e.enc)(a) == Aes.Encrypt(k.enc, a)
  {
    hide Aes.Encrypt;
    hide C.Subkey;
    hide C.TagFrom;
  }

  // ----------------------------------------------------------------------- the chip

  /**
   * The engine's registers with the registers of its ciphers. Of `r.cm` and `r.stream`
   * only what was asked of the ciphers and the keystream register are kept here.
   */
  datatype Chip = Chip(r: Rtl, cm: C.Unit, aes: A.Core)

  /** The registers with the ports of the ciphers. */
  function Seen(c: Chip): Rtl {
    c.r.(cm := c.r.cm.(busy := C.Busy(c.cm), done := c.cm.done, tag := c.cm.tag),
         stream := c.r.stream.(busy := c.aes.busy, done := c.aes.done, out := Aes.BlockOf(c.aes.result)))
  }

  predicate CmStarts(r: Rtl) { (r.fsm == S_PATH || r.fsm == S_DMAC) && !r.cm.busy }

  function CmKey(r: Rtl): Key { if r.fsm == S_DMAC then MacKey else TreeKey }

  function CmMsg(r: Rtl, i: In): (Block, Block)
    requires r.walk.lvl < |r.walk.sib| && Sib(r.walk.idx) < 0x1_0000_0000
  {
    if r.fsm == S_DMAC then DmacMsg(r) else Pair(r.walk.idx, r.walk.h, PathSib(r, i))
  }

  /** What is presented to the CMAC unit: always with the subkey, never with a clear. */
  function CmIn(k: Keys, r: Rtl, i: In): C.In
    requires r.walk.lvl < |r.walk.sib| && Sib(r.walk.idx) < 0x1_0000_0000
  {
    var key := CmKey(r);
    C.In(CmStarts(r), false, k.Of(key), true, k.SubkeyOf(key), CmMsg(r, i).0, CmMsg(r, i).1)
  }

  function AesIn(k: Keys, r: Rtl, i: In): A.CoreIn {
    A.CoreIn(Accepts(r, i), k.enc, StreamIn(i.blk, if i.write then Spec.Bump(i.ctr) else i.ctr))
  }

  function CmAsked(r: Rtl, i: In): Cm
    requires r.walk.lvl < |r.walk.sib| && Sib(r.walk.idx) < 0x1_0000_0000
  {
    if CmStarts(r) then r.cm.(key := CmKey(r), msg := CmMsg(r, i)) else r.cm
  }

  /** The keystream register takes the result when it comes. */
  function StreamKept(k: Keys, r: Rtl, i: In): Stream {
    var s, ask := r.stream, AesIn(k, r, i);
    s.(input := if ask.start && !s.busy then ask.x else s.input,
       valid := if ask.start then false else s.valid || s.done, ks := if s.done then s.out else s.ks)
  }

  /** One clock edge of everything. The finish bits of the input are not looked at. */
  function ChipNext(k: Keys, depth: nat, c: Chip, i: In): Chip
    requires Shaped(depth, Seen(c))
  {
    var r, ask := Seen(c), AesIn(k, Seen(c), i);
    Chip(Control(depth, r, i).(cm := CmAsked(r, i), stream := StreamKept(k, r, i)),
         C.Next(c.cm, CmIn(k, r, i)), A.CoreNext(c.aes, ask.start, ask.key, ask.x))
  }

  /** The input with the finish bits as the ciphers really have them. */
  function Timed(k: Keys, depth: nat, c: Chip, i: In): In
    requires Shaped(depth, Seen(c))
  {
    var n := ChipNext(k, depth, c, i);
    i.(cmFinishes := n.cm.done, aesFinishes := n.aes.done)
  }

  // ------------------------------------------------------------------- the invariant

  function JobFor(k: Keys, cm: Cm): C.Job {
    C.Job(k.Of(cm.key), cm.msg.1, Aes.Encrypt(k.Of(cm.key), cm.msg.0), k.SubkeyOf(cm.key))
  }

  /** The CMAC unit is at rest, or answers what was asked of it in `n` clocks. */
  ghost predicate CmLinked(k: Keys, cm: Cm, u: C.Unit, n: nat) {
    && C.Sane(u)
    && if u.fsm == C.S_IDLE then C.Settled(u) && !u.core.busy else !u.done && C.Working(u, JobFor(k, cm), n)
  }

  /** The core is at rest, or delivers the keystream asked for. */
  predicate AesLinked(k: Keys, s: Stream, a: A.Core) {
    && (a.busy ==> a.round <= 10 && A.Delivers(a, false, ZERO, ZERO, Aes.Encrypt(k.enc, s.input), 11 - a.round))
    && (a.done ==> !a.busy && Aes.BlockOf(a.result) == Aes.Encrypt(k.enc, s.input))
  }

  /** The core was started before the unit, and has fewer clocks left. */
  predicate Ahead(r: Rtl, u: C.Unit, a: A.Core, n: nat) {
    && (u.fsm != C.S_IDLE ==> r.fsm == S_PATH_W || r.fsm == S_DMAC || r.fsm == S_DMAC_W)
    && (a.busy ==> if u.fsm == C.S_IDLE then r.fsm == S_PATH else n > 11 - a.round)
  }

  ghost predicate Linked(k: Keys, c: Chip, n: nat) {
    CmLinked(k, c.r.cm, c.cm, n) && AesLinked(k, c.r.stream, c.aes) && Ahead(c.r, c.cm, c.aes, n)
  }

  /** Clocks left to the next tag, one clock on. */
  function Left(c: Chip, n: nat): nat { if c.cm.fsm == C.S_IDLE then 24 else if n > 0 then n - 1 else 0 }

  lemma CmAccepts(k: Keys, r: Rtl, u: C.Unit, i: In)
    requires r.walk.lvl < |r.walk.sib| && Sib(r.walk.idx) < 0x1_0000_0000
    requires C.Sane(u) && u.fsm == C.S_IDLE && C.Settled(u) && !u.core.busy && !r.cm.busy && CmStarts(r)
    ensures var t := C.Next(u, CmIn(k, r, i));
      && C.Sane(t) && !t.done && t.fsm == C.S_M1 && C.Working(t, JobFor(k, CmAsked(r, i)), 24) && t.tag == u.tag
  {
    hide Aes.Encrypt;
    hide C.Working;
    hide C.Sane;
    hide A.CoreNext;
    hide DmacMsg;
    hide Pair;
    hide PathSib;
    C.SaneStep(u, CmIn(k, r, i));
    C.AcceptWorks(u, CmIn(k, r, i));
  }

  lemma CmRests(u: C.Unit, i: C.In)
    requires C.Sane(u) && u.fsm == C.S_IDLE && C.Settled(u) && !u.core.busy && !i.start && !i.clear
    ensures var t := C.Next(u, i); C.Sane(t) && t.fsm == C.S_IDLE && C.Settled(t) && !t.core.busy && !t.done && t.tag == u.tag
  {
  }

  lemma TagIsJob(k: Keys, cm: Cm)
    ensures JobFor(k, cm).Tag() == Tag(EngineOf(k), cm.key, cm.msg)
  {
    hide Aes.Encrypt;
    hide C.TagFrom;
  }

  lemma IdleOrWorking(u: C.Unit, j: C.Job, n: nat)
    requires C.Working(u, j, n)
    ensures u.fsm != C.S_IDLE && n > 0
  {
    hide Aes.Encrypt;
    hide C.CoreWill;
  }

  lemma FinishedRests(u: C.Unit, j: C.Job)
    requires C.Finished(u, j)
    ensures u.fsm == C.S_IDLE && C.Settled(u) && !u.core.busy && u.done && u.tag == j.Tag()
  {
  }

  /** A clock of the working unit keeps its tag until the last, which brings the job's. */
  lemma TagStays(u: C.Unit, i: C.In)
    requires !i.clear && !C.Next(u, i).done
    ensures C.Next(u, i).tag == u.tag
  {
    hide A.CoreNext;
    hide C.Dbl;
    hide Xor;
    hide Aes.BlockOf;
  }

  /** The CMAC unit does what the engine takes it for. */
  lemma CmLinkStep(k: Keys, depth: nat, c: Chip, n: nat, i: In)
    requires Shaped(depth, Seen(c)) && CmLinked(k, c.r.cm, c.cm, n)
    ensures var r, t := Seen(c), C.Next(c.cm, CmIn(k, Seen(c), i));
      && (c.cm.fsm == C.S_IDLE && !CmStarts(r) ==> t.fsm == C.S_IDLE)
      && (c.cm.fsm == C.S_IDLE && CmStarts(r) ==> t.fsm == C.S_M1)
      && (c.cm.fsm != C.S_IDLE ==> n > 0 && (t.fsm == C.S_IDLE <==> n == 1))
      && (t.done ==> c.cm.fsm != C.S_IDLE && n == 1)
      && CmLinked(k, CmAsked(r, i), t, Left(c, n))
      && CmNext(EngineOf(k), r, i.(cmFinishes := t.done)) == CmAsked(r, i).(busy := C.Busy(t), done := t.done, tag := t.tag)
  {
    hide C.Next;
    hide C.Working;
    hide C.Sane;
    hide C.Finished;
    hide C.Job.Tag;
    hide Tag;
    hide EngineOf;
    hide Leaf;
    hide DmacMsg;
    hide Pair;
    hide Aes.Encrypt;
    hide Aes.BlockOf;
    var r, u := Seen(c), c.cm;
    var ask := CmIn(k, r, i);
    var t := C.Next(u, ask);
    if u.fsm == C.S_IDLE {
      if CmStarts(r) { CmAccepts(k, r, u, i); } else { CmRests(u, ask); }
    } else {
      IdleOrWorking(u, JobFor(k, c.r.cm), n);
      C.SaneStep(u, ask);
      C.WorkStep(u, JobFor(k, c.r.cm), n, ask);
      TagIsJob(k, c.r.cm);
      if n == 1 { FinishedRests(t, JobFor(k, c.r.cm)); }
      else {
        IdleOrWorking(t, JobFor(k, c.r.cm), n - 1);
        TagStays(u, ask);
      }
    }
  }

  /** The AES core does what the engine takes it for. */
  lemma AesLinkStep(k: Keys, depth: nat, c: Chip, i: In)
    requires Shaped(depth, Seen(c)) && AesLinked(k, c.r.stream, c.aes)
    ensures var r, ask := Seen(c), AesIn(k, Seen(c), i);
      var t := A.CoreNext(c.aes, ask.start, ask.key, ask.x);
      && AesLinked(k, StreamKept(k, r, i), t)
      && (t.busy <==> if c.aes.busy then c.aes.round < 10 else Accepts(r, i))
      && (t.busy ==> t.round == if c.aes.busy then c.aes.round + 1 else 1)
      && StreamNext(EngineOf(k), r, i.(aesFinishes := t.done))
         == StreamKept(k, r, i).(busy := t.busy, done := t.done, out := Aes.BlockOf(t.result))
  {
    hide Aes.Encrypt;
    hide A.Finish;
    hide Aes.BlockOf;
    hide StreamIn;
    hide Spec.Bump;
    var r, ask := Seen(c), AesIn(k, Seen(c), i);
    var t := A.CoreNext(c.aes, ask.start, ask.key, ask.x);
    if c.aes.busy {
      A.DeliversStep(c.aes, false, ZERO, ZERO, Aes.Encrypt(k.enc, c.r.stream.input), 11 - c.aes.round, false, ZERO, ZERO);
      CoreBusyStep(c.aes, ask.start, ask.key, ask.x);
    } else if Accepts(r, i) {
      A.DeliversStep(c.aes.(done := false), true, k.enc, ask.x, Aes.Encrypt(k.enc, ask.x), 11, false, ZERO, ZERO);
      A.CoreIgnoresDone(c.aes, k.enc, ask.x);
      CoreStarts(c.aes, k.enc, ask.x);
    }
    hide A.CoreNext;
    if !c.aes.busy && !Accepts(r, i) { CoreRests(c.aes, ask.key, ask.x); }
  }

  lemma CoreBusyStep(a: A.Core, start: bool, key: Block, x: Block)
    requires a.busy && 1 <= a.round <= 10
    ensures var t := A.CoreNext(a, start, key, x);
      && t == A.CoreNext(a, false, ZERO, ZERO) && (t.busy <==> a.round < 10) && t.done == (a.round == 10)
      && (t.busy ==> t.round == a.round + 1 && t.result == a.result)
  {
  }

  lemma CoreStarts(a: A.Core, key: Block, x: Block)
    requires !a.busy
    ensures var t := A.CoreNext(a, true, key, x); t.busy && !t.done && t.round == 1 && t.result == a.result
  {
  }

  lemma CoreRests(a: A.Core, key: Block, x: Block)
    requires !a.busy
    ensures A.CoreNext(a, false, key, x) == a.(done := false)
  {
  }

  /** Each cipher looks at its own finish bit, and the control at neither. */
  lemma FinishBits(e: Engine, depth: nat, r: Rtl, i: In, cm: bool, aes: bool)
    requires Shaped(depth, r)
    ensures var j := i.(cmFinishes := cm, aesFinishes := aes);
      && CmNext(e, r, j) == CmNext(e, r, i.(cmFinishes := cm))
      && StreamNext(e, r, j) == StreamNext(e, r, i.(aesFinishes := aes))
      && Control(depth, r, j) == Control(depth, r, i)
  {
    hide Tag;
    hide DmacMsg;
    hide Leaf;
    hide Pair;
    hide StreamIn;
    hide Spec.Bump;
    hide Reply;
    hide PathEnd;
    hide DmacStart;
    hide DmacEnd;
    hide Commit;
  }

  /** While a tag is awaited the control waits, and when one is asked for it waits from then on. */
  lemma ControlWaits(depth: nat, r: Rtl, i: In)
    requires Shaped(depth, r)
    ensures var n := Control(depth, r, i);
      && (r.cm.busy && !r.cm.done && (r.fsm == S_PATH_W || r.fsm == S_DMAC || r.fsm == S_DMAC_W) ==> n.fsm == r.fsm)
      && (CmStarts(r) ==> n.fsm == S_PATH_W || n.fsm == S_DMAC || n.fsm == S_DMAC_W)
      && (Accepts(r, i) ==> n.fsm == S_PATH)
  {
    hide PathSib;
    hide Leaf;
    hide Xor;
    hide PathEnd;
    hide DmacEnd;
    if !r.cm.done { PathAndMacWait(depth, r); }
  }

  lemma PathAndMacWait(depth: nat, r: Rtl)
    requires Shaped(depth, r) && !r.cm.done
    ensures PathEnd(depth, r) == r && DmacEnd(r) == r
  {
  }

  /** How the two ciphers move on. */
  lemma CiphersMove(k: Keys, depth: nat, c: Chip, n: nat, i: In)
    requires Shaped(depth, Seen(c)) && CmLinked(k, c.r.cm, c.cm, n) && AesLinked(k, c.r.stream, c.aes)
    ensures var r, t := Seen(c), ChipNext(k, depth, c, i);
      && (t.cm.fsm == C.S_IDLE <==> if c.cm.fsm == C.S_IDLE then !CmStarts(r) else n == 1)
      && (t.cm.done ==> c.cm.fsm != C.S_IDLE && n == 1)
      && (c.cm.fsm != C.S_IDLE ==> r.cm.busy && !r.cm.done)
      && (c.cm.fsm == C.S_IDLE ==> !r.cm.busy)
      && (t.aes.busy <==> if c.aes.busy then c.aes.round < 10 else Accepts(r, i))
      && (t.aes.busy ==> t.aes.round == if c.aes.busy then c.aes.round + 1 else 1)
      && t.r.fsm == Control(depth, r, i).fsm
  {
    hide C.Next;
    hide A.CoreNext;
    hide C.Working;
    hide C.Sane;
    hide Aes.BlockOf;
    hide EngineOf;
    hide CmIn;
    hide AesIn;
    hide StreamKept;
    hide CmAsked;
    hide StreamNext;
    hide CmNext;
    hide A.Delivers;
    hide Control;
    CmLinkStep(k, depth, c, n, i);
    AesLinkStep(k, depth, c, i);
  }

  lemma AheadStep(k: Keys, depth: nat, c: Chip, n: nat, i: In)
    requires Shaped(depth, Seen(c)) && Linked(k, c, n)
    ensures var t := ChipNext(k, depth, c, i); Ahead(t.r, t.cm, t.aes, Left(c, n))
    ensures ChipNext(k, depth, c, i).cm.done ==> !c.aes.busy
  {
    hide ChipNext;
    hide CmLinked;
    hide A.Delivers;
    hide Control;
    hide Shaped;
    hide Aes.BlockOf;
    hide Aes.Encrypt;
    CiphersMove(k, depth, c, n, i);
    ControlWaits(depth, Seen(c), i);
  }

  /** The ciphers keep time, and the engine with them steps as the engine without. */
  lemma ChipStep(k: Keys, depth: nat, c: Chip, n: nat, i: In)
    requires Shaped(depth, Seen(c)) && Linked(k, c, n)
    ensures InTime(Seen(c), Timed(k, depth, c, i))
    ensures Seen(ChipNext(k, depth, c, i)) == Next(EngineOf(k), depth, Seen(c), Timed(k, depth, c, i))
    ensures Linked(k, ChipNext(k, depth, c, i), Left(c, n))
  {
    hide CmLinked;
    hide AesLinked;
    hide C.Next;
    hide A.CoreNext;
    hide Aes.BlockOf;
    hide EngineOf;
    hide CmIn;
    hide AesIn;
    hide StreamKept;
    hide CmAsked;
    hide StreamNext;
    hide CmNext;
    CmLinkStep(k, depth, c, n, i);
    AesLinkStep(k, depth, c, i);
    FinishBits(EngineOf(k), depth, Seen(c), i, ChipNext(k, depth, c, i).cm.done, ChipNext(k, depth, c, i).aes.done);
    AheadStep(k, depth, c, n, i);
    hide Control;
  }

  // ---------------------------------------------------------------------- whole runs

  /** Requests are for blocks of the memory: the block number is as wide as that. */
  predicate InRange(depth: nat, ins: seq<In>) { forall j :: 0 <= j < |ins| ==> ins[j].blk < Pow2(depth) }

  /** Every answer of the run is right, until a clock that accepts a collision or a forgery. */
  ghost predicate ChipIsRight(k: Keys, depth: nat, c: Chip, h: Spec.History, ins: seq<In>)
    requires Shaped(depth, Seen(c)) && |h.plain| == |h.ctrs| == Pow2(depth) && Sized(depth, h.ctrs)
    decreases |ins|
  {
    && (Seen(c).fsm == S_RESP ==> AnswerRight(Seen(c), h))
    && (|| ins == [] || Breaks(EngineOf(k), depth, Seen(c), h)
        || (var n, g := ChipNext(k, depth, c, ins[0]), HistoryNext(EngineOf(k), depth, Seen(c), h);
            && Shaped(depth, Seen(n)) && |g.plain| == |g.ctrs| == Pow2(depth)
            && ChipIsRight(k, depth, n, g, ins[1..])))
  }

  /**
   * Main result over the real ciphers, with nothing assumed of their timing: storage
   * may show anything in any clock, and every successful answer is right as long as
   * no clock accepts a tree collision or a forged data MAC.
   */
  lemma {:induction false} EveryChipRunIsRight(k: Keys, depth: nat, c: Chip, n: nat, h: Spec.History, ins: seq<In>)
    requires Shaped(depth, Seen(c)) && |h.plain| == |h.ctrs| == Pow2(depth) && Sized(depth, h.ctrs)
    requires Inv(EngineOf(k), depth, Seen(c), h) && Linked(k, c, n) && InRange(depth, ins)
    ensures ChipIsRight(k, depth, c, h, ins)
    decreases |ins|
  {
    hide Linked;
    hide Seen;
    hide ChipNext;
    hide EngineOf;
    hide Job;
    hide StreamOk;
    hide CmOk;
    hide Spec.Recorded;
    hide Root;
    hide Breaks;
    hide Next;
    hide HistoryNext;
    hide AnswerRight;
    hide InTime;
    AnswersInv(EngineOf(k), depth, Seen(c), h);
    if ins != [] && !Breaks(EngineOf(k), depth, Seen(c), h) {
      var i := Timed(k, depth, c, ins[0]);
      ChipStep(k, depth, c, n, ins[0]);
      EngineStep(EngineOf(k), depth, Seen(c), h, i);
      var t, g := ChipNext(k, depth, c, ins[0]), HistoryNext(EngineOf(k), depth, Seen(c), h);
      Spec.RecordedShape(EngineOf(k), g);
      EveryChipRunIsRight(k, depth, t, Left(c, n), g, ins[1..]);
    }
  }

  lemma AnswersInv(e: Engine, depth: nat, r: Rtl, h: Spec.History)
    requires Inv(e, depth, r, h) && Shaped(depth, r) && |h.plain| == |h.ctrs|
    ensures r.fsm == S_RESP ==> AnswerRight(r, h)
  {
    hide PathOk;
    hide MacOk;
    hide StreamOk;
    hide CmOk;
    hide Root;
  }

  /** The port shows what is stored, in every clock of the run. */
  ghost predicate Undisturbed(k: Keys, depth: nat, c: Chip, st: Spec.Store, ins: seq<In>)
    requires Shaped(depth, Seen(c)) && st.Shaped(depth) && (Seen(c).fsm == S_COMMIT ==> 1 <= Seen(c).walk.lvl)
    decreases |ins|
  {
    ins == [] ||
    (var n := ChipNext(k, depth, c, ins[0]);
     && Quiet.Shows(depth, st, Seen(c), ins[0])
     && (Shaped(depth, Seen(n)) && (Seen(n).fsm == S_COMMIT ==> 1 <= Seen(n).walk.lvl) ==>
           Undisturbed(k, depth, n, Quiet.StoreNext(depth, st, Seen(c)), ins[1..])))
  }

  /** Each answer is the software engine's, and leaves storage, root and tamper flag as it would. */
  ghost predicate ChipRefines(k: Keys, depth: nat, c: Chip, st: Spec.Store, m: Spec.Mit, ins: seq<In>)
    requires Shaped(depth, Seen(c)) && st.Shaped(depth) && Spec.Shaped(depth, m)
    requires Seen(c).fsm == S_COMMIT ==> 1 <= Seen(c).walk.lvl
    decreases |ins|
  {
    var e, r := EngineOf(k), Seen(c);
    && (r.fsm == S_RESP ==>
          && Spec.Mit(st, r.root, r.tamper) == Spec.After(e, depth, m, Quiet.OpOf(r.acc))
          && r.rsp == Quiet.AnswerTo(e, depth, m, r.acc))
    && (ins == [] ||
        (var n, t, g := ChipNext(k, depth, c, ins[0]), Quiet.StoreNext(depth, st, r), Quiet.MitNext(m, r, st);
         && Shaped(depth, Seen(n)) && Spec.Shaped(depth, g) && (Seen(n).fsm == S_COMMIT ==> 1 <= Seen(n).walk.lvl)
         && ChipRefines(k, depth, n, t, g, ins[1..])))
  }

  lemma ShowsTimed(k: Keys, depth: nat, c: Chip, st: Spec.Store, i: In)
    requires Shaped(depth, Seen(c)) && st.Shaped(depth)
    ensures Quiet.Shows(depth, st, Seen(c), Timed(k, depth, c, i)) == Quiet.Shows(depth, st, Seen(c), i)
  {
    hide Leaf;
    hide Spec.StoredSib;
    hide ChipNext;
    hide Pow2;
  }

  /** With undisturbed storage the chip refines the software engine over the same keys. */
  lemma {:induction false} ChipRefinesSoftware(k: Keys, depth: nat, c: Chip, n: nat, st: Spec.Store, m: Spec.Mit, ins: seq<In>)
    requires Shaped(depth, Seen(c)) && st.Shaped(depth) && Spec.Shaped(depth, m)
    requires Seen(c).fsm == S_COMMIT ==> 1 <= Seen(c).walk.lvl
    requires Quiet.Tracks(EngineOf(k), depth, Seen(c), st, m) && Linked(k, c, n) && Undisturbed(k, depth, c, st, ins)
    ensures ChipRefines(k, depth, c, st, m, ins)
    decreases |ins|
  {
    hide Linked;
    hide Seen;
    hide ChipNext;
    hide EngineOf;
    hide InTime;
    hide Quiet.Tracks;
    hide Next;
    hide Quiet.StoreNext;
    hide Quiet.MitNext;
    hide Quiet.Shows;
    hide Spec.After;
    hide Quiet.AnswerTo;
    hide Pow2;
    var e := EngineOf(k);
    Quiet.TracksShape(e, depth, Seen(c), st, m);
    if ins != [] {
      ShowsTimed(k, depth, c, st, ins[0]);
      ChipStep(k, depth, c, n, ins[0]);
      Quiet.EngineStep(e, depth, Seen(c), st, m, Timed(k, depth, c, ins[0]));
      var t, u, g := ChipNext(k, depth, c, ins[0]), Quiet.StoreNext(depth, st, Seen(c)), Quiet.MitNext(m, Seen(c), st);
      Quiet.TracksShape(e, depth, Seen(t), u, g);
      ChipRefinesSoftware(k, depth, t, Left(c, n), u, g, ins[1..]);
    }
  }
}
