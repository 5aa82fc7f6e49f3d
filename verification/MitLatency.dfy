/**
 * How long an access takes over the real ciphers: to the clock, for every depth of
 * the tree and whatever storage shows meanwhile.
 */
module MitLatency {
  import opened Words
  import Aes
  import A = AesRtl
  import C = CmacRtl
  import opened MitTree
  import Spec = MitSpec
  import opened MitRtl
  import opened MitCores
  import Init = MitInit

  predicate Waiting(t: Fsm) { t == S_PATH_W || t == S_DMAC_W }

  predicate Asking(t: Fsm) { t == S_PATH || t == S_DMAC }

  /** The keystream is there, or on its way. */
  predicate Streams(s: Stream) { s.busy || s.done || s.valid }

  /** An access is under way, and what it waits for comes. */
  ghost predicate Going(k: Keys, depth: nat, c: Chip, n: nat) {
    && Shaped(depth, Seen(c)) && Linked(k, c, n) && Active(c.r.fsm)
    && (Waiting(c.r.fsm) ==> (c.cm.done <==> c.cm.fsm == C.S_IDLE))
    && (Asking(c.r.fsm) ==> c.cm.fsm == C.S_IDLE && !c.cm.done)
    && (c.r.fsm != S_COMMIT ==> Streams(Seen(c).stream))
    && (c.cm.done || c.r.fsm == S_DMAC || c.r.fsm == S_DMAC_W ==> StreamIdle(Seen(c).stream))
    && (c.r.fsm == S_COMMIT ==> c.r.acc.write && 1 <= c.r.walk.lvl)
    && ((c.r.fsm == S_PATH || c.r.fsm == S_PATH_W) && c.r.walk.second ==> c.r.acc.write)
  }

  /** The first pass of the path is on its way to its decision. */
  predicate FirstPass(r: Rtl) { (r.fsm == S_PATH || r.fsm == S_PATH_W) && !r.walk.second }

  /** The clocks of one pass up a tree of this depth. */
  function PassClocks(depth: nat): nat { 26 * depth }

  /** And those behind the decision: the data MAC, and for a write the second pass and the commit. */
  function RestClocks(depth: nat, write: bool): nat
    requires depth >= 1
  {
    26 + if write then PassClocks(depth) + depth - 1 else 0
  }

  /**
   * The clocks left: in the first pass to its decision, and behind it to the answer.
   * `n` is what the CMAC unit needs to the tag it works on.
   */
  function ClocksLeft(depth: nat, r: Rtl, n: nat): nat
    requires r.walk.lvl < depth
  {
    var wait := if r.cm.done then 0 else n;
    var commit := if r.walk.second then depth - 1 else 0;
    match r.fsm
    case S_PATH => 26 * (depth - r.walk.lvl) + commit
    case S_PATH_W => wait + 1 + 26 * (depth - 1 - r.walk.lvl) + commit
    case S_DMAC => RestClocks(depth, r.acc.write)
    case S_DMAC_W => wait + 1 + RestClocks(depth, r.acc.write) - 26
    case S_COMMIT => depth - r.walk.lvl
    case S_IDLE => 0
    case S_RESP => 0
  }

  // --------------------------------------------------------------------- the ciphers

  /** The tag comes when its clocks have passed. */
  lemma TagComes(k: Keys, depth: nat, c: Chip, n: nat, i: In)
    requires Shaped(depth, Seen(c)) && CmLinked(k, c.r.cm, c.cm, n)
    ensures var t := ChipNext(k, depth, c, i);
      && (c.cm.fsm != C.S_IDLE ==> n > 0 && (t.cm.done <==> n == 1) && (t.cm.fsm == C.S_IDLE <==> n == 1))
      && (c.cm.fsm == C.S_IDLE ==> !t.cm.done && (t.cm.fsm == C.S_IDLE <==> !CmStarts(Seen(c))))
  {
    hide C.Next;
    hide C.Working;
    hide C.Sane;
    hide A.CoreNext;
    hide Aes.BlockOf;
    hide CmIn;
    hide AesIn;
    hide StreamKept;
    hide Control;
    hide CmStarts;
    hide CmNext;
    hide CmAsked;
    hide C.Finished;
    hide C.Job.Tag;
    CmLinkStep(k, depth, c, n, i);
    if c.cm.fsm != C.S_IDLE {
      IdleOrWorking(c.cm, JobFor(k, c.r.cm), n);
      NoClear(k, Seen(c), i);
      C.WorkStep(c.cm, JobFor(k, c.r.cm), n, CmIn(k, Seen(c), i));
      if n == 1 { FinishedRests(C.Next(c.cm, CmIn(k, Seen(c), i)), JobFor(k, c.r.cm)); }
    }
  }

  lemma NoClear(k: Keys, r: Rtl, i: In)
    requires r.walk.lvl < |r.walk.sib| && Sib(r.walk.idx) < 0x1_0000_0000
    ensures !CmIn(k, r, i).clear
  {
  }

  /** A keystream on its way arrives, and one that is there stays. */
  lemma StreamGoesOn(k: Keys, depth: nat, c: Chip, i: In)
    requires Shaped(depth, Seen(c)) && AesLinked(k, c.r.stream, c.aes) && !Accepts(Seen(c), i)
    ensures var s, t := Seen(c).stream, Seen(ChipNext(k, depth, c, i)).stream;
      && (Streams(s) ==> Streams(t)) && (!s.busy ==> StreamIdle(t))
  {
    hide A.Delivers;
    hide A.CoreNext;
    hide C.Next;
    hide Aes.BlockOf;
    hide Aes.Encrypt;
    hide CmIn;
    hide CmAsked;
    hide Control;
    var a, ask := c.aes, AesIn(k, Seen(c), i);
    if a.busy { RoundInRange(k, c.r.stream, a); CoreBusyStep(a, ask.start, ask.key, ask.x); }
    else { CoreRests(a, ask.key, ask.x); }
    hide StreamIn;
  }

  lemma RoundInRange(k: Keys, s: Stream, a: A.Core)
    requires AesLinked(k, s, a) && a.busy
    ensures 1 <= a.round <= 10
  {
    hide Aes.Encrypt;
    hide A.Finish;
  }

  // --------------------------------------------------------------------- the control

  /** The answer of the first pass: a refusal, or the zeros of a block never written. */
  predicate EarlyAnswer(r: Rtl) {
    match r.rsp.status
    case Tamper => true
    case Exhausted => r.acc.write && r.acc.was == 0xFFFF_FFFF
    case Ok => !r.acc.write && r.acc.was == 0
  }

  /** One clock is counted off, up to the decision of the first pass and up to the answer. */
  predicate Counts(depth: nat, r: Rtl, n: nat, q: Rtl, m: nat)
    requires r.walk.lvl < depth && q.walk.lvl < depth
  {
    && q.acc == r.acc && ClocksLeft(depth, r, n) > 0
    && if FirstPass(r) && ClocksLeft(depth, r, n) == 1 then q.fsm == S_DMAC || (q.fsm == S_RESP && EarlyAnswer(q))
       else if ClocksLeft(depth, r, n) == 1 then q.fsm == S_RESP && (q.acc.write ==> q.rsp.status == Spec.Ok)
       else Active(q.fsm) && ClocksLeft(depth, q, m) == ClocksLeft(depth, r, n) - 1 && FirstPass(q) == FirstPass(r)
  }

  lemma HalfFits(idx: nat)
    requires Sib(idx) < 0x1_0000_0000
    ensures Sib(idx / 2) < 0x1_0000_0000
  {
  }

  predicate SameShape(depth: nat, r: Rtl, m: Rtl)
  {
    && |m.walk.sib| == |r.walk.sib| && |m.walk.node| == |r.walk.node| && m.walk.lvl < depth
    && Sib(m.walk.idx) < 0x1_0000_0000 && m.acc == r.acc && m.cm == r.cm && m.stream == r.stream
  }

  lemma AcceptShape(depth: nat, r: Rtl, i: In)
    requires Shaped(depth, r) && i.blk < Pow2(depth)
    ensures Shaped(depth, Accept(r, i)) && Accept(r, i).cm == r.cm && Accept(r, i).stream == r.stream
  {
    SibFits(depth, i.blk, 0);
    hide Pow2;
    hide Sib;
    hide Leaf;
  }

  lemma PathStartShape(depth: nat, r: Rtl, i: In)
    requires Shaped(depth, r)
    ensures SameShape(depth, r, PathStart(r, i))
  {
    hide Pow2;
    hide Sib;
    hide PathSib;
  }

  lemma PathEndShape(depth: nat, r: Rtl)
    requires Shaped(depth, r)
    ensures SameShape(depth, r, PathEnd(depth, r))
  {
    HalfFits(r.walk.idx);
    hide Pow2;
    hide Sib;
    hide Checked;
    var w := r.walk;
    CheckedKeeps(r.(walk := w.(h := r.cm.tag, idx := w.idx / 2, lvl := 0)));
    hide EarlyAnswer;
  }

  lemma CheckedKeeps(r: Rtl)
    ensures var m := Checked(r);
      && m.walk == r.walk && m.acc == r.acc && m.cm == r.cm && m.stream == r.stream
      && (m.fsm == S_DMAC || (m.fsm == S_RESP && EarlyAnswer(m)))
  {
    hide Spec.Bump;
  }

  lemma MacShape(depth: nat, r: Rtl)
    requires Shaped(depth, r)
    ensures SameShape(depth, r, DmacStart(r)) && SameShape(depth, r, DmacEnd(r)) && SameShape(depth, r, Commit(depth, r))
  {
    SibFits(depth, r.acc.blk, 0);
    hide Pow2;
    hide Sib;
    hide Leaf;
    hide Xor;
  }

  lemma ControlShaped(depth: nat, r: Rtl, i: In)
    requires Shaped(depth, r) && i.blk < Pow2(depth)
    ensures var m := Control(depth, r, i); Shaped(depth, m) && (r.fsm != S_IDLE ==> m.acc == r.acc)
  {
    hide Accept;
    hide PathStart;
    hide PathEnd;
    hide DmacStart;
    hide DmacEnd;
    hide Commit;
    hide Pow2;
    hide Sib;
    match r.fsm
    case S_IDLE => AcceptShape(depth, r, i);
    case S_PATH => PathStartShape(depth, r, i);
    case S_PATH_W => PathEndShape(depth, r);
    case S_DMAC => MacShape(depth, r);
    case S_DMAC_W => MacShape(depth, r);
    case S_COMMIT => MacShape(depth, r);
    case S_RESP =>
  }

  lemma ChipShaped(k: Keys, depth: nat, c: Chip, i: In)
    requires Shaped(depth, Seen(c)) && i.blk < Pow2(depth)
    ensures Shaped(depth, Seen(ChipNext(k, depth, c, i)))
  {
    ControlShaped(depth, Seen(c), i);
    hide Control;
    hide C.Next;
    hide A.CoreNext;
    hide CmIn;
    hide CmAsked;
    hide StreamKept;
    hide Pow2;
    hide Sib;
    hide Aes.BlockOf;
  }

  /** What a clock leaves of the control. */
  lemma SeenNext(k: Keys, depth: nat, c: Chip, i: In)
    requires Shaped(depth, Seen(c)) && i.blk < Pow2(depth)
    ensures var q, m := Seen(ChipNext(k, depth, c, i)), Control(depth, Seen(c), i);
      q.fsm == m.fsm && q.acc == m.acc && q.walk == m.walk && q.rsp == m.rsp && q.cm.done == ChipNext(k, depth, c, i).cm.done
  {
    hide Control;
    hide C.Next;
    hide A.CoreNext;
    hide CmIn;
    hide CmAsked;
    hide StreamKept;
    hide Pow2;
    hide Sib;
    hide Aes.BlockOf;
  }

  /** What an asking state does: it waits from the next clock on. */
  lemma Asks(depth: nat, r: Rtl, i: In)
    requires Shaped(depth, r) && Asking(r.fsm) && !r.cm.busy && (r.fsm == S_DMAC ==> r.stream.valid)
    ensures var m := Control(depth, r, i);
      && m.fsm == (if r.fsm == S_PATH then S_PATH_W else S_DMAC_W) && m.acc == r.acc
      && m.walk.lvl == r.walk.lvl && m.walk.second == r.walk.second
  {
    hide Pow2;
    hide Sib;
    hide Leaf;
    hide Xor;
    hide PathSib;
  }

  lemma Waits(depth: nat, r: Rtl, i: In)
    requires Shaped(depth, r) && Waiting(r.fsm) && !r.cm.done
    ensures Control(depth, r, i) == r
  {
    hide Pow2;
    hide Sib;
    PathAndMacWait(depth, r);
    hide PathEnd;
    hide DmacEnd;
  }

  /** Where the tag of a node leads. */
  lemma PathTakes(depth: nat, r: Rtl, i: In)
    requires Shaped(depth, r) && r.fsm == S_PATH_W && r.cm.done
    ensures var m := Control(depth, r, i);
      && m.acc == r.acc
      && if r.walk.lvl < depth - 1 then
           m.fsm == S_PATH && m.walk.lvl == r.walk.lvl + 1 && m.walk.second == r.walk.second
         else if r.walk.second then m.fsm == S_COMMIT && m.walk.lvl == 1
         else m.fsm == S_DMAC || (m.fsm == S_RESP && EarlyAnswer(m))
  {
    hide Pow2;
    hide Sib;
    hide Checked;
    var w := r.walk;
    var top := r.(walk := w.(h := r.cm.tag, idx := w.idx / 2, lvl := 0));
    CheckedKeeps(top);
    hide EarlyAnswer;
  }

  /** And where the tag of the data leads. */
  lemma MacTakes(depth: nat, r: Rtl, i: In)
    requires Shaped(depth, r) && r.fsm == S_DMAC_W && r.cm.done
    ensures var m := Control(depth, r, i);
      m.acc == r.acc && if r.acc.write then m.fsm == S_PATH && m.walk.lvl == 0 && m.walk.second else m.fsm == S_RESP
  {
    hide Pow2;
    hide Sib;
    hide Leaf;
    hide Xor;
  }

  lemma Commits(depth: nat, r: Rtl, i: In)
    requires Shaped(depth, r) && r.fsm == S_COMMIT
    ensures var m := Control(depth, r, i);
      && m.acc == r.acc
      && if r.walk.lvl == depth - 1 then m.fsm == S_RESP && m.rsp.status == Spec.Ok
         else m.fsm == S_COMMIT && m.walk.lvl == r.walk.lvl + 1
  {
    hide Pow2;
    hide Sib;
  }

  // ------------------------------------------------------------------------ one clock

  /** What a clock of an access under way does. */
  ghost predicate GoesOn(k: Keys, depth: nat, c: Chip, n: nat, t: Chip) {
    && Shaped(depth, Seen(c)) && Shaped(depth, Seen(t))
    && (Active(t.r.fsm) ==> Going(k, depth, t, Left(c, n))) && Counts(depth, Seen(c), n, Seen(t), Left(c, n))
  }

  lemma AskStep(k: Keys, depth: nat, c: Chip, n: nat, i: In)
    requires Going(k, depth, c, n) && Asking(c.r.fsm) && i.blk < Pow2(depth)
    ensures GoesOn(k, depth, c, n, ChipNext(k, depth, c, i))
  {
    hide CmLinked;
    hide AesLinked;
    hide Ahead;
    hide ChipNext;
    hide Control;
    hide Pow2;
    hide Sib;
    hide Aes.BlockOf;
    ChipShaped(k, depth, c, i);
    SeenNext(k, depth, c, i);
    ChipStep(k, depth, c, n, i);
    TagComes(k, depth, c, n, i);
    StreamGoesOn(k, depth, c, i);
    NotBusy(k, depth, c, n);
    Asks(depth, Seen(c), i);
  }

  lemma NotBusy(k: Keys, depth: nat, c: Chip, n: nat)
    requires Shaped(depth, Seen(c)) && Linked(k, c, n)
    ensures c.cm.fsm == C.S_IDLE ==> !Seen(c).cm.busy
  {
    hide AesLinked;
    hide Ahead;
    hide Pow2;
    hide Sib;
    hide Aes.BlockOf;
  }

  lemma WaitStep(k: Keys, depth: nat, c: Chip, n: nat, i: In)
    requires Going(k, depth, c, n) && Waiting(c.r.fsm) && !c.cm.done && i.blk < Pow2(depth)
    ensures GoesOn(k, depth, c, n, ChipNext(k, depth, c, i))
  {
    hide CmLinked;
    hide AesLinked;
    hide Ahead;
    hide ChipNext;
    hide Control;
    hide Pow2;
    hide Sib;
    hide Aes.BlockOf;
    ChipShaped(k, depth, c, i);
    SeenNext(k, depth, c, i);
    ChipStep(k, depth, c, n, i);
    TagComes(k, depth, c, n, i);
    StreamGoesOn(k, depth, c, i);
    AheadStep(k, depth, c, n, i);
    Waits(depth, Seen(c), i);
  }

  lemma TagStep(k: Keys, depth: nat, c: Chip, n: nat, i: In)
    requires Going(k, depth, c, n) && Waiting(c.r.fsm) && c.cm.done && i.blk < Pow2(depth)
    ensures GoesOn(k, depth, c, n, ChipNext(k, depth, c, i))
  {
    hide CmLinked;
    hide AesLinked;
    hide Ahead;
    hide ChipNext;
    hide Control;
    hide Pow2;
    hide Sib;
    hide Aes.BlockOf;
    ChipShaped(k, depth, c, i);
    SeenNext(k, depth, c, i);
    ChipStep(k, depth, c, n, i);
    TagComes(k, depth, c, n, i);
    StreamGoesOn(k, depth, c, i);
    if c.r.fsm == S_PATH_W { PathTakes(depth, Seen(c), i); } else { MacTakes(depth, Seen(c), i); }
  }

  lemma CommitStep(k: Keys, depth: nat, c: Chip, n: nat, i: In)
    requires Going(k, depth, c, n) && c.r.fsm == S_COMMIT && i.blk < Pow2(depth)
    ensures GoesOn(k, depth, c, n, ChipNext(k, depth, c, i))
  {
    hide CmLinked;
    hide AesLinked;
    hide Ahead;
    hide ChipNext;
    hide Control;
    hide Pow2;
    hide Sib;
    hide Aes.BlockOf;
    ChipShaped(k, depth, c, i);
    SeenNext(k, depth, c, i);
    ChipStep(k, depth, c, n, i);
    TagComes(k, depth, c, n, i);
    Commits(depth, Seen(c), i);
  }

  /** Every clock of an access counts. */
  lemma AccessStep(k: Keys, depth: nat, c: Chip, n: nat, i: In)
    requires Going(k, depth, c, n) && i.blk < Pow2(depth)
    ensures GoesOn(k, depth, c, n, ChipNext(k, depth, c, i))
  {
    hide GoesOn;
    hide ChipNext;
    hide Linked;
    hide Shaped;
    if Asking(c.r.fsm) { AskStep(k, depth, c, n, i); }
    else if c.r.fsm == S_COMMIT { CommitStep(k, depth, c, n, i); }
    else if c.cm.done { TagStep(k, depth, c, n, i); }
    else { WaitStep(k, depth, c, n, i); }
  }

  /** An idle engine accepts: the first pass begins, with all its clocks to go. */
  lemma AcceptStep(k: Keys, depth: nat, c: Chip, n: nat, i: In)
    requires Shaped(depth, Seen(c)) && Linked(k, c, n) && Accepts(Seen(c), i) && i.blk < Pow2(depth)
    ensures var t := ChipNext(k, depth, c, i);
      && Going(k, depth, t, Left(c, n)) && FirstPass(Seen(t)) && ClocksLeft(depth, Seen(t), Left(c, n)) == PassClocks(depth)
      && t.r.acc == Access(i.blk, i.write, i.wdata, i.ct, i.mac, i.ctr)
  {
    hide CmLinked;
    hide AesLinked;
    hide ChipNext;
    hide Pow2;
    hide Sib;
    hide Leaf;
    hide Aes.BlockOf;
    ChipShaped(k, depth, c, i);
    SeenNext(k, depth, c, i);
    ChipStep(k, depth, c, n, i);
    TagComes(k, depth, c, n, i);
    CiphersMove(k, depth, c, n, i);
  }

  // ------------------------------------------------------------------------- whole runs

  /** The chip after a run. */
  ghost function ChipAfter(k: Keys, depth: nat, c: Chip, ins: seq<In>): (t: Chip)
    requires Shaped(depth, Seen(c)) && InRange(depth, ins)
    ensures Shaped(depth, Seen(t))
    decreases |ins|
  {
    if ins == [] then c
    else
      ChipShaped(k, depth, c, ins[0]);
      ChipAfter(k, depth, ChipNext(k, depth, c, ins[0]), ins[1..])
  }

  lemma StillToGo(k: Keys, depth: nat, c: Chip, n: nat)
    requires Going(k, depth, c, n)
    ensures Shaped(depth, Seen(c)) && Active(c.r.fsm) && ClocksLeft(depth, Seen(c), n) > 0
  {
    hide Linked;
    hide Pow2;
    hide Sib;
    hide Aes.BlockOf;
  }

  /** What a clock of an access leaves, without what keeps it going. */
  lemma CountedOff(k: Keys, depth: nat, c: Chip, n: nat, i: In)
    requires Going(k, depth, c, n) && i.blk < Pow2(depth)
    ensures var t, m := ChipNext(k, depth, c, i), Left(c, n);
      && Shaped(depth, Seen(c)) && Shaped(depth, Seen(t)) && t.r.acc == c.r.acc
      && (Active(t.r.fsm) ==> Going(k, depth, t, m))
      && var l := ClocksLeft(depth, Seen(c), n);
         if FirstPass(Seen(c)) && l == 1 then t.r.fsm == S_DMAC || (t.r.fsm == S_RESP && EarlyAnswer(Seen(t)))
         else if l == 1 then t.r.fsm == S_RESP && (t.r.acc.write ==> t.r.rsp.status == Spec.Ok)
         else l > 1 && Active(t.r.fsm) && ClocksLeft(depth, Seen(t), m) == l - 1 && FirstPass(Seen(t)) == FirstPass(Seen(c))
  {
    AccessStep(k, depth, c, n, i);
    hide Going;
    hide ChipNext;
    hide EarlyAnswer;
    hide ClocksLeft;
    hide Pow2;
    hide Sib;
    hide Aes.BlockOf;
  }

  /** Up to the decision of the first pass nothing is answered, and it falls in exactly this clock. */
  lemma {:induction false} FirstPassRun(k: Keys, depth: nat, c: Chip, n: nat, ins: seq<In>) returns (m: nat)
    requires Going(k, depth, c, n) && FirstPass(Seen(c)) && InRange(depth, ins) && |ins| <= ClocksLeft(depth, Seen(c), n)
    ensures var t := ChipAfter(k, depth, c, ins);
      && t.r.acc == c.r.acc && (Active(t.r.fsm) ==> Going(k, depth, t, m))
      && if |ins| < ClocksLeft(depth, Seen(c), n) then Active(t.r.fsm)
         else t.r.fsm == S_DMAC || (t.r.fsm == S_RESP && EarlyAnswer(Seen(t)))
    decreases |ins|
  {
    hide Going;
    hide ChipNext;
    hide EarlyAnswer;
    hide ClocksLeft;
    hide Seen;
    hide Active;
    hide FirstPass;
    hide Pow2;
    hide Sib;
    m := n;
    StillToGo(k, depth, c, n);
    if ins != [] {
      CountedOff(k, depth, c, n, ins[0]);
      var t := ChipNext(k, depth, c, ins[0]);
      if ClocksLeft(depth, Seen(c), n) == 1 {
        assert ins[1..] == [];
        m := Left(c, n);
      } else {
        m := FirstPassRun(k, depth, t, Left(c, n), ins[1..]);
      }
    }
  }

  /** Behind it the answer comes in exactly this clock. */
  lemma {:induction false} RestRun(k: Keys, depth: nat, c: Chip, n: nat, ins: seq<In>)
    requires Going(k, depth, c, n) && !FirstPass(Seen(c)) && InRange(depth, ins) && |ins| <= ClocksLeft(depth, Seen(c), n)
    ensures var t := ChipAfter(k, depth, c, ins);
      && t.r.acc == c.r.acc
      && if |ins| < ClocksLeft(depth, Seen(c), n) then Active(t.r.fsm)
         else t.r.fsm == S_RESP && (t.r.acc.write ==> t.r.rsp.status == Spec.Ok)
    decreases |ins|
  {
    hide Going;
    hide ChipNext;
    hide ClocksLeft;
    hide Seen;
    hide Active;
    hide FirstPass;
    hide Pow2;
    hide Sib;
    StillToGo(k, depth, c, n);
    if ins != [] {
      CountedOff(k, depth, c, n, ins[0]);
      var t := ChipNext(k, depth, c, ins[0]);
      if ClocksLeft(depth, Seen(c), n) == 1 {
        assert ins[1..] == [];
      } else {
        RestRun(k, depth, t, Left(c, n), ins[1..]);
      }
    }
  }

  lemma {:induction false} ChipAfterSplit(k: Keys, depth: nat, c: Chip, first: seq<In>, rest: seq<In>)
    requires Shaped(depth, Seen(c)) && InRange(depth, first) && InRange(depth, rest)
    ensures InRange(depth, first + rest)
    ensures ChipAfter(k, depth, c, first + rest) == ChipAfter(k, depth, ChipAfter(k, depth, c, first), rest)
    decreases |first|
  {
    hide ChipNext;
    hide Seen;
    hide Pow2;
    hide Sib;
    if first == [] {
      assert first + rest == rest;
    } else {
      ChipShaped(k, depth, c, first[0]);
      assert (first + rest)[0] == first[0] && (first + rest)[1..] == first[1..] + rest;
      ChipAfterSplit(k, depth, ChipNext(k, depth, c, first[0]), first[1..], rest);
    }
  }

  lemma {:induction false} LinkedAfter(k: Keys, depth: nat, c: Chip, n: nat, ins: seq<In>) returns (m: nat)
    requires Shaped(depth, Seen(c)) && Linked(k, c, n) && InRange(depth, ins)
    ensures Linked(k, ChipAfter(k, depth, c, ins), m)
    decreases |ins|
  {
    hide Linked;
    hide ChipNext;
    hide Seen;
    hide Pow2;
    hide Sib;
    m := n;
    if ins != [] {
      ChipShaped(k, depth, c, ins[0]);
      ChipStep(k, depth, c, n, ins[0]);
      m := LinkedAfter(k, depth, ChipNext(k, depth, c, ins[0]), Left(c, n), ins[1..]);
    }
  }

  /** From the clock that accepts it, an access with a whole first pass, data MAC and commit takes this long. */
  function FullClocks(depth: nat, write: bool): nat
    requires depth >= 1
  {
    1 + PassClocks(depth) + RestClocks(depth, write)
  }

  /** Nothing is answered before the first pass has decided, and nothing after it but in the last clock. */
  ghost predicate AnsweredInTime(k: Keys, depth: nat, c: Chip, ins: seq<In>)
    requires Shaped(depth, Seen(c)) && InRange(depth, ins) && ins != []
  {
    var t, last := ChipAfter(k, depth, c, ins), FullClocks(depth, ins[0].write);
    if |ins| <= PassClocks(depth) then Active(t.r.fsm)
    else
      var d := ChipAfter(k, depth, c, ins[..1 + PassClocks(depth)]);
      && d.r.acc == Access(ins[0].blk, ins[0].write, ins[0].wdata, ins[0].ct, ins[0].mac, ins[0].ctr)
      && if d.r.fsm == S_RESP then EarlyAnswer(Seen(d))
         else d.r.fsm == S_DMAC && t.r.acc == d.r.acc
              && if |ins| < last then Active(t.r.fsm)
                 else t.r.fsm == S_RESP && (t.r.acc.write ==> t.r.rsp.status == Spec.Ok)
  }

  /**
   * Main result. Whatever storage shows, the first pass of an accepted access decides
   * after exactly `1 + 26 * depth` clocks: it refuses, it answers zeros for a block never
   * written, or it goes on. Then a read is answered exactly 26 clocks later, and a
   * write, with success, another `26 * depth + depth - 1` behind those; never before.
   */
  lemma AccessLatency(k: Keys, depth: nat, c: Chip, n: nat, ins: seq<In>)
    requires Shaped(depth, Seen(c)) && Linked(k, c, n) && InRange(depth, ins)
    requires ins != [] && Accepts(Seen(c), ins[0]) && |ins| <= FullClocks(depth, ins[0].write)
    ensures AnsweredInTime(k, depth, c, ins)
  {
    hide Linked;
    hide Going;
    hide ChipNext;
    hide EarlyAnswer;
    hide FirstPass;
    hide Pow2;
    hide Sib;
    hide Aes.BlockOf;
    ChipShaped(k, depth, c, ins[0]);
    AcceptStep(k, depth, c, n, ins[0]);
    var t, m := ChipNext(k, depth, c, ins[0]), Left(c, n);
    if |ins| <= 1 + PassClocks(depth) {
      var _ := FirstPassRun(k, depth, t, m, ins[1..]);
      assert ins[..|ins|] == ins;
    } else {
      DecidedThenRest(k, depth, c, t, m, ins);
    }
  }

  lemma DecidedThenRest(k: Keys, depth: nat, c: Chip, t: Chip, m: nat, ins: seq<In>)
    requires Shaped(depth, Seen(c)) && InRange(depth, ins) && 1 + PassClocks(depth) < |ins| <= FullClocks(depth, ins[0].write)
    requires t == ChipNext(k, depth, c, ins[0]) && Going(k, depth, t, m) && FirstPass(Seen(t)) && Shaped(depth, Seen(t))
    requires ClocksLeft(depth, Seen(t), m) == PassClocks(depth)
    requires t.r.acc == Access(ins[0].blk, ins[0].write, ins[0].wdata, ins[0].ct, ins[0].mac, ins[0].ctr)
    ensures AnsweredInTime(k, depth, c, ins)
  {
    hide Going;
    hide ChipNext;
    hide EarlyAnswer;
    hide Active;
    hide FirstPass;
    hide Pow2;
    hide Sib;
    hide Aes.BlockOf;
    var last := 1 + PassClocks(depth);
    var first, rest := ins[..last], ins[last..];
    assert ins == first + rest && first[0] == ins[0];
    var j := FirstPassRun(k, depth, t, m, first[1..]);
    var d := ChipAfter(k, depth, c, first);
    assert d == ChipAfter(k, depth, t, first[1..]);
    ChipAfterSplit(k, depth, c, first, rest);
    if d.r.fsm != S_RESP {
      DecidedLeft(depth, Seen(d), j);
      RestRun(k, depth, d, j, rest);
    }
  }

  lemma DecidedLeft(depth: nat, r: Rtl, n: nat)
    requires r.fsm == S_DMAC && r.walk.lvl < depth
    ensures !FirstPass(r) && Active(r.fsm) && ClocksLeft(depth, r, n) == RestClocks(depth, r.acc.write)
  {
  }

  /** So is every access of every run from an initialisation on. */
  lemma EveryAccessIsTimed(depth: nat, s: Init.Boot, c: Chip, before: seq<In>, ins: seq<In>)
    requires Init.Shaped(depth, s) && s.phase == Init.S_K1T && Init.CoreSane(s.aes) && C.Sane(s.cm) && s.cm.fsm == C.S_IDLE
    requires Init.GoesOn(depth, Init.Steps(depth, s, Init.Duration(depth, s)), c) && InRange(depth, before) && InRange(depth, ins)
    requires var k := Init.Steps(depth, s, Init.Duration(depth, s)).k;
      ins != [] && Accepts(Seen(ChipAfter(k, depth, c, before)), ins[0]) && |ins| <= FullClocks(depth, ins[0].write)
    ensures var k := Init.Steps(depth, s, Init.Duration(depth, s)).k; AnsweredInTime(k, depth, ChipAfter(k, depth, c, before), ins)
  {
    hide Init.Steps;
    hide Init.Duration;
    hide Init.TreeIs;
    hide Init.CiphersRest;
    hide Init.Shaped;
    hide Init.FirstOut;
    hide Linked;
    hide Shaped;
    hide Seen;
    hide EngineOf;
    hide Inv;
    hide Accepts;
    hide AnsweredInTime;
    hide Pow2;
    hide C.Sane;
    hide InRange;
    hide ChipAfter;
    var t := Init.Steps(depth, s, Init.Duration(depth, s));
    Init.InitBuildsTree(depth, s);
    Init.InitLeavesSound(t.k, depth, t, c);
    var m := LinkedAfter(t.k, depth, c, 0, before);
    AccessLatency(t.k, depth, ChipAfter(t.k, depth, c, before), m, ins);
  }
}
