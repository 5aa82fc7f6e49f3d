/**
 * The hardware engine, one clock edge at a time. In every clock the storage port
 * shows whatever the adversary wants it to show.
 */
module MitRtl {
  import opened Words
  import opened MitTree
  import opened MitSpec

  datatype Fsm = S_IDLE | S_PATH | S_PATH_W | S_DMAC | S_DMAC_W | S_COMMIT | S_RESP

  /** Latched when a request is accepted: the request and what storage showed for its block. */
  datatype Access = Access(blk: U32, write: bool, wdata: Block, ct: Block, mac: Block, was: Word)

  /** The walk up the path; `second` is the pass that recomputes it. */
  datatype Walk = Walk(h: Block, idx: nat, lvl: nat, second: bool, sib: seq<Block>, node: seq<Block>)

  datatype Key = TreeKey | MacKey

  /** The CMAC engine: busy with a message, or just done with a tag. */
  datatype Cm = Cm(busy: bool, key: Key, msg: (Block, Block), done: bool, tag: Block)

  /** The keystream cipher and the register its result goes to. */
  datatype Stream = Stream(busy: bool, input: Block, done: bool, out: Block, valid: bool, ks: Block)

  datatype Answer = Answer(status: Status, data: Block)

  datatype Rtl = Rtl(
    fsm: Fsm, root: Block, tamper: bool, acc: Access, ctr: Word, walk: Walk,
    newCt: Block, newMac: Block, cm: Cm, stream: Stream, rsp: Answer)

  /** One clock of inputs: a request, the storage port, and how far the two ciphers get. */
  datatype In = In(
    valid: bool, write: bool, blk: U32, wdata: Block,
    ct: Block, mac: Block, ctr: Word, sibCtr: Word, node: Block,
    cmFinishes: bool, aesFinishes: bool)

  function Tag(e: Engine, key: Key, msg: (Block, Block)): Block {
    if key == TreeKey then Hash(e, msg) else (e.mac)(msg.0, msg.1)
  }

  // ------------------------------------------------------------ combinational part

  /** The sibling hashed in this clock. */
  function PathSib(r: Rtl, i: In): Block
    requires r.walk.lvl < |r.walk.sib| && Sib(r.walk.idx) < 0x1_0000_0000
  {
    if r.walk.second then r.walk.sib[r.walk.lvl]
    else if r.walk.lvl == 0 then Leaf(Sib(r.walk.idx), i.sibCtr) else i.node
  }

  function MacTail(blk: U32, ctr: Word): Block { Block(Bits(blk), ctr, C_DMAC, C_VTF3) }

  function StreamIn(blk: U32, ctr: Word): Block { Block(Bits(blk), ctr, C_CTRK, C_VTF3) }

  function DmacMsg(r: Rtl): (Block, Block) {
    (if r.acc.write then Xor(r.acc.wdata, r.stream.ks) else r.acc.ct, MacTail(r.acc.blk, r.ctr))
  }

  /** The walk stays inside the tree. */
  ghost predicate Shaped(depth: nat, r: Rtl) {
    && 2 <= depth <= 32 && |r.walk.sib| == |r.walk.node| == depth
    && r.acc.blk < Pow2(depth) && r.walk.lvl < depth && Sib(r.walk.idx) < 0x1_0000_0000
  }

  function CmNext(e: Engine, r: Rtl, i: In): Cm
    requires r.walk.lvl < |r.walk.sib| && Sib(r.walk.idx) < 0x1_0000_0000
  {
    var cm := r.cm;
    if cm.busy then (if i.cmFinishes then Cm(false, cm.key, cm.msg, true, Tag(e, cm.key, cm.msg)) else cm)
    else if r.fsm == S_PATH then Cm(true, TreeKey, Pair(r.walk.idx, r.walk.h, PathSib(r, i)), false, cm.tag)
    else if r.fsm == S_DMAC then Cm(true, MacKey, DmacMsg(r), false, cm.tag)
    else cm.(done := false)
  }

  predicate Accepts(r: Rtl, i: In) { r.fsm == S_IDLE && i.valid }

  function StreamNext(e: Engine, r: Rtl, i: In): Stream {
    var s := r.stream;
    var valid := if Accepts(r, i) then false else s.valid || s.done;
    var ks := if s.done then s.out else s.ks;
    if s.busy then
      (if i.aesFinishes then Stream(false, s.input, true, (e.enc)(s.input), valid, ks)
       else s.(done := false, valid := valid, ks := ks))
    else if Accepts(r, i) then
      Stream(true, StreamIn(i.blk, if i.write then Bump(i.ctr) else i.ctr), false, s.out, valid, ks)
    else s.(done := false, valid := valid, ks := ks)
  }

  // ----------------------------------------------------------------- clocked part

  function Accept(r: Rtl, i: In): Rtl {
    r.(fsm := S_PATH, acc := Access(i.blk, i.write, i.wdata, i.ct, i.mac, i.ctr), ctr := i.ctr,
       walk := r.walk.(h := Leaf(i.blk, i.ctr), idx := i.blk, lvl := 0, second := false))
  }

  function PathStart(r: Rtl, i: In): Rtl
    requires r.walk.lvl < |r.walk.sib| && Sib(r.walk.idx) < 0x1_0000_0000
  {
    if r.cm.busy then r
    else
      var w := r.walk;
      r.(fsm := S_PATH_W, walk := if w.second then w else w.(sib := w.sib[w.lvl := PathSib(r, i)]))
  }

  function Reply(r: Rtl, status: Status, data: Block): Rtl {
    r.(fsm := S_RESP, rsp := Answer(status, data), tamper := r.tamper || status == Tamper)
  }

  /** The first pass has reached the top. */
  function Checked(r: Rtl): Rtl {
    if r.cm.tag != r.root then Reply(r, Tamper, ZERO)
    else if r.acc.write && r.acc.was == 0xFFFF_FFFF then Reply(r, Exhausted, ZERO)
    else if r.acc.write then r.(ctr := Bump(r.acc.was), fsm := S_DMAC)
    else if r.acc.was == 0 then Reply(r, Ok, ZERO)
    else r.(fsm := S_DMAC)
  }

  function PathEnd(depth: nat, r: Rtl): Rtl
    requires |r.walk.node| == depth && r.walk.lvl < depth
  {
    if !r.cm.done then r
    else
      var w := r.walk;
      var node := if w.second then w.node[w.lvl := r.cm.tag] else w.node;
      var up := r.(walk := w.(h := r.cm.tag, node := node, idx := w.idx / 2, lvl := w.lvl + 1));
      if w.lvl < depth - 1 then up.(fsm := S_PATH)
      else if w.second then up.(root := r.cm.tag, walk := up.walk.(lvl := 1), fsm := S_COMMIT)
      else Checked(up.(walk := up.walk.(lvl := 0)))
  }

  function DmacStart(r: Rtl): Rtl {
    if r.cm.busy || !r.stream.valid then r
    else r.(fsm := S_DMAC_W, newCt := if r.acc.write then Xor(r.acc.wdata, r.stream.ks) else r.newCt)
  }

  function DmacEnd(r: Rtl): Rtl {
    if !r.cm.done then r
    else if r.acc.write then
      r.(newMac := r.cm.tag, fsm := S_PATH,
         walk := r.walk.(h := Leaf(r.acc.blk, r.ctr), idx := r.acc.blk, lvl := 0, second := true))
    else if r.cm.tag != r.acc.mac then Reply(r, Tamper, ZERO)
    else Reply(r, Ok, Xor(r.acc.ct, r.stream.ks))
  }

  function Commit(depth: nat, r: Rtl): Rtl {
    if r.walk.lvl == depth - 1 then Reply(r, Ok, ZERO) else r.(walk := r.walk.(lvl := r.walk.lvl + 1))
  }

  function Control(depth: nat, r: Rtl, i: In): Rtl
    requires |r.walk.node| == |r.walk.sib| == depth && r.walk.lvl < depth && Sib(r.walk.idx) < 0x1_0000_0000
  {
    match r.fsm
    case S_IDLE => if i.valid then Accept(r, i) else r
    case S_PATH => PathStart(r, i)
    case S_PATH_W => PathEnd(depth, r)
    case S_DMAC => DmacStart(r)
    case S_DMAC_W => DmacEnd(r)
    case S_COMMIT => Commit(depth, r)
    case S_RESP => r.(fsm := S_IDLE)
  }

  /** One clock edge. */
  function Next(e: Engine, depth: nat, r: Rtl, i: In): Rtl
    requires |r.walk.node| == |r.walk.sib| == depth && r.walk.lvl < depth && Sib(r.walk.idx) < 0x1_0000_0000
  {
    Control(depth, r, i).(cm := CmNext(e, r, i), stream := StreamNext(e, r, i))
  }

  // ------------------------------------------------------------------- the history

  /** The root register is being replaced in this clock: the write takes effect. */
  predicate TakesEffect(depth: nat, r: Rtl) {
    r.fsm == S_PATH_W && r.cm.done && r.walk.lvl == depth - 1 && r.walk.second
  }

  function HistoryNext(e: Engine, depth: nat, r: Rtl, h: History): History
    requires |h.ctrs| == |h.plain| && r.acc.blk < |h.ctrs|
  {
    if TakesEffect(depth, r) then WriteHistory(e, h, r.acc.blk, r.acc.wdata) else h
  }

  // ------------------------------------------------------------------ the invariant

  /** The keystream cipher, started first and half as long, is done before any tag is. */
  predicate InTime(r: Rtl, i: In) { r.cm.busy && i.cmFinishes ==> !r.stream.busy }

  predicate Active(t: Fsm) { t != S_IDLE && t != S_RESP }

  /** The counter the keystream of an access is made with. */
  function StreamCtr(a: Access): Word { if a.write then Bump(a.was) else a.was }

  predicate StreamIdle(s: Stream) { !s.busy && !s.done }

  /** The keystream, once valid, belongs to this block and the counter latched with it. */
  predicate StreamOk(e: Engine, r: Rtl) {
    var s := r.stream;
    && !(s.busy && s.done)
    && (!Active(r.fsm) || r.fsm == S_COMMIT || r.cm.done || s.valid ==> StreamIdle(s))
    && (s.busy ==> s.input == StreamIn(r.acc.blk, StreamCtr(r.acc)))
    && (s.done ==> s.out == (e.enc)(StreamIn(r.acc.blk, StreamCtr(r.acc))))
    && (Active(r.fsm) && s.valid ==> s.ks == KeyStream(e, r.acc.blk, StreamCtr(r.acc)))
  }

  predicate CmOk(e: Engine, r: Rtl) {
    && !(r.cm.busy && r.cm.done)
    && (r.cm.done ==> r.cm.tag == Tag(e, r.cm.key, r.cm.msg))
    && (r.cm.busy ==> r.fsm == S_PATH_W || r.fsm == S_DMAC || r.fsm == S_DMAC_W)
  }

  /** The node the walk stands on is the path's, with the counter of this pass. */
  ghost predicate WalkOk(e: Engine, r: Rtl)
    requires r.walk.lvl < |r.walk.sib| == |r.walk.node|
  {
    var w := r.walk;
    && w.idx == Index(r.acc.blk, w.lvl)
    && w.h == PathNode(e, r.acc.blk, r.ctr, w.sib, w.lvl)
    && (r.fsm == S_PATH_W ==>
          (r.cm.busy || r.cm.done) && r.cm.key == TreeKey && r.cm.msg == PathMsg(e, r.acc.blk, r.ctr, w.sib, w.lvl))
    && (w.second ==> NodesOk(e, r, w.lvl))
  }

  /** The recomputed nodes of the levels below `n`. */
  ghost predicate NodesOk(e: Engine, r: Rtl, n: nat)
    requires n <= |r.walk.sib| == |r.walk.node|
  {
    forall l :: 1 <= l <= n ==> r.walk.node[l - 1] == PathNode(e, r.acc.blk, r.ctr, r.walk.sib, l)
  }

  /** The first pass found the true counter and the true siblings. */
  ghost predicate Verified(e: Engine, depth: nat, r: Rtl, ctrs: seq<Word>)
    requires Sized(depth, ctrs) && r.acc.blk < |ctrs| && |r.walk.sib| == depth
  {
    PathHonest(e, depth, ctrs, r.acc.blk, r.acc.was, r.walk.sib, depth)
  }

  predicate NewCt(e: Engine, r: Rtl) { r.newCt == Xor(r.acc.wdata, KeyStream(e, r.acc.blk, r.ctr)) }

  ghost predicate PathOk(e: Engine, depth: nat, r: Rtl, ctrs: seq<Word>)
    requires Sized(depth, ctrs) && r.acc.blk < |ctrs| && Shaped(depth, r)
  {
    && WalkOk(e, r)
    && if r.walk.second then r.acc.write && r.acc.was != 0xFFFF_FFFF && r.ctr == Bump(r.acc.was) && Verified(e, depth, r, ctrs)
       else r.ctr == r.acc.was
  }

  ghost predicate MacOk(e: Engine, depth: nat, r: Rtl, ctrs: seq<Word>)
    requires Sized(depth, ctrs) && r.acc.blk < |ctrs| && Shaped(depth, r)
  {
    && Verified(e, depth, r, ctrs) && r.ctr == StreamCtr(r.acc)
    && (if r.acc.write then r.acc.was != 0xFFFF_FFFF else r.acc.was != 0)
    && (r.fsm == S_DMAC_W ==>
          (r.cm.busy || r.cm.done) && r.cm.key == MacKey && r.cm.msg == DmacMsg(r) && r.stream.valid)
  }

  /** A successful answer is right: a read returns, and a write has become, the block's plaintext. */
  predicate AnswerRight(r: Rtl, h: History)
    requires r.acc.blk < |h.plain|
  {
    r.rsp.status == Ok ==> h.plain[r.acc.blk] == if r.acc.write then r.acc.wdata else r.rsp.data
  }

  /** The trusted registers and the ciphers are in order. */
  ghost predicate Base(e: Engine, depth: nat, r: Rtl, h: History) {
    && Shaped(depth, r) && Sized(depth, h.ctrs) && Recorded(e, h) && r.root == Root(e, depth, h.ctrs)
    && CmOk(e, r) && StreamOk(e, r)
  }

  /** How far the access in progress has come. */
  ghost predicate Job(e: Engine, depth: nat, r: Rtl, h: History)
    requires Shaped(depth, r) && Sized(depth, h.ctrs) && |h.plain| == |h.ctrs|
  {
    && (r.fsm == S_PATH || r.fsm == S_PATH_W ==> PathOk(e, depth, r, h.ctrs))
    && (r.fsm == S_DMAC || r.fsm == S_DMAC_W ==> MacOk(e, depth, r, h.ctrs))
    && (r.fsm == S_COMMIT ==> r.acc.write && 1 <= r.walk.lvl && h.plain[r.acc.blk] == r.acc.wdata)
    && (r.fsm == S_RESP ==> AnswerRight(r, h))
  }

  ghost predicate Inv(e: Engine, depth: nat, r: Rtl, h: History) {
    Base(e, depth, r, h) && Job(e, depth, r, h)
  }

  /** In this clock a tree collision or a forged data MAC is being accepted. */
  ghost predicate Breaks(e: Engine, depth: nat, r: Rtl, h: History)
    requires Shaped(depth, r) && Sized(depth, h.ctrs)
  {
    || (&& r.fsm == S_PATH_W && r.cm.done && r.walk.lvl == depth - 1 && !r.walk.second && r.cm.tag == r.root
        && exists l :: 0 <= l < depth && CollidesAt(e, depth, h.ctrs, r.acc.blk, r.acc.was, r.walk.sib, l))
    || (&& r.fsm == S_DMAC_W && r.cm.done && !r.acc.write && r.cm.tag == r.acc.mac
        && ((r.acc.blk as nat, r.ctr) in h.used ==> h.used[(r.acc.blk as nat, r.ctr)] != r.acc.ct))
  }

  // ------------------------------------------------------------------------- steps

  lemma SibFits(depth: nat, blk: U32, l: nat)
    requires 2 <= depth <= 32 && blk < Pow2(depth)
    ensures Index(blk, l) <= blk && Sib(Index(blk, l)) < 0x1_0000_0000
  {
    Pow2Monotone(depth, 32);
    Pow2Is32();
    IndexShrinks(blk, l);
  }

  lemma {:induction false} IndexShrinks(blk: nat, l: nat)
    ensures Index(blk, l) <= blk
  {
    if l > 0 { IndexShrinks(blk, l - 1); }
  }

  /** Siblings beyond a level do not matter to the path below it. */
  lemma {:induction false} PathPrefix(e: Engine, blk: U32, ctr: Word, s: seq<Block>, t: seq<Block>, l: nat)
    requires l <= |s| == |t| && forall k :: 0 <= k < l ==> s[k] == t[k]
    ensures PathNode(e, blk, ctr, s, l) == PathNode(e, blk, ctr, t, l)
  {
    hide Hash;
    hide Leaf;
    hide Pair;
    if l > 0 { PathPrefix(e, blk, ctr, s, t, l - 1); }
  }

  lemma CmStep(e: Engine, depth: nat, r: Rtl, i: In)
    requires Shaped(depth, r) && CmOk(e, r) && StreamOk(e, r) && InTime(r, i)
    ensures var n := Next(e, depth, r, i);
      && !(n.cm.busy && n.cm.done) && (n.cm.done ==> n.cm.tag == Tag(e, n.cm.key, n.cm.msg))
      && (n.cm.done ==> r.cm.busy) && (n.cm.done ==> StreamIdle(n.stream))
  {
    hide Tag;
    hide Control;
    hide PathSib;
    hide DmacMsg;
  }

  /** How the control moves, as far as the ciphers care. */
  lemma FsmStep(e: Engine, depth: nat, r: Rtl, i: In)
    requires Shaped(depth, r)
    ensures var n := Next(e, depth, r, i);
      && n.acc == (if Accepts(r, i) then Access(i.blk, i.write, i.wdata, i.ct, i.mac, i.ctr) else r.acc)
      && (Accepts(r, i) ==> n.fsm == S_PATH)
      && (n.fsm == S_IDLE ==> r.fsm == S_IDLE || r.fsm == S_RESP)
      && (n.fsm == S_RESP ==> r.fsm == S_COMMIT || r.cm.done)
      && (n.fsm == S_COMMIT ==> r.fsm == S_COMMIT || r.cm.done)
      && (Active(n.fsm) ==> Accepts(r, i) || Active(r.fsm))
  {
    hide CmNext;
    hide StreamNext;
    hide Leaf;
    hide PathSib;
    hide Xor;
  }

  lemma StreamStep(e: Engine, depth: nat, r: Rtl, i: In)
    requires Shaped(depth, r) && CmOk(e, r) && StreamOk(e, r) && InTime(r, i)
    ensures StreamOk(e, Next(e, depth, r, i))
  {
    hide Control;
    hide Tag;
    hide CmNext;
    hide Bits;
    hide Bump;
    CmStep(e, depth, r, i);
    FsmStep(e, depth, r, i);
  }

  ghost predicate Ready(e: Engine, depth: nat, r: Rtl, h: History, i: In) {
    Inv(e, depth, r, h) && i.blk < Pow2(depth) && InTime(r, i) && !Breaks(e, depth, r, h)
  }

  ghost predicate Goes(e: Engine, depth: nat, n: Rtl, k: History) {
    && Shaped(depth, n) && Sized(depth, k.ctrs) && Recorded(e, k) && n.root == Root(e, depth, k.ctrs)
    && |k.plain| == |k.ctrs| && Job(e, depth, n, k)
    && (n.cm.busy ==> n.fsm == S_PATH_W || n.fsm == S_DMAC || n.fsm == S_DMAC_W)
  }

  lemma IdleStep(e: Engine, depth: nat, r: Rtl, h: History, i: In)
    requires Ready(e, depth, r, h, i) && (r.fsm == S_IDLE || r.fsm == S_RESP)
    ensures Goes(e, depth, Next(e, depth, r, i), HistoryNext(e, depth, r, h))
  {
    hide StreamNext;
    hide Root;
    hide Leaf;
    hide Recorded;
    hide Breaks;
    RecordedShape(e, h);
    SibFits(depth, i.blk, 0);
  }

  /** The sibling of this clock is hashed and, in the first pass, kept. */
  lemma PathStartStep(e: Engine, depth: nat, r: Rtl, h: History, i: In)
    requires Ready(e, depth, r, h, i) && r.fsm == S_PATH
    ensures Goes(e, depth, Next(e, depth, r, i), HistoryNext(e, depth, r, h))
  {
    hide StreamNext;
    hide Root;
    hide Leaf;
    hide Recorded;
    hide Breaks;
    hide PathNode;
    hide Pair;
    hide PathHonest;
    hide StreamOk;
    RecordedShape(e, h);
    var n := Next(e, depth, r, i);
    PathPrefix(e, r.acc.blk, r.ctr, r.walk.sib, n.walk.sib, r.walk.lvl);
  }

  lemma PathEndShape(e: Engine, depth: nat, r: Rtl, i: In)
    requires Shaped(depth, r) && r.fsm == S_PATH_W && r.walk.idx == Index(r.acc.blk, r.walk.lvl)
    ensures var n := Next(e, depth, r, i); Shaped(depth, n) && n.walk.sib == r.walk.sib && n.acc == r.acc
  {
    hide CmNext;
    hide StreamNext;
    SibFits(depth, r.acc.blk, r.walk.lvl + 1);
  }

  lemma PathWaitStep(e: Engine, depth: nat, r: Rtl, h: History, i: In)
    requires Ready(e, depth, r, h, i) && r.fsm == S_PATH_W && !r.cm.done
    ensures Goes(e, depth, Next(e, depth, r, i), HistoryNext(e, depth, r, h))
  {
    hide StreamNext;
    hide Root;
    hide Leaf;
    hide Recorded;
    hide Breaks;
    hide PathNode;
    hide Pair;
    hide PathHonest;
    hide StreamOk;
    RecordedShape(e, h);
  }

  /** One level up: the walk stands on the next node of its path. */
  lemma PathUpMoves(e: Engine, depth: nat, r: Rtl, i: In)
    requires Shaped(depth, r) && CmOk(e, r) && WalkOk(e, r)
    requires r.fsm == S_PATH_W && r.cm.done && r.walk.lvl < depth - 1
    ensures var n := Next(e, depth, r, i);
      && Shaped(depth, n) && n.fsm == S_PATH && !n.cm.busy && n.walk.lvl == r.walk.lvl + 1
      && n.acc == r.acc && n.root == r.root && n.tamper == r.tamper && n.ctr == r.ctr && n.newCt == r.newCt && n.newMac == r.newMac
      && n.walk.second == r.walk.second && n.walk.sib == r.walk.sib && WalkOk(e, n)
  {
    hide StreamNext;
    hide Leaf;
    hide Pair;
    hide Pow2;
    hide Sib;
    PathEndShape(e, depth, r, i);
  }

  lemma PathUpStep(e: Engine, depth: nat, r: Rtl, h: History, i: In)
    requires Ready(e, depth, r, h, i) && r.fsm == S_PATH_W && r.cm.done && r.walk.lvl < depth - 1
    ensures Goes(e, depth, Next(e, depth, r, i), HistoryNext(e, depth, r, h))
  {
    hide Next;
    hide StreamOk;
    hide CmOk;
    hide WalkOk;
    hide MacOk;
    hide Root;
    hide Recorded;
    hide Breaks;
    hide PathHonest;
    hide Bump;
    RecordedShape(e, h);
    PathUpMoves(e, depth, r, i);
  }

  /** The first pass ends: only the true counter and siblings get past the root, short of a collision. */
  lemma CheckStep(e: Engine, depth: nat, r: Rtl, h: History, i: In)
    requires Ready(e, depth, r, h, i) && r.fsm == S_PATH_W && r.cm.done && r.walk.lvl == depth - 1 && !r.walk.second
    ensures Goes(e, depth, Next(e, depth, r, i), HistoryNext(e, depth, r, h))
  {
    hide StreamNext;
    hide Root;
    hide Leaf;
    hide Recorded;
    hide Pair;
    hide PathHonest;
    hide StreamOk;
    hide CollidesAt;
    RecordedShape(e, h);
    PathEndShape(e, depth, r, i);
    TopTag(e, depth, r);
    if r.cm.tag == r.root {
      RootChecks(e, depth, h.ctrs, r.acc.blk, r.acc.was, r.walk.sib);
      NeverWritten(e, depth, r, h);
    }
    hide PathNode;
  }

  lemma TopTag(e: Engine, depth: nat, r: Rtl)
    requires Shaped(depth, r) && CmOk(e, r) && WalkOk(e, r) && r.fsm == S_PATH_W && r.cm.done && r.walk.lvl == depth - 1
    ensures r.cm.tag == PathNode(e, r.acc.blk, r.ctr, r.walk.sib, depth)
  {
    hide Hash;
    hide Pair;
    hide Leaf;
  }

  lemma NeverWritten(e: Engine, depth: nat, r: Rtl, h: History)
    requires Sized(depth, h.ctrs) && Recorded(e, h) && Shaped(depth, r) && r.acc.blk < |h.ctrs|
    ensures PathHonest(e, depth, h.ctrs, r.acc.blk, r.acc.was, r.walk.sib, depth) && r.acc.was == 0 ==> h.plain[r.acc.blk] == ZERO
  {
    hide HonestSib;
    assert RecordedAt(e, h, r.acc.blk);
  }

  /** The second pass ends: the new root stands for the new counters. */
  lemma EffectStep(e: Engine, depth: nat, r: Rtl, h: History, i: In)
    requires Ready(e, depth, r, h, i) && r.fsm == S_PATH_W && r.cm.done && r.walk.lvl == depth - 1 && r.walk.second
    ensures Goes(e, depth, Next(e, depth, r, i), HistoryNext(e, depth, r, h))
  {
    hide StreamNext;
    hide Root;
    hide Leaf;
    hide Recorded;
    hide Pair;
    hide StreamOk;
    hide HonestSib;
    hide Breaks;
    hide KeyStream;
    hide Xor;
    hide Bump;
    RecordedShape(e, h);
    PathEndShape(e, depth, r, i);
    TopTag(e, depth, r);
    hide PathNode;
    UpdatedRoot(e, depth, h.ctrs, r.acc.blk, r.ctr, r.walk.sib);
    HistoryGrows(e, h, r.acc.blk, r.acc.wdata);
    RecordedShape(e, HistoryNext(e, depth, r, h));
  }

  /** The data MAC is started on the keystream that belongs to the verified counter. */
  lemma DmacStartStep(e: Engine, depth: nat, r: Rtl, h: History, i: In)
    requires Ready(e, depth, r, h, i) && r.fsm == S_DMAC
    ensures Goes(e, depth, Next(e, depth, r, i), HistoryNext(e, depth, r, h))
  {
    hide Root;
    hide Recorded;
    hide Breaks;
    hide PathNode;
    hide PathHonest;
    hide KeyStream;
    hide Xor;
    hide MacTail;
    hide Bump;
    hide Tag;
    RecordedShape(e, h);
  }

  lemma DmacWaitStep(e: Engine, depth: nat, r: Rtl, h: History, i: In)
    requires Ready(e, depth, r, h, i) && r.fsm == S_DMAC_W && !r.cm.done
    ensures Goes(e, depth, Next(e, depth, r, i), HistoryNext(e, depth, r, h))
  {
    hide Root;
    hide Recorded;
    hide Breaks;
    hide PathNode;
    hide PathHonest;
    hide KeyStream;
    hide Xor;
    hide MacTail;
    hide Bump;
    hide Tag;
    RecordedShape(e, h);
  }

  /** A write goes on to the second pass. */
  lemma DmacWriteStep(e: Engine, depth: nat, r: Rtl, h: History, i: In)
    requires Ready(e, depth, r, h, i) && r.fsm == S_DMAC_W && r.cm.done && r.acc.write
    ensures Goes(e, depth, Next(e, depth, r, i), HistoryNext(e, depth, r, h))
  {
    hide StreamNext;
    hide Root;
    hide Recorded;
    hide Breaks;
    hide PathHonest;
    hide StreamOk;
    hide Xor;
    hide MacTail;
    hide Leaf;
    hide Bump;
    hide Tag;
    RecordedShape(e, h);
    SibFits(depth, r.acc.blk, 0);
  }

  /** A read ends: a good data MAC, short of a forgery, is on the last ciphertext written. */
  lemma DmacReadStep(e: Engine, depth: nat, r: Rtl, h: History, i: In)
    requires Ready(e, depth, r, h, i) && r.fsm == S_DMAC_W && r.cm.done && !r.acc.write
    ensures Goes(e, depth, Next(e, depth, r, i), HistoryNext(e, depth, r, h))
  {
    hide StreamNext;
    hide Root;
    hide KeyStream;
    hide Xor;
    hide MacTail;
    hide HonestSib;
    hide Tag;
    hide Recorded;
    RecordedShape(e, h);
    RecordedHere(e, h, r.acc.blk);
    XorUndoes(h.plain[r.acc.blk], KeyStream(e, r.acc.blk, r.acc.was));
  }

  lemma CommitIs(e: Engine, depth: nat, r: Rtl, i: In)
    requires Shaped(depth, r) && r.fsm == S_COMMIT && 1 <= r.walk.lvl && CmOk(e, r)
    ensures var n := Next(e, depth, r, i);
      && Shaped(depth, n) && n.acc == r.acc && n.root == r.root && 1 <= n.walk.lvl && !n.cm.busy
      && (n.fsm == S_COMMIT || n.fsm == S_RESP)
  {
    hide StreamNext;
    hide Pow2;
    hide Sib;
    hide Tag;
  }

  lemma CommitStep(e: Engine, depth: nat, r: Rtl, h: History, i: In)
    requires Ready(e, depth, r, h, i) && r.fsm == S_COMMIT
    ensures Goes(e, depth, Next(e, depth, r, i), HistoryNext(e, depth, r, h))
  {
    hide Next;
    hide StreamOk;
    hide CmOk;
    hide Recorded;
    hide Sized;
    hide Root;
    hide Breaks;
    hide PathOk;
    hide MacOk;
    hide WriteHistory;
    RecordedShape(e, h);
    CommitIs(e, depth, r, i);
  }

  /** Whatever storage shows in this clock, the engine's trusted state stays true, short of a break. */
  lemma EngineStep(e: Engine, depth: nat, r: Rtl, h: History, i: In)
    requires Shaped(depth, r) && |h.ctrs| == |h.plain| && r.acc.blk < |h.ctrs| && Ready(e, depth, r, h, i)
    ensures Inv(e, depth, Next(e, depth, r, i), HistoryNext(e, depth, r, h))
  {
    if r.fsm == S_IDLE || r.fsm == S_RESP { IdleStep(e, depth, r, h, i); }
    else if r.fsm == S_PATH { PathStartStep(e, depth, r, h, i); }
    else if r.fsm == S_PATH_W {
      if !r.cm.done { PathWaitStep(e, depth, r, h, i); }
      else if r.walk.lvl < depth - 1 { PathUpStep(e, depth, r, h, i); }
      else if !r.walk.second { CheckStep(e, depth, r, h, i); }
      else { EffectStep(e, depth, r, h, i); }
    }
    else if r.fsm == S_DMAC { DmacStartStep(e, depth, r, h, i); }
    else if r.fsm == S_DMAC_W {
      if !r.cm.done { DmacWaitStep(e, depth, r, h, i); }
      else if r.acc.write { DmacWriteStep(e, depth, r, h, i); }
      else { DmacReadStep(e, depth, r, h, i); }
    }
    else { CommitStep(e, depth, r, h, i); }
    CmStep(e, depth, r, i);
    StreamStep(e, depth, r, i);
    hide Next;
    hide HistoryNext;
    hide StreamOk;
    hide Job;
    hide Recorded;
    hide Root;
    hide Breaks;
    hide Tag;
  }

  // ---------------------------------------------------------------------- whole runs

  /** Every answer of the run is right, until a clock that accepts a collision or a forgery. */
  ghost predicate RunIsRight(e: Engine, depth: nat, r: Rtl, h: History, ins: seq<In>)
    requires Shaped(depth, r) && |h.plain| == |h.ctrs| == Pow2(depth) && Sized(depth, h.ctrs)
    decreases |ins|
  {
    && (r.fsm == S_RESP ==> AnswerRight(r, h))
    && (|| ins == [] || Breaks(e, depth, r, h)
        || (var n, k := Next(e, depth, r, ins[0]), HistoryNext(e, depth, r, h);
            Shaped(depth, n) && |k.plain| == |k.ctrs| == Pow2(depth) && RunIsRight(e, depth, n, k, ins[1..])))
  }

  /** Requests for blocks of the memory, and ciphers that keep time. */
  ghost predicate FairRun(e: Engine, depth: nat, r: Rtl, ins: seq<In>)
    requires Shaped(depth, r)
    decreases |ins|
  {
    ins == [] ||
    (&& ins[0].blk < Pow2(depth) && InTime(r, ins[0])
     && (Shaped(depth, Next(e, depth, r, ins[0])) ==> FairRun(e, depth, Next(e, depth, r, ins[0]), ins[1..])))
  }

  /**
   * Storage may change in every clock, in the middle of an access too: every
   * successful answer is right, as long as no clock accepts a tree collision or a
   * forged data MAC.
   */
  lemma {:induction false} EveryRunIsRight(e: Engine, depth: nat, r: Rtl, h: History, ins: seq<In>)
    requires Inv(e, depth, r, h) && Shaped(depth, r) && |h.plain| == |h.ctrs| == Pow2(depth) && Sized(depth, h.ctrs)
    requires FairRun(e, depth, r, ins)
    ensures RunIsRight(e, depth, r, h, ins)
    decreases |ins|
  {
    assert r.fsm == S_RESP ==> AnswerRight(r, h);
    if ins != [] && !Breaks(e, depth, r, h) {
      EngineStep(e, depth, r, h, ins[0]);
      var n, k := Next(e, depth, r, ins[0]), HistoryNext(e, depth, r, h);
      RecordedShape(e, k);
      EveryRunIsRight(e, depth, n, k, ins[1..]);
    }
    hide Job;
    hide StreamOk;
    hide CmOk;
    hide Recorded;
    hide Root;
    hide Breaks;
    hide Next;
    hide HistoryNext;
    hide AnswerRight;
  }
}
