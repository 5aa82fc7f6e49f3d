/**
 * Reads and writes through the integrity engine over storage that an adversary
 * may rewrite at any time, and what they can be trusted for.
 */
module MitSpec {
  import opened Words
  import opened MitTree

  datatype Status = Ok | Tamper | Exhausted

  /** Everything outside the trust boundary. */
  datatype Store = Store(ct: seq<Block>, mac: seq<Block>, ctr: seq<Word>, node: seq<Block>) {
    predicate Shaped(depth: nat) {
      |ct| == |mac| == |ctr| == Pow2(depth) && |node| + 2 == Pow2(depth)
    }
  }

  /** The storage with the trusted root register and the sticky tamper flag. */
  datatype Mit = Mit(store: Store, root: Block, tamper: bool)

  ghost predicate Shaped(depth: nat, m: Mit) { 1 <= depth <= 32 && m.store.Shaped(depth) }

  /** The next write counter. */
  function Bump(c: Word): Word { c + 1 }

  function KeyStream(e: Engine, blk: U32, ctr: Word): Block { (e.enc)(Block(Bits(blk), ctr, C_CTRK, C_VTF3)) }

  function DataMac(e: Engine, blk: U32, ctr: Word, ct: Block): Block {
    (e.mac)(ct, Block(Bits(blk), ctr, C_DMAC, C_VTF3))
  }

  /** The sibling that storage offers beside the path at level `l`. */
  ghost function StoredSib(depth: nat, st: Store, blk: U32, l: nat): Block
    requires 1 <= depth <= 32 && st.Shaped(depth) && blk < Pow2(depth) && l < depth
  {
    SizedFits(depth, st.ctr);
    IndexInLevel(depth, blk, l);
    if l == 0 then Leaf(Sib(blk), st.ctr[Sib(blk)])
    else
      SlotsDisjoint(depth, l, Sib(Index(blk, l)), l, Sib(Index(blk, l)));
      st.node[Off(depth, l) + Sib(Index(blk, l))]
  }

  ghost function StoredSibs(depth: nat, st: Store, blk: U32): (s: seq<Block>)
    requires 1 <= depth <= 32 && st.Shaped(depth) && blk < Pow2(depth)
    ensures |s| == depth && forall l :: 0 <= l < depth ==> s[l] == StoredSib(depth, st, blk, l)
  {
    seq(depth, l requires 0 <= l < depth => StoredSib(depth, st, blk, l))
  }

  ghost predicate PathOk(e: Engine, depth: nat, m: Mit, blk: U32)
    requires Shaped(depth, m) && blk < Pow2(depth)
  {
    PathNode(e, blk, m.store.ctr[blk], StoredSibs(depth, m.store, blk), depth) == m.root
  }

  datatype ReadResult = ReadResult(status: Status, out: Block)

  ghost function Read(e: Engine, depth: nat, m: Mit, blk: U32): ReadResult
    requires Shaped(depth, m) && blk < Pow2(depth)
  {
    var ct, ctr := m.store.ct[blk], m.store.ctr[blk];
    if !PathOk(e, depth, m, blk) then ReadResult(Tamper, ZERO)
    else if ctr == 0 then ReadResult(Ok, ZERO)
    else if DataMac(e, blk, ctr, ct) != m.store.mac[blk] then ReadResult(Tamper, ZERO)
    else ReadResult(Ok, Xor(ct, KeyStream(e, blk, ctr)))
  }

  ghost function WriteStatus(e: Engine, depth: nat, m: Mit, blk: U32): Status
    requires Shaped(depth, m) && blk < Pow2(depth)
  {
    if !PathOk(e, depth, m, blk) then Tamper else if m.store.ctr[blk] == 0xFFFF_FFFF then Exhausted else Ok
  }

  /** The stored nodes with the path's levels 1 to `l` replaced. */
  ghost function PutNodes(e: Engine, depth: nat, node: seq<Block>, blk: U32, ctr: Word, sibs: seq<Block>, l: nat): (n: seq<Block>)
    requires 1 <= depth <= 32 && |node| + 2 == Pow2(depth) && blk < Pow2(depth) && |sibs| == depth && l < depth
    ensures |n| == |node|
  {
    if l == 0 then node
    else
      IndexInLevel(depth, blk, l);
      SlotsDisjoint(depth, l, Index(blk, l), l, Index(blk, l));
      PutNodes(e, depth, node, blk, ctr, sibs, l - 1)[Off(depth, l) + Index(blk, l) := PathNode(e, blk, ctr, sibs, l)]
  }

  /** What a successful write of `pt` does. */
  ghost function Written(e: Engine, depth: nat, m: Mit, blk: U32, pt: Block): (n: Mit)
    requires Shaped(depth, m) && blk < Pow2(depth)
    ensures Shaped(depth, n)
  {
    var st, ctr, sibs := m.store, Bump(m.store.ctr[blk]), StoredSibs(depth, m.store, blk);
    var ct := Xor(pt, KeyStream(e, blk, ctr));
    Mit(Store(st.ct[blk := ct], st.mac[blk := DataMac(e, blk, ctr, ct)], st.ctr[blk := ctr],
              PutNodes(e, depth, st.node, blk, ctr, sibs, depth - 1)),
        PathNode(e, blk, ctr, sibs, depth), m.tamper)
  }

  // --------------------------------------------------------------------- the history

  /**
   * What really happened: the write counters, the plaintext of the last successful
   * write to each block, and for every (block, counter) that was used the
   * ciphertext it was used for.
   */
  datatype History = History(ctrs: seq<Word>, plain: seq<Block>, used: map<(nat, Word), Block>)

  ghost predicate Recorded(e: Engine, h: History) {
    && |h.plain| == |h.ctrs| <= 0x1_0000_0000
    && (forall b :: 0 <= b < |h.ctrs| ==> RecordedAt(e, h, b))
    && (forall k :: k in h.used ==> k.0 < |h.ctrs| && Used(k.1, h.ctrs[k.0]))
  }

  ghost predicate RecordedAt(e: Engine, h: History, b: U32)
    requires b < |h.ctrs| == |h.plain|
  {
    if h.ctrs[b] == 0 then h.plain[b] == ZERO
    else (b as nat, h.ctrs[b]) in h.used && h.used[(b as nat, h.ctrs[b])] == Xor(h.plain[b], KeyStream(e, b, h.ctrs[b]))
  }

  lemma RecordedHere(e: Engine, h: History, b: U32)
    requires Recorded(e, h) && b < |h.ctrs|
    ensures RecordedAt(e, h, b)
  {
  }

  /** The root register stands for the true counters. Nothing is said about the storage. */
  ghost predicate Trusted(e: Engine, depth: nat, m: Mit, h: History) {
    Shaped(depth, m) && Sized(depth, h.ctrs) && m.root == Root(e, depth, h.ctrs) && Recorded(e, h)
  }

  /** The stored path of a block hashes, at some level, a message that collides with the true one. */
  ghost predicate MeetsCollision(e: Engine, depth: nat, m: Mit, h: History, blk: U32)
    requires Shaped(depth, m) && blk < Pow2(depth) && Sized(depth, h.ctrs)
  {
    exists l :: 0 <= l < depth &&
      CollidesAt(e, depth, h.ctrs, blk, m.store.ctr[blk], StoredSibs(depth, m.store, blk), l)
  }

  /** The stored MAC of a block is right for a triple that was never MACed. */
  ghost predicate MeetsForgery(e: Engine, depth: nat, m: Mit, h: History, blk: U32)
    requires Shaped(depth, m) && blk < Pow2(depth)
  {
    var ct, ctr := m.store.ct[blk], m.store.ctr[blk];
    && ctr != 0 && DataMac(e, blk, ctr, ct) == m.store.mac[blk]
    && ((blk as nat, ctr) in h.used ==> h.used[(blk as nat, ctr)] != ct)
  }

  lemma XorWordUndoes(a: Word, k: Word)
    ensures (a ^ k) ^ k == a
  {
  }

  lemma XorUndoes(a: Block, k: Block)
    ensures Xor(Xor(a, k), k) == a
  {
    XorWordUndoes(a.w0, k.w0);
    XorWordUndoes(a.w1, k.w1);
    XorWordUndoes(a.w2, k.w2);
    XorWordUndoes(a.w3, k.w3);
  }

  /** A read that succeeds returns the last plaintext written, or a collision or forgery is at hand. */
  lemma ReadReturnsLastWrite(e: Engine, depth: nat, m: Mit, h: History, blk: U32)
    requires Trusted(e, depth, m, h) && blk < Pow2(depth) && Read(e, depth, m, blk).status == Ok
    ensures Read(e, depth, m, blk).out == h.plain[blk]
            || MeetsCollision(e, depth, m, h, blk) || MeetsForgery(e, depth, m, h, blk)
  {
    hide PathNode;
    hide Root;
    hide DataMac;
    hide KeyStream;
    hide StoredSibs;
    hide Xor;
    hide CollidesAt;
    var sibs := StoredSibs(depth, m.store, blk);
    RootChecks(e, depth, h.ctrs, blk, m.store.ctr[blk], sibs);
    XorUndoes(h.plain[blk], KeyStream(e, blk, h.ctrs[blk]));
    assert RecordedAt(e, h, blk);
  }

  function WriteHistory(e: Engine, h: History, blk: U32, pt: Block): History
    requires blk < |h.ctrs| == |h.plain|
  {
    var ctr := Bump(h.ctrs[blk]);
    History(h.ctrs[blk := ctr], h.plain[blk := pt], h.used[(blk as nat, ctr) := Xor(pt, KeyStream(e, blk, ctr))])
  }

  lemma NextNotZero(last: Word)
    requires last != 0xFFFF_FFFF
    ensures Bump(last) != 0
  {
  }

  lemma UsedNext(c: Word, last: Word)
    requires last != 0xFFFF_FFFF
    ensures Used(c, last) ==> Used(c, Bump(last))
    ensures Used(Bump(last), Bump(last)) && !Used(Bump(last), last) && Bump(last) != 0
  {
    hide Used;
    NextNotZero(last);
    UsedAfter(c, last);
  }

  lemma HistoryGrows(e: Engine, h: History, blk: U32, pt: Block)
    requires Recorded(e, h) && blk < |h.ctrs| && h.ctrs[blk] != 0xFFFF_FFFF
    ensures Recorded(e, WriteHistory(e, h, blk, pt)) && (blk as nat, Bump(h.ctrs[blk])) !in h.used
  {
    hide Used;
    hide Bump;
    hide KeyStream;
    hide Xor;
    UsedNext(0, h.ctrs[blk]);
    var n := WriteHistory(e, h, blk, pt);
    forall b: U32 | 0 <= b < |n.ctrs| ensures RecordedAt(e, n, b) { assert RecordedAt(e, h, b); }
    forall k | k in n.used ensures k.0 < |n.ctrs| && Used(k.1, n.ctrs[k.0]) {
      UsedNext(k.1, h.ctrs[blk]);
    }
  }

  /**
   * A write that succeeds keeps the root true to the new counters and uses a
   * (block, counter) pair that was never used before, or a collision is at hand.
   */
  lemma WriteKeepsTrust(e: Engine, depth: nat, m: Mit, h: History, blk: U32, pt: Block)
    requires Trusted(e, depth, m, h) && blk < Pow2(depth) && WriteStatus(e, depth, m, blk) == Ok
    ensures
      || MeetsCollision(e, depth, m, h, blk)
      || (&& Trusted(e, depth, Written(e, depth, m, blk, pt), WriteHistory(e, h, blk, pt))
          && m.store.ctr[blk] == h.ctrs[blk] && (blk as nat, Bump(h.ctrs[blk])) !in h.used)
  {
    hide PathNode;
    hide Root;
    hide DataMac;
    hide KeyStream;
    hide StoredSibs;
    hide Xor;
    hide CollidesAt;
    hide Recorded;
    hide PutNodes;
    hide Bump;
    var sibs := StoredSibs(depth, m.store, blk);
    RootChecks(e, depth, h.ctrs, blk, m.store.ctr[blk], sibs);
    if PathHonest(e, depth, h.ctrs, blk, m.store.ctr[blk], sibs, depth) {
      RecordedShape(e, h);
      UpdatedRoot(e, depth, h.ctrs, blk, Bump(h.ctrs[blk]), sibs);
      HistoryGrows(e, h, blk, pt);
    }
  }

  lemma RecordedShape(e: Engine, h: History)
    requires Recorded(e, h)
    ensures |h.plain| == |h.ctrs|
  {
  }

  // ---------------------------------------------------------------------- whole runs

  datatype Op = ReadOp(blk: U32) | WriteOp(blk: U32, pt: Block) | EditOp(store: Store)

  ghost predicate OpShaped(depth: nat, op: Op) {
    match op
    case ReadOp(blk) => blk < Pow2(depth)
    case WriteOp(blk, _) => blk < Pow2(depth)
    case EditOp(st) => 1 <= depth <= 32 && st.Shaped(depth)
  }

  /** An access, or an adversary's edit that replaces all of the storage. */
  ghost function After(e: Engine, depth: nat, m: Mit, op: Op): (n: Mit)
    requires Shaped(depth, m) && OpShaped(depth, op)
    ensures Shaped(depth, n)
  {
    match op
    case ReadOp(blk) => m.(tamper := m.tamper || Read(e, depth, m, blk).status == Tamper)
    case WriteOp(blk, pt) =>
      var status := WriteStatus(e, depth, m, blk);
      if status == Ok then Written(e, depth, m, blk, pt) else m.(tamper := m.tamper || status == Tamper)
    case EditOp(st) => m.(store := st)
  }

  ghost function HistoryAfter(e: Engine, depth: nat, m: Mit, h: History, op: Op): History
    requires Trusted(e, depth, m, h) && OpShaped(depth, op)
  {
    if op.WriteOp? && WriteStatus(e, depth, m, op.blk) == Ok then WriteHistory(e, h, op.blk, op.pt) else h
  }

  /** This access meets a tree collision or a forged data MAC. */
  ghost predicate Broken(e: Engine, depth: nat, m: Mit, h: History, op: Op)
    requires Trusted(e, depth, m, h) && OpShaped(depth, op)
  {
    match op
    case ReadOp(blk) => MeetsCollision(e, depth, m, h, blk) || MeetsForgery(e, depth, m, h, blk)
    case WriteOp(blk, _) => MeetsCollision(e, depth, m, h, blk)
    case EditOp(_) => false
  }

  /** A successful read returns the last successful write, and a successful write takes a fresh keystream. */
  ghost predicate Right(e: Engine, depth: nat, m: Mit, h: History, op: Op)
    requires Trusted(e, depth, m, h) && OpShaped(depth, op)
  {
    match op
    case ReadOp(blk) => Read(e, depth, m, blk).status == Ok ==> Read(e, depth, m, blk).out == h.plain[blk]
    case WriteOp(blk, _) =>
      WriteStatus(e, depth, m, blk) == Ok ==>
        m.store.ctr[blk] == h.ctrs[blk] && (blk as nat, Bump(h.ctrs[blk])) !in h.used
    case EditOp(_) => true
  }

  /** Every access is right, until one meets a collision or a forgery. */
  ghost predicate RunIsRight(e: Engine, depth: nat, m: Mit, h: History, ops: seq<Op>)
    requires Trusted(e, depth, m, h) && forall k :: 0 <= k < |ops| ==> OpShaped(depth, ops[k])
    decreases |ops|
  {
    ops == [] || Broken(e, depth, m, h, ops[0]) ||
    (var n, k := After(e, depth, m, ops[0]), HistoryAfter(e, depth, m, h, ops[0]);
     Right(e, depth, m, h, ops[0]) && Trusted(e, depth, n, k) && RunIsRight(e, depth, n, k, ops[1..]))
  }

  lemma OpKeepsTrust(e: Engine, depth: nat, m: Mit, h: History, op: Op)
    requires Trusted(e, depth, m, h) && OpShaped(depth, op) && !Broken(e, depth, m, h, op)
    ensures Right(e, depth, m, h, op) && Trusted(e, depth, After(e, depth, m, op), HistoryAfter(e, depth, m, h, op))
  {
    match op
    case ReadOp(blk) =>
      if Read(e, depth, m, blk).status == Ok { ReadReturnsLastWrite(e, depth, m, h, blk); }
      hide Read;
      hide MeetsCollision;
      hide MeetsForgery;
      hide Recorded;
    case WriteOp(blk, pt) =>
      hide MeetsCollision;
      hide Recorded;
      if WriteStatus(e, depth, m, blk) == Ok { WriteKeepsTrust(e, depth, m, h, blk, pt); }
      hide WriteStatus;
      hide Written;
      hide WriteHistory;
    case EditOp(_) =>
      hide Recorded;
  }

  /**
   * For every run of reads, writes and arbitrary edits of everything in storage:
   * as long as no access meets a tree collision or a forged data MAC, every read
   * that succeeds returns the plaintext of the last successful write to its block
   * (zero if there is none), and no keystream is used twice.
   */
  lemma {:induction false} EveryRunIsRight(e: Engine, depth: nat, m: Mit, h: History, ops: seq<Op>)
    requires Trusted(e, depth, m, h) && forall k :: 0 <= k < |ops| ==> OpShaped(depth, ops[k])
    ensures RunIsRight(e, depth, m, h, ops)
    decreases |ops|
  {
    assert Shaped(depth, m);
    hide Trusted;
    hide Broken;
    hide Right;
    hide After;
    hide HistoryAfter;
    if ops != [] && !Broken(e, depth, m, h, ops[0]) {
      OpKeepsTrust(e, depth, m, h, ops[0]);
      EveryRunIsRight(e, depth, After(e, depth, m, ops[0]), HistoryAfter(e, depth, m, h, ops[0]), ops[1..]);
    }
  }

  // ------------------------------------------------------------------- quiet storage

  /** The stored nodes are exactly the levels of the tree over these counters. */
  ghost predicate NodesAre(e: Engine, depth: nat, ctrs: seq<Word>, node: seq<Block>)
    requires Sized(depth, ctrs) && |node| + 2 == Pow2(depth)
  {
    forall l, j :: 1 <= l < depth && 0 <= j < Pow2(depth - l) ==> NodeIs(e, depth, ctrs, node, l, j)
  }

  ghost predicate NodeIs(e: Engine, depth: nat, ctrs: seq<Word>, node: seq<Block>, l: nat, j: nat)
    requires Sized(depth, ctrs) && |node| + 2 == Pow2(depth) && 1 <= l < depth && j < Pow2(depth - l)
  {
    SlotsDisjoint(depth, l, j, l, j);
    node[Off(depth, l) + j] == Level(e, depth, ctrs, l)[j]
  }

  /** Storage holds what the engine put there. */
  ghost predicate Quiet(e: Engine, depth: nat, m: Mit, h: History) {
    && Trusted(e, depth, m, h) && m.store.ctr == h.ctrs && NodesAre(e, depth, h.ctrs, m.store.node)
    && forall b :: 0 <= b < |h.ctrs| ==> DataIs(e, m, h, b)
  }

  ghost predicate DataIs(e: Engine, m: Mit, h: History, b: U32)
    requires b < |h.ctrs| == |m.store.ct| == |m.store.mac| == |m.store.ctr| == |h.plain|
  {
    h.ctrs[b] != 0 ==>
      && m.store.ct[b] == Xor(h.plain[b], KeyStream(e, b, h.ctrs[b]))
      && m.store.mac[b] == DataMac(e, b, h.ctrs[b], m.store.ct[b])
  }

  lemma QuietSibs(e: Engine, depth: nat, m: Mit, ctrs: seq<Word>, blk: U32)
    requires Shaped(depth, m) && Sized(depth, ctrs) && m.store.ctr == ctrs && NodesAre(e, depth, ctrs, m.store.node)
    requires blk < Pow2(depth)
    ensures forall l :: 0 <= l < depth ==> StoredSibs(depth, m.store, blk)[l] == HonestSib(e, depth, ctrs, blk, l)
  {
    hide Leaf;
    forall l | 0 <= l < depth ensures StoredSib(depth, m.store, blk, l) == HonestSib(e, depth, ctrs, blk, l) {
      IndexInLevel(depth, blk, l);
      if l > 0 { assert NodeIs(e, depth, ctrs, m.store.node, l, Sib(Index(blk, l))); }
    }
  }

  lemma QuietPath(e: Engine, depth: nat, m: Mit, ctrs: seq<Word>, blk: U32)
    requires Shaped(depth, m) && Sized(depth, ctrs) && m.store.ctr == ctrs && NodesAre(e, depth, ctrs, m.store.node)
    requires blk < Pow2(depth) && m.root == Root(e, depth, ctrs)
    ensures PathOk(e, depth, m, blk)
  {
    QuietSibs(e, depth, m, ctrs, blk);
    UpdatedRoot(e, depth, ctrs, blk, ctrs[blk], StoredSibs(depth, m.store, blk));
    assert ctrs[blk := ctrs[blk]] == ctrs;
  }

  /** Undisturbed, a read succeeds and returns the last plaintext written. */
  lemma QuietRead(e: Engine, depth: nat, m: Mit, h: History, blk: U32)
    requires Quiet(e, depth, m, h) && blk < Pow2(depth)
    ensures Read(e, depth, m, blk) == ReadResult(Ok, h.plain[blk])
  {
    hide NodesAre;
    hide PathOk;
    hide Root;
    hide Xor;
    hide KeyStream;
    hide DataMac;
    QuietPath(e, depth, m, h.ctrs, blk);
    XorUndoes(h.plain[blk], KeyStream(e, blk, h.ctrs[blk]));
    assert RecordedAt(e, h, blk) && DataIs(e, m, h, blk);
  }

  /** The path's new nodes land in their own slots, and every other slot keeps its node. */
  lemma {:induction false} PutNodesAt(e: Engine, depth: nat, node: seq<Block>, blk: U32, ctr: Word, sibs: seq<Block>, n: nat, l: nat, j: nat)
    requires 1 <= depth <= 32 && |node| + 2 == Pow2(depth) && blk < Pow2(depth) && |sibs| == depth && n < depth
    requires 1 <= l < depth && j < Pow2(depth - l)
    ensures Off(depth, l) + j < |node|
    ensures PutNodes(e, depth, node, blk, ctr, sibs, n)[Off(depth, l) + j]
            == if l <= n && j == Index(blk, l) then PathNode(e, blk, ctr, sibs, l) else node[Off(depth, l) + j]
  {
    hide PathNode;
    hide Off;
    SlotsDisjoint(depth, l, j, l, j);
    if n > 0 {
      IndexInLevel(depth, blk, n);
      SlotsDisjoint(depth, l, j, n, Index(blk, n));
      SlotsDisjoint(depth, n, Index(blk, n), n, Index(blk, n));
      PutNodesAt(e, depth, node, blk, ctr, sibs, n - 1, l, j);
    }
  }

  lemma RebuiltAt(e: Engine, depth: nat, ctrs: seq<Word>, node: seq<Block>, blk: U32, ctr: Word, sibs: seq<Block>, l: nat, j: nat)
    requires Sized(depth, ctrs) && |node| + 2 == Pow2(depth) && blk < |ctrs| && |sibs| == depth
    requires forall k :: 0 <= k < depth ==> sibs[k] == HonestSib(e, depth, ctrs, blk, k)
    requires 1 <= l < depth && j < Pow2(depth - l) && NodeIs(e, depth, ctrs, node, l, j)
    ensures NodeIs(e, depth, ctrs[blk := ctr], PutNodes(e, depth, node, blk, ctr, sibs, depth - 1), l, j)
  {
    hide PathNode;
    hide PutNodes;
    hide Off;
    hide Level;
    hide Index;
    hide HonestSib;
    PutNodesAt(e, depth, node, blk, ctr, sibs, depth - 1, l, j);
    UpdatedLevel(e, depth, ctrs, blk, ctr, sibs, l);
  }

  /** The path update leaves the root and every stored node as a full rebuild from the counters would. */
  lemma PathUpdateIsRebuild(e: Engine, depth: nat, ctrs: seq<Word>, node: seq<Block>, blk: U32, ctr: Word, sibs: seq<Block>)
    requires Sized(depth, ctrs) && |node| + 2 == Pow2(depth) && NodesAre(e, depth, ctrs, node) && blk < |ctrs|
    requires |sibs| == depth && forall l :: 0 <= l < depth ==> sibs[l] == HonestSib(e, depth, ctrs, blk, l)
    ensures NodesAre(e, depth, ctrs[blk := ctr], PutNodes(e, depth, node, blk, ctr, sibs, depth - 1))
    ensures PathNode(e, blk, ctr, sibs, depth) == Root(e, depth, ctrs[blk := ctr])
  {
    UpdatedRoot(e, depth, ctrs, blk, ctr, sibs);
    hide PathNode;
    hide Root;
    hide PutNodes;
    hide NodeIs;
    hide HonestSib;
    var n := PutNodes(e, depth, node, blk, ctr, sibs, depth - 1);
    forall l, j {:trigger NodeIs(e, depth, ctrs[blk := ctr], n, l, j)} | 1 <= l < depth && 0 <= j < Pow2(depth - l)
      ensures NodeIs(e, depth, ctrs[blk := ctr], n, l, j)
    {
      assert NodeIs(e, depth, ctrs, node, l, j);
      RebuiltAt(e, depth, ctrs, node, blk, ctr, sibs, l, j);
    }
  }

  lemma WrittenData(e: Engine, depth: nat, m: Mit, h: History, blk: U32, pt: Block, b: U32)
    requires Shaped(depth, m) && blk < Pow2(depth) && Sized(depth, h.ctrs) && m.store.ctr == h.ctrs && |h.plain| == |h.ctrs|
    requires b < |h.ctrs| && DataIs(e, m, h, b)
    ensures DataIs(e, Written(e, depth, m, blk, pt), WriteHistory(e, h, blk, pt), b)
  {
    hide PutNodes;
    hide Bump;
    hide KeyStream;
    hide DataMac;
    hide Xor;
    hide StoredSibs;
    hide PathNode;
  }

  lemma WrittenQuietly(e: Engine, depth: nat, m: Mit, h: History, blk: U32, pt: Block)
    requires Quiet(e, depth, m, h) && blk < Pow2(depth) && h.ctrs[blk] != 0xFFFF_FFFF
    ensures Quiet(e, depth, Written(e, depth, m, blk, pt), WriteHistory(e, h, blk, pt))
  {
    hide PathOk;
    hide Root;
    hide NodesAre;
    hide Recorded;
    hide PutNodes;
    hide Bump;
    hide KeyStream;
    hide DataMac;
    hide Xor;
    hide StoredSibs;
    hide PathNode;
    hide DataIs;
    RecordedShape(e, h);
    QuietSibs(e, depth, m, h.ctrs, blk);
    PathUpdateIsRebuild(e, depth, h.ctrs, m.store.node, blk, Bump(h.ctrs[blk]), StoredSibs(depth, m.store, blk));
    HistoryGrows(e, h, blk, pt);
    var n, k := Written(e, depth, m, blk, pt), WriteHistory(e, h, blk, pt);
    SizedFits(depth, k.ctrs);
    forall b | 0 <= b < |k.ctrs| ensures DataIs(e, n, k, b) { WrittenData(e, depth, m, h, blk, pt, b); }
  }

  /** Undisturbed, a write succeeds unless the counter is used up, and leaves the storage undisturbed. */
  lemma QuietWrite(e: Engine, depth: nat, m: Mit, h: History, blk: U32, pt: Block)
    requires Quiet(e, depth, m, h) && blk < Pow2(depth)
    ensures WriteStatus(e, depth, m, blk) == if h.ctrs[blk] == 0xFFFF_FFFF then Exhausted else Ok
    ensures h.ctrs[blk] != 0xFFFF_FFFF ==>
      Quiet(e, depth, Written(e, depth, m, blk, pt), WriteHistory(e, h, blk, pt))
  {
    hide PathOk;
    hide Root;
    hide NodesAre;
    hide Recorded;
    hide Written;
    hide WriteHistory;
    hide DataIs;
    QuietPath(e, depth, m, h.ctrs, blk);
    if h.ctrs[blk] != 0xFFFF_FFFF { WrittenQuietly(e, depth, m, h, blk, pt); }
  }
}
