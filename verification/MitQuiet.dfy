/**
 * The hardware engine with storage that only it writes: access for access it does
 * what the software engine does.
 */
module MitQuiet {
  import opened Words
  import opened MitTree
  import Spec = MitSpec
  import opened MitRtl

  /** The storage after the engine's write port has acted. */
  ghost function StoreNext(depth: nat, st: Spec.Store, r: Rtl): (n: Spec.Store)
    requires Shaped(depth, r) && st.Shaped(depth) && (r.fsm == S_COMMIT ==> 1 <= r.walk.lvl)
    ensures n.Shaped(depth)
  {
    if r.fsm == S_COMMIT then
      var l, blk := r.walk.lvl, r.acc.blk;
      IndexInLevel(depth, blk, l);
      SlotsDisjoint(depth, l, Index(blk, l), l, Index(blk, l));
      var node := st.node[Off(depth, l) + Index(blk, l) := r.walk.node[l - 1]];
      if l == 1 then Spec.Store(st.ct[blk := r.newCt], st.mac[blk := r.newMac], st.ctr[blk := r.ctr], node)
      else st.(node := node)
    else st
  }

  /** The storage port shows what is stored. */
  ghost predicate Shows(depth: nat, st: Spec.Store, r: Rtl, i: In)
    requires Shaped(depth, r) && st.Shaped(depth)
  {
    && i.blk < Pow2(depth)
    && (r.fsm == S_IDLE ==> i.ct == st.ct[i.blk] && i.mac == st.mac[i.blk] && i.ctr == st.ctr[i.blk])
    && (r.fsm == S_PATH && r.walk.idx == Index(r.acc.blk, r.walk.lvl) ==>
          && (r.walk.lvl == 0 ==> Leaf(Sib(r.walk.idx), i.sibCtr) == Spec.StoredSib(depth, st, r.acc.blk, 0))
          && (r.walk.lvl > 0 ==> i.node == Spec.StoredSib(depth, st, r.acc.blk, r.walk.lvl)))
  }

  function OpOf(a: Access): Spec.Op { if a.write then Spec.WriteOp(a.blk, a.wdata) else Spec.ReadOp(a.blk) }

  /** What the software engine would answer. */
  ghost function AnswerTo(e: Engine, depth: nat, m: Spec.Mit, a: Access): Answer
    requires Spec.Shaped(depth, m) && a.blk < Pow2(depth)
  {
    if a.write then Answer(Spec.WriteStatus(e, depth, m, a.blk), ZERO)
    else var r := Spec.Read(e, depth, m, a.blk); Answer(r.status, r.out)
  }

  /** The first `n` cached siblings are the stored ones. */
  ghost predicate SibsAre(depth: nat, m: Spec.Mit, r: Rtl, n: nat)
    requires Spec.Shaped(depth, m) && Shaped(depth, r) && n <= depth
  {
    forall l :: 0 <= l < n ==> r.walk.sib[l] == Spec.StoredSibs(depth, m.store, r.acc.blk)[l]
  }

  /** The access latched what is stored, and nothing has changed yet. */
  ghost predicate Untouched(depth: nat, r: Rtl, st: Spec.Store, m: Spec.Mit)
    requires Spec.Shaped(depth, m) && Shaped(depth, r)
  {
    && st == m.store && r.root == m.root && r.tamper == m.tamper
    && r.acc.ct == st.ct[r.acc.blk] && r.acc.mac == st.mac[r.acc.blk] && r.acc.was == st.ctr[r.acc.blk]
  }

  ghost predicate Writing(e: Engine, depth: nat, r: Rtl, m: Spec.Mit)
    requires Spec.Shaped(depth, m) && Shaped(depth, r)
  {
    && r.acc.write && r.acc.was == m.store.ctr[r.acc.blk] && r.ctr == Spec.Bump(r.acc.was)
    && Spec.WriteStatus(e, depth, m, r.acc.blk) == Spec.Ok
    && r.walk.sib == Spec.StoredSibs(depth, m.store, r.acc.blk)
    && NewCt(e, r) && r.newMac == Spec.DataMac(e, r.acc.blk, r.ctr, r.newCt)
  }

  ghost predicate PathGoes(e: Engine, depth: nat, r: Rtl, st: Spec.Store, m: Spec.Mit)
    requires Spec.Shaped(depth, m) && Shaped(depth, r)
  {
    && Untouched(depth, r, st, m) && WalkOk(e, r)
    && if r.walk.second then Writing(e, depth, r, m)
       else r.ctr == r.acc.was && SibsAre(depth, m, r, if r.fsm == S_PATH_W then r.walk.lvl + 1 else r.walk.lvl)
  }

  ghost predicate MacGoes(e: Engine, depth: nat, r: Rtl, st: Spec.Store, m: Spec.Mit)
    requires Spec.Shaped(depth, m) && Shaped(depth, r)
  {
    && Untouched(depth, r, st, m) && r.walk.sib == Spec.StoredSibs(depth, m.store, r.acc.blk)
    && Spec.PathOk(e, depth, m, r.acc.blk) && r.ctr == StreamCtr(r.acc)
    && (if r.acc.write then r.acc.was != 0xFFFF_FFFF else r.acc.was != 0)
    && (r.fsm == S_DMAC_W ==>
          && (r.cm.busy || r.cm.done) && r.cm.key == MacKey && r.cm.msg == DmacMsg(r) && r.stream.valid
          && (r.acc.write ==> NewCt(e, r)))
  }

  ghost predicate CommitGoes(e: Engine, depth: nat, r: Rtl, st: Spec.Store, m: Spec.Mit)
    requires Spec.Shaped(depth, m) && Shaped(depth, r) && st.Shaped(depth)
  {
    var blk := r.acc.blk;
    && 1 <= r.walk.lvl && Writing(e, depth, r, m) && r.tamper == m.tamper
    && r.root == PathNode(e, blk, r.ctr, r.walk.sib, depth) && NodesOk(e, r, depth)
    && st.node == Spec.PutNodes(e, depth, m.store.node, blk, r.ctr, r.walk.sib, r.walk.lvl - 1)
    && if r.walk.lvl == 1 then st == m.store.(node := st.node)
       else st == Spec.Written(e, depth, m, blk, r.acc.wdata).store.(node := st.node)
  }

  ghost predicate Stands(e: Engine, depth: nat, r: Rtl, st: Spec.Store, m: Spec.Mit)
    requires Shaped(depth, r) && Spec.Shaped(depth, m) && st.Shaped(depth)
  {
    && (r.fsm == S_IDLE ==> m == Spec.Mit(st, r.root, r.tamper))
    && (r.fsm == S_PATH || r.fsm == S_PATH_W ==> PathGoes(e, depth, r, st, m))
    && (r.fsm == S_DMAC || r.fsm == S_DMAC_W ==> MacGoes(e, depth, r, st, m))
    && (r.fsm == S_COMMIT ==> CommitGoes(e, depth, r, st, m))
    && (r.fsm == S_RESP ==>
          Spec.Mit(st, r.root, r.tamper) == Spec.After(e, depth, m, OpOf(r.acc)) && r.rsp == AnswerTo(e, depth, m, r.acc))
  }

  /** Where the access stands that was accepted when the engine was `m`. */
  ghost predicate Tracks(e: Engine, depth: nat, r: Rtl, st: Spec.Store, m: Spec.Mit) {
    && Shaped(depth, r) && Spec.Shaped(depth, m) && st.Shaped(depth) && CmOk(e, r) && StreamOk(e, r)
    && Stands(e, depth, r, st, m)
  }

  /** The software engine takes over the result when the answer has been given. */
  ghost function MitNext(m: Spec.Mit, r: Rtl, st: Spec.Store): Spec.Mit {
    if r.fsm == S_RESP then Spec.Mit(st, r.root, r.tamper) else m
  }

  ghost predicate Ready(e: Engine, depth: nat, r: Rtl, st: Spec.Store, m: Spec.Mit, i: In) {
    Tracks(e, depth, r, st, m) && Shows(depth, st, r, i) && InTime(r, i)
  }

  ghost predicate Goes(e: Engine, depth: nat, n: Rtl, st: Spec.Store, m: Spec.Mit) {
    && Shaped(depth, n) && Spec.Shaped(depth, m) && st.Shaped(depth) && Stands(e, depth, n, st, m)
    && (n.cm.busy ==> n.fsm == S_PATH_W || n.fsm == S_DMAC || n.fsm == S_DMAC_W)
  }

  lemma IdleStep(e: Engine, depth: nat, r: Rtl, st: Spec.Store, m: Spec.Mit, i: In)
    requires Ready(e, depth, r, st, m, i) && (r.fsm == S_IDLE || r.fsm == S_RESP)
    ensures Goes(e, depth, Next(e, depth, r, i), StoreNext(depth, st, r), MitNext(m, r, st))
  {
    hide StreamNext;
    hide Leaf;
    hide Spec.StoredSibs;
    hide Spec.Read;
    hide Spec.WriteStatus;
    hide Spec.Written;
    hide Spec.KeyStream;
    hide Xor;
    SibFits(depth, i.blk, 0);
  }

  lemma PathStartStep(e: Engine, depth: nat, r: Rtl, st: Spec.Store, m: Spec.Mit, i: In)
    requires Ready(e, depth, r, st, m, i) && r.fsm == S_PATH
    ensures Goes(e, depth, Next(e, depth, r, i), StoreNext(depth, st, r), MitNext(m, r, st))
  {
    hide MacGoes;
    hide CommitGoes;
    hide StreamNext;
    hide Leaf;
    hide PathNode;
    hide Pair;
    hide StreamOk;
    hide Spec.StoredSib;
    hide Spec.DataMac;
    hide Spec.WriteStatus;
    hide Spec.Bump;
    hide Spec.KeyStream;
    hide Xor;
    hide Pow2;
    var n := Next(e, depth, r, i);
    PathPrefix(e, r.acc.blk, r.ctr, r.walk.sib, n.walk.sib, r.walk.lvl);
  }

  lemma PathWaitStep(e: Engine, depth: nat, r: Rtl, st: Spec.Store, m: Spec.Mit, i: In)
    requires Ready(e, depth, r, st, m, i) && r.fsm == S_PATH_W && !r.cm.done
    ensures Goes(e, depth, Next(e, depth, r, i), StoreNext(depth, st, r), MitNext(m, r, st))
  {
    hide MacGoes;
    hide CommitGoes;
    hide StreamNext;
    hide Leaf;
    hide PathNode;
    hide Pair;
    hide StreamOk;
    hide Spec.StoredSibs;
    hide Spec.DataMac;
    hide Spec.WriteStatus;
    hide Spec.Bump;
    hide Spec.KeyStream;
    hide Xor;
    hide Pow2;
  }

  lemma PathUpStep(e: Engine, depth: nat, r: Rtl, st: Spec.Store, m: Spec.Mit, i: In)
    requires Ready(e, depth, r, st, m, i) && r.fsm == S_PATH_W && r.cm.done && r.walk.lvl < depth - 1
    ensures Goes(e, depth, Next(e, depth, r, i), StoreNext(depth, st, r), MitNext(m, r, st))
  {
    hide Next;
    hide StreamOk;
    hide CmOk;
    hide WalkOk;
    hide MacGoes;
    hide CommitGoes;
    hide Spec.StoredSibs;
    hide Spec.DataMac;
    hide Spec.WriteStatus;
    hide Spec.Bump;
    hide Spec.KeyStream;
    hide Xor;
    hide Pow2;
    PathUpMoves(e, depth, r, i);
  }

  lemma SibsComplete(depth: nat, m: Spec.Mit, r: Rtl)
    requires Spec.Shaped(depth, m) && Shaped(depth, r) && SibsAre(depth, m, r, depth)
    ensures r.walk.sib == Spec.StoredSibs(depth, m.store, r.acc.blk)
  {
    hide Spec.StoredSib;
  }

  lemma CheckMoves(e: Engine, depth: nat, r: Rtl, i: In)
    requires Shaped(depth, r) && CmOk(e, r) && WalkOk(e, r)
    requires r.fsm == S_PATH_W && r.cm.done && r.walk.lvl == depth - 1 && !r.walk.second
    ensures var n, a, ok := Next(e, depth, r, i), r.acc, r.cm.tag == r.root;
      && Shaped(depth, n) && !n.cm.busy && n.acc == a && n.root == r.root && n.tamper == (r.tamper || !ok)
      && n.walk.sib == r.walk.sib && !n.walk.second
      && (if !ok then n.fsm == S_RESP && n.rsp == Answer(Spec.Tamper, ZERO)
          else if a.write && a.was == 0xFFFF_FFFF then n.fsm == S_RESP && n.rsp == Answer(Spec.Exhausted, ZERO)
          else if !a.write && a.was == 0 then n.fsm == S_RESP && n.rsp == Answer(Spec.Ok, ZERO)
          else n.fsm == S_DMAC && n.ctr == if a.write then Spec.Bump(a.was) else r.ctr)
  {
    hide PathNode;
    hide Spec.Bump;
    hide StreamNext;
    hide Leaf;
    hide Tag;
    PathEndShape(e, depth, r, i);
    hide Pow2;
  }

  /** The first pass ends where the software engine compares with the root. */
  lemma CheckStep(e: Engine, depth: nat, r: Rtl, st: Spec.Store, m: Spec.Mit, i: In)
    requires Ready(e, depth, r, st, m, i) && r.fsm == S_PATH_W && r.cm.done && r.walk.lvl == depth - 1 && !r.walk.second
    ensures Goes(e, depth, Next(e, depth, r, i), StoreNext(depth, st, r), MitNext(m, r, st))
  {
    hide Next;
    hide Leaf;
    hide Pair;
    hide StreamOk;
    hide Spec.StoredSibs;
    hide Spec.DataMac;
    hide Spec.KeyStream;
    hide Spec.Written;
    hide Spec.Bump;
    hide Xor;
    hide Pow2;
    hide NodesOk;
    hide CommitGoes;
    hide Writing;
    hide PathNode;
    hide Tag;
    CheckMoves(e, depth, r, i);
    TopTag(e, depth, r);
    SibsComplete(depth, m, r);
  }

  lemma EffectMoves(e: Engine, depth: nat, r: Rtl, i: In)
    requires Shaped(depth, r) && CmOk(e, r) && WalkOk(e, r)
    requires r.fsm == S_PATH_W && r.cm.done && r.walk.lvl == depth - 1 && r.walk.second
    ensures var n := Next(e, depth, r, i);
      && Shaped(depth, n) && n.fsm == S_COMMIT && !n.cm.busy && n.walk.lvl == 1
      && n.acc == r.acc && n.tamper == r.tamper && n.ctr == r.ctr && n.newCt == r.newCt && n.newMac == r.newMac
      && n.root == PathNode(e, r.acc.blk, r.ctr, r.walk.sib, depth) && n.walk.sib == r.walk.sib && NodesOk(e, n, depth)
  {
    hide StreamNext;
    hide Leaf;
    hide Pair;
    hide Pow2;
    PathEndShape(e, depth, r, i);
    TopTag(e, depth, r);
    hide PathNode;
  }

  /** The second pass ends with the new root. */
  lemma EffectStep(e: Engine, depth: nat, r: Rtl, st: Spec.Store, m: Spec.Mit, i: In)
    requires Ready(e, depth, r, st, m, i) && r.fsm == S_PATH_W && r.cm.done && r.walk.lvl == depth - 1 && r.walk.second
    ensures Goes(e, depth, Next(e, depth, r, i), StoreNext(depth, st, r), MitNext(m, r, st))
  {
    hide Next;
    hide NodesOk;
    hide PathNode;
    hide MacGoes;
    hide StreamOk;
    hide CmOk;
    hide WalkOk;
    hide Spec.StoredSibs;
    hide Spec.DataMac;
    hide Spec.KeyStream;
    hide Spec.WriteStatus;
    hide Spec.Written;
    hide Spec.Bump;
    hide Xor;
    hide Pow2;
    EffectMoves(e, depth, r, i);
  }

  lemma DmacStartMoves(e: Engine, depth: nat, r: Rtl, i: In)
    requires Shaped(depth, r) && CmOk(e, r) && StreamOk(e, r) && r.fsm == S_DMAC
    ensures var n := Next(e, depth, r, i);
      && Shaped(depth, n) && n.acc == r.acc && n.root == r.root && n.tamper == r.tamper && n.ctr == r.ctr
      && n.walk == r.walk && (n.fsm == S_DMAC || n.fsm == S_DMAC_W)
      && (n.fsm == S_DMAC_W ==>
            && n.cm.busy && n.cm.key == MacKey && n.cm.msg == DmacMsg(n) && r.stream.valid && n.stream == r.stream
            && (r.acc.write ==> n.newCt == Xor(r.acc.wdata, n.stream.ks)))
  {
    hide Xor;
    hide MacTail;
    hide Tag;
    hide Pow2;
    hide Sib;
    hide Spec.Bump;
    hide Spec.KeyStream;
    hide Bits;
  }

  lemma DmacStartStep(e: Engine, depth: nat, r: Rtl, st: Spec.Store, m: Spec.Mit, i: In)
    requires Ready(e, depth, r, st, m, i) && r.fsm == S_DMAC
    ensures Goes(e, depth, Next(e, depth, r, i), StoreNext(depth, st, r), MitNext(m, r, st))
  {
    hide Next;
    hide PathNode;
    hide Spec.StoredSibs;
    hide Spec.PathOk;
    hide Spec.KeyStream;
    hide Spec.Bump;
    hide Xor;
    hide MacTail;
    hide DmacMsg;
    hide Tag;
    hide Pow2;
    hide PathGoes;
    hide CommitGoes;
    DmacStartMoves(e, depth, r, i);
  }

  lemma DmacWaitStep(e: Engine, depth: nat, r: Rtl, st: Spec.Store, m: Spec.Mit, i: In)
    requires Ready(e, depth, r, st, m, i) && r.fsm == S_DMAC_W && !r.cm.done
    ensures Goes(e, depth, Next(e, depth, r, i), StoreNext(depth, st, r), MitNext(m, r, st))
  {
    hide PathNode;
    hide Spec.StoredSibs;
    hide Spec.PathOk;
    hide Spec.KeyStream;
    hide Spec.Bump;
    hide Xor;
    hide MacTail;
    hide Tag;
    hide Pow2;
  }

  lemma DmacWriteStep(e: Engine, depth: nat, r: Rtl, st: Spec.Store, m: Spec.Mit, i: In)
    requires Ready(e, depth, r, st, m, i) && r.fsm == S_DMAC_W && r.cm.done && r.acc.write
    ensures Goes(e, depth, Next(e, depth, r, i), StoreNext(depth, st, r), MitNext(m, r, st))
  {
    hide CommitGoes;
    hide StreamNext;
    hide Leaf;
    hide Spec.StoredSibs;
    hide Spec.PathOk;
    hide Spec.KeyStream;
    hide Spec.Bump;
    hide Xor;
    hide Bits;
    SibFits(depth, r.acc.blk, 0);
    hide Pow2;
  }

  lemma DmacReadStep(e: Engine, depth: nat, r: Rtl, st: Spec.Store, m: Spec.Mit, i: In)
    requires Ready(e, depth, r, st, m, i) && r.fsm == S_DMAC_W && r.cm.done && !r.acc.write
    ensures Goes(e, depth, Next(e, depth, r, i), StoreNext(depth, st, r), MitNext(m, r, st))
  {
    hide StreamNext;
    hide Leaf;
    hide PathNode;
    hide Spec.StoredSibs;
    hide Spec.PathOk;
    hide Spec.KeyStream;
    hide Xor;
    hide Bits;
    hide Pow2;
  }

  lemma CommitMoves(e: Engine, depth: nat, r: Rtl, i: In)
    requires Shaped(depth, r) && r.fsm == S_COMMIT && 1 <= r.walk.lvl && CmOk(e, r)
    ensures var n := Next(e, depth, r, i);
      && Shaped(depth, n) && !n.cm.busy && n.acc == r.acc && n.root == r.root && n.tamper == r.tamper && n.ctr == r.ctr
      && n.newCt == r.newCt && n.newMac == r.newMac
      && (if r.walk.lvl == depth - 1 then n.fsm == S_RESP && n.rsp == Answer(Spec.Ok, ZERO)
          else n.fsm == S_COMMIT && n.walk == r.walk.(lvl := r.walk.lvl + 1))
  {
    hide StreamNext;
    hide Pow2;
    hide Sib;
    hide Tag;
  }

  /** One more node of the path is stored, with the first of them the data. */
  lemma CommitStore(e: Engine, depth: nat, r: Rtl, st: Spec.Store, m: Spec.Mit)
    requires Shaped(depth, r) && Spec.Shaped(depth, m) && st.Shaped(depth) && r.fsm == S_COMMIT && CommitGoes(e, depth, r, st, m)
    ensures var t := StoreNext(depth, st, r);
      && t.node == Spec.PutNodes(e, depth, m.store.node, r.acc.blk, r.ctr, r.walk.sib, r.walk.lvl)
      && t == Spec.Written(e, depth, m, r.acc.blk, r.acc.wdata).store.(node := t.node)
  {
    hide PathNode;
    hide Spec.StoredSibs;
    hide Spec.KeyStream;
    hide Spec.DataMac;
    hide Spec.WriteStatus;
    hide Spec.Bump;
    hide Xor;
    hide Off;
    hide Pow2;
    IndexInLevel(depth, r.acc.blk, r.walk.lvl);
  }

  lemma CommitStep(e: Engine, depth: nat, r: Rtl, st: Spec.Store, m: Spec.Mit, i: In)
    requires Ready(e, depth, r, st, m, i) && r.fsm == S_COMMIT
    ensures Goes(e, depth, Next(e, depth, r, i), StoreNext(depth, st, r), MitNext(m, r, st))
  {
    hide Next;
    hide StoreNext;
    hide StreamOk;
    hide CmOk;
    hide PathNode;
    hide Spec.StoredSibs;
    hide Spec.KeyStream;
    hide Spec.DataMac;
    hide Spec.WriteStatus;
    hide Spec.Bump;
    hide Spec.PutNodes;
    hide Xor;
    hide Pow2;
    CommitMoves(e, depth, r, i);
    CommitStore(e, depth, r, st, m);
  }

  /** One clock of engine and undisturbed storage. */
  lemma EngineStep(e: Engine, depth: nat, r: Rtl, st: Spec.Store, m: Spec.Mit, i: In)
    requires Shaped(depth, r) && st.Shaped(depth) && (r.fsm == S_COMMIT ==> 1 <= r.walk.lvl)
    requires Ready(e, depth, r, st, m, i)
    ensures Tracks(e, depth, Next(e, depth, r, i), StoreNext(depth, st, r), MitNext(m, r, st))
  {
    if r.fsm == S_IDLE || r.fsm == S_RESP { IdleStep(e, depth, r, st, m, i); }
    else if r.fsm == S_PATH { PathStartStep(e, depth, r, st, m, i); }
    else if r.fsm == S_PATH_W {
      if !r.cm.done { PathWaitStep(e, depth, r, st, m, i); }
      else if r.walk.lvl < depth - 1 { PathUpStep(e, depth, r, st, m, i); }
      else if !r.walk.second { CheckStep(e, depth, r, st, m, i); }
      else { EffectStep(e, depth, r, st, m, i); }
    }
    else if r.fsm == S_DMAC { DmacStartStep(e, depth, r, st, m, i); }
    else if r.fsm == S_DMAC_W {
      if !r.cm.done { DmacWaitStep(e, depth, r, st, m, i); }
      else if r.acc.write { DmacWriteStep(e, depth, r, st, m, i); }
      else { DmacReadStep(e, depth, r, st, m, i); }
    }
    else { CommitStep(e, depth, r, st, m, i); }
    CmStep(e, depth, r, i);
    StreamStep(e, depth, r, i);
    hide Next;
    hide StoreNext;
    hide MitNext;
    hide StreamOk;
    hide Stands;
    hide Shows;
    hide Tag;
  }

  /** Requests for blocks of the memory, a port that shows what is stored, ciphers that keep time. */
  ghost predicate QuietRun(e: Engine, depth: nat, r: Rtl, st: Spec.Store, ins: seq<In>)
    requires Shaped(depth, r) && st.Shaped(depth) && (r.fsm == S_COMMIT ==> 1 <= r.walk.lvl)
    decreases |ins|
  {
    ins == [] ||
    (var n := Next(e, depth, r, ins[0]);
     && Shows(depth, st, r, ins[0]) && InTime(r, ins[0])
     && (Shaped(depth, n) && (n.fsm == S_COMMIT ==> 1 <= n.walk.lvl) ==>
           QuietRun(e, depth, n, StoreNext(depth, st, r), ins[1..])))
  }

  /** Each answer is the software engine's, and leaves storage, root and tamper flag as it would. */
  ghost predicate RunRefines(e: Engine, depth: nat, r: Rtl, st: Spec.Store, m: Spec.Mit, ins: seq<In>)
    requires Shaped(depth, r) && st.Shaped(depth) && Spec.Shaped(depth, m) && (r.fsm == S_COMMIT ==> 1 <= r.walk.lvl)
    decreases |ins|
  {
    && (r.fsm == S_RESP ==>
          Spec.Mit(st, r.root, r.tamper) == Spec.After(e, depth, m, OpOf(r.acc)) && r.rsp == AnswerTo(e, depth, m, r.acc))
    && (ins == [] ||
        (var n, t, k := Next(e, depth, r, ins[0]), StoreNext(depth, st, r), MitNext(m, r, st);
         && Shaped(depth, n) && Spec.Shaped(depth, k) && (n.fsm == S_COMMIT ==> 1 <= n.walk.lvl)
         && RunRefines(e, depth, n, t, k, ins[1..])))
  }

  lemma TracksShape(e: Engine, depth: nat, r: Rtl, st: Spec.Store, m: Spec.Mit)
    requires Tracks(e, depth, r, st, m)
    ensures Shaped(depth, r) && st.Shaped(depth) && Spec.Shaped(depth, m) && (r.fsm == S_COMMIT ==> 1 <= r.walk.lvl)
    ensures r.fsm == S_RESP ==>
      Spec.Mit(st, r.root, r.tamper) == Spec.After(e, depth, m, OpOf(r.acc)) && r.rsp == AnswerTo(e, depth, m, r.acc)
  {
    hide StreamOk;
    hide CmOk;
    hide PathGoes;
    hide MacGoes;
    hide Writing;
    hide Spec.After;
    hide AnswerTo;
    hide PathNode;
    hide Pow2;
  }

  /** With undisturbed storage the hardware engine refines the software engine's reads and writes. */
  lemma {:induction false} HardwareRefinesSoftware(e: Engine, depth: nat, r: Rtl, st: Spec.Store, m: Spec.Mit, ins: seq<In>)
    requires Shaped(depth, r) && st.Shaped(depth) && Spec.Shaped(depth, m) && (r.fsm == S_COMMIT ==> 1 <= r.walk.lvl)
    requires Tracks(e, depth, r, st, m) && QuietRun(e, depth, r, st, ins)
    ensures RunRefines(e, depth, r, st, m, ins)
    decreases |ins|
  {
    hide Tracks;
    hide Next;
    hide StoreNext;
    hide MitNext;
    hide Shows;
    hide Spec.After;
    hide AnswerTo;
    hide Pow2;
    TracksShape(e, depth, r, st, m);
    if ins != [] {
      EngineStep(e, depth, r, st, m, ins[0]);
      var n, t, k := Next(e, depth, r, ins[0]), StoreNext(depth, st, r), MitNext(m, r, st);
      TracksShape(e, depth, n, t, k);
      HardwareRefinesSoftware(e, depth, n, t, k, ins[1..]);
    }
  }
}
