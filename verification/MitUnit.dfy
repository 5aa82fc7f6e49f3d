/** The registers of the hardware engine, as the clock drives them. */
module MitUnit {
  import opened Words
  import opened MitTree
  import Spec = MitSpec
  import opened MitRtl

  /** The registers of the walk up the path, but for the two arrays. */
  datatype Place = Place(h: Block, idx: nat, lvl: nat, second: bool)

  class TreeUnit {
    const depth: nat
    var fsm: Fsm
    var root: Block
    var tamper: bool
    var acc: Access
    var ctr: Word
    var at: Place
    const sib: array<Block>
    const node: array<Block>
    var newCt: Block
    var newMac: Block
    var ks: Block
    var ksValid: bool
    var rsp: Answer

    ghost predicate Valid()
      reads this
    {
      2 <= depth <= 32 && sib.Length == node.Length == depth && sib != node && at.lvl < depth && Sib(at.idx) < 0x1_0000_0000
    }

    /** The registers, with what the two ciphers show at their ports. */
    function State(cm: Cm, s: Stream): Rtl
      reads this, sib, node
    {
      Rtl(fsm, root, tamper, acc, ctr, Walk(at.h, at.idx, at.lvl, at.second, sib[..], node[..]),
          newCt, newMac, cm, s.(valid := ksValid, ks := ks), rsp)
    }

    /** What the keystream register is after a clock. */
    function Kept(s: Stream, i: In): Stream
      reads this
    {
      s.(valid := if fsm == S_IDLE && i.valid then false else ksValid || s.done, ks := if s.done then s.out else ks)
    }

    constructor (depth: nat)
      requires 2 <= depth <= 32
      ensures Valid() && fresh(sib) && fresh(node) && this.depth == depth && fsm == S_IDLE && !tamper && !ksValid
    {
      this.depth := depth;
      fsm, root, tamper, acc := S_IDLE, ZERO, false, Access(0, false, ZERO, ZERO, ZERO, 0);
      ctr, at := 0, Place(ZERO, 0, 0, false);
      sib, node := new Block[depth](_ => ZERO), new Block[depth](_ => ZERO);
      newCt, newMac, ks, ksValid, rsp := ZERO, ZERO, ZERO, false, Answer(Spec.Ok, ZERO);
    }

    /** One clock edge: every right-hand side reads the registers as they were before it. */
    method Step(i: In, cm: Cm, s: Stream)
      requires Valid()
      modifies this, sib, node
      ensures State(cm, s) == Control(depth, old(State(cm, s)), i).(stream := old(Kept(s, i)))
    {
      hide Accept;
      hide PathStart;
      hide PathEnd;
      hide DmacStart;
      hide DmacEnd;
      hide Commit;
      var k := Kept(s, i);
      match fsm {
        case S_IDLE => if i.valid { Latch(i, cm, s); }
        case S_PATH => StartPath(i, cm, s);
        case S_PATH_W => EndPath(cm, s);
        case S_DMAC => StartMac(cm, s);
        case S_DMAC_W => EndMac(cm, s);
        case S_COMMIT => GoOn(cm, s);
        case S_RESP => fsm := S_IDLE;
      }
      ks, ksValid := k.ks, k.valid;
    }

    method Latch(i: In, ghost cm: Cm, ghost s: Stream)
      requires Valid()
      modifies this`acc, this`ctr, this`at, this`fsm
      ensures State(cm, s) == Accept(old(State(cm, s)), i)
    {
      hide Leaf;
      hide Valid;
      hide Sib;
      acc, ctr := Access(i.blk, i.write, i.wdata, i.ct, i.mac, i.ctr), i.ctr;
      at, fsm := Place(Leaf(i.blk, i.ctr), i.blk, 0, false), S_PATH;
    }

    /** In the first pass the sibling just hashed is kept. */
    method StartPath(i: In, cm: Cm, ghost s: Stream)
      requires Valid()
      modifies this`fsm, sib
      ensures State(cm, s) == PathStart(old(State(cm, s)), i)
    {
      hide Leaf;
      if !cm.busy {
        if !at.second { sib[at.lvl] := if at.lvl == 0 then Leaf(Sib(at.idx), i.sibCtr) else i.node; }
        fsm := S_PATH_W;
      }
    }

    method Respond(st: Spec.Status, data: Block, ghost cm: Cm, ghost s: Stream)
      modifies this`rsp, this`tamper, this`fsm
      ensures State(cm, s) == Reply(old(State(cm, s)), st, data)
    {
      rsp, fsm := Answer(st, data), S_RESP;
      if st == Spec.Tamper { tamper := true; }
    }

    /** The first pass has reached the top. */
    method Check(cm: Cm, ghost s: Stream)
      modifies this`rsp, this`tamper, this`fsm, this`ctr
      ensures State(cm, s) == Checked(old(State(cm, s)))
    {
      hide Reply;
      if cm.tag != root { Respond(Spec.Tamper, ZERO, cm, s); }
      else if acc.write && acc.was == 0xFFFF_FFFF { Respond(Spec.Exhausted, ZERO, cm, s); }
      else if acc.write { ctr, fsm := Spec.Bump(acc.was), S_DMAC; }
      else if acc.was == 0 { Respond(Spec.Ok, ZERO, cm, s); }
      else { fsm := S_DMAC; }
    }

    /** A tag of the path has come: one level up, or the end of a pass. */
    method EndPath(cm: Cm, ghost s: Stream)
      requires Valid()
      modifies this`at, this`fsm, this`root, this`ctr, this`tamper, this`rsp, node
      ensures State(cm, s) == PathEnd(depth, old(State(cm, s)))
    {
      hide Checked;
      if cm.done {
        var was := at;
        if was.second { node[was.lvl] := cm.tag; }
        if was.lvl < depth - 1 {
          at, fsm := Place(cm.tag, was.idx / 2, was.lvl + 1, was.second), S_PATH;
        } else if was.second {
          root, at, fsm := cm.tag, Place(cm.tag, was.idx / 2, 1, was.second), S_COMMIT;
        } else {
          at := Place(cm.tag, was.idx / 2, 0, was.second);
          Check(cm, s);
        }
      }
    }

    method StartMac(cm: Cm, ghost s: Stream)
      modifies this`newCt, this`fsm
      ensures State(cm, s) == DmacStart(old(State(cm, s)))
    {
      hide Xor;
      if !cm.busy && ksValid {
        if acc.write { newCt := Xor(acc.wdata, ks); }
        fsm := S_DMAC_W;
      }
    }

    method EndMac(cm: Cm, ghost s: Stream)
      requires Valid()
      modifies this`newMac, this`at, this`fsm, this`tamper, this`rsp
      ensures State(cm, s) == DmacEnd(old(State(cm, s)))
    {
      hide Xor;
      hide Leaf;
      hide Reply;
      hide Valid;
      hide Sib;
      if cm.done {
        if acc.write {
          newMac, at, fsm := cm.tag, Place(Leaf(acc.blk, ctr), acc.blk, 0, true), S_PATH;
        } else if cm.tag != acc.mac {
          Respond(Spec.Tamper, ZERO, cm, s);
        } else {
          Respond(Spec.Ok, Xor(acc.ct, ks), cm, s);
        }
      }
    }

    /** One more node of the path is being written. */
    method GoOn(ghost cm: Cm, ghost s: Stream)
      requires Valid()
      modifies this`at, this`fsm, this`tamper, this`rsp
      ensures State(cm, s) == Commit(depth, old(State(cm, s)))
    {
      hide Reply;
      if at.lvl == depth - 1 { Respond(Spec.Ok, ZERO, cm, s); } else { at := at.(lvl := at.lvl + 1); }
    }
  }
}
