/**
 * The CPU side of the fabric: turns a plain memory access into a signed
 * transaction and lets the CPU see only a response that checks out.
 */
module VtfBridge {
  import opened Words
  import opened VtfTypes
  import opened VtfSystem

  datatype BState = B_IDLE | B_SIGN | B_SEND | B_WAIT | B_VERIFY | B_DONE

  datatype Received = Received(msg: Msg, tag: Tag, status: bv8, data: Word)

  datatype CpuOut = CpuOut(valid: bool, ok: bool, rdata: Word)

  /** The sequence counters of the two requesters the bridge speaks for. */
  datatype Counters = Counters(fetch: Word, data: Word) {
    function Of(requester: U3): Word { if requester == REQ_FETCH then fetch else data }
  }

  /** The registers; `q` is the request in progress, `rsp` the response being checked. */
  datatype Bridge = Bridge(
    state: BState, seqs: Counters, q: Request, cm: Command, rsp: Received, cpu: CpuOut, tamper: bool)

  datatype BridgeIn = BridgeIn(
    keysReady: bool, activeEpoch: Word, valid: bool, fetch: bool, write: bool, layer: U8, addr: U32, wdata: Word,
    reqReady: bool, rspValid: bool, rsp: Received, eng: EngineIn)

  function Nonce(seqNo: Word, requester: U3): Word {
    0xC0DE_0000 ^ ((seqNo << 3) | (requester as bv32))
  }

  predicate CpuReady(b: Bridge, e: Engine, i: BridgeIn) {
    b.state == B_IDLE && i.keysReady && !e.busy && !i.eng.residue
  }

  predicate Issues(b: Bridge, e: Engine, i: BridgeIn) { i.valid && CpuReady(b, e, i) }

  function Requester(i: BridgeIn): U3 { if i.fetch then REQ_FETCH else REQ_DATA }

  /** The counter value the next request of this requester carries. */
  function NextSeq(c: Counters, i: BridgeIn): Word { c.Of(Requester(i)) + 1 }

  /** The request made of what the CPU asks for; its tag is not known yet. */
  function NewRequest(i: BridgeIn, seqNo: Word, tag: Tag): (q: Request)
    ensures q.requester == Requester(i) && q.seqNo == seqNo && q.epoch == i.activeEpoch
  {
    Request(Requester(i), i.write && !i.fetch, i.layer, i.addr, if i.write then i.wdata else 0,
            seqNo, i.activeEpoch, Nonce(seqNo, Requester(i)), tag)
  }

  /** The response repeats every field of the request, and a write the written word. */
  predicate FieldsMatch(q: Request, r: Received) {
    var m := r.msg;
    && m.head == 0xC3D2 && m.requester == q.requester && m.write == (if q.write then 1 else 0)
    && m.layer == q.layer && m.zero == 0 && m.addr == q.addr && m.seqNo == q.seqNo && m.epoch == q.epoch
    && m.nonce == q.nonce && m.magic == 0x5654_4632 && m.status == r.status && m.data == r.data
    && (q.write ==> r.data == q.data)
  }

  /** The response tag is right and the response answers this request. */
  predicate Verified(b: Bridge, e: Engine) { e.tag == b.rsp.tag && FieldsMatch(b.q, b.rsp) }

  function IssueStep(f: Fabric, b: Bridge, i: BridgeIn): Bridge {
    var seqNo := NextSeq(b.seqs, i);
    var q := NewRequest(i, seqNo, b.q.tag);
    b.(state := B_SIGN, q := q,
       seqs := if i.fetch then b.seqs.(fetch := seqNo) else b.seqs.(data := seqNo),
       cm := Command(true, (f.reqKey)(q.requester, i.activeEpoch), ReqMsg(q)))
  }

  function ReceiveStep(f: Fabric, b: Bridge, i: BridgeIn): Bridge {
    b.(state := B_VERIFY, rsp := i.rsp, cm := Command(true, (f.rspKey)(i.activeEpoch), i.rsp.msg))
  }

  function VerifyStep(b: Bridge, e: Engine): Bridge {
    b.(state := B_DONE, tamper := b.tamper || e.tag != b.rsp.tag,
       cpu := CpuOut(true, Verified(b, e) && b.rsp.status == 1, if Verified(b, e) then b.rsp.data else 0))
  }

  function Quiesce(b: Bridge): Bridge { b.(cm := b.cm.(start := false), cpu := b.cpu.(valid := false)) }

  function BridgeNext(f: Fabric, b: Bridge, e: Engine, i: BridgeIn): Bridge {
    var c := Quiesce(b);
    match b.state
    case B_IDLE => if Issues(b, e, i) then IssueStep(f, c, i) else c
    case B_SIGN => if e.done then c.(state := B_SEND, q := c.q.(tag := e.tag)) else c
    case B_SEND => if i.reqReady then c.(state := B_WAIT) else c
    case B_WAIT => if i.rspValid then ReceiveStep(f, c, i) else c
    case B_VERIFY => if e.done then VerifyStep(c, e) else c
    case B_DONE => c.(state := B_IDLE)
  }

  function BridgeEngine(f: Fabric, b: Bridge, e: Engine, i: BridgeIn): Engine {
    EngineNext(f, e, b.cm, i.eng, false)
  }

  /** A response passes the comparison exactly if it echoes the request and, for a write, the word. */
  lemma FieldsMatchExactly(q: Request, r: Received)
    ensures FieldsMatch(q, r) <==>
      r.msg == RspMsg(q, r.status, r.data) && (q.write ==> r.data == q.data)
  {
  }

  // ---------------------------------------------------------------- what it keeps

  /** The tag engine runs only while the bridge waits for it. */
  predicate EngineOnDuty(b: Bridge, e: Engine) {
    && (b.cm.start ==> !e.busy && !e.done) && !(e.busy && e.done)
    && (b.state == B_SIGN || b.state == B_VERIFY || (!b.cm.start && !e.busy))
  }

  /** It works on the request being signed, or on the response being checked. */
  predicate BridgeInv(f: Fabric, b: Bridge, e: Engine, epoch: Word) {
    && EngineOnDuty(b, e)
    && (e.busy ==> e.key == b.cm.key && e.msg == b.cm.msg)
    && (e.done ==> e.tag == (f.cmac)(b.cm.key, b.cm.msg))
    && (b.state == B_SIGN ==> b.cm.msg == ReqMsg(b.q) && b.cm.key == (f.reqKey)(b.q.requester, epoch))
    && (b.state == B_SEND ==> b.q.tag == (f.cmac)((f.reqKey)(b.q.requester, epoch), ReqMsg(b.q)))
    && (b.state == B_VERIFY ==> b.cm.key == (f.rspKey)(epoch) && b.cm.msg == b.rsp.msg)
    && (b.state != B_IDLE ==> b.q.requester <= 1)
  }

  lemma IssueKeeps(f: Fabric, b: Bridge, e: Engine, i: BridgeIn)
    requires BridgeInv(f, b, e, i.activeEpoch) && b.state == B_IDLE
    ensures BridgeInv(f, BridgeNext(f, b, e, i), BridgeEngine(f, b, e, i), i.activeEpoch)
  {
    hide ReqMsg;
    hide NewRequest;
    hide NextSeq;
  }

  lemma TagIsFree(q: Request, tag: Tag)
    ensures ReqMsg(q.(tag := tag)) == ReqMsg(q)
  {
  }

  lemma BridgeInvStep(f: Fabric, b: Bridge, e: Engine, i: BridgeIn)
    requires BridgeInv(f, b, e, i.activeEpoch)
    ensures BridgeInv(f, BridgeNext(f, b, e, i), BridgeEngine(f, b, e, i), i.activeEpoch)
  {
    hide ReqMsg;
    hide Verified;
    hide NewRequest;
    hide NextSeq;
    hide Issues;
    hide IssueStep;
    hide Nonce;
    TagIsFree(b.q, e.tag);
    if b.state == B_IDLE {
      IssueKeeps(f, b, e, i);
    }
  }
}
