/**
 * Bridge and fabric joined by a channel that may drop, alter, duplicate, delay,
 * replay or invent anything. The history records what really happened.
 */
module VtfChannel {
  import opened Words
  import opened VtfTypes
  import opened VtfGuard
  import opened VtfSystem
  import opened VtfInvariant
  import opened VtfBridge

  datatype Slot = Slot(requester: U3, seqNo: Word)

  function SlotOf(r: Request): Slot { Slot(r.requester, r.seqNo) }

  /** One execution in the stacked memory and the value it returned. */
  datatype Event = Event(req: Request, value: Word)

  /**
   * `issued` holds every request the bridge has signed, `log` every execution in
   * order, and `signed` every response message the fabric has put its key to,
   * each with the execution it reports, if any. `mark` is how long the log was
   * when the bridge's current request was issued.
   */
  datatype History = History(
    mem0: seq<Word>, issued: map<Slot, Request>, mark: nat, log: seq<Event>, signed: map<Msg, Option<nat>>)

  function Apply(mem: seq<Word>, r: Request): (m: seq<Word>)
    requires |mem| == LAYERS * LAYER_WORDS
    ensures |m| == |mem|
  {
    if r.write then mem[MemIndex(r) := r.data] else mem
  }

  function ValueOf(mem: seq<Word>, r: Request): Word
    requires |mem| == LAYERS * LAYER_WORDS
  {
    if r.write then r.data else mem[MemIndex(r)]
  }

  /** The memory after the logged executions, one at a time. */
  function Replay(mem: seq<Word>, log: seq<Event>): (m: seq<Word>)
    requires |mem| == LAYERS * LAYER_WORDS
    ensures |m| == |mem|
  {
    if log == [] then mem else Apply(Replay(mem, log[..|log| - 1]), log[|log| - 1].req)
  }

  predicate CpuRequester(r: Request) { r.requester <= 1 }

  predicate WritesTo(r: Request, k: nat) { r.write && MemIndex(r) == k }

  /** The replayed memory holds at every place the last word written there. */
  lemma {:induction false} LastWriteWins(mem: seq<Word>, log: seq<Event>, k: nat)
    requires |mem| == LAYERS * LAYER_WORDS && k < |mem|
    ensures
      || (Replay(mem, log)[k] == mem[k] && forall j :: 0 <= j < |log| ==> !WritesTo(log[j].req, k))
      || (exists j :: 0 <= j < |log| && WritesTo(log[j].req, k) && Replay(mem, log)[k] == log[j].req.data
           && forall l :: j < l < |log| ==> !WritesTo(log[l].req, k))
  {
    hide MemIndex;
    if log != [] {
      var n := |log| - 1;
      LastWriteWins(mem, log[..n], k);
      if WritesTo(log[n].req, k) {
        assert Replay(mem, log)[k] == log[n].req.data;
      } else if exists j :: 0 <= j < n && WritesTo(log[..n][j].req, k) {
        assert Replay(mem, log)[k] == Replay(mem, log[..n])[k];
        var j :| 0 <= j < n && WritesTo(log[..n][j].req, k) && Replay(mem, log[..n])[k] == log[..n][j].req.data
                 && forall l :: j < l < n ==> !WritesTo(log[..n][l].req, k);
        assert WritesTo(log[j].req, k);
        forall l | j < l < |log| ensures !WritesTo(log[l].req, k) { if l < n { assert log[..n][l] == log[l]; } }
      } else {
        assert Replay(mem, log)[k] == Replay(mem, log[..n])[k];
        forall j | 0 <= j < |log| ensures !WritesTo(log[j].req, k) { if j < n { assert log[..n][j] == log[j]; } }
      }
    }
  }

  // ------------------------------------------------------------ history invariants

  /** Every logged value is what a plain memory would have returned there. */
  ghost predicate LogTrue(h: History) {
    && |h.mem0| == LAYERS * LAYER_WORDS
    && forall j :: 0 <= j < |h.log| ==> h.log[j].value == ValueOf(Replay(h.mem0, h.log[..j]), h.log[j].req)
  }

  predicate IsNext(seqNo: Word, last: Word) { seqNo == last + 1 }

  lemma UsedStep(seqNo: Word, last: Word, next: Word)
    requires IsNext(next, last) && next != 0
    ensures Used(next, next) && !Used(next, last)
    ensures Used(seqNo, last) ==> Used(seqNo, next)
  {
    hide Used;
    UsedAfter(seqNo, last);
  }

  /** What a CPU requester had executed, the bridge had signed, and its sequence number is used up. */
  ghost predicate LogGenuine(h: History, last: seq<Word>) {
    && |last| == REQUESTERS
    && forall j :: 0 <= j < |h.log| && CpuRequester(h.log[j].req) ==>
        var r := h.log[j].req;
        Used(r.seqNo, last[r.requester]) && SlotOf(r) in h.issued && ReqMsg(h.issued[SlotOf(r)]) == ReqMsg(r)
  }

  /** No CPU request executes twice. */
  ghost predicate LogUnique(h: History) {
    forall j, k :: 0 <= j < k < |h.log| && CpuRequester(h.log[j].req) && h.log[j].req.requester == h.log[k].req.requester ==>
      h.log[j].req.seqNo != h.log[k].req.seqNo
  }

  ghost predicate NotLogged(h: History, requester: U8, seqNo: Word) {
    forall j :: 0 <= j < |h.log| ==> h.log[j].req.requester != requester || h.log[j].req.seqNo != seqNo
  }

  /** A signed response tells the truth: the execution it reports, or that there is none. */
  ghost predicate Honest(h: History, last: seq<Word>, m: Msg)
    requires m in h.signed && |last| == REQUESTERS
  {
    match h.signed[m]
    case Some(j) => j < |h.log| && m == RspMsg(h.log[j].req, 1, h.log[j].value)
    case None => m.status != 1 && (m.requester <= 1 ==> Used(m.seqNo, last[m.requester]) && NotLogged(h, m.requester, m.seqNo))
  }

  ghost predicate SignedHonest(h: History, last: seq<Word>)
    requires |last| == REQUESTERS
  {
    forall m :: m in h.signed ==> Honest(h, last, m)
  }

  /** The bridge's own requests, filed under requester and sequence number, none of them zero. */
  ghost predicate IssuedFiled(h: History) {
    forall slot :: slot in h.issued ==>
      SlotOf(h.issued[slot]) == slot && slot.requester <= 1 && slot.seqNo != 0
  }

  predicate Answering(t: U3) { t == S_MEM || t == S_SIGN || t == S_RESP }

  /** The transaction being answered has used up its sequence number, and its execution, if any, was the last one. */
  ghost predicate Current(g: Ghost, h: History)
    requires |g.last| == REQUESTERS
  {
    && g.cur.requester < REQUESTERS && g.last[g.cur.requester] == g.cur.seqNo
    && (CpuRequester(g.cur) ==> Used(g.cur.seqNo, g.cur.seqNo))
    && match g.exec
       case Some(v) => |h.log| > 0 && h.log[|h.log| - 1] == Event(g.cur, v)
       case None => CpuRequester(g.cur) ==> NotLogged(h, g.cur.requester, g.cur.seqNo)
  }

  ghost predicate FabricInv(f: Fabric, s: Sys, g: Ghost, h: History, epoch: Word) {
    && Good(f, NoFlaw, s, g)
    && (s.c.fsm.state != S_IDLE ==> g.key == RequestKey(f, g.cur, epoch))
    && LogTrue(h) && s.store.mem == Replay(h.mem0, h.log)
    && LogGenuine(h, g.last) && LogUnique(h) && SignedHonest(h, g.last)
    && (Answering(s.c.fsm.state) && !s.guard.Locked(f.h) ==> Current(g, h))
  }

  // ------------------------------------------------------------------- run hypotheses

  /** The bridge has signed this message. */
  ghost predicate Genuine(h: History, m: Msg) {
    exists slot :: slot in h.issued && ReqMsg(h.issued[slot]) == m
  }

  /** A request tag of a CPU requester that is right belongs to a message the bridge signed. */
  ghost predicate RequestUnforged(f: Fabric, s: Sys, g: Ghost, h: History, epoch: Word) {
    var tag := (f.cmac)((f.reqKey)(g.cur.requester, epoch), ReqMsg(g.cur));
    s.c.fsm.state == S_GUARD && CpuRequester(g.cur) && g.cur.tag == tag ==> Genuine(h, ReqMsg(g.cur))
  }

  /** A response tag that is right belongs to a message the fabric signed. */
  predicate ResponseUnforged(f: Fabric, b: Bridge, h: History, epoch: Word) {
    b.state == B_VERIFY && b.rsp.tag == (f.cmac)((f.rspKey)(epoch), b.rsp.msg) ==> b.rsp.msg in h.signed
  }

  // --------------------------------------------------------------------- the steps

  predicate Signs(f: Fabric, s: Sys, i: Inputs)
    requires s.Shaped() && i.Shaped()
  {
    s.c.fsm.state == S_SIGN && NextCtl(f, s, i).fsm.state == S_RESP
  }

  function LogNext(f: Fabric, s: Sys, g: Ghost, h: History, i: Inputs): History
    requires s.Shaped() && i.Shaped()
  {
    h.(log := if Executes(f, s, i) then h.log + [Event(s.c.r, Result(s))] else h.log,
       signed := if Signs(f, s, i) then
                   h.signed[NextCtl(f, s, i).cm.msg :=
                     if g.exec.Some? && |h.log| > 0 then Some((|h.log| - 1) as nat) else None]
                 else h.signed)
  }

  function IssueNext(b: Bridge, e: Engine, h: History, i: BridgeIn): History {
    if Issues(b, e, i) then
      var q := NewRequest(i, NextSeq(b.seqs, i), b.q.tag);
      h.(issued := h.issued[SlotOf(q) := q], mark := |h.log|)
    else h
  }

  // -------------------------------------------------- what one clock of the fabric does

  /** A consumed sequence number belongs to a presented, signed request and is the next one. */
  lemma ConsumedIsNext(f: Fabric, s: Sys, g: Ghost, i: Inputs)
    requires Good(f, NoFlaw, s, g) && i.Shaped() && Consumes(f, s, i)
    ensures s.c.r == g.cur && Signed(f, NoFlaw, g) && g.cur.seqNo == g.last[g.cur.requester] + 1
  {
    ConsumeMeans(f, s, i);
    hide Judge;
    AuthPassMeans(f, NoFlaw, s.c, g);
    hide CoreGuard;
    hide AuthPass;
    hide Signed;
    hide Handshake;
  }

  lemma ConsumeMeans(f: Fabric, s: Sys, i: Inputs)
    requires s.Shaped() && i.Shaped() && Consumes(f, s, i)
    ensures AuthPass(f, s.c) && s.c.r.seqNo == s.guard.lastSeq[s.c.r.requester] + 1 && s.c.fsm.state == S_GUARD
  {
    hide Parity;
    hide PolicyAllows;
    hide GuardLayer;
    hide AuthPass;
  }

  lemma ExecutedIsConsumed(f: Fabric, s: Sys, i: Inputs)
    requires s.Shaped() && i.Shaped() && Executes(f, s, i)
    ensures Consumes(f, s, i)
  {
    AllowedMeans(f, s, i);
    hide AuthPass;
    hide AddrOk;
    hide CodeFault;
    hide StateFault;
  }

  /** The memory changes only by executions. */
  lemma StoreFollows(f: Fabric, s: Sys, i: Inputs)
    requires s.Shaped() && i.Shaped()
    ensures Next(f, s, i).store.mem == if Executes(f, s, i) then Apply(s.store.mem, s.c.r) else s.store.mem
    ensures Result(s) == ValueOf(s.store.mem, s.c.r)
  {
    hide Executes;
    hide NextCtl;
    hide EngineNext;
    hide Clock;
    hide MemIndex;
  }

  /** An answer under way either has just used up its sequence number, or goes on as it was. */
  lemma AnsweringFrom(f: Fabric, s: Sys, g: Ghost, i: Inputs)
    requires Good(f, NoFlaw, s, g) && i.Shaped()
    requires var n := Next(f, s, i); Answering(n.c.fsm.state) && !n.guard.Locked(f.h)
    ensures !s.guard.Locked(f.h)
    ensures Consumes(f, s, i) || (Answering(s.c.fsm.state) && GhostNext(f, s, g, i) == g)
  {
    AnsweringFsm(f, s, i);
    UnlockedMeans(f, s, i);
    hide Judge;
    hide Next;
    hide Executes;
    hide Good;
    assert !Accepts(f, s, i);
  }

  lemma AnsweringFsm(f: Fabric, s: Sys, i: Inputs)
    requires s.Shaped() && i.Shaped() && s.c.fsm.RailsAgree() && Answering(NextCtl(f, s, i).fsm.state)
    ensures s.c.fsm.state == S_GUARD || Answering(s.c.fsm.state)
  {
    ControlIs(f, s, i);
    hide Judge;
    hide LockdownOut;
    hide Accepts;
    hide NextCtl;
    hide Control;
    hide ReqMsg;
    hide Reply;
  }

  lemma UnlockedMeans(f: Fabric, s: Sys, i: Inputs)
    requires s.Shaped() && i.Shaped() && !Next(f, s, i).guard.Locked(f.h)
    ensures !s.guard.Locked(f.h) && !Judge(f, s, i).severe
    ensures s.c.fsm.state == S_GUARD ==> Consumes(f, s, i)
  {
    hide Parity;
    hide PolicyAllows;
    hide AuthPass;
    hide NextCtl;
    hide EngineNext;
    hide StoreNext;
    hide GuardLayer;
  }

  /** What gets signed reports the status and data of the transaction. */
  lemma SignedReports(f: Fabric, s: Sys, g: Ghost, i: Inputs)
    requires Good(f, NoFlaw, s, g) && i.Shaped() && Signs(f, s, i)
    ensures !s.guard.Locked(f.h)
    ensures var m := NextCtl(f, s, i).cm.msg;
      m == RspMsg(g.cur, s.c.ans.status, s.c.ans.data) && (m.status == 1 <==> g.exec.Some?)
      && (g.exec.Some? ==> g.exec == Some(m.data))
  {
    ControlIs(f, s, i);
    hide Judge;
    hide NextCtl;
    hide Control;
    hide GuardAgrees;
    hide Parity;
    hide Parity8;
    hide ParityOk;
  }

  // ----------------------------------------------------------- what the history keeps

  lemma GenuineIsFiled(h: History, r: Request)
    requires IssuedFiled(h) && Genuine(h, ReqMsg(r))
    ensures SlotOf(r) in h.issued && ReqMsg(h.issued[SlotOf(r)]) == ReqMsg(r) && r.seqNo != 0
  {
    var slot :| slot in h.issued && ReqMsg(h.issued[slot]) == ReqMsg(r);
    assert SlotOf(h.issued[slot]) == slot;
  }

  lemma ReplayAppend(h: History, ev: Event)
    requires LogTrue(h) && ev.value == ValueOf(Replay(h.mem0, h.log), ev.req)
    ensures LogTrue(h.(log := h.log + [ev]))
    ensures Replay(h.mem0, h.log + [ev]) == Apply(Replay(h.mem0, h.log), ev.req)
  {
    var log := h.log + [ev];
    assert log[..|h.log|] == h.log;
    forall j | 0 <= j < |log| ensures log[j].value == ValueOf(Replay(h.mem0, log[..j]), log[j].req) {
      if j < |h.log| { assert log[..j] == h.log[..j]; }
    }
    hide Apply;
    hide ValueOf;
  }

  lemma AdvanceKeeps(h: History, last: seq<Word>, r: Request)
    requires LogGenuine(h, last) && SignedHonest(h, last) && r.requester < REQUESTERS
    requires CpuRequester(r) ==> !Used(r.seqNo, last[r.requester])
    requires CpuRequester(r) ==> forall k: Word :: Used(k, last[r.requester]) ==> Used(k, r.seqNo)
    ensures LogGenuine(h, last[r.requester := r.seqNo]) && SignedHonest(h, last[r.requester := r.seqNo])
    ensures CpuRequester(r) ==> NotLogged(h, r.requester, r.seqNo)
  {
    hide Used;
    hide ReqMsg;
    hide RspMsg;
    var next := last[r.requester := r.seqNo];
    forall m | m in h.signed ensures Honest(h, next, m) { assert Honest(h, last, m); }
  }

  /** Using up the next sequence number of a requester. */
  lemma ConsumeKeeps(h: History, last: seq<Word>, r: Request)
    requires |last| == REQUESTERS && LogGenuine(h, last) && SignedHonest(h, last) && r.requester < REQUESTERS
    requires IsNext(r.seqNo, last[r.requester]) && (CpuRequester(r) ==> r.seqNo != 0)
    ensures LogGenuine(h, last[r.requester := r.seqNo]) && SignedHonest(h, last[r.requester := r.seqNo])
    ensures CpuRequester(r) ==>
      Used(r.seqNo, r.seqNo) && !Used(r.seqNo, last[r.requester]) && NotLogged(h, r.requester, r.seqNo)
  {
    hide LogGenuine;
    hide SignedHonest;
    hide NotLogged;
    hide Used;
    hide IsNext;
    var was := last[r.requester];
    if CpuRequester(r) {
      forall k: Word ensures Used(k, was) ==> Used(k, r.seqNo) { UsedStep(k, was, r.seqNo); }
      UsedStep(0, was, r.seqNo);
    }
    AdvanceKeeps(h, last, r);
  }

  /** Executing a request whose sequence number was just used up. */
  lemma ExecuteKeeps(h: History, last: seq<Word>, next: seq<Word>, ev: Event)
    requires LogGenuine(h, last) && LogGenuine(h, next) && LogUnique(h) && SignedHonest(h, last) && SignedHonest(h, next)
    requires ev.req.requester < REQUESTERS && next[ev.req.requester] == ev.req.seqNo
    requires CpuRequester(ev.req) ==>
      && !Used(ev.req.seqNo, last[ev.req.requester]) && Used(ev.req.seqNo, ev.req.seqNo)
      && SlotOf(ev.req) in h.issued && ReqMsg(h.issued[SlotOf(ev.req)]) == ReqMsg(ev.req)
    ensures var n := h.(log := h.log + [ev]); LogGenuine(n, next) && LogUnique(n) && SignedHonest(n, next)
  {
    hide Used;
    hide ReqMsg;
    hide RspMsg;
    var n := h.(log := h.log + [ev]);
    forall m | m in n.signed ensures Honest(n, next, m) {
      assert Honest(h, last, m);
      assert Honest(h, next, m);
    }
  }

  lemma SignKeeps(f: Fabric, g: Ghost, h: History, status: bv8, data: Word)
    requires |g.last| == REQUESTERS && SignedHonest(h, g.last) && Current(g, h)
    requires (status == 1 <==> g.exec.Some?) && (g.exec.Some? ==> g.exec == Some(data))
    ensures var n := h.(signed := h.signed[RspMsg(g.cur, status, data) :=
                         if g.exec.Some? && |h.log| > 0 then Some((|h.log| - 1) as nat) else None]);
      SignedHonest(n, g.last)
  {
    var m := RspMsg(g.cur, status, data);
    assert m.requester == g.cur.requester && m.seqNo == g.cur.seqNo && m.status == status;
    hide RspMsg;
    hide Used;
    var n := h.(signed := h.signed[m := if g.exec.Some? && |h.log| > 0 then Some((|h.log| - 1) as nat) else None]);
    forall k | k in n.signed ensures Honest(n, g.last, k) {
      if k != m { assert Honest(h, g.last, k); }
    }
  }

  // ---------------------------------------------------------- one clock of the fabric

  /** Using up a genuine request, and executing it or not. */
  lemma LedgerConsumes(h: History, last: seq<Word>, mem: seq<Word>, r: Request, executes: bool)
    requires |last| == REQUESTERS && r.requester < REQUESTERS && IssuedFiled(h)
    requires LogTrue(h) && LogGenuine(h, last) && LogUnique(h) && SignedHonest(h, last) && mem == Replay(h.mem0, h.log)
    requires IsNext(r.seqNo, last[r.requester]) && (CpuRequester(r) ==> Genuine(h, ReqMsg(r)))
    ensures var n, next := if executes then h.(log := h.log + [Event(r, ValueOf(mem, r))]) else h, last[r.requester := r.seqNo];
      && LogTrue(n) && LogGenuine(n, next) && LogUnique(n) && SignedHonest(n, next)
      && Replay(n.mem0, n.log) == (if executes then Apply(mem, r) else mem)
      && (CpuRequester(r) ==> Used(r.seqNo, r.seqNo) && (!executes ==> NotLogged(n, r.requester, r.seqNo)))
  {
    assert |mem| == LAYERS * LAYER_WORDS;
    hide *;
    if CpuRequester(r) { GenuineIsFiled(h, r); }
    ConsumeKeeps(h, last, r);
    if executes {
      var ev := Event(r, ValueOf(mem, r));
      ExecuteKeeps(h, last, last[r.requester := r.seqNo], ev);
      ReplayAppend(h, ev);
    }
  }

  lemma ConsumedGhost(f: Fabric, s: Sys, g: Ghost, i: Inputs)
    requires Good(f, NoFlaw, s, g) && i.Shaped() && Consumes(f, s, i)
    ensures var k, r := GhostNext(f, s, g, i), g.cur;
      && s.c.fsm.state == S_GUARD && s.c.r == r && r.requester < REQUESTERS && Signed(f, NoFlaw, g)
      && IsNext(r.seqNo, g.last[r.requester])
      && k.cur == r && k.last == g.last[r.requester := r.seqNo]
      && k.exec == (if Executes(f, s, i) then Some(Result(s)) else None)
  {
    ConsumedIsNext(f, s, g, i);
    assert g.exec == None;
    hide Judge;
    hide Executes;
    hide Signed;
    hide Result;
    hide Good;
  }

  lemma ConsumedLog(f: Fabric, s: Sys, g: Ghost, h: History, i: Inputs)
    requires s.Shaped() && i.Shaped() && s.c.fsm.state == S_GUARD
    ensures LogNext(f, s, g, h, i) ==
      if Executes(f, s, i) then h.(log := h.log + [Event(s.c.r, ValueOf(s.store.mem, s.c.r))]) else h
  {
    StoreFollows(f, s, i);
    hide Executes;
    hide NextCtl;
    hide ValueOf;
    hide Result;
  }

  lemma SignedIsGenuine(f: Fabric, s: Sys, g: Ghost, h: History, epoch: Word)
    requires s.c.fsm.state == S_GUARD && Signed(f, NoFlaw, g) && g.key == RequestKey(f, g.cur, epoch)
    requires RequestUnforged(f, s, g, h, epoch)
    ensures CpuRequester(g.cur) ==> Genuine(h, ReqMsg(g.cur))
  {
    hide ReqMsg;
    hide Genuine;
  }

  /** The history part of the invariant, in one clock that uses up a sequence number and may execute. */
  lemma ConsumeStep(f: Fabric, s: Sys, g: Ghost, h: History, i: Inputs)
    requires Good(f, NoFlaw, s, g) && s.Shaped() && |g.last| == REQUESTERS && i.Shaped() && Consumes(f, s, i)
    requires g.key == RequestKey(f, g.cur, i.activeEpoch) && |s.store.mem| == LAYERS * LAYER_WORDS
    requires LogTrue(h) && s.store.mem == Replay(h.mem0, h.log)
    requires LogGenuine(h, g.last) && LogUnique(h) && SignedHonest(h, g.last)
    requires IssuedFiled(h) && RequestUnforged(f, s, g, h, i.activeEpoch)
    ensures var k, n := GhostNext(f, s, g, i), LogNext(f, s, g, h, i);
      && LogTrue(n) && Next(f, s, i).store.mem == Replay(n.mem0, n.log)
      && LogGenuine(n, k.last) && LogUnique(n) && SignedHonest(n, k.last) && Current(k, n)
  {
    hide *;
    ConsumedGhost(f, s, g, i);
    StoreFollows(f, s, i);
    ConsumedLog(f, s, g, h, i);
    SignedIsGenuine(f, s, g, h, i.activeEpoch);
    LedgerConsumes(h, g.last, s.store.mem, g.cur, Executes(f, s, i));
    LedgerIsCurrent(g, GhostNext(f, s, g, i), h, LogNext(f, s, g, h, i), s.store.mem, Executes(f, s, i));
  }

  lemma LedgerIsCurrent(g: Ghost, k: Ghost, h: History, n: History, mem: seq<Word>, executes: bool)
    requires |g.last| == REQUESTERS && |mem| == LAYERS * LAYER_WORDS && g.cur.requester < REQUESTERS && k.cur == g.cur
    requires k.last == g.last[g.cur.requester := g.cur.seqNo]
    requires CpuRequester(g.cur) ==> Used(g.cur.seqNo, g.cur.seqNo)
    requires if executes then k.exec == Some(ValueOf(mem, g.cur)) && n.log == h.log + [Event(g.cur, ValueOf(mem, g.cur))]
             else k.exec == None && (CpuRequester(g.cur) ==> NotLogged(n, g.cur.requester, g.cur.seqNo))
    ensures Current(k, n)
  {
    hide Used;
    hide NotLogged;
    hide ValueOf;
  }

  lemma SignedStep(f: Fabric, s: Sys, g: Ghost, h: History, i: Inputs)
    requires FabricInv(f, s, g, h, i.activeEpoch) && i.Shaped() && !Executes(f, s, i)
    ensures SignedHonest(LogNext(f, s, g, h, i), g.last)
  {
    if Signs(f, s, i) {
      SignedReports(f, s, g, i);
      hide Good;
      hide NextCtl;
      hide RspMsg;
      hide Executes;
      hide Replay;
      hide LogTrue;
      hide LogGenuine;
      hide LogUnique;
      hide Current;
      hide SignedHonest;
      SignKeeps(f, g, h, s.c.ans.status, s.c.ans.data);
    }
  }

  lemma LedgerStays(f: Fabric, s: Sys, g: Ghost, h: History, i: Inputs)
    requires s.Shaped() && i.Shaped() && |g.last| == REQUESTERS && !Executes(f, s, i)
    ensures var n := LogNext(f, s, g, h, i);
      && (LogTrue(h) ==> LogTrue(n)) && (LogGenuine(h, g.last) ==> LogGenuine(n, g.last))
      && (LogUnique(h) ==> LogUnique(n)) && (Current(g, h) ==> Current(g, n))
  {
    hide Executes;
    hide Signs;
    hide Used;
    hide ReqMsg;
    hide Replay;
    hide ValueOf;
  }

  /** The history part, in a clock that uses up nothing. */
  lemma OtherStep(f: Fabric, s: Sys, g: Ghost, h: History, i: Inputs)
    requires FabricInv(f, s, g, h, i.activeEpoch) && i.Shaped() && !Consumes(f, s, i)
    ensures var k, m, n := GhostNext(f, s, g, i), Next(f, s, i), LogNext(f, s, g, h, i);
      && LogTrue(n) && m.store.mem == Replay(n.mem0, n.log)
      && LogGenuine(n, k.last) && LogUnique(n) && SignedHonest(n, k.last)
      && (Answering(m.c.fsm.state) && !m.guard.Locked(f.h) ==> Current(k, n))
  {
    if Executes(f, s, i) { ExecutedIsConsumed(f, s, i); }
    StoreFollows(f, s, i);
    LedgerStays(f, s, g, h, i);
    SignedStep(f, s, g, h, i);
    var m := Next(f, s, i);
    if Answering(m.c.fsm.state) && !m.guard.Locked(f.h) { AnsweringFrom(f, s, g, i); }
    hide Good;
    hide Judge;
    hide Next;
    hide Signs;
    hide Executes;
    hide Consumes;
    hide Accepts;
    hide Replay;
    hide LogTrue;
    hide LogGenuine;
    hide LogUnique;
    hide Current;
    hide SignedHonest;
  }

  lemma KeyStep(f: Fabric, s: Sys, g: Ghost, h: History, i: Inputs)
    requires FabricInv(f, s, g, h, i.activeEpoch) && i.Shaped()
    ensures var k, n := GhostNext(f, s, g, i), Next(f, s, i);
      n.c.fsm.state != S_IDLE ==> k.key == RequestKey(f, k.cur, i.activeEpoch)
  {
    ControlIs(f, s, i);
    hide Judge;
    hide Accepts;
    hide NextCtl;
    hide Control;
    hide EngineNext;
    hide StoreNext;
    hide Clock;
    hide RequestKey;
    hide LogTrue;
    hide LogGenuine;
    hide LogUnique;
    hide SignedHonest;
  }

  /** The fabric keeps its word, clock after clock, whatever it is sent. */
  lemma FabricStep(f: Fabric, s: Sys, g: Ghost, h: History, i: Inputs)
    requires FabricInv(f, s, g, h, i.activeEpoch) && IssuedFiled(h) && i.Shaped()
    requires RequestUnforged(f, s, g, h, i.activeEpoch)
    ensures FabricInv(f, Next(f, s, i), GhostNext(f, s, g, i), LogNext(f, s, g, h, i), i.activeEpoch)
  {
    GoodStep(f, NoFlaw, s, g, i);
    KeyStep(f, s, g, h, i);
    assert Good(f, NoFlaw, s, g);
    if Consumes(f, s, i) { ConsumeStep(f, s, g, h, i); } else { OtherStep(f, s, g, h, i); }
    hide Good;
    hide Next;
    hide GhostNext;
    hide LogNext;
    hide LogTrue;
    hide LogGenuine;
    hide LogUnique;
    hide SignedHonest;
    hide Current;
    hide Replay;
    hide RequestKey;
  }

  // ----------------------------------------------------------------- the whole world

  /** Bridge and fabric with what the channel is given to see and to spoil. */
  datatype World = World(b: Bridge, e: Engine, s: Sys, g: Ghost, h: History)

  /** What the outside decides in one clock: everything on the wires between the two sides included. */
  datatype Tick = Tick(fabric: Inputs, bridge: BridgeIn)

  /** Only numbers the bridge has given out are on file. */
  ghost predicate IssuedCounted(b: Bridge, h: History) {
    forall slot :: slot in h.issued ==> slot.requester <= 1 && Used(slot.seqNo, b.seqs.Of(slot.requester))
  }

  /** The request in progress is on file and has not executed before it was issued. */
  ghost predicate InProgress(b: Bridge, h: History) {
    b.state != B_IDLE ==>
      && b.q.requester <= 1 && SlotOf(b.q) in h.issued && ReqMsg(h.issued[SlotOf(b.q)]) == ReqMsg(b.q)
      && h.mark <= |h.log|
      && forall j :: 0 <= j < h.mark ==> SlotOf(h.log[j].req) != SlotOf(b.q)
  }

  ghost predicate WorldInv(f: Fabric, w: World, epoch: Word) {
    && BridgeInv(f, w.b, w.e, epoch) && FabricInv(f, w.s, w.g, w.h, epoch)
    && IssuedFiled(w.h) && IssuedCounted(w.b, w.h) && InProgress(w.b, w.h)
  }

  function WorldNext(f: Fabric, w: World, t: Tick): World
    requires w.s.Shaped() && t.fabric.Shaped() && |w.g.last| == REQUESTERS
  {
    World(BridgeNext(f, w.b, w.e, t.bridge), BridgeEngine(f, w.b, w.e, t.bridge),
          Next(f, w.s, t.fabric), GhostNext(f, w.s, w.g, t.fabric),
          IssueNext(w.b, w.e, LogNext(f, w.s, w.g, w.h, t.fabric), t.bridge))
  }

  /** One epoch, tags that nobody forges, and counters that do not wrap. */
  ghost predicate Fair(f: Fabric, w: World, t: Tick, epoch: Word) {
    && t.fabric.Shaped() && t.fabric.activeEpoch == epoch && t.bridge.activeEpoch == epoch
    && RequestUnforged(f, w.s, w.g, w.h, epoch) && ResponseUnforged(f, w.b, w.h, epoch)
    && (Issues(w.b, w.e, t.bridge) ==> NextSeq(w.b.seqs, t.bridge) != 0)
  }

  /** Filing a new request disturbs nothing the fabric has promised. */
  lemma IssueKeepsFabric(f: Fabric, b: Bridge, e: Engine, s: Sys, g: Ghost, h: History, i: BridgeIn)
    requires FabricInv(f, s, g, h, i.activeEpoch) && IssuedCounted(b, h)
    requires Issues(b, e, i) ==> NextSeq(b.seqs, i) != 0
    ensures FabricInv(f, s, g, IssueNext(b, e, h, i), i.activeEpoch)
  {
    if Issues(b, e, i) {
      var q := NewRequest(i, NextSeq(b.seqs, i), b.q.tag);
      NewSlot(b, h, i);
      IssueKeepsLog(g, h, q, |h.log|);
    }
    hide Good;
    hide NewRequest;
    hide NextSeq;
    hide Issues;
    hide LogGenuine;
    hide SignedHonest;
    hide Honest;
    hide RequestKey;
    hide IssuedCounted;
    hide ReqMsg;
    hide Used;
    hide Replay;
    hide ValueOf;
  }

  lemma IssueKeepsLog(g: Ghost, h: History, q: Request, mark: nat)
    requires |g.last| == REQUESTERS && LogGenuine(h, g.last) && SignedHonest(h, g.last) && SlotOf(q) !in h.issued
    ensures var n := h.(issued := h.issued[SlotOf(q) := q], mark := mark);
      LogGenuine(n, g.last) && SignedHonest(n, g.last) && (LogTrue(h) ==> LogTrue(n)) && (LogUnique(h) ==> LogUnique(n))
      && (Current(g, h) ==> Current(g, n))
  {
    hide ReqMsg;
    hide RspMsg;
    hide Used;
    hide Replay;
    hide ValueOf;
    var n := h.(issued := h.issued[SlotOf(q) := q], mark := mark);
    forall m | m in n.signed ensures Honest(n, g.last, m) { assert Honest(h, g.last, m); }
  }

  /** The next request gets a slot nobody has used. */
  lemma NewSlot(b: Bridge, h: History, i: BridgeIn)
    requires IssuedCounted(b, h) && NextSeq(b.seqs, i) != 0
    ensures Slot(Requester(i), NextSeq(b.seqs, i)) !in h.issued
  {
    hide Used;
    UsedStep(0, b.seqs.Of(Requester(i)), NextSeq(b.seqs, i));
  }

  lemma FileStep(f: Fabric, b: Bridge, e: Engine, h: History, i: BridgeIn)
    requires IssuedFiled(h) && IssuedCounted(b, h)
    requires Issues(b, e, i) ==> NextSeq(b.seqs, i) != 0
    ensures IssuedFiled(IssueNext(b, e, h, i)) && IssuedCounted(BridgeNext(f, b, e, i), IssueNext(b, e, h, i))
  {
    if Issues(b, e, i) {
      CountStep(f, b, e, h, i);
    } else {
      hide IssuedFiled;
      hide Verified;
      hide ReqMsg;
      assert BridgeNext(f, b, e, i).seqs == b.seqs;
    }
  }

  lemma FileOne(h: History, n: History, b: Bridge, c: Bridge, q: Request)
    requires IssuedFiled(h) && IssuedCounted(b, h) && n.issued == h.issued[SlotOf(q) := q]
    requires q.requester <= 1 && q.seqNo != 0 && IsNext(q.seqNo, b.seqs.Of(q.requester))
    requires c.seqs == if q.requester == REQ_FETCH then b.seqs.(fetch := q.seqNo) else b.seqs.(data := q.seqNo)
    ensures IssuedFiled(n) && IssuedCounted(c, n)
  {
    hide Used;
    hide IsNext;
    var was := b.seqs.Of(q.requester);
    forall k: Word ensures Used(k, was) ==> Used(k, q.seqNo) { UsedStep(k, was, q.seqNo); }
    UsedStep(0, was, q.seqNo);
    forall slot | slot in n.issued ensures slot.requester <= 1 && Used(slot.seqNo, c.seqs.Of(slot.requester)) {
      if slot != SlotOf(q) { assert slot in h.issued; }
    }
  }

  lemma CountStep(f: Fabric, b: Bridge, e: Engine, h: History, i: BridgeIn)
    requires IssuedFiled(h) && IssuedCounted(b, h) && Issues(b, e, i) && NextSeq(b.seqs, i) != 0
    ensures IssuedFiled(IssueNext(b, e, h, i)) && IssuedCounted(BridgeNext(f, b, e, i), IssueNext(b, e, h, i))
  {
    hide IssuedFiled;
    hide IssuedCounted;
    hide ReqMsg;
    hide IsNext;
    CounterIsNext(b, i);
    hide NewRequest;
    hide NextSeq;
    FileOne(h, IssueNext(b, e, h, i), b, BridgeNext(f, b, e, i), NewRequest(i, NextSeq(b.seqs, i), b.q.tag));
  }

  lemma CounterIsNext(b: Bridge, i: BridgeIn)
    ensures IsNext(NextSeq(b.seqs, i), b.seqs.Of(Requester(i)))
  {
  }

  lemma ProgressStep(f: Fabric, b: Bridge, e: Engine, h: History, n: History, i: BridgeIn)
    requires InProgress(b, h) && n.issued == h.issued && n.mark == h.mark && h.log <= n.log
    requires IssuedCounted(b, h) && (Issues(b, e, i) ==> NextSeq(b.seqs, i) != 0)
    requires forall j :: 0 <= j < |n.log| && CpuRequester(n.log[j].req) ==> SlotOf(n.log[j].req) in n.issued
    ensures InProgress(BridgeNext(f, b, e, i), IssueNext(b, e, n, i))
  {
    hide Verified;
    hide Used;
    hide Nonce;
    TagIsFree(b.q, e.tag);
    if Issues(b, e, i) { NewSlot(b, h, i); }
    hide ReqMsg;
    hide NextSeq;
    hide IssuedCounted;
  }

  lemma WorldStep(f: Fabric, w: World, t: Tick, epoch: Word)
    requires w.s.Shaped() && |w.g.last| == REQUESTERS && WorldInv(f, w, epoch) && Fair(f, w, t, epoch)
    ensures WorldInv(f, WorldNext(f, w, t), epoch)
  {
    hide BridgeInv;
    hide FabricInv;
    hide IssuedFiled;
    hide IssuedCounted;
    hide RequestUnforged;
    hide ResponseUnforged;
    hide BridgeNext;
    hide BridgeEngine;
    hide Next;
    hide GhostNext;
    hide LogNext;
    hide IssueNext;
    hide InProgress;
    hide Issues;
    hide NextSeq;
    var h1 := LogNext(f, w.s, w.g, w.h, t.fabric);
    FabricStep(f, w.s, w.g, w.h, t.fabric);
    LogGrows(f, w.s, w.g, w.h, t.fabric);
    SameIssued(w.b, w.h, h1);
    IssueKeepsFabric(f, w.b, w.e, Next(f, w.s, t.fabric), GhostNext(f, w.s, w.g, t.fabric), h1, t.bridge);
    FileStep(f, w.b, w.e, h1, t.bridge);
    BridgeInvStep(f, w.b, w.e, t.bridge);
    LogOnFile(f, Next(f, w.s, t.fabric), GhostNext(f, w.s, w.g, t.fabric), h1, epoch);
    ProgressStep(f, w.b, w.e, w.h, h1, t.bridge);
  }

  lemma LogGrows(f: Fabric, s: Sys, g: Ghost, h: History, i: Inputs)
    requires s.Shaped() && i.Shaped()
    ensures var n := LogNext(f, s, g, h, i);
      && n.issued == h.issued && n.mark == h.mark && n.mem0 == h.mem0 && h.log <= n.log
      && forall m :: m in h.signed ==> m in n.signed
  {
    hide Executes;
    hide Signs;
    hide NextCtl;
    hide Result;
  }

  lemma SameIssued(b: Bridge, h: History, n: History)
    requires IssuedFiled(h) && IssuedCounted(b, h) && n.issued == h.issued
    ensures IssuedFiled(n) && IssuedCounted(b, n)
  {
    hide Used;
  }

  lemma LogOnFile(f: Fabric, s: Sys, g: Ghost, h: History, epoch: Word)
    requires FabricInv(f, s, g, h, epoch)
    ensures forall j :: 0 <= j < |h.log| && CpuRequester(h.log[j].req) ==> SlotOf(h.log[j].req) in h.issued
  {
    hide Good;
    hide Used;
    hide ReqMsg;
    hide RequestKey;
    hide LogTrue;
    hide LogUnique;
    hide SignedHonest;
    hide Current;
    hide Replay;
  }

  // -------------------------------------------------------------------- main results

  /** Entry `j` of the log is this request, executed once, and it returned what a plain memory would have. */
  ghost predicate ExecutedAt(h: History, j: nat, q: Request, rdata: Word)
    requires j < |h.log| && |h.mem0| == LAYERS * LAYER_WORDS
  {
    && ReqMsg(h.log[j].req) == ReqMsg(q) && h.log[j].value == rdata
    && rdata == ValueOf(Replay(h.mem0, h.log[..j]), h.log[j].req)
    && forall k :: 0 <= k < |h.log| && k != j ==> SlotOf(h.log[k].req) != SlotOf(q)
  }

  /** The request executed exactly once, between being issued and now. */
  ghost predicate Linearized(h: History, q: Request, rdata: Word)
    requires |h.mem0| == LAYERS * LAYER_WORDS
  {
    exists j :: h.mark <= j < |h.log| && ExecutedAt(h, j, q, rdata)
  }

  /** A verified response to the request in progress is one the fabric signed for it. */
  lemma VerifiedIsSigned(f: Fabric, w: World, epoch: Word)
    requires WorldInv(f, w, epoch) && ResponseUnforged(f, w.b, w.h, epoch)
    requires w.b.state == B_VERIFY && w.e.done && Verified(w.b, w.e)
    ensures w.b.rsp.msg in w.h.signed && w.b.rsp.msg == RspMsg(w.b.q, w.b.rsp.status, w.b.rsp.data)
    ensures w.b.q.write ==> w.b.rsp.data == w.b.q.data
  {
    FieldsMatchExactly(w.b.q, w.b.rsp);
    hide FieldsMatch;
    hide FabricInv;
    hide IssuedFiled;
    hide IssuedCounted;
    hide InProgress;
    hide RspMsg;
    hide ReqMsg;
  }

  lemma HonestSuccess(f: Fabric, w: World, epoch: Word, j: nat)
    requires WorldInv(f, w, epoch) && w.b.state != B_IDLE && j < |w.h.log|
    requires RspMsg(w.b.q, w.b.rsp.status, w.b.rsp.data) == RspMsg(w.h.log[j].req, 1, w.h.log[j].value)
    requires w.b.q.write ==> w.b.rsp.data == w.b.q.data
    ensures |w.h.mem0| == LAYERS * LAYER_WORDS && w.h.mark <= j && ExecutedAt(w.h, j, w.b.q, w.b.rsp.data)
  {
    hide Good;
    hide BridgeInv;
    hide IssuedFiled;
    hide IssuedCounted;
    hide SignedHonest;
    hide Current;
    hide RequestKey;
    hide Used;
    hide Replay;
    var r := w.h.log[j].req;
    SameResponse(w.b.q, r, w.b.rsp.status, w.b.rsp.data, w.h.log[j].value);
    hide ReqMsg;
    hide RspMsg;
    assert SlotOf(r) == SlotOf(w.b.q);
  }

  lemma SameResponse(q: Request, r: Request, status: bv8, data: Word, value: Word)
    requires RspMsg(q, status, data) == RspMsg(r, 1, value)
    ensures q.requester == r.requester && q.seqNo == r.seqNo && q.write == r.write && data == value && status == 1
    ensures q.data == r.data ==> ReqMsg(q) == ReqMsg(r)
  {
  }

  /** What the CPU sees in a clock comes from a verified response. */
  lemma CpuSees(f: Fabric, b: Bridge, e: Engine, i: BridgeIn)
    requires BridgeNext(f, b, e, i).cpu.valid
    ensures b.state == B_VERIFY && e.done
    ensures BridgeNext(f, b, e, i).cpu == CpuOut(true, Verified(b, e) && b.rsp.status == 1, if Verified(b, e) then b.rsp.data else 0)
  {
    hide FieldsMatch;
    hide ReqMsg;
    hide Issues;
    hide NewRequest;
    hide NextSeq;
  }

  /**
   * An access the CPU is told succeeded has executed exactly once since it was
   * issued; a load returns what the executions before it left in memory.
   */
  lemma OkIsLinearized(f: Fabric, w: World, t: Tick, epoch: Word)
    requires w.s.Shaped() && |w.g.last| == REQUESTERS && |w.h.mem0| == LAYERS * LAYER_WORDS
    requires WorldInv(f, w, epoch) && Fair(f, w, t, epoch)
    requires var out := WorldNext(f, w, t).b.cpu; out.valid && out.ok
    ensures Linearized(w.h, w.b.q, WorldNext(f, w, t).b.cpu.rdata)
  {
    hide BridgeNext;
    hide WorldInv;
    hide Verified;
    hide ExecutedAt;
    hide Next;
    hide GhostNext;
    hide LogNext;
    hide IssueNext;
    hide RequestUnforged;
    hide ResponseUnforged;
    hide RspMsg;
    CpuSees(f, w.b, w.e, t.bridge);
    VerifiedIsSigned(f, w, epoch);
    SuccessIsLogged(f, w, epoch);
    var j :| 0 <= j < |w.h.log| && w.b.rsp.msg == RspMsg(w.h.log[j].req, 1, w.h.log[j].value);
    HonestSuccess(f, w, epoch, j);
  }

  lemma SuccessIsLogged(f: Fabric, w: World, epoch: Word)
    requires WorldInv(f, w, epoch) && w.b.rsp.msg in w.h.signed && w.b.rsp.status == 1
    requires w.b.rsp.msg == RspMsg(w.b.q, w.b.rsp.status, w.b.rsp.data)
    ensures exists j :: 0 <= j < |w.h.log| && w.b.rsp.msg == RspMsg(w.h.log[j].req, 1, w.h.log[j].value)
  {
    assert w.b.rsp.msg.status == 1;
    hide Good;
    hide BridgeInv;
    hide IssuedFiled;
    hide IssuedCounted;
    hide InProgress;
    hide LogTrue;
    hide LogGenuine;
    hide LogUnique;
    hide NotLogged;
    hide Current;
    hide RequestKey;
    hide RspMsg;
    assert Honest(w.h, w.g.last, w.b.rsp.msg);
  }

  /** A signed message with any status but success belongs to a request that has not executed. */
  lemma RefusalIsFinal(f: Fabric, w: World, epoch: Word, m: Msg)
    requires WorldInv(f, w, epoch) && m in w.h.signed && m.status != 1 && m.requester <= 1
    ensures NotLogged(w.h, m.requester, m.seqNo)
  {
    FabricInvShape(f, w, epoch);
    hide Good;
    hide BridgeInv;
    hide IssuedFiled;
    hide IssuedCounted;
    hide InProgress;
    hide LogTrue;
    hide LogGenuine;
    hide LogUnique;
    hide NotLogged;
    hide Current;
    hide RequestKey;
    hide ReqMsg;
    assert Honest(w.h, w.g.last, m);
  }

  // ---------------------------------------------------------------------- whole runs

  ghost predicate FairRun(f: Fabric, w: World, ticks: seq<Tick>, epoch: Word)
    requires w.s.Shaped() && |w.g.last| == REQUESTERS
    decreases |ticks|
  {
    ticks == [] || (Fair(f, w, ticks[0], epoch) && FairRun(f, WorldNext(f, w, ticks[0]), ticks[1..], epoch))
  }

  ghost function WorldAfter(f: Fabric, w: World, ticks: seq<Tick>, epoch: Word): World
    requires w.s.Shaped() && |w.g.last| == REQUESTERS && FairRun(f, w, ticks, epoch)
    decreases |ticks|
  {
    if ticks == [] then w else WorldAfter(f, WorldNext(f, w, ticks[0]), ticks[1..], epoch)
  }

  /** Every success reported to the CPU in the run is linearized at that moment. */
  ghost predicate RunIsLinearized(f: Fabric, w: World, ticks: seq<Tick>, epoch: Word)
    requires w.s.Shaped() && |w.g.last| == REQUESTERS && FairRun(f, w, ticks, epoch)
    decreases |ticks|
  {
    ticks == [] ||
    (var n := WorldNext(f, w, ticks[0]);
     && |w.h.mem0| == LAYERS * LAYER_WORDS
     && (n.b.cpu.valid && n.b.cpu.ok ==> Linearized(w.h, w.b.q, n.b.cpu.rdata))
     && RunIsLinearized(f, n, ticks[1..], epoch))
  }

  /** Power-on: nothing issued, nothing executed, nothing signed. */
  ghost predicate PowerOn(w: World) {
    && Reset(w.s, w.g) && w.h == History(w.s.store.mem, map[], 0, [], map[])
    && w.b.state == B_IDLE && !w.b.cm.start && !w.e.busy && !w.e.done && w.b.seqs == Counters(0, 0)
  }

  lemma PowerOnIsSound(f: Fabric, w: World, epoch: Word)
    requires PowerOn(w)
    ensures WorldInv(f, w, epoch)
  {
    ResetIsGood(f, w.s, w.g);
    hide Good;
    hide Used;
    hide ReqMsg;
  }

  lemma FabricInvShape(f: Fabric, w: World, epoch: Word)
    requires WorldInv(f, w, epoch)
    ensures w.s.Shaped() && |w.g.last| == REQUESTERS && |w.h.mem0| == LAYERS * LAYER_WORDS
  {
    hide Core;
    hide GuardAgrees;
    hide Handshake;
    hide BridgeInv;
    hide ReqMsg;
    hide ValueOf;
  }

  /**
   * Over a channel that may do anything but forge tags, within one epoch and
   * before a counter wraps, bridge and fabric together are a linearizable memory:
   * every success the CPU sees is an execution that happened exactly once since the
   * access was issued and returned what the earlier executions left, and at the end
   * the memory is the result of the logged executions, none of them repeated.
   */
  lemma {:induction false} RunIsLinearizable(f: Fabric, w: World, ticks: seq<Tick>, epoch: Word)
    requires w.s.Shaped() && |w.g.last| == REQUESTERS && WorldInv(f, w, epoch) && FairRun(f, w, ticks, epoch)
    ensures RunIsLinearized(f, w, ticks, epoch)
    ensures var n := WorldAfter(f, w, ticks, epoch);
      && WorldInv(f, n, epoch) && |n.h.mem0| == LAYERS * LAYER_WORDS
      && n.s.store.mem == Replay(n.h.mem0, n.h.log) && LogUnique(n.h)
      && forall m :: m in w.h.signed ==> m in n.h.signed
    decreases |ticks|
  {
    FabricInvShape(f, w, epoch);
    if ticks == [] {
      LogIsMemory(f, w, epoch);
    } else {
      hide WorldInv;
      hide Linearized;
      var n := WorldNext(f, w, ticks[0]);
      WorldStep(f, w, ticks[0], epoch);
      if n.b.cpu.valid && n.b.cpu.ok { OkIsLinearized(f, w, ticks[0], epoch); }
      SignedGrows(f, w, ticks[0], epoch);
      RunIsLinearizable(f, n, ticks[1..], epoch);
    }
  }

  lemma LogIsMemory(f: Fabric, w: World, epoch: Word)
    requires WorldInv(f, w, epoch) && |w.h.mem0| == LAYERS * LAYER_WORDS
    ensures w.s.store.mem == Replay(w.h.mem0, w.h.log) && LogUnique(w.h)
  {
    hide Good;
    hide BridgeInv;
    hide LogUnique;
    hide Replay;
  }

  lemma SignedGrows(f: Fabric, w: World, t: Tick, epoch: Word)
    requires w.s.Shaped() && |w.g.last| == REQUESTERS && t.fabric.Shaped()
    ensures forall m :: m in w.h.signed ==> m in WorldNext(f, w, t).h.signed
  {
    LogGrows(f, w.s, w.g, w.h, t.fabric);
    hide LogNext;
    hide Next;
    hide GhostNext;
    hide BridgeNext;
    hide NewRequest;
  }

  /**
   * A refusal with a good tag is final: the request it answers has not executed
   * and, however the run goes on, never will.
   */
  lemma AuthenticRefusalNeverExecutes(f: Fabric, w: World, ticks: seq<Tick>, epoch: Word)
    requires w.s.Shaped() && |w.g.last| == REQUESTERS && WorldInv(f, w, epoch) && FairRun(f, w, ticks, epoch)
    requires ResponseUnforged(f, w.b, w.h, epoch)
    requires w.b.state == B_VERIFY && w.e.done && Verified(w.b, w.e) && w.b.rsp.status != 1
    ensures NotLogged(w.h, w.b.q.requester, w.b.q.seqNo)
    ensures NotLogged(WorldAfter(f, w, ticks, epoch).h, w.b.q.requester, w.b.q.seqNo)
  {
    VerifiedIsSigned(f, w, epoch);
    RunIsLinearizable(f, w, ticks, epoch);
    var m := w.b.rsp.msg;
    assert m.requester == w.b.q.requester && m.seqNo == w.b.q.seqNo && m.status != 1;
    assert m.requester <= 1;
    RefusalIsFinal(f, w, epoch, m);
    RefusalIsFinal(f, WorldAfter(f, w, ticks, epoch), epoch, m);
  }
}
