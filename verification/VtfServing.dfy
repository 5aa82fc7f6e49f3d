/**
 * One access through the system on chip, clock by clock: with keys ready and no
 * alarm, what the bridge signs passes every check of the fabric, and what the fabric
 * answers verifies.
 */
module VtfServing {
  import opened Words
  import opened VtfTypes
  import opened VtfGuard
  import opened VtfSystem
  import opened VtfInvariant
  import opened VtfBridge
  import opened VtfWired

  // ----------------------------------------------------------------- what is steady

  /** The epoch, the roles of the layers and their access switches. */
  datatype Policy = Policy(epoch: Word, roles: seq<Role>, access: seq<bool>)

  /** Keys ready, no alarm, and epoch and policy as they were. */
  predicate Calm(v: Policy, i: Inputs) {
    && i.Shaped() && i.keysReady && i.activeEpoch == v.epoch && i.roles == v.roles && i.access == v.access
    && !i.physical && !i.sentinel && !i.thermal && !i.debug
  }

  /** The access and the memory it finds; the request carries the tag it will be given. */
  datatype Job = Job(ask: Request, mem: seq<Word>)

  predicate JobOk(f: Fabric, v: Policy, j: Job) {
    && |v.roles| == |v.access| == LAYERS && |j.mem| == LAYERS * LAYER_WORDS
    && j.ask.requester <= 1 && j.ask.layer < LAYERS && j.ask.epoch == v.epoch
    && j.ask.tag == (f.cmac)((f.reqKey)(j.ask.requester, v.epoch), ReqMsg(j.ask))
  }

  /** The guard's policy and the size of the layer let the access through to the memory. */
  predicate Passes(v: Policy, q: Request)
    requires |v.roles| == LAYERS && q.layer < LAYERS
  {
    PolicyAllows(q.requester, q.write, v.roles[q.layer], false) && q.addr < LAYER_WORDS
  }

  /** And so does the layer's access switch. */
  predicate Granted(v: Policy, q: Request)
    requires |v.roles| == |v.access| == LAYERS && q.layer < LAYERS
  {
    Passes(v, q) && v.access[q.layer]
  }

  /** The word the access returns, or writes. */
  function WordOf(j: Job): Word
    requires |j.mem| == LAYERS * LAYER_WORDS
  {
    if j.ask.write then j.ask.data else j.mem[MemIndex(j.ask)]
  }

  function MemAfter(v: Policy, j: Job): (m: seq<Word>)
    requires |v.roles| == |v.access| == LAYERS && j.ask.layer < LAYERS && |j.mem| == LAYERS * LAYER_WORDS
    ensures |m| == |j.mem|
  {
    if Granted(v, j.ask) && j.ask.write then j.mem[MemIndex(j.ask) := j.ask.data] else j.mem
  }

  function StatusFor(v: Policy, j: Job): bv8
    requires |v.roles| == |v.access| == LAYERS && j.ask.layer < LAYERS
  {
    if Granted(v, j.ask) then 1 else 0
  }

  function DataFor(v: Policy, j: Job): Word
    requires |v.roles| == |v.access| == LAYERS && j.ask.layer < LAYERS && |j.mem| == LAYERS * LAYER_WORDS
  {
    if Granted(v, j.ask) then WordOf(j) else 0
  }

  // ----------------------------------------------------------------- the fabric alone

  /** The fabric is sound and not locked. */
  ghost predicate Healthy(f: Fabric, s: Sys, g: Ghost) { Good(f, NoFlaw, s, g) && !s.guard.lockdown }

  lemma HealthyShape(f: Fabric, s: Sys, g: Ghost)
    requires Healthy(f, s, g)
    ensures s.Shaped() && |g.last| == REQUESTERS && s.c.fsm.RailsAgree() && s.c.fsm.state <= S_RESP
    ensures !StateFault(f, s.c) && !s.guard.Locked(f.h) && !s.guard.InternalFault(f.h) && !s.c.alarm
    ensures s.guard.lastSeq == g.last && Handshake(s.c, s.engine) && Core(f, NoFlaw, s.c, s.engine, s.store, g)
  {
    hide Core;
    hide Parity;
  }

  /** The next sequence number, authenticated. */
  predicate Honest(f: Fabric, v: Policy, s: Sys)
    requires s.Shaped()
  {
    && s.c.r.requester <= 1 && s.c.r.layer < LAYERS && s.c.r.epoch == v.epoch && AuthPass(f, s.c)
    && s.c.r.seqNo == s.guard.lastSeq[s.c.r.requester] + 1
  }

  /** Nothing severe happens to an honest fabric. */
  lemma CalmJudge(f: Fabric, v: Policy, s: Sys, g: Ghost, i: Inputs)
    requires Healthy(f, s, g) && s.Shaped() && Calm(v, i) && |v.roles| == LAYERS
    requires s.c.fsm.state == S_GUARD ==> Honest(f, v, s)
    ensures !Judge(f, s, i).severe && !LockdownOut(f, s, i)
    ensures s.c.fsm.state == S_GUARD ==>
      Judge(f, s, i).consume
      && Judge(f, s, i).allow == PolicyAllows(s.c.r.requester, s.c.r.write, v.roles[s.c.r.layer], false)
  {
    HealthyShape(f, s, g);
    hide Healthy;
    hide Core;
    hide Handshake;
    hide AuthPass;
    hide PolicyAllows;
    hide Parity;
    hide Guard.InternalFault;
    hide Guard.Locked;
  }

  /** And it stays healthy. */
  lemma HealthyStep(f: Fabric, v: Policy, s: Sys, g: Ghost, i: Inputs)
    requires Healthy(f, s, g) && s.Shaped() && Calm(v, i) && |v.roles| == LAYERS && |g.last| == REQUESTERS
    requires s.c.fsm.state == S_GUARD ==> Honest(f, v, s)
    ensures Healthy(f, Next(f, s, i), GhostNext(f, s, g, i))
    ensures s.c.fsm.state != S_GUARD ==> Next(f, s, i).guard == s.guard
    ensures s.c.fsm.state == S_GUARD ==> Next(f, s, i).guard.lastSeq == s.guard.lastSeq[s.c.r.requester := s.c.r.seqNo]
  {
    GoodStep(f, NoFlaw, s, g, i);
    CalmJudge(f, v, s, g, i);
    ClockCalm(f, s, i);
    hide Good;
    hide StepIsSafe;
    hide Clock;
    hide Judge;
    hide LockdownOut;
    hide NextCtl;
    hide EngineNext;
    hide StoreNext;
    hide GhostNext;
    hide AuthPass;
  }

  lemma ClockCalm(f: Fabric, s: Sys, i: Inputs)
    requires s.Shaped() && i.Shaped() && !Judge(f, s, i).severe
    ensures var d := Clock(f.h, s.guard, AskGuard(f, s.c, i));
      && d.lockdown == s.guard.lockdown
      && (s.c.fsm.state != S_GUARD ==> d == s.guard)
      && (s.c.fsm.state == S_GUARD && Judge(f, s, i).consume && s.c.r.requester < REQUESTERS ==>
            d.lastSeq == s.guard.lastSeq[s.c.r.requester := s.c.r.seqNo])
  {
    hide AuthPass;
    hide PolicyAllows;
    hide Parity;
    hide Guard.InternalFault;
    hide Guard.Locked;
  }

  /** Memory changes only in the guard's clock. */
  lemma StoreRests(f: Fabric, s: Sys, i: Inputs)
    requires s.Shaped() && i.Shaped() && s.c.fsm.state != S_GUARD
    ensures StoreNext(f, s, i).mem == s.store.mem
  {
    hide Judge;
    hide AddrOk;
    hide CodeFault;
  }

  predicate Free(s: Sys) { s.c.fsm.state == S_IDLE && !s.c.out.valid }

  /** Where an idle fabric goes without a request: nowhere. */
  lemma FreeStays(f: Fabric, v: Policy, s: Sys, g: Ghost, i: Inputs)
    requires Healthy(f, s, g) && s.Shaped() && |g.last| == REQUESTERS && s.c.fsm.state == S_IDLE && Calm(v, i)
    requires |v.roles| == LAYERS && !i.reqValid
    ensures var t := Next(f, s, i); Free(t) && t.store.mem == s.store.mem && t.guard == s.guard && Healthy(f, t, GhostNext(f, s, g, i))
    ensures GhostNext(f, s, g, i).last == g.last
  {
    HealthyShape(f, s, g);
    HealthyStep(f, v, s, g, i);
    StoreRests(f, s, i);
    ControlIs(f, s, i);
    hide Healthy;
    hide Judge;
    hide LockdownOut;
    hide Control;
    hide NextCtl;
    hide EngineNext;
    hide StoreNext;
    hide Clock;
    hide AuthPass;
    hide Executes;
  }

  // ------------------------------------------------------------ the fabric at work

  predicate Checking(t: U3) { t == S_AUTH || t == S_AUTH2 || t == S_GUARD }

  predicate Answering(t: U3) { t == S_SIGN || t == S_RESP }

  /** How far the fabric has come with the job. */
  ghost predicate AtWork(f: Fabric, v: Policy, j: Job, s: Sys, g: Ghost) {
    && JobOk(f, v, j) && Healthy(f, s, g) && s.Shaped() && |g.last| == REQUESTERS
    && var c, t := s.c, s.c.fsm.state;
    && t != S_IDLE && !c.out.valid && c.r == j.ask
    && (Checking(t) ==> g.cur == j.ask && s.store.mem == j.mem && j.ask.seqNo == g.last[j.ask.requester] + 1)
    && (t == S_AUTH || t == S_AUTH2 ==> g.key == (f.reqKey)(j.ask.requester, v.epoch))
    && (t == S_AUTH2 ==> f.h)
    && (t == S_GUARD ==> AuthPass(f, c))
    && (t == S_MEM ==>
          && Passes(v, j.ask) && s.store.mem == MemAfter(v, j) && s.store.denied == !v.access[j.ask.layer]
          && (Granted(v, j.ask) && !j.ask.write ==> s.store.ramQ == WordOf(j)))
    && (Answering(t) ==> s.store.mem == MemAfter(v, j) && c.ans.status == StatusFor(v, j) && c.ans.data == DataFor(v, j))
    && (t == S_RESP ==> c.cm.key == (f.rspKey)(v.epoch) && EngineAgrees(f, s.engine, c.cm))
  }

  /** The signed answer is on the wires. */
  ghost predicate Answered(f: Fabric, v: Policy, j: Job, s: Sys, g: Ghost) {
    && JobOk(f, v, j) && Healthy(f, s, g) && s.Shaped() && |g.last| == REQUESTERS
    && var o := s.c.out;
    && s.c.fsm.state == S_IDLE && o.valid && s.store.mem == MemAfter(v, j)
    && o.status == StatusFor(v, j) && o.data == DataFor(v, j) && o.msg == RspMsg(j.ask, o.status, o.data)
    && o.tag == (f.cmac)((f.rspKey)(v.epoch), o.msg)
  }

  /** An idle fabric takes the request offered. */
  lemma FabricAccepts(f: Fabric, v: Policy, j: Job, s: Sys, g: Ghost, i: Inputs)
    requires Healthy(f, s, g) && s.Shaped() && |g.last| == REQUESTERS && Free(s) && JobOk(f, v, j) && Calm(v, i)
    requires i.reqValid && i.req == j.ask && s.store.mem == j.mem && j.ask.seqNo == g.last[j.ask.requester] + 1
    requires !s.engine.busy && !i.eng.residue
    ensures ReqReady(f, s, i)
    ensures var t, h := Next(f, s, i), GhostNext(f, s, g, i);
      AtWork(f, v, j, t, h) && t.c.fsm.state == S_AUTH && t.c.cm.start && h.last == g.last
  {
    HealthyShape(f, s, g);
    HealthyStep(f, v, s, g, i);
    CalmJudge(f, v, s, g, i);
    StoreRests(f, s, i);
    ControlIs(f, s, i);
    hide Healthy;
    hide Judge;
    hide LockdownOut;
    hide Control;
    hide NextCtl;
    hide EngineNext;
    hide StoreNext;
    hide Clock;
    hide AuthPass;
    hide ReqMsg;
    hide Core;
  }

  /** While a tag is computed nothing moves. */
  lemma FabricWaits(f: Fabric, v: Policy, j: Job, s: Sys, g: Ghost, i: Inputs)
    requires AtWork(f, v, j, s, g) && Calm(v, i) && Computing(s.c.fsm.state) && !s.engine.done
    ensures s.Shaped() && |g.last| == REQUESTERS
    ensures var t, h := Next(f, s, i), GhostNext(f, s, g, i);
      AtWork(f, v, j, t, h) && t.c.fsm.state == s.c.fsm.state && !t.c.cm.start && h.last == g.last
  {
    HealthyShape(f, s, g);
    HealthyStep(f, v, s, g, i);
    CalmJudge(f, v, s, g, i);
    StoreRests(f, s, i);
    ControlIs(f, s, i);
    hide Healthy;
    hide Judge;
    hide LockdownOut;
    hide Control;
    hide NextCtl;
    hide StoreNext;
    hide Clock;
    hide AuthPass;
    hide ReqMsg;
    hide Core;
    hide Reply;
    hide Granted;
    hide Passes;
  }

  /** The engine has worked on the request as signed, so the tag it brings is the request's. */
  lemma TagIsGood(f: Fabric, v: Policy, j: Job, s: Sys, g: Ghost)
    requires AtWork(f, v, j, s, g) && (s.c.fsm.state == S_AUTH || s.c.fsm.state == S_AUTH2) && s.engine.done
    ensures s.engine.tag == j.ask.tag && TagMatches(s.engine, s.c.r) && FieldsOk(s.c)
    ensures s.c.fsm.state == S_AUTH2 ==> s.c.check.tag1 == s.engine.tag
  {
    HealthyShape(f, s, g);
    PresentedMessage(NoFlaw, s.c.r, g.cur);
    hide Healthy;
    hide ReqMsg;
    hide Granted;
    hide Passes;
    hide AuthPass;
  }

  /** The first check passes: on to the second, or, unhardened, to the guard. */
  lemma AuthPasses(f: Fabric, v: Policy, j: Job, s: Sys, g: Ghost, i: Inputs)
    requires AtWork(f, v, j, s, g) && Calm(v, i) && s.c.fsm.state == S_AUTH && s.engine.done
    ensures s.Shaped() && |g.last| == REQUESTERS
    ensures var t, h := Next(f, s, i), GhostNext(f, s, g, i);
      && AtWork(f, v, j, t, h) && h.last == g.last
      && if f.h then t.c.fsm.state == S_AUTH2 && t.c.cm.start else t.c.fsm.state == S_GUARD
  {
    TagIsGood(f, v, j, s, g);
    HealthyShape(f, s, g);
    HealthyStep(f, v, s, g, i);
    CalmJudge(f, v, s, g, i);
    StoreRests(f, s, i);
    ControlIs(f, s, i);
    hide Healthy;
    hide Judge;
    hide LockdownOut;
    hide Control;
    hide NextCtl;
    hide EngineNext;
    hide StoreNext;
    hide Clock;
    hide ReqMsg;
    hide Core;
    hide Reply;
    hide Granted;
    hide Passes;
    hide TagMatches;
  }

  /** And so does the second. */
  lemma Auth2Passes(f: Fabric, v: Policy, j: Job, s: Sys, g: Ghost, i: Inputs)
    requires AtWork(f, v, j, s, g) && Calm(v, i) && s.c.fsm.state == S_AUTH2 && s.engine.done
    ensures s.Shaped() && |g.last| == REQUESTERS
    ensures var t, h := Next(f, s, i), GhostNext(f, s, g, i);
      AtWork(f, v, j, t, h) && h.last == g.last && t.c.fsm.state == S_GUARD
  {
    TagIsGood(f, v, j, s, g);
    HealthyShape(f, s, g);
    HealthyStep(f, v, s, g, i);
    CalmJudge(f, v, s, g, i);
    StoreRests(f, s, i);
    ControlIs(f, s, i);
    hide Healthy;
    hide Judge;
    hide LockdownOut;
    hide Control;
    hide NextCtl;
    hide EngineNext;
    hide StoreNext;
    hide Clock;
    hide ReqMsg;
    hide Core;
    hide Reply;
    hide Granted;
    hide Passes;
    hide TagMatches;
  }

  /** What the guard lets through. */
  lemma GuardPasses(f: Fabric, v: Policy, j: Job, s: Sys, g: Ghost, i: Inputs)
    requires AtWork(f, v, j, s, g) && Calm(v, i) && s.c.fsm.state == S_GUARD
    ensures s.Shaped() && Honest(f, v, s) && !CodeFault(f, s.c) && Judge(f, s, i).consume && !Judge(f, s, i).severe
    ensures (Judge(f, s, i).allow && AddrOk(f, s.c)) == Passes(v, j.ask)
    ensures Accesses(f, s, i) == Passes(v, j.ask)
  {
    HealthyShape(f, s, g);
    CalmJudge(f, v, s, g, i);
    GuardCode(f, v, j, s, g);
    hide Healthy;
    hide Judge;
    hide LockdownOut;
    hide ReqMsg;
    hide PolicyAllows;
    hide AuthPass;
    hide CodeFault;
  }

  lemma GuardCode(f: Fabric, v: Policy, j: Job, s: Sys, g: Ghost)
    requires AtWork(f, v, j, s, g) && s.c.fsm.state == S_GUARD
    ensures !CodeFault(f, s.c) && AddrOk(f, s.c) == (j.ask.addr < LAYER_WORDS)
  {
    HealthyShape(f, s, g);
    hide Healthy;
    hide ReqMsg;
    hide Granted;
    hide Passes;
    hide Signed;
  }

  /** One clock in the guard: the number is used up, and the access, if it passes, is made. */
  lemma GuardDecides(f: Fabric, v: Policy, j: Job, s: Sys, g: Ghost, i: Inputs)
    requires AtWork(f, v, j, s, g) && Calm(v, i) && s.c.fsm.state == S_GUARD
    ensures s.Shaped() && |g.last| == REQUESTERS
    ensures var t, h := Next(f, s, i), GhostNext(f, s, g, i);
      && AtWork(f, v, j, t, h) && t.c.fsm.state == (if Passes(v, j.ask) then S_MEM else S_SIGN)
      && h.last == g.last[j.ask.requester := j.ask.seqNo]
  {
    GuardPasses(f, v, j, s, g, i);
    HealthyShape(f, s, g);
    HealthyStep(f, v, s, g, i);
    CalmJudge(f, v, s, g, i);
    ControlIs(f, s, i);
    MemoryDoes(f, v, j, s, i);
    hide Healthy;
    hide Judge;
    hide LockdownOut;
    hide Control;
    hide NextCtl;
    hide EngineNext;
    hide StoreNext;
    hide Clock;
    hide ReqMsg;
    hide Core;
    hide Reply;
    hide Passes;
    hide AuthPass;
    hide CodeFault;
    hide AddrOk;
    hide Accesses;
    hide Honest;
  }

  lemma MemoryDoes(f: Fabric, v: Policy, j: Job, s: Sys, i: Inputs)
    requires s.Shaped() && Calm(v, i) && JobOk(f, v, j) && s.c.r == j.ask && s.store.mem == j.mem
    requires Accesses(f, s, i) == Passes(v, j.ask)
    ensures var m := StoreNext(f, s, i);
      && m.mem == MemAfter(v, j) && m.ready == Passes(v, j.ask)
      && (m.ready ==> m.denied == !v.access[j.ask.layer])
      && (Granted(v, j.ask) && !j.ask.write ==> m.ramQ == WordOf(j))
  {
    hide Accesses;
    hide Passes;
    hide ReqMsg;
    hide MemIndex;
  }

  /** The memory answers. */
  lemma MemoryAnswers(f: Fabric, v: Policy, j: Job, s: Sys, g: Ghost, i: Inputs)
    requires AtWork(f, v, j, s, g) && Calm(v, i) && s.c.fsm.state == S_MEM
    ensures s.Shaped() && |g.last| == REQUESTERS
    ensures var t, h := Next(f, s, i), GhostNext(f, s, g, i);
      AtWork(f, v, j, t, h) && t.c.fsm.state == S_SIGN && h.last == g.last
  {
    HealthyShape(f, s, g);
    HealthyStep(f, v, s, g, i);
    CalmJudge(f, v, s, g, i);
    StoreRests(f, s, i);
    ControlIs(f, s, i);
    MemoryReady(f, v, j, s, g);
    hide Healthy;
    hide Judge;
    hide LockdownOut;
    hide Control;
    hide NextCtl;
    hide EngineNext;
    hide StoreNext;
    hide Clock;
    hide ReqMsg;
    hide Core;
    hide Reply;
    hide Passes;
    hide FieldsOk;
    hide MemIndex;
    hide Parity;
    hide Parity8;
  }

  lemma MemoryReady(f: Fabric, v: Policy, j: Job, s: Sys, g: Ghost)
    requires AtWork(f, v, j, s, g) && s.c.fsm.state == S_MEM
    ensures s.store.ready && (f.h ==> FieldsOk(s.c))
  {
    HealthyShape(f, s, g);
    hide Healthy;
    hide FieldsOk;
    hide Granted;
    hide Passes;
    hide ReqMsg;
  }

  /** The answer is given to the engine for signing. */
  lemma SigningStarts(f: Fabric, v: Policy, j: Job, s: Sys, g: Ghost, i: Inputs)
    requires AtWork(f, v, j, s, g) && Calm(v, i) && s.c.fsm.state == S_SIGN && !i.eng.residue
    ensures s.Shaped() && |g.last| == REQUESTERS
    ensures var t, h := Next(f, s, i), GhostNext(f, s, g, i);
      AtWork(f, v, j, t, h) && t.c.fsm.state == S_RESP && t.c.cm.start && h.last == g.last
  {
    HealthyShape(f, s, g);
    HealthyStep(f, v, s, g, i);
    CalmJudge(f, v, s, g, i);
    StoreRests(f, s, i);
    ControlIs(f, s, i);
    AnswerSound(f, v, j, s, g);
    hide Healthy;
    hide Judge;
    hide LockdownOut;
    hide Control;
    hide NextCtl;
    hide StoreNext;
    hide Clock;
    hide ReqMsg;
    hide Core;
    hide Reply;
    hide Granted;
    hide Passes;
    hide RespParFault;
    hide AuthPass;
  }

  lemma AnswerSound(f: Fabric, v: Policy, j: Job, s: Sys, g: Ghost)
    requires AtWork(f, v, j, s, g) && Answering(s.c.fsm.state)
    ensures !RespParFault(f, s.c) && (s.c.fsm.state == S_RESP ==> s.c.cm.msg == Reply(s.c))
    ensures s.c.fsm.state == S_SIGN ==> !s.engine.busy && !s.c.cm.start
  {
    HealthyShape(f, s, g);
    hide Healthy;
    hide Granted;
    hide Passes;
    hide Reply;
    hide ParityOk;
    hide ReqMsg;
  }

  /** The signed answer goes out. */
  lemma AnswerGoesOut(f: Fabric, v: Policy, j: Job, s: Sys, g: Ghost, i: Inputs)
    requires AtWork(f, v, j, s, g) && Calm(v, i) && s.c.fsm.state == S_RESP && s.engine.done
    ensures s.Shaped() && |g.last| == REQUESTERS
    ensures Answered(f, v, j, Next(f, s, i), GhostNext(f, s, g, i)) && GhostNext(f, s, g, i).last == g.last
  {
    HealthyShape(f, s, g);
    HealthyStep(f, v, s, g, i);
    CalmJudge(f, v, s, g, i);
    StoreRests(f, s, i);
    ControlIs(f, s, i);
    AnswerSound(f, v, j, s, g);
    hide Healthy;
    hide Judge;
    hide LockdownOut;
    hide Control;
    hide NextCtl;
    hide EngineNext;
    hide StoreNext;
    hide Clock;
    hide ReqMsg;
    hide Core;
    hide Granted;
    hide Passes;
    hide AuthPass;
    hide RespParFault;
  }

  // ------------------------------------------------------------- bridge and fabric

  /** Outside, all is calm, and the CPU asks for layers that exist. */
  predicate Outside(v: Policy, x: SocIn) {
    && Calm(v, x.fabric.(debug := false)) && |v.roles| == LAYERS && x.bridge.keysReady
    && (x.bridge.valid ==> x.bridge.layer < LAYERS)
  }

  /** And no engine finishes work that was given up. */
  predicate Still(v: Policy, x: SocIn) { Outside(v, x) && !x.fabric.eng.residue && !x.bridge.eng.residue }

  /** Every number the bridge has given out is used up. */
  predicate InStep(w: Soc) { |w.g.last| == REQUESTERS && w.b.seqs == Counters(w.g.last[REQ_FETCH], w.g.last[REQ_DATA]) }

  /** All but that of the request under way. */
  predicate Owing(w: Soc, ask: Request) {
    && |w.g.last| == REQUESTERS && ask.requester <= 1 && ask.seqNo == w.g.last[ask.requester] + 1
    && w.b.seqs == if ask.requester == REQ_FETCH then Counters(ask.seqNo, w.g.last[REQ_DATA])
                   else Counters(w.g.last[REQ_FETCH], ask.seqNo)
  }

  ghost predicate Intact(f: Fabric, v: Policy, w: Soc) {
    && Healthy(f, w.s, w.g) && w.s.Shaped() && |w.g.last| == REQUESTERS && BridgeInv(f, w.b, w.e, v.epoch)
  }

  /** The answer as the bridge has received it. */
  predicate Holds(f: Fabric, v: Policy, j: Job, r: Received)
    requires JobOk(f, v, j)
  {
    && r.status == StatusFor(v, j) && r.data == DataFor(v, j) && r.msg == RspMsg(j.ask, r.status, r.data)
    && r.tag == (f.cmac)((f.rspKey)(v.epoch), r.msg)
  }

  /** How far bridge and fabric have come with the job. */
  ghost predicate Serving(f: Fabric, v: Policy, j: Job, w: Soc) {
    && JobOk(f, v, j) && Intact(f, v, w)
    && match w.b.state
       case B_IDLE => false
       case B_SIGN => w.b.q == j.ask.(tag := w.b.q.tag) && Free(w.s) && w.s.store.mem == j.mem && Owing(w, j.ask)
       case B_SEND => w.b.q == j.ask && Free(w.s) && w.s.store.mem == j.mem && Owing(w, j.ask)
       case B_WAIT =>
         && w.b.q == j.ask && (AtWork(f, v, j, w.s, w.g) || Answered(f, v, j, w.s, w.g))
         && (if Checking(w.s.c.fsm.state) then Owing(w, j.ask) else InStep(w))
       case B_VERIFY =>
         w.b.q == j.ask && Free(w.s) && w.s.store.mem == MemAfter(v, j) && InStep(w) && Holds(f, v, j, w.b.rsp)
       case B_DONE =>
         && Free(w.s) && w.s.store.mem == MemAfter(v, j) && InStep(w)
         && w.b.cpu == CpuOut(true, Granted(v, j.ask), DataFor(v, j))
  }

  /** Nothing under way: the next access can be accepted. */
  ghost predicate AtEase(f: Fabric, v: Policy, w: Soc) {
    Intact(f, v, w) && w.b.state == B_IDLE && Free(w.s) && InStep(w)
  }

  lemma CalmIn(v: Policy, w: Soc, x: SocIn)
    requires Still(v, x)
    ensures Calm(v, FabricIn(w, x)) && FabricIn(w, x).eng == x.fabric.eng && FabricIn(w, x).reqValid == (w.b.state == B_SEND)
    ensures FabricIn(w, x).req == w.b.q
  {
  }

  /** While the bridge offers nothing an idle fabric stays as it is, whatever the bridge does. */
  lemma FabricRests(f: Fabric, v: Policy, w: Soc, x: SocIn)
    requires Intact(f, v, w) && w.s.c.fsm.state == S_IDLE && w.b.state != B_SEND && Still(v, x)
    ensures w.s.Shaped() && |w.g.last| == REQUESTERS && x.fabric.Shaped()
    ensures var t := SocNext(f, w, x);
      && Intact(f, v, t) && Free(t.s) && t.s.store.mem == w.s.store.mem && t.g.last == w.g.last
      && t.b == BridgeNext(f, w.b, w.e, BridgeSees(f, w, x))
  {
    CalmIn(v, w, x);
    FreeStays(f, v, w.s, w.g, FabricIn(w, x));
    BridgeInvStep(f, w.b, w.e, BridgeSees(f, w, x));
    hide Healthy;
    hide Next;
    hide GhostNext;
    hide BridgeNext;
    hide BridgeEngine;
    hide BridgeInv;
    hide ReqReady;
  }

  /** The access the CPU asks for, as the bridge will sign it. */
  function JobOf(f: Fabric, v: Policy, w: Soc, x: SocIn): (j: Job)
    ensures j.ask.layer == x.bridge.layer && j.mem == w.s.store.mem
  {
    var i := x.bridge.(activeEpoch := v.epoch);
    var q := NewRequest(i, NextSeq(w.b.seqs, i), ZERO);
    Job(q.(tag := (f.cmac)((f.reqKey)(q.requester, v.epoch), ReqMsg(q))), w.s.store.mem)
  }

  lemma JobIsOk(f: Fabric, v: Policy, w: Soc, x: SocIn)
    requires Still(v, x) && x.bridge.valid && w.s.Shaped()
    ensures JobOk(f, v, JobOf(f, v, w, x))
  {
    var q := NewRequest(x.bridge.(activeEpoch := v.epoch), NextSeq(w.b.seqs, x.bridge.(activeEpoch := v.epoch)), ZERO);
    TagIsFree(q, (f.cmac)((f.reqKey)(q.requester, v.epoch), ReqMsg(q)));
    hide ReqMsg;
    hide NextSeq;
    hide Nonce;
  }

  /** An access is accepted. */
  lemma AccessAccepted(f: Fabric, v: Policy, w: Soc, x: SocIn)
    requires AtEase(f, v, w) && w.s.Shaped() && Still(v, x) && Issues(w.b, w.e, BridgeSees(f, w, x))
    ensures |w.g.last| == REQUESTERS && x.fabric.Shaped()
    ensures var t := SocNext(f, w, x); Serving(f, v, JobOf(f, v, w, x), t) && t.b.state == B_SIGN && t.b.cm.start
  {
    FabricRests(f, v, w, x);
    JobIsOk(f, v, w, x);
    IssuedRequest(f, v, w, x);
    hide Intact;
    hide ReqMsg;
    hide SocNext;
    hide JobOk;
    hide ReqReady;
    hide JobOf;
  }

  lemma SeesTheAccess(f: Fabric, v: Policy, w: Soc, x: SocIn, tag: Tag)
    requires w.s.Shaped() && Still(v, x)
    ensures var i, k := BridgeSees(f, w, x), x.bridge.(activeEpoch := v.epoch);
      && i.activeEpoch == v.epoch && i.fetch == k.fetch && NextSeq(w.b.seqs, i) == NextSeq(w.b.seqs, k)
      && NewRequest(i, NextSeq(w.b.seqs, k), tag) == NewRequest(k, NextSeq(w.b.seqs, k), ZERO).(tag := tag)
  {
    hide Nonce;
    hide ReqReady;
  }

  /** What the bridge keeps of an access it accepts. */
  lemma BridgeIssues(f: Fabric, b: Bridge, e: Engine, i: BridgeIn)
    requires b.state == B_IDLE && Issues(b, e, i)
    ensures var n, seqNo := BridgeNext(f, b, e, i), NextSeq(b.seqs, i);
      && n.state == B_SIGN && n.cm.start && n.q == NewRequest(i, seqNo, b.q.tag)
      && n.seqs == (if i.fetch then b.seqs.(fetch := seqNo) else b.seqs.(data := seqNo))
  {
    hide ReqMsg;
    hide NewRequest;
    hide NextSeq;
    hide Issues;
  }

  /** Its number is the one owing. */
  lemma NumberOwing(w: Soc, n: Soc, k: BridgeIn, ask: Request)
    requires InStep(w) && n.g == w.g && ask.requester == Requester(k) && ask.seqNo == NextSeq(w.b.seqs, k)
    requires n.b.seqs == if k.fetch then w.b.seqs.(fetch := ask.seqNo) else w.b.seqs.(data := ask.seqNo)
    ensures Owing(n, ask)
  {
  }

  lemma IssuedRequest(f: Fabric, v: Policy, w: Soc, x: SocIn)
    requires w.s.Shaped() && Still(v, x) && w.b.state == B_IDLE && InStep(w) && Issues(w.b, w.e, BridgeSees(f, w, x))
    ensures var b, j := BridgeNext(f, w.b, w.e, BridgeSees(f, w, x)), JobOf(f, v, w, x);
      && b.state == B_SIGN && b.cm.start && b.q == j.ask.(tag := b.q.tag) && j.mem == w.s.store.mem
      && Owing(w.(b := b), j.ask)
  {
    hide ReqMsg;
    hide BridgeSees;
    hide BridgeNext;
    hide Issues;
    hide NewRequest;
    hide NextSeq;
    hide Owing;
    hide InStep;
    var k, i := x.bridge.(activeEpoch := v.epoch), BridgeSees(f, w, x);
    SeesTheAccess(f, v, w, x, w.b.q.tag);
    BridgeIssues(f, w.b, w.e, i);
    NumberOwing(w, w.(b := BridgeNext(f, w.b, w.e, i)), k, JobOf(f, v, w, x).ask);
  }

  // ------------------------------------------------------------------- clock by clock

  /** The bridge after a clock, state by state. */
  lemma BridgeIs(f: Fabric, b: Bridge, e: Engine, i: BridgeIn)
    ensures var n, c := BridgeNext(f, b, e, i), Quiesce(b);
      && c.q == b.q && c.seqs == b.seqs && c.state == b.state && !c.cm.start && c.rsp == b.rsp && !c.cpu.valid
      && (b.state == B_SIGN ==> n == if e.done then c.(state := B_SEND, q := c.q.(tag := e.tag)) else c)
      && (b.state == B_SEND ==> n == if i.reqReady then c.(state := B_WAIT) else c)
      && (b.state == B_WAIT ==> n == if i.rspValid then ReceiveStep(f, c, i) else c)
      && (b.state == B_VERIFY ==> n == if e.done then VerifyStep(c, e) else c)
      && (b.state == B_DONE ==> n == c.(state := B_IDLE))
  {
    hide ReceiveStep;
    hide VerifyStep;
    hide VtfBridge.IssueStep;
    hide Issues;
  }

  /** An owing, and an agreement, depend only on the counters. */
  lemma CountersStay(w: Soc, t: Soc, ask: Request)
    requires t.b.seqs == w.b.seqs && t.g.last == w.g.last
    ensures (Owing(w, ask) ==> Owing(t, ask)) && (InStep(w) ==> InStep(t))
  {
  }

  lemma ServingShape(f: Fabric, v: Policy, j: Job, w: Soc)
    requires Serving(f, v, j, w)
    ensures JobOk(f, v, j) && Intact(f, v, w) && Healthy(f, w.s, w.g) && w.s.Shaped() && |w.g.last| == REQUESTERS
    ensures BridgeInv(f, w.b, w.e, v.epoch)
  {
    hide Healthy;
    hide BridgeInv;
    hide AtWork;
    hide Answered;
    hide Holds;
    hide JobOk;
  }

  /** While the bridge's engine works, all else rests. */
  lemma BridgeComputes(f: Fabric, v: Policy, j: Job, w: Soc, x: SocIn)
    requires Serving(f, v, j, w) && Still(v, x) && (w.b.state == B_SIGN || w.b.state == B_VERIFY) && !w.e.done
    ensures w.s.Shaped() && |w.g.last| == REQUESTERS && x.fabric.Shaped()
    ensures var t := SocNext(f, w, x); Serving(f, v, j, t) && t.b.state == w.b.state && !t.b.cm.start
  {
    hide JobOk;
    hide SocNext;
    hide BridgeNext;
    hide Quiesce;
    hide Granted;
    hide Holds;
    hide Owing;
    hide InStep;
    ServingShape(f, v, j, w);
    hide Intact;
    FabricRests(f, v, w, x);
    BridgeIs(f, w.b, w.e, BridgeSees(f, w, x));
    CountersStay(w, SocNext(f, w, x), j.ask);
    hide BridgeSees;
  }

  lemma SignedTag(f: Fabric, v: Policy, j: Job, w: Soc)
    requires Serving(f, v, j, w) && w.b.state == B_SIGN && w.e.done
    ensures w.e.tag == j.ask.tag
  {
    TagIsFree(j.ask, w.b.q.tag);
    hide Healthy;
    hide ReqMsg;
    hide Granted;
  }

  /** The request is signed. */
  lemma RequestSigned(f: Fabric, v: Policy, j: Job, w: Soc, x: SocIn)
    requires Serving(f, v, j, w) && Still(v, x) && w.b.state == B_SIGN && w.e.done
    ensures w.s.Shaped() && |w.g.last| == REQUESTERS && x.fabric.Shaped()
    ensures var t := SocNext(f, w, x); Serving(f, v, j, t) && t.b.state == B_SEND
  {
    hide JobOk;
    hide SocNext;
    hide BridgeNext;
    hide Quiesce;
    hide Granted;
    hide Holds;
    hide Owing;
    hide InStep;
    ServingShape(f, v, j, w);
    SignedTag(f, v, j, w);
    hide Intact;
    FabricRests(f, v, w, x);
    BridgeIs(f, w.b, w.e, BridgeSees(f, w, x));
    CountersStay(w, SocNext(f, w, x), j.ask);
    hide BridgeSees;
  }

  /** The two clocks go together. */
  lemma BothMove(f: Fabric, w: Soc, x: SocIn)
    requires w.s.Shaped() && |w.g.last| == REQUESTERS && x.fabric.Shaped()
    ensures var t, i := SocNext(f, w, x), FabricIn(w, x);
      && t.s == Next(f, w.s, i) && t.g == GhostNext(f, w.s, w.g, i)
      && t.b == BridgeNext(f, w.b, w.e, BridgeSees(f, w, x)) && t.e == BridgeEngine(f, w.b, w.e, BridgeSees(f, w, x))
  {
  }

  lemma ServingWait(f: Fabric, v: Policy, j: Job, w: Soc)
    requires AtWork(f, v, j, w.s, w.g) && BridgeInv(f, w.b, w.e, v.epoch) && w.b.state == B_WAIT && w.b.q == j.ask
    requires if Checking(w.s.c.fsm.state) then Owing(w, j.ask) else InStep(w)
    ensures Serving(f, v, j, w)
  {
    hide Healthy;
    hide JobOk;
    hide Granted;
    hide Passes;
    hide BridgeInv;
    hide Owing;
    hide InStep;
    hide AuthPass;
  }

  /** The fabric takes it. */
  lemma RequestTaken(f: Fabric, v: Policy, j: Job, w: Soc, x: SocIn)
    requires Serving(f, v, j, w) && Still(v, x) && w.b.state == B_SEND
    ensures w.s.Shaped() && |w.g.last| == REQUESTERS && x.fabric.Shaped()
    ensures var t := SocNext(f, w, x);
      Serving(f, v, j, t) && t.b.state == B_WAIT && t.s.c.fsm.state == S_AUTH && t.s.c.cm.start
  {
    hide Healthy;
    hide JobOk;
    hide Next;
    hide GhostNext;
    hide BridgeNext;
    hide BridgeEngine;
    hide BridgeInv;
    hide Granted;
    hide Holds;
    hide ReqReady;
    hide AtWork;
    hide Quiesce;
    hide SocNext;
    CalmIn(v, w, x);
    ServingShape(f, v, j, w);
    HealthyShape(f, w.s, w.g);
    BothMove(f, w, x);
    OwesNext(f, v, j, w);
    FabricAccepts(f, v, j, w.s, w.g, FabricIn(w, x));
    BridgeInvStep(f, w.b, w.e, BridgeSees(f, w, x));
    BridgeIs(f, w.b, w.e, BridgeSees(f, w, x));
    CountersStay(w, SocNext(f, w, x), j.ask);
    hide Owing;
    hide Serving;
    ServingWait(f, v, j, SocNext(f, w, x));
  }

  lemma OwesNext(f: Fabric, v: Policy, j: Job, w: Soc)
    requires Serving(f, v, j, w) && w.b.state == B_SEND
    ensures Owing(w, j.ask) && j.ask.seqNo == w.g.last[j.ask.requester] + 1 && Free(w.s) && w.b.q == j.ask && w.s.store.mem == j.mem
  {
    hide Healthy;
    hide JobOk;
    hide BridgeInv;
  }

  /** Where the fabric goes on with the job. */
  predicate Moves(f: Fabric, v: Policy, j: Job, s: Sys, t: Sys)
    requires |v.roles| == LAYERS && j.ask.layer < LAYERS
  {
    var n, start := t.c.fsm.state, t.c.cm.start;
    if s.c.fsm.state == S_AUTH then
      if !s.engine.done then n == S_AUTH && !start else if f.h then n == S_AUTH2 && start else n == S_GUARD
    else if s.c.fsm.state == S_AUTH2 then if s.engine.done then n == S_GUARD else n == S_AUTH2 && !start
    else if s.c.fsm.state == S_GUARD then n == if Passes(v, j.ask) then S_MEM else S_SIGN
    else if s.c.fsm.state == S_MEM then n == S_SIGN
    else if s.c.fsm.state == S_SIGN then n == S_RESP && start
    else if s.engine.done then n == S_IDLE else n == S_RESP && !start
  }

  lemma FabricMoves(f: Fabric, v: Policy, j: Job, s: Sys, g: Ghost, i: Inputs)
    requires AtWork(f, v, j, s, g) && Calm(v, i) && !i.eng.residue
    ensures s.Shaped() && |g.last| == REQUESTERS && |v.roles| == LAYERS && j.ask.layer < LAYERS
    ensures var t, h := Next(f, s, i), GhostNext(f, s, g, i);
      && Moves(f, v, j, s, t)
      && (if s.c.fsm.state == S_RESP && s.engine.done then Answered(f, v, j, t, h) else AtWork(f, v, j, t, h))
      && h.last == if s.c.fsm.state == S_GUARD then g.last[j.ask.requester := j.ask.seqNo] else g.last
  {
    WorkState(f, v, j, s, g);
    hide AtWork;
    hide Answered;
    hide Next;
    hide GhostNext;
    hide Passes;
    var q := s.c.fsm.state;
    if q == S_AUTH && s.engine.done { AuthPasses(f, v, j, s, g, i); }
    else if q == S_AUTH2 && s.engine.done { Auth2Passes(f, v, j, s, g, i); }
    else if q == S_GUARD { GuardDecides(f, v, j, s, g, i); }
    else if q == S_MEM { MemoryAnswers(f, v, j, s, g, i); }
    else if q == S_SIGN { SigningStarts(f, v, j, s, g, i); }
    else if q == S_RESP && s.engine.done { AnswerGoesOut(f, v, j, s, g, i); }
    else { FabricWaits(f, v, j, s, g, i); }
  }

  lemma WorkState(f: Fabric, v: Policy, j: Job, s: Sys, g: Ghost)
    requires AtWork(f, v, j, s, g)
    ensures s.Shaped() && |g.last| == REQUESTERS && JobOk(f, v, j) && |v.roles| == LAYERS && j.ask.layer < LAYERS
    ensures 1 <= s.c.fsm.state <= S_RESP && !s.c.out.valid && j.ask.requester <= 1 && Healthy(f, s, g)
  {
    HealthyShape(f, s, g);
    hide Healthy;
    hide AuthPass;
    hide Granted;
    hide Passes;
  }

  /** The number owing is used up. */
  lemma OwingIsPaid(w: Soc, t: Soc, ask: Request)
    requires Owing(w, ask) && t.b.seqs == w.b.seqs && t.g.last == w.g.last[ask.requester := ask.seqNo]
    ensures InStep(t)
  {
  }

  lemma ServingDone(f: Fabric, v: Policy, j: Job, w: Soc)
    requires Answered(f, v, j, w.s, w.g) && BridgeInv(f, w.b, w.e, v.epoch) && w.b.state == B_WAIT && w.b.q == j.ask && InStep(w)
    ensures Serving(f, v, j, w)
  {
    hide Healthy;
    hide JobOk;
    hide Granted;
    hide Passes;
    hide BridgeInv;
    hide InStep;
  }

  lemma WaitingHolds(f: Fabric, v: Policy, j: Job, w: Soc)
    requires Serving(f, v, j, w) && w.b.state == B_WAIT
    ensures w.b.q == j.ask && (if Checking(w.s.c.fsm.state) then Owing(w, j.ask) else InStep(w))
    ensures w.s.c.fsm.state != S_IDLE ==> AtWork(f, v, j, w.s, w.g)
    ensures w.s.c.fsm.state == S_IDLE ==> Answered(f, v, j, w.s, w.g)
  {
    hide Healthy;
    hide JobOk;
    hide Granted;
    hide Passes;
    hide BridgeInv;
    hide InStep;
    hide Owing;
  }

  /** The fabric works, and the bridge waits. */
  lemma FabricStep(f: Fabric, v: Policy, j: Job, w: Soc, x: SocIn)
    requires Serving(f, v, j, w) && Still(v, x) && w.b.state == B_WAIT && w.s.c.fsm.state != S_IDLE
    ensures w.s.Shaped() && |w.g.last| == REQUESTERS && x.fabric.Shaped() && |v.roles| == LAYERS && j.ask.layer < LAYERS
    ensures var t := SocNext(f, w, x); Serving(f, v, j, t) && t.b.state == B_WAIT && Moves(f, v, j, w.s, t.s)
  {
    hide Healthy;
    hide JobOk;
    hide Next;
    hide GhostNext;
    hide BridgeNext;
    hide BridgeEngine;
    hide BridgeInv;
    hide Granted;
    hide Passes;
    hide Holds;
    hide AtWork;
    hide Answered;
    hide Quiesce;
    hide SocNext;
    hide Owing;
    hide InStep;
    ServingShape(f, v, j, w);
    WaitingHolds(f, v, j, w);
    WorkState(f, v, j, w.s, w.g);
    CalmIn(v, w, x);
    BothMove(f, w, x);
    var t := SocNext(f, w, x);
    FabricMoves(f, v, j, w.s, w.g, FabricIn(w, x));
    BridgeInvStep(f, w.b, w.e, BridgeSees(f, w, x));
    BridgeIs(f, w.b, w.e, BridgeSees(f, w, x));
    hide Serving;
    hide BridgeSees;
    if w.s.c.fsm.state == S_GUARD { OwingIsPaid(w, t, j.ask); } else { CountersStay(w, t, j.ask); }
    if w.s.c.fsm.state == S_RESP && w.s.engine.done { ServingDone(f, v, j, t); } else { ServingWait(f, v, j, t); }
  }

  /** The answer reaches the bridge. */
  lemma AnswerReceived(f: Fabric, v: Policy, j: Job, w: Soc, x: SocIn)
    requires Serving(f, v, j, w) && Still(v, x) && w.b.state == B_WAIT && w.s.c.fsm.state == S_IDLE
    ensures w.s.Shaped() && |w.g.last| == REQUESTERS && x.fabric.Shaped()
    ensures var t := SocNext(f, w, x); Serving(f, v, j, t) && t.b.state == B_VERIFY && t.b.cm.start
  {
    hide JobOk;
    hide SocNext;
    hide BridgeNext;
    hide Quiesce;
    hide Granted;
    hide Owing;
    hide InStep;
    hide ReqReady;
    hide Healthy;
    hide BridgeInv;
    hide AtWork;
    ServingShape(f, v, j, w);
    WaitingHolds(f, v, j, w);
    hide Serving;
    FabricRests(f, v, w, x);
    var t := SocNext(f, w, x);
    BridgeIs(f, w.b, w.e, BridgeSees(f, w, x));
    CountersStay(w, t, j.ask);
    hide Intact;
    VerifyServes(f, v, j, t);
  }

  lemma VerifyServes(f: Fabric, v: Policy, j: Job, w: Soc)
    requires JobOk(f, v, j) && Intact(f, v, w) && w.b.state == B_VERIFY && w.b.q == j.ask && Free(w.s)
    requires w.s.store.mem == MemAfter(v, j) && InStep(w) && Holds(f, v, j, w.b.rsp)
    ensures Serving(f, v, j, w)
  {
    hide Intact;
    hide JobOk;
    hide Holds;
    hide InStep;
  }

  /** It is verified, and the CPU is told. */
  lemma AnswerVerified(f: Fabric, v: Policy, j: Job, w: Soc, x: SocIn)
    requires Serving(f, v, j, w) && Still(v, x) && w.b.state == B_VERIFY && w.e.done
    ensures w.s.Shaped() && |w.g.last| == REQUESTERS && x.fabric.Shaped()
    ensures var t := SocNext(f, w, x); Serving(f, v, j, t) && t.b.state == B_DONE && t.b.tamper == w.b.tamper
  {
    hide JobOk;
    hide SocNext;
    hide BridgeNext;
    hide Owing;
    hide InStep;
    hide ReqReady;
    hide Healthy;
    ServingShape(f, v, j, w);
    TagVerifies(f, v, j, w);
    hide BridgeInv;
    FabricRests(f, v, w, x);
    var t := SocNext(f, w, x);
    BridgeIs(f, w.b, w.e, BridgeSees(f, w, x));
    CountersStay(w, t, j.ask);
    hide Intact;
    hide Holds;
    hide Granted;
    hide Verified;
    hide BridgeSees;
  }

  /** The tag is the one the bridge computes, and an answer to a granted access repeats its fields. */
  lemma TagVerifies(f: Fabric, v: Policy, j: Job, w: Soc)
    requires Serving(f, v, j, w) && w.b.state == B_VERIFY && w.e.done
    ensures w.e.tag == w.b.rsp.tag && (w.b.rsp.status == 1 <==> Granted(v, j.ask))
    ensures Granted(v, j.ask) ==> Verified(w.b, w.e)
    ensures (if Verified(w.b, w.e) then w.b.rsp.data else 0) == DataFor(v, j)
  {
    FieldsMatchExactly(w.b.q, w.b.rsp);
    hide Healthy;
    hide FieldsMatch;
    hide RspMsg;
    hide ReqMsg;
    hide Passes;
    hide MemIndex;
  }

  /** And the bridge is ready for the next access. */
  lemma CpuTold(f: Fabric, v: Policy, j: Job, w: Soc, x: SocIn)
    requires Serving(f, v, j, w) && Still(v, x) && w.b.state == B_DONE
    ensures w.s.Shaped() && |w.g.last| == REQUESTERS && x.fabric.Shaped()
    ensures var t := SocNext(f, w, x); AtEase(f, v, t) && t.s.store.mem == MemAfter(v, j)
  {
    hide JobOk;
    hide SocNext;
    hide BridgeNext;
    hide Owing;
    hide InStep;
    hide ReqReady;
    hide Healthy;
    hide BridgeInv;
    hide Granted;
    ServingShape(f, v, j, w);
    FabricRests(f, v, w, x);
    BridgeIs(f, w.b, w.e, BridgeSees(f, w, x));
    CountersStay(w, SocNext(f, w, x), j.ask);
  }
}
