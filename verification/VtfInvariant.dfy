/**
 * What the fabric knows about the transaction it is working on. The ghost
 * record holds what no register can be trusted with. A `Flaw` names the one
 * register whose contents a fault may have spoilt; without faults it is
 * `NoFlaw` throughout.
 */
module VtfInvariant {
  import opened Words
  import opened VtfTypes
  import opened VtfGuard
  import opened VtfSystem

  datatype Option<T> = None | Some(value: T)

  /**
   * `cur` is the request as presented, `key` the request key it is checked with,
   * `last` the sequence numbers consumed so far, and `exec` the result of the
   * memory access of this transaction once it has happened.
   */
  datatype Ghost = Ghost(cur: Request, key: Key, last: seq<Word>, exec: Option<Word>)

  datatype Flaw = NoFlaw | TagFlaw | CodeFlaw | Tag1Flaw | StatusFlaw

  predicate Consumes(f: Fabric, s: Sys, i: Inputs)
    requires s.Shaped() && i.Shaped()
  {
    s.c.fsm.state == S_GUARD && Judge(f, s, i).consume && s.c.r.requester < REQUESTERS
  }

  function Result(s: Sys): Word
    requires s.Shaped()
  {
    if s.c.r.write then s.c.r.data else s.store.mem[MemIndex(s.c.r)]
  }

  function GhostNext(f: Fabric, s: Sys, g: Ghost, i: Inputs): (n: Ghost)
    requires s.Shaped() && i.Shaped() && |g.last| == REQUESTERS
    ensures |n.last| == REQUESTERS
  {
    if Accepts(f, s, i) then g.(cur := i.req, key := RequestKey(f, i.req, i.activeEpoch), exec := None)
    else
      g.(last := if Consumes(f, s, i) then g.last[s.c.r.requester := s.c.r.seqNo] else g.last,
         exec := if Executes(f, s, i) then Some(Result(s)) else g.exec)
  }

  // ------------------------------------------------------------------ properties

  /** The latched request is the presented one; a flawed tag is one bit off. */
  predicate Presented(w: Flaw, r: Request, cur: Request) {
    if w == TagFlaw then r.(tag := cur.tag) == cur && Near(cur.tag, r.tag) else r == cur
  }

  /** The request was signed with its requester's key; a flawed check may forgive one bit of the tag. */
  predicate Signed(f: Fabric, w: Flaw, g: Ghost) {
    var tag := (f.cmac)(g.key, ReqMsg(g.cur));
    g.cur.requester < REQUESTERS && if w == TagFlaw then Near(g.cur.tag, tag) else g.cur.tag == tag
  }

  /**
   * A request that reaches the memory is the presented one, was signed with its
   * requester's key, and carries the next sequence number.
   */
  predicate AccessIsAuthentic(f: Fabric, w: Flaw, s: Sys, g: Ghost)
    requires |g.last| == REQUESTERS
  {
    && s.c.r.(tag := g.cur.tag) == g.cur
    && Signed(f, w, g)
    && g.cur.seqNo == g.last[g.cur.requester] + 1
  }

  /** A response that reports success reports the result of the access this transaction made. */
  predicate ResponseIsTrue(out: Response, g: Ghost) {
    out.valid && out.status == 1 ==> g.exec == Some(out.data) && out.msg.status == 1 && out.msg.data == out.data
  }

  ghost predicate StepIsSafe(f: Fabric, w: Flaw, s: Sys, g: Ghost, i: Inputs)
    requires s.Shaped() && i.Shaped() && |g.last| == REQUESTERS
  {
    && (Accesses(f, s, i) ==> AccessIsAuthentic(f, w, s, g))
    && ResponseIsTrue(NextCtl(f, s, i).out, g)
  }

  // ------------------------------------------------------------------- invariant

  ghost predicate GuardAgrees(f: Fabric, d: Guard, g: Ghost) {
    && d.Shaped() && d.lastSeq == g.last
    && (f.h ==> d.lockdownN == !d.lockdown)
    && (f.h ==> forall r :: 0 <= r < REQUESTERS ==> Parity(d.lastSeq[r]) == d.seqPar[r])
  }

  predicate Computing(t: U3) { t == S_AUTH || t == S_AUTH2 || t == S_RESP }

  /** The tag engine is only started, and only runs, in the states that wait for it. */
  predicate Handshake(c: Ctl, e: Engine) {
    && c.fsm.state <= S_RESP
    && (c.cm.start ==> !e.busy && !e.done)
    && !(e.busy && e.done)
    && (Computing(c.fsm.state) || (!c.cm.start && !e.busy))
  }

  predicate EngineAgrees(f: Fabric, e: Engine, cm: Command) {
    && (e.busy ==> e.key == cm.key && e.msg == cm.msg)
    && (e.done ==> e.tag == (f.cmac)(cm.key, cm.msg))
  }

  /** A success status is the truth about this transaction. */
  predicate AnswerTrue(a: Answer, g: Ghost) { a.status == 1 ==> g.exec == Some(a.data) }

  /** The engine has been given the current request. */
  predicate Asked(f: Fabric, cm: Command, e: Engine, g: Ghost) {
    cm.msg == ReqMsg(g.cur) && cm.key == g.key && EngineAgrees(f, e, cm)
  }

  predicate CoreAuth(f: Fabric, w: Flaw, c: Ctl, e: Engine, g: Ghost) {
    && Presented(w, c.r, g.cur) && (w == CodeFlaw || c.check.code == AUTH_FAIL) && (f.h || !c.check.ok)
    && g.exec == None && Asked(f, c.cm, e, g)
    && (c.fsm.state == S_AUTH2 ==> f.h && (w == Tag1Flaw || c.check.tag1 == (f.cmac)(g.key, ReqMsg(g.cur))))
  }

  predicate CoreGuard(f: Fabric, w: Flaw, c: Ctl, g: Ghost) {
    && Presented(w, c.r, g.cur) && g.exec == None
    && (c.check.code == AUTH_PASS || c.check.code == AUTH_FAIL)
    && (c.check.code == AUTH_PASS ==> f.h && Signed(f, w, g) && FieldsOk(c))
    && (!f.h && c.check.ok ==> Signed(f, w, g))
  }

  predicate CoreMem(f: Fabric, w: Flaw, c: Ctl, m: Store, g: Ghost) {
    && Presented(w, c.r, g.cur) && m.ready && (f.h ==> FieldsOk(c))
    && g.exec == if m.denied then None else Some(if c.r.write then c.r.data else m.ramQ)
  }

  predicate CoreSign(f: Fabric, w: Flaw, c: Ctl, g: Ghost) {
    && Presented(w, c.r, g.cur) && AnswerTrue(c.ans, g) && (f.h ==> ParityOk(c.ans))
    && (c.fsm.state == S_RESP ==> c.cm.msg == Reply(c))
    && (w == NoFlaw && g.exec.Some? ==> c.ans.status == 1)
  }

  /** What holds of the control registers in each state. */
  predicate Core(f: Fabric, w: Flaw, c: Ctl, e: Engine, m: Store, g: Ghost) {
    var t := c.fsm.state;
    && (w != NoFlaw ==> f.h)
    && (w != StatusFlaw ==> AnswerTrue(c.ans, g))
    && (!f.h && t != S_IDLE ==> c.check.addrOk == (c.r.addr < LAYER_WORDS))
    && (t == S_AUTH || t == S_AUTH2 ==> CoreAuth(f, w, c, e, g))
    && (t == S_GUARD ==> CoreGuard(f, w, c, g))
    && (t == S_MEM ==> CoreMem(f, w, c, m, g))
    && (t == S_SIGN || t == S_RESP ==> CoreSign(f, w, c, g))
  }

  /** The registers agree with each other and with the consumed sequence numbers; no alarm. */
  ghost predicate Sound(f: Fabric, s: Sys, g: Ghost) {
    && s.Shaped() && |g.last| == REQUESTERS && GuardAgrees(f, s.guard, g)
    && s.c.fsm.RailsAgree() && !s.c.alarm && Handshake(s.c, s.engine)
  }

  ghost predicate Good(f: Fabric, w: Flaw, s: Sys, g: Ghost) {
    Sound(f, s, g) && Core(f, w, s.c, s.engine, s.store, g)
  }

  /** Power-on registers. */
  ghost predicate Reset(s: Sys, g: Ghost) {
    && s.Shaped() && s.c.fsm == Rails(S_IDLE) && s.c.ans == Answer(0, 0, 0, false)
    && !s.c.alarm && !s.c.cm.start && !s.c.out.valid && !s.engine.busy && !s.engine.done
    && !s.guard.lockdown && s.guard.lockdownN
    && g.last == s.guard.lastSeq == seq(REQUESTERS, _ => 0)
    && s.guard.seqPar == seq(REQUESTERS, _ => false)
  }

  lemma ResetIsGood(f: Fabric, s: Sys, g: Ghost)
    requires Reset(s, g)
    ensures Good(f, NoFlaw, s, g)
  {
    assert !Parity(0);
  }

  // --------------------------------------------------------------- housekeeping

  lemma GuardStep(f: Fabric, s: Sys, g: Ghost, i: Inputs)
    requires s.Shaped() && |g.last| == REQUESTERS && GuardAgrees(f, s.guard, g) && i.Shaped()
    ensures GuardAgrees(f, Clock(f.h, s.guard, AskGuard(f, s.c, i)), GhostNext(f, s, g, i))
  {
    hide Parity;
    hide PolicyAllows;
    hide AuthPass;
    hide Executes;
  }

  /** The control registers after a clock edge, state by state. */
  lemma ControlIs(f: Fabric, s: Sys, i: Inputs)
    requires s.Shaped() && i.Shaped() && !StateFault(f, s.c)
    ensures var n, c, severe, locked := NextCtl(f, s, i), Settle(s.c), Judge(f, s, i).severe, LockdownOut(f, s, i);
      var t := s.c.fsm.state;
      && c.fsm == s.c.fsm
      && (t == S_IDLE ==> n == if Accepts(f, s, i) then AcceptRequest(f, c, i, locked) else c)
      && (t == S_AUTH ==> n == AuthControl(f, c, s.engine, severe))
      && (t == S_AUTH2 ==> n == Auth2Control(c, s.engine, severe))
      && (t == S_GUARD ==> n == GuardControl(f, c, Judge(f, s, i)))
      && (t == S_MEM ==> n == MemControl(f, c, s.store))
      && (t == S_SIGN ==> n == SignControl(f, c, i, EngineBusy(s, i), locked))
      && (t == S_RESP ==> n == RespControl(f, c, s.engine, severe))
  {
    hide AcceptRequest;
    hide AuthControl;
    hide Auth2Control;
    hide GuardControl;
    hide MemControl;
    hide SignControl;
    hide RespControl;
    hide Judge;
    hide LockdownOut;
    hide Accepts;
  }

  lemma PresentedMessage(w: Flaw, r: Request, cur: Request)
    requires Presented(w, r, cur)
    ensures ReqMsg(r) == ReqMsg(cur) && r.requester == cur.requester && r.seqNo == cur.seqNo
    ensures r.addr == cur.addr && r.write == cur.write && r.data == cur.data
    ensures r.(tag := cur.tag) == cur
  {
    hide Near;
  }

  /** The control registers stay in step with the engine. */
  lemma HandshakeStep(f: Fabric, s: Sys, i: Inputs)
    requires s.Shaped() && i.Shaped() && s.c.fsm.RailsAgree() && Handshake(s.c, s.engine)
    ensures var n := Next(f, s, i); Handshake(n.c, n.engine) && n.c.fsm.RailsAgree()
  {
    hide Judge;
    hide Accepts;
    hide LockdownOut;
    hide CodeFault;
    hide RespParFault;
    hide AddrOk;
    hide Reply;
    hide MemAnswer;
    hide FieldsOk;
    hide ReqMsg;
    hide TagMatches;
    hide Clock;
    hide StoreNext;
    hide Refusal;
    hide RequestKey;
    hide AskGuard;
    ControlIs(f, s, i);
    hide Control;
    hide NextCtl;
  }

  lemma SevereLocks(f: Fabric, s: Sys, i: Inputs)
    requires s.Shaped() && i.Shaped() && Judge(f, s, i).severe
    ensures Next(f, s, i).guard.lockdown
  {
    hide Parity;
    hide PolicyAllows;
    hide NextCtl;
    hide EngineNext;
    hide StoreNext;
    hide AskGuard;
  }

  // ------------------------------------------------------------- steps by state

  /** Where a step leads: on with the transaction, or, after a fault, to a guard that will refuse it. */
  predicate Advances(f: Fabric, w: Flaw, n: Sys, g: Ghost)
    requires n.Shaped()
  {
    || (!n.c.alarm && Core(f, w, n.c, n.engine, n.store, g))
    || (w != NoFlaw && n.c.fsm.state == S_GUARD && (n.c.alarm || n.guard.lockdown))
  }

  lemma IdleStep(f: Fabric, w: Flaw, s: Sys, g: Ghost, i: Inputs)
    requires Good(f, w, s, g) && i.Shaped() && s.c.fsm.state == S_IDLE
    ensures Advances(f, w, Next(f, s, i), GhostNext(f, s, g, i)) && StepIsSafe(f, w, s, g, i)
  {
    hide Judge;
    hide LockdownOut;
    hide ReqMsg;
    hide Clock;
    hide StoreNext;
    hide GuardAgrees;
    hide Flipped128;
    hide RequestKey;
    ControlIs(f, s, i);
    hide Control;
    hide NextCtl;
  }

  lemma ZeroParity()
    ensures !Parity(0) && !Parity8(0)
  {
  }

  /** The engine goes on with what it was asked. */
  lemma AskedStep(f: Fabric, c: Command, e: Engine, n: Command, g: Ghost, i: EngineIn, clear: bool)
    requires Asked(f, c, e, g) && n.key == c.key && n.msg == c.msg
    ensures Asked(f, n, EngineNext(f, e, c, i, clear), g)
  {
    hide ReqMsg;
  }

  /** A matching tag shows the request signed. */
  lemma MatchIsSigned(f: Fabric, w: Flaw, c: Ctl, e: Engine, g: Ghost)
    requires Presented(w, c.r, g.cur) && Asked(f, c.cm, e, g) && e.done && TagMatches(e, c.r)
    ensures Signed(f, w, g) && FieldsOk(c)
  {
    PresentedMessage(w, c.r, g.cur);
    hide ReqMsg;
  }

  lemma AuthSettles(f: Fabric, w: Flaw, c: Ctl, e: Engine, severe: bool, g: Ghost)
    requires c.fsm.state == S_AUTH && CoreAuth(f, w, c, e, g) && (w != NoFlaw ==> f.h)
    ensures var n := AuthControl(f, c, e, severe);
      && n.alarm == c.alarm && n.ans == c.ans && n.out == c.out && n.r == c.r && n.check.addrOk == c.check.addrOk
      && n.cm.key == c.cm.key && n.cm.msg == c.cm.msg && n.check.code == c.check.code
      && n.cm.start == (c.cm.start || (e.done && f.h)) && (f.h || e.done || !n.check.ok)
      && n.fsm.state == (if e.done then (if f.h then S_AUTH2 else S_GUARD) else if severe then S_GUARD else S_AUTH)
      && (n.fsm.state == S_AUTH2 ==> n.check.tag1 == (f.cmac)(g.key, ReqMsg(g.cur)))
      && (n.fsm.state == S_GUARD && w != CodeFlaw ==> CoreGuard(f, w, n, g))
      && (n.fsm.state == S_GUARD && w == CodeFlaw ==> severe)
  {
    if e.done && TagMatches(e, c.r) { MatchIsSigned(f, w, c, e, g); }
    hide Presented;
    hide ReqMsg;
    hide Signed;
  }

  lemma AuthStep(f: Fabric, w: Flaw, s: Sys, g: Ghost, i: Inputs)
    requires Good(f, w, s, g) && i.Shaped() && s.c.fsm.state == S_AUTH
    ensures Advances(f, w, Next(f, s, i), GhostNext(f, s, g, i)) && StepIsSafe(f, w, s, g, i)
  {
    if Judge(f, s, i).severe { SevereLocks(f, s, i); }
    ControlIs(f, s, i);
    AuthSettles(f, w, Settle(s.c), s.engine, Judge(f, s, i).severe, g);
    AskedStep(f, s.c.cm, s.engine, NextCtl(f, s, i).cm, g, i.eng, Judge(f, s, i).severe);
    hide Asked;
    hide EngineNext;
    hide Presented;
    hide Judge;
    hide LockdownOut;
    hide ReqMsg;
    hide Clock;
    hide StoreNext;
    hide GuardAgrees;
    hide CoreGuard;
    hide Signed;
    hide Control;
    hide NextCtl;
    hide AuthControl;
  }

  lemma Auth2Settles(f: Fabric, w: Flaw, c: Ctl, e: Engine, severe: bool, g: Ghost)
    requires c.fsm.state == S_AUTH2 && CoreAuth(f, w, c, e, g) && !c.alarm
    ensures var n := Auth2Control(c, e, severe);
      && n.ans == c.ans && n.out == c.out && n.r == c.r && n.check.addrOk == c.check.addrOk && n.cm == c.cm
      && n.fsm.state == (if e.done || severe then S_GUARD else S_AUTH2)
      && (!e.done ==> n.check == c.check && !n.alarm)
      && (n.alarm ==> w == Tag1Flaw)
      && (n.fsm.state == S_GUARD ==> n.alarm || CoreGuard(f, w, n, g) || (w == CodeFlaw && severe))
  {
    if e.done && TagMatches(e, c.r) { MatchIsSigned(f, w, c, e, g); }
    hide Presented;
    hide ReqMsg;
    hide Signed;
  }

  lemma Auth2Step(f: Fabric, w: Flaw, s: Sys, g: Ghost, i: Inputs)
    requires Good(f, w, s, g) && i.Shaped() && s.c.fsm.state == S_AUTH2
    ensures Advances(f, w, Next(f, s, i), GhostNext(f, s, g, i)) && StepIsSafe(f, w, s, g, i)
  {
    if Judge(f, s, i).severe { SevereLocks(f, s, i); }
    ControlIs(f, s, i);
    Auth2Settles(f, w, Settle(s.c), s.engine, Judge(f, s, i).severe, g);
    AskedStep(f, s.c.cm, s.engine, NextCtl(f, s, i).cm, g, i.eng, Judge(f, s, i).severe);
    hide Asked;
    hide EngineNext;
    hide Presented;
    hide Judge;
    hide LockdownOut;
    hide ReqMsg;
    hide Clock;
    hide StoreNext;
    hide GuardAgrees;
    hide CoreGuard;
    hide Signed;
    hide Control;
    hide NextCtl;
    hide Auth2Control;
  }

  lemma GuardSettles(f: Fabric, w: Flaw, c: Ctl, v: Verdict, g: Ghost)
    requires c.fsm.state == S_GUARD && CoreGuard(f, w, c, g)
    ensures var n := GuardControl(f, c, v);
      && !CodeFault(f, c)
      && n.r == c.r && n.check == c.check && n.alarm == c.alarm && n.cm == c.cm && n.out == c.out
      && n.ans.status == 0 && ParityOk(n.ans) && g.exec == None
      && n.fsm.state == (if v.allow && AddrOk(f, c) then S_MEM else S_SIGN)
      && FieldsOk(n) == FieldsOk(c)
  {
    hide Presented;
    hide Signed;
    hide ReqMsg;
    ZeroParity();
    hide Parity;
    hide Parity8;
  }

  /** What an allowing verdict says about the request. */
  lemma AllowedMeans(f: Fabric, s: Sys, i: Inputs)
    requires s.Shaped() && i.Shaped() && Judge(f, s, i).allow
    ensures AuthPass(f, s.c) && s.c.r.requester < REQUESTERS && !s.guard.Locked(f.h) && !s.c.alarm
    ensures s.c.r.seqNo == s.guard.lastSeq[s.c.r.requester] + 1 && s.c.fsm.state == S_GUARD
    ensures !s.guard.InternalFault(f.h)
  {
    hide Parity;
    hide PolicyAllows;
    hide GuardLayer;
    hide AuthPass;
  }

  lemma AuthPassMeans(f: Fabric, w: Flaw, c: Ctl, g: Ghost)
    requires CoreGuard(f, w, c, g) && AuthPass(f, c)
    ensures Signed(f, w, g) && (f.h ==> FieldsOk(c)) && Presented(w, c.r, g.cur)
  {
    hide Presented;
    hide Signed;
    hide FieldsOk;
  }

  lemma AccessAuthenticated(f: Fabric, w: Flaw, s: Sys, g: Ghost, i: Inputs)
    requires s.Shaped() && i.Shaped() && s.guard.lastSeq == g.last && CoreGuard(f, w, s.c, g)
    requires Judge(f, s, i).allow
    ensures AccessIsAuthentic(f, w, s, g) && (f.h ==> FieldsOk(s.c))
  {
    AllowedMeans(f, s, i);
    hide Judge;
    hide CoreGuard;
    hide Presented;
    hide Signed;
    hide FieldsOk;
    hide AuthPass;
    hide Parity;
    hide ReqMsg;
    AuthPassMeans(f, w, s.c, g);
    PresentedMessage(w, s.c.r, g.cur);
  }

  lemma GuardStateIsSafe(f: Fabric, w: Flaw, s: Sys, g: Ghost, i: Inputs)
    requires Good(f, w, s, g) && i.Shaped() && s.c.fsm.state == S_GUARD
    ensures StepIsSafe(f, w, s, g, i)
  {
    ControlIs(f, s, i);
    GuardSettles(f, w, Settle(s.c), Judge(f, s, i), g);
    if Judge(f, s, i).allow { AccessAuthenticated(f, w, s, g, i); }
    hide AccessIsAuthentic;
    hide GuardAgrees;
    hide Judge;
    hide Presented;
    hide ReqMsg;
    hide Clock;
    hide ParityOk;
    hide MemIndex;
    hide GuardLayer;
    hide Control;
    hide NextCtl;
    hide LockdownOut;
    hide EngineNext;
    hide GuardControl;
    hide Signed;
    hide FieldsOk;
    hide CodeFault;
    hide AddrOk;
    hide StoreNext;
    hide GhostNext;
  }

  lemma GuardStateStep(f: Fabric, w: Flaw, s: Sys, g: Ghost, i: Inputs)
    requires Good(f, w, s, g) && i.Shaped() && s.c.fsm.state == S_GUARD
    ensures Advances(f, w, Next(f, s, i), GhostNext(f, s, g, i)) && StepIsSafe(f, w, s, g, i)
  {
    GuardStateIsSafe(f, w, s, g, i);
    ControlIs(f, s, i);
    GuardSettles(f, w, Settle(s.c), Judge(f, s, i), g);
    if Judge(f, s, i).allow { AccessAuthenticated(f, w, s, g, i); }
    hide AccessIsAuthentic;
    hide GuardAgrees;
    hide Judge;
    hide Presented;
    hide ReqMsg;
    hide Clock;
    hide ParityOk;
    hide MemIndex;
    hide GuardLayer;
    hide Control;
    hide NextCtl;
    hide LockdownOut;
    hide EngineNext;
    hide GuardControl;
    hide Signed;
    hide FieldsOk;
    hide CodeFault;
    hide AddrOk;
    hide StepIsSafe;
  }

  lemma MemStep(f: Fabric, w: Flaw, s: Sys, g: Ghost, i: Inputs)
    requires Good(f, w, s, g) && i.Shaped() && s.c.fsm.state == S_MEM
    ensures Advances(f, w, Next(f, s, i), GhostNext(f, s, g, i)) && StepIsSafe(f, w, s, g, i)
  {
    PresentedMessage(w, s.c.r, g.cur);
    hide Presented;
    hide Judge;
    hide LockdownOut;
    hide ReqMsg;
    hide Clock;
    hide GuardAgrees;
    hide Parity;
    hide Parity8;
    ControlIs(f, s, i);
    hide Control;
    hide NextCtl;
    hide EngineNext;
    hide StoreNext;
  }

  lemma SignStep(f: Fabric, w: Flaw, s: Sys, g: Ghost, i: Inputs)
    requires Good(f, w, s, g) && i.Shaped() && s.c.fsm.state == S_SIGN
    ensures Advances(f, w, Next(f, s, i), GhostNext(f, s, g, i)) && StepIsSafe(f, w, s, g, i)
  {
    hide Presented;
    hide Judge;
    hide LockdownOut;
    hide ReqMsg;
    hide Clock;
    hide GuardAgrees;
    hide Parity;
    hide Parity8;
    ControlIs(f, s, i);
    hide Control;
    hide NextCtl;
    hide EngineNext;
    hide StoreNext;
  }

  lemma RespStep(f: Fabric, w: Flaw, s: Sys, g: Ghost, i: Inputs)
    requires Good(f, w, s, g) && i.Shaped() && s.c.fsm.state == S_RESP
    ensures Advances(f, w, Next(f, s, i), GhostNext(f, s, g, i)) && StepIsSafe(f, w, s, g, i)
  {
    hide Presented;
    hide Judge;
    hide LockdownOut;
    hide ReqMsg;
    hide Clock;
    hide GuardAgrees;
    hide Parity;
    hide Parity8;
    ControlIs(f, s, i);
    hide Control;
    hide NextCtl;
    hide EngineNext;
    hide StoreNext;
  }

  /** One clock without a new fault keeps the transaction on course, or ends it before it reaches the memory. */
  lemma GoodStep(f: Fabric, w: Flaw, s: Sys, g: Ghost, i: Inputs)
    requires Good(f, w, s, g) && i.Shaped()
    ensures StepIsSafe(f, w, s, g, i)
    ensures var n, h := Next(f, s, i), GhostNext(f, s, g, i);
      || Good(f, w, n, h)
      || (w != NoFlaw && n.c.fsm == Rails(S_GUARD) && (n.c.alarm || n.guard.lockdown))
  {
    GuardStep(f, s, g, i);
    HandshakeStep(f, s, i);
    var t := s.c.fsm.state;
    assert t <= S_RESP;
    hide StepIsSafe;
    hide Clock;
    hide GuardAgrees;
    hide GhostNext;
    hide EngineNext;
    hide StoreNext;
    hide NextCtl;
    hide Core;
    if t == S_IDLE { IdleStep(f, w, s, g, i); }
    else if t == S_AUTH { AuthStep(f, w, s, g, i); }
    else if t == S_AUTH2 { Auth2Step(f, w, s, g, i); }
    else if t == S_GUARD { GuardStateStep(f, w, s, g, i); }
    else if t == S_MEM { MemStep(f, w, s, g, i); }
    else if t == S_SIGN { SignStep(f, w, s, g, i); }
    else { RespStep(f, w, s, g, i); }
  }
}
