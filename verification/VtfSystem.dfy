/**
 * The integrated fabric: transaction state machine, request re-check, dual-rail
 * state, guard, stacked memory and signed responses, one clock edge at a time.
 * `h` switches the fault hardening on.
 */
module VtfSystem {
  import opened Words
  import opened VtfTypes
  import opened VtfGuard

  const S_IDLE: U3 := 0
  const S_AUTH: U3 := 1
  const S_AUTH2: U3 := 2
  const S_GUARD: U3 := 3
  const S_MEM: U3 := 4
  const S_SIGN: U3 := 5
  const S_RESP: U3 := 6

  /** The bitwise complement of a 3-bit state, kept on the second rail. */
  function Complement(x: U3): U3 { 7 - x }

  const AUTH_PASS: bv8 := 0xA5
  const AUTH_FAIL: bv8 := 0x5A

  /** What is fixed for a run: the tag function, the keys of each epoch, and whether hardening is on. */
  datatype Fabric = Fabric(h: bool, cmac: (Key, Msg) -> Tag, reqKey: (nat, Word) -> Key, rspKey: Word -> Key)

  datatype Response = Response(valid: bool, status: bv8, data: Word, msg: Msg, tag: Tag, reason: bv8)

  /** The state register on its two rails. */
  datatype Fsm = Fsm(state: U3, stateN: U3) {
    predicate RailsAgree() { stateN == Complement(state) }
  }

  /** The command registers of the tag engine. */
  datatype Command = Command(start: bool, key: Key, msg: Msg)

  /** What the request check has found out. */
  datatype Check = Check(ok: bool, addrOk: bool, code: bv8, tag1: Tag)

  /** The response registers with their parity. */
  datatype Answer = Answer(status: bv8, data: Word, reason: bv8, par: bool)

  /** The control registers. */
  datatype Ctl = Ctl(fsm: Fsm, cm: Command, r: Request, check: Check, ans: Answer, alarm: bool, out: Response)

  /** The shared tag engine. A computation takes as many clocks as the inputs say. */
  datatype Engine = Engine(busy: bool, key: Key, msg: Msg, done: bool, tag: Tag)

  /** The stacked memory with its read register and handshake. */
  datatype Store = Store(mem: seq<Word>, ramQ: Word, ready: bool, denied: bool)

  datatype Sys = Sys(c: Ctl, engine: Engine, guard: Guard, store: Store) {
    predicate Shaped() { guard.Shaped() && |store.mem| == LAYERS * LAYER_WORDS }
  }

  /** How far the cipher core under a tag engine gets in one clock. */
  datatype EngineIn = EngineIn(accepts: bool, finishes: bool, residue: bool)

  /** Everything the environment decides in one clock. */
  datatype Inputs = Inputs(
    reqValid: bool, req: Request, keysReady: bool, activeEpoch: Word, debug: bool,
    roles: seq<Role>, access: seq<bool>, physical: bool, sentinel: bool, thermal: bool,
    eng: EngineIn)
  {
    predicate Shaped() { |roles| == LAYERS && |access| == LAYERS }
  }

  function RespParity(status: bv8, data: Word, reason: bv8): bool {
    (Parity8(status) != Parity(data)) != Parity8(reason)
  }

  // ------------------------------------------------------- combinational signals

  /** The latched request still is what was authenticated. */
  predicate FieldsOk(c: Ctl) { ReqMsg(c.r) == c.cm.msg }

  predicate AuthPass(f: Fabric, c: Ctl) {
    if f.h then c.check.code == AUTH_PASS && FieldsOk(c) else c.check.ok
  }

  predicate AddrOk(f: Fabric, c: Ctl) {
    if f.h then c.r.addr < LAYER_WORDS else c.check.addrOk
  }

  predicate StateFault(f: Fabric, c: Ctl) { f.h && !c.fsm.RailsAgree() }

  predicate CodeFault(f: Fabric, c: Ctl) {
    f.h && c.fsm.state == S_GUARD &&
    ((c.check.code != AUTH_PASS && c.check.code != AUTH_FAIL) || (c.check.code == AUTH_PASS && !FieldsOk(c)))
  }

  predicate ParityOk(a: Answer) { RespParity(a.status, a.data, a.reason) == a.par }

  predicate RespParFault(f: Fabric, c: Ctl) {
    f.h && c.fsm.state == S_SIGN && !ParityOk(c.ans)
  }

  function GuardLayer(r: Request): (l: nat)
    ensures l < LAYERS
  {
    if r.layer < LAYERS then r.layer else LAYERS - 1
  }

  function AskGuard(f: Fabric, c: Ctl, i: Inputs): Question {
    Question(c.fsm.state == S_GUARD, c.r.requester, c.r.write, GuardLayer(c.r), c.r.seqNo, c.r.epoch, i.activeEpoch,
             AuthPass(f, c) && c.r.layer < LAYERS, i.debug, i.roles,
             i.physical || c.alarm, i.sentinel, i.thermal)
  }

  function Judge(f: Fabric, s: Sys, i: Inputs): Verdict
    requires s.Shaped() && i.Shaped()
  {
    Decide(f.h, s.guard, AskGuard(f, s.c, i))
  }

  predicate LockdownOut(f: Fabric, s: Sys, i: Inputs)
    requires s.Shaped() && i.Shaped()
  {
    s.guard.Locked(f.h) || Judge(f, s, i).severe
  }

  /** A request reaches the memory in this clock. */
  predicate Accesses(f: Fabric, s: Sys, i: Inputs)
    requires s.Shaped() && i.Shaped()
  {
    s.c.fsm.state == S_GUARD && Judge(f, s, i).allow && AddrOk(f, s.c) && !CodeFault(f, s.c) && !StateFault(f, s.c)
  }

  /** An access that the layer's access switch lets through. */
  predicate Executes(f: Fabric, s: Sys, i: Inputs)
    requires s.Shaped() && i.Shaped()
  {
    Accesses(f, s, i) && i.access[GuardLayer(s.c.r)]
  }

  predicate EngineBusy(s: Sys, i: Inputs) { s.engine.busy || i.eng.residue }

  predicate ReqReady(f: Fabric, s: Sys, i: Inputs)
    requires s.Shaped() && i.Shaped()
  {
    s.c.fsm.state == S_IDLE && !EngineBusy(s, i) && (i.keysReady || LockdownOut(f, s, i))
  }

  predicate Accepts(f: Fabric, s: Sys, i: Inputs)
    requires s.Shaped() && i.Shaped()
  {
    i.reqValid && ReqReady(f, s, i)
  }

  function MemIndex(r: Request): (n: nat)
    ensures n < LAYERS * LAYER_WORDS
  {
    GuardLayer(r) * LAYER_WORDS + r.addr % LAYER_WORDS
  }

  // ----------------------------------------------------------------- clock edges

  function Rails(state: U3): Fsm { Fsm(state, Complement(state)) }

  function Refusal(reason: bv8): Answer { Answer(0, 0, reason, Parity8(reason)) }

  /** Refuses the transaction with an internal-fault denial and raises the sticky alarm. */
  function Trip(c: Ctl): Ctl {
    c.(alarm := true, ans := Refusal(DENY_FAULT), fsm := Rails(S_SIGN))
  }

  function RequestKey(f: Fabric, r: Request, epoch: Word): Key {
    if r.requester < REQUESTERS then (f.reqKey)(r.requester, epoch) else ZERO
  }

  /** Latches an accepted request and starts its tag check, or, in lockdown, goes straight to the guard. */
  function AcceptRequest(f: Fabric, c: Ctl, i: Inputs, locked: bool): Ctl {
    var start := i.keysReady && !locked;
    c.(r := i.req, check := Check(false, i.req.addr < LAYER_WORDS, AUTH_FAIL, c.check.tag1),
       ans := Answer(0, 0, 0, false),
       cm := if start then Command(true, RequestKey(f, i.req, i.activeEpoch), ReqMsg(i.req)) else c.cm,
       fsm := Rails(if start then S_AUTH else S_GUARD))
  }

  predicate TagMatches(e: Engine, r: Request) { e.tag == r.tag && r.requester < REQUESTERS }

  function AuthControl(f: Fabric, c: Ctl, e: Engine, severe: bool): Ctl {
    if e.done then
      c.(check := c.check.(ok := TagMatches(e, c.r), tag1 := if f.h then e.tag else c.check.tag1),
         cm := c.cm.(start := f.h || c.cm.start),
         fsm := Rails(if f.h then S_AUTH2 else S_GUARD))
    else if severe then c.(fsm := Rails(S_GUARD))
    else c
  }

  function Auth2Control(c: Ctl, e: Engine, severe: bool): Ctl {
    if e.done then
      var same := e.tag == c.check.tag1;
      var ok := same && TagMatches(e, c.r);
      c.(alarm := c.alarm || !same, fsm := Rails(S_GUARD),
         check := c.check.(ok := ok, code := if ok then AUTH_PASS else AUTH_FAIL))
    else if severe then c.(fsm := Rails(S_GUARD))
    else c
  }

  function GuardControl(f: Fabric, c: Ctl, v: Verdict): Ctl {
    if CodeFault(f, c) then Trip(c)
    else
      var go := v.allow && AddrOk(f, c);
      c.(ans := Refusal(if v.allow && !go then DENY_POLICY else v.reason),
         fsm := Rails(if go then S_MEM else S_SIGN))
  }

  /** The answer the memory's result makes. */
  function MemAnswer(c: Ctl, m: Store): Answer {
    var status: bv8 := if m.denied then 0 else 1;
    var data := if m.denied then 0 else if c.r.write then c.r.data else m.ramQ;
    Answer(status, data, c.ans.reason, RespParity(status, data, c.ans.reason))
  }

  function MemControl(f: Fabric, c: Ctl, m: Store): Ctl {
    if !m.ready then c
    else if f.h && !FieldsOk(c) then Trip(c)
    else c.(ans := MemAnswer(c, m), fsm := Rails(S_SIGN))
  }

  /** The response message as the registers have it. */
  function Reply(c: Ctl): Msg { RspMsg(c.r, c.ans.status, c.ans.data) }

  function SignControl(f: Fabric, c: Ctl, i: Inputs, busy: bool, locked: bool): Ctl {
    if RespParFault(f, c) then Trip(c)
    else if i.keysReady && !locked then
      if busy then c
      else c.(cm := Command(true, (f.rspKey)(i.activeEpoch), Reply(c)), fsm := Rails(S_RESP))
    else
      c.(out := Response(true, c.ans.status, c.ans.data, Reply(c), ZERO, c.ans.reason), fsm := Rails(S_IDLE))
  }

  function RespControl(f: Fabric, c: Ctl, e: Engine, severe: bool): Ctl {
    if e.done && f.h && c.cm.msg != Reply(c) then Trip(c)
    else if e.done then
      c.(out := Response(true, c.cm.msg.status, c.cm.msg.data, c.cm.msg, e.tag, c.ans.reason), fsm := Rails(S_IDLE))
    else if severe then c.(fsm := Rails(S_SIGN))
    else c
  }

  /** Signals that last one clock are withdrawn unless they are raised again. */
  function Settle(c: Ctl): Ctl { c.(cm := c.cm.(start := false), out := c.out.(valid := false)) }

  /** The control registers after the clock edge, before a state-rail fault overrides them. */
  function Control(f: Fabric, s: Sys, i: Inputs): Ctl
    requires s.Shaped() && i.Shaped()
  {
    var v, locked, c := Judge(f, s, i), LockdownOut(f, s, i), Settle(s.c);
    var t := c.fsm.state;
    if t == S_IDLE then (if Accepts(f, s, i) then AcceptRequest(f, c, i, locked) else c)
    else if t == S_AUTH then AuthControl(f, c, s.engine, v.severe)
    else if t == S_AUTH2 then Auth2Control(c, s.engine, v.severe)
    else if t == S_GUARD then GuardControl(f, c, v)
    else if t == S_MEM then MemControl(f, c, s.store)
    else if t == S_SIGN then SignControl(f, c, i, EngineBusy(s, i), locked)
    else if t == S_RESP then RespControl(f, c, s.engine, v.severe)
    else c.(fsm := Rails(S_IDLE))
  }

  function NextCtl(f: Fabric, s: Sys, i: Inputs): Ctl
    requires s.Shaped() && i.Shaped()
  {
    var c := Control(f, s, i);
    if StateFault(f, s.c) then Trip(c) else c
  }

  function EngineNext(f: Fabric, e: Engine, cm: Command, i: EngineIn, clear: bool): Engine {
    if e.busy then
      if i.finishes then Engine(false, e.key, e.msg, true, (f.cmac)(e.key, e.msg))
      else Engine(!clear, e.key, e.msg, false, e.tag)
    else if cm.start && i.accepts && !clear then Engine(true, cm.key, cm.msg, false, e.tag)
    else e.(done := false)
  }

  function StoreNext(f: Fabric, s: Sys, i: Inputs): (m: Store)
    requires s.Shaped() && i.Shaped()
    ensures |m.mem| == |s.store.mem|
  {
    var m, r, go := s.store, s.c.r, Executes(f, s, i);
    Store(if go && r.write then m.mem[MemIndex(r) := r.data] else m.mem,
          if go && !r.write then m.mem[MemIndex(r)] else m.ramQ,
          Accesses(f, s, i), Accesses(f, s, i) && !go)
  }

  /** One clock edge: every register reads the old state. */
  function Next(f: Fabric, s: Sys, i: Inputs): (n: Sys)
    requires s.Shaped() && i.Shaped()
    ensures n.Shaped()
  {
    Sys(NextCtl(f, s, i), EngineNext(f, s.engine, s.c.cm, i.eng, Judge(f, s, i).severe),
        Clock(f.h, s.guard, AskGuard(f, s.c, i)), StoreNext(f, s, i))
  }
}
