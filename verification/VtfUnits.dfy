/**
 * The clocked units as objects: registers in fields, one `Step` per clock edge
 * in which every assignment reads the registers as they were before it.
 */
module VtfUnits {
  import opened Words
  import opened VtfTypes
  import opened VtfGuard
  import opened VtfSystem
  import opened VtfBridge

  /** The policy guard's registers. */
  class GuardUnit {
    const hardened: bool
    var lockdown: bool
    var lockdownN: bool
    const lastSeq: array<Word>
    const seqPar: array<bool>

    ghost predicate Valid() reads this {
      lastSeq.Length == REQUESTERS && seqPar.Length == REQUESTERS && (lastSeq as object) != seqPar
    }

    function State(): (g: Guard)
      requires Valid()
      reads this, lastSeq, seqPar
      ensures g.Shaped()
    {
      Guard(lockdown, lockdownN, lastSeq[..], seqPar[..])
    }

    constructor (hardened: bool)
      ensures Valid() && fresh(lastSeq) && fresh(seqPar) && this.hardened == hardened
      ensures State() == Guard(false, true, seq(REQUESTERS, _ => 0), seq(REQUESTERS, _ => false))
    {
      this.hardened := hardened;
      lockdown, lockdownN := false, true;
      lastSeq := new Word[REQUESTERS](_ => 0);
      seqPar := new bool[REQUESTERS](_ => false);
      new;
      assert lastSeq[..] == seq(REQUESTERS, _ => 0);
      assert seqPar[..] == seq(REQUESTERS, _ => false);
    }

    /** One clock edge: latch a lockdown, use up an accepted sequence number. */
    method Step(q: Question) returns (v: Verdict)
      requires Valid() && q.layer < |q.roles|
      modifies this, lastSeq, seqPar
      ensures Valid() && v == Decide(hardened, old(State()), q)
      ensures State() == Clock(hardened, old(State()), q)
    {
      hide PolicyAllows;
      hide Parity;
      v := Decide(hardened, State(), q);
      if v.severe {
        lockdown, lockdownN := true, false;
      }
      if q.valid && v.consume && q.requester < REQUESTERS {
        lastSeq[q.requester] := q.seqNo;
        seqPar[q.requester] := Parity(q.seqNo);
        assert lastSeq[..] == old(lastSeq[..])[q.requester := q.seqNo];
        assert seqPar[..] == old(seqPar[..])[q.requester := Parity(q.seqNo)];
      }
    }
  }

  /** The CPU bridge with its tag engine. */
  class BridgeUnit {
    const f: Fabric
    var state: BState
    var seqFetch: Word
    var seqData: Word
    var q: Request
    var cm: Command
    var rsp: Received
    var cpu: CpuOut
    var tamper: bool
    var engine: Engine

    function State(): Bridge reads this {
      Bridge(state, Counters(seqFetch, seqData), q, cm, rsp, cpu, tamper)
    }

    /** The registers after reset; the tag engine is idle. */
    constructor (f: Fabric)
      ensures this.f == f && State().state == B_IDLE && State().seqs == Counters(0, 0)
      ensures !cm.start && !engine.busy && !engine.done && !tamper && !cpu.valid
    {
      this.f := f;
      state, seqFetch, seqData, tamper := B_IDLE, 0, 0, false;
      q := Request(0, false, 0, 0, 0, 0, 0, 0, ZERO);
      var zero := Msg(0, 0, 0, 0, 0, 0, 0, 0, 0, 0, 0, 0);
      cm := Command(false, ZERO, zero);
      rsp := Received(zero, ZERO, 0, 0);
      cpu := CpuOut(false, false, 0);
      engine := Engine(false, ZERO, zero, false, ZERO);
    }

    method Issue(i: BridgeIn)
      modifies this
      ensures State() == IssueStep(f, old(State()), i) && engine == old(engine)
    {
      hide NewRequest;
      hide ReqMsg;
      var requester := if i.fetch then REQ_FETCH else REQ_DATA;
      var seqNo := (if i.fetch then seqFetch else seqData) + 1;
      if i.fetch { seqFetch := seqNo; } else { seqData := seqNo; }
      q := NewRequest(i, seqNo, q.tag);
      cm := Command(true, (f.reqKey)(requester, i.activeEpoch), ReqMsg(q));
      state := B_SIGN;
    }

    method Check()
      modifies this
      ensures State() == VerifyStep(old(State()), old(engine)) && engine == old(engine)
    {
      hide FieldsMatch;
      var right := engine.tag == rsp.tag;
      var matches := FieldsMatch(q, rsp);
      cpu := CpuOut(true, right && matches && rsp.status == 1, if right && matches then rsp.data else 0);
      tamper := tamper || !right;
      state := B_DONE;
    }

    /** One clock edge. */
    method Step(i: BridgeIn)
      modifies this
      ensures State() == BridgeNext(f, old(State()), old(engine), i)
      ensures engine == BridgeEngine(f, old(State()), old(engine), i)
    {
      hide ReqMsg;
      hide FieldsMatch;
      hide NewRequest;
      hide NextSeq;
      hide EngineNext;
      ghost var b, e := State(), engine;
      var next := EngineNext(f, engine, cm, i.eng, false);
      var issues := Issues(State(), engine, i);
      cm := cm.(start := false);
      cpu := cpu.(valid := false);
      assert State() == Quiesce(b);
      match state {
      case B_IDLE => if issues { Issue(i); }
      case B_SIGN => if engine.done { q := q.(tag := engine.tag); state := B_SEND; }
      case B_SEND => if i.reqReady { state := B_WAIT; }
      case B_WAIT =>
        if i.rspValid {
          rsp := i.rsp;
          cm := Command(true, (f.rspKey)(i.activeEpoch), i.rsp.msg);
          state := B_VERIFY;
        }
      case B_VERIFY => if engine.done { Check(); }
      case B_DONE => state := B_IDLE;
      }
      assert State() == BridgeNext(f, b, e, i);
      engine := next;
    }
  }

  /** The integrated fabric. */
  class FabricUnit {
    const f: Fabric
    var fsm: Fsm
    var cm: Command
    var r: Request
    var check: Check
    var ans: Answer
    var alarm: bool
    var out: Response
    var engine: Engine
    const guard: GuardUnit
    const mem: array<Word>
    var ramQ: Word
    var ready: bool
    var denied: bool

    ghost predicate Valid()
      reads this, guard
    {
      guard.Valid() && guard.hardened == f.h && mem.Length == LAYERS * LAYER_WORDS && guard.lastSeq != mem
    }

    function Ctl(): VtfSystem.Ctl reads this {
      VtfSystem.Ctl.Ctl(fsm, cm, r, check, ans, alarm, out)
    }

    function State(): (s: Sys)
      requires Valid()
      reads this, guard, guard.lastSeq, guard.seqPar, mem
      ensures s.Shaped()
    {
      Sys(Ctl(), engine, guard.State(), Store(mem[..], ramQ, ready, denied))
    }

    /** Registers after reset. The memory itself is not reset. */
    constructor (f: Fabric)
      ensures Valid() && this.f == f && fresh(mem) && fresh(guard) && fresh(guard.lastSeq) && fresh(guard.seqPar)
      ensures fsm == Rails(S_IDLE) && ans == Answer(0, 0, 0, false) && !alarm && !cm.start && !out.valid
      ensures !engine.busy && !engine.done && !guard.lockdown && guard.lockdownN
      ensures guard.lastSeq[..] == seq(REQUESTERS, _ => 0) && guard.seqPar[..] == seq(REQUESTERS, _ => false)
    {
      this.f := f;
      fsm, ans, alarm := Rails(S_IDLE), Answer(0, 0, 0, false), false;
      var zero := Msg(0, 0, 0, 0, 0, 0, 0, 0, 0, 0, 0, 0);
      cm := Command(false, ZERO, zero);
      r := Request(0, false, 0, 0, 0, 0, 0, 0, ZERO);
      check := Check(false, false, AUTH_FAIL, ZERO);
      out := Response(false, 0, 0, zero, ZERO, 0);
      engine := Engine(false, ZERO, zero, false, ZERO);
      ramQ, ready, denied := 0, false, false;
      guard := new GuardUnit(f.h);
      mem := new Word[LAYERS * LAYER_WORDS];
      new;
      var g := guard.State();
    }

    method Refuse()
      modifies this`fsm, this`ans, this`alarm
      ensures Ctl() == Trip(old(Ctl()))
    {
      alarm, ans, fsm := true, Refusal(DENY_FAULT), Rails(S_SIGN);
    }

    method Accept(i: Inputs, locked: bool)
      modifies this`fsm, this`cm, this`r, this`check, this`ans
      ensures Ctl() == AcceptRequest(f, old(Ctl()), i, locked)
    {
      hide ReqMsg;
      hide RequestKey;
      r := i.req;
      check := check.(ok := false, addrOk := i.req.addr < LAYER_WORDS, code := AUTH_FAIL);
      ans := Answer(0, 0, 0, false);
      if i.keysReady && !locked {
        cm := Command(true, RequestKey(f, i.req, i.activeEpoch), ReqMsg(i.req));
        fsm := Rails(S_AUTH);
      } else {
        fsm := Rails(S_GUARD);
      }
    }

    method Authenticate(severe: bool)
      requires fsm.state == S_AUTH || fsm.state == S_AUTH2
      modifies this`fsm, this`cm, this`check, this`alarm
      ensures old(fsm.state) == S_AUTH ==> Ctl() == AuthControl(f, old(Ctl()), engine, severe)
      ensures old(fsm.state) == S_AUTH2 ==> Ctl() == Auth2Control(old(Ctl()), engine, severe)
    {
      if !engine.done {
        if severe { fsm := Rails(S_GUARD); }
      } else if fsm.state == S_AUTH {
        check := check.(ok := TagMatches(engine, r));
        if f.h {
          check := check.(tag1 := engine.tag);
          cm := cm.(start := true);
          fsm := Rails(S_AUTH2);
        } else {
          fsm := Rails(S_GUARD);
        }
      } else {
        if engine.tag != check.tag1 {
          alarm := true;
          check := check.(ok := false, code := AUTH_FAIL);
        } else {
          var ok := TagMatches(engine, r);
          check := check.(ok := ok, code := if ok then AUTH_PASS else AUTH_FAIL);
        }
        fsm := Rails(S_GUARD);
      }
    }

    method Decided(v: Verdict)
      modifies this`fsm, this`ans, this`alarm
      ensures Ctl() == GuardControl(f, old(Ctl()), v)
    {
      hide CodeFault;
      hide AddrOk;
      hide Parity8;
      if CodeFault(f, Ctl()) {
        Refuse();
      } else {
        var inRange := AddrOk(f, Ctl());
        ans := Refusal(if v.allow && !inRange then DENY_POLICY else v.reason);
        fsm := Rails(if v.allow && inRange then S_MEM else S_SIGN);
      }
    }

    method Answered()
      requires Valid()
      modifies this`fsm, this`ans, this`alarm
      ensures Ctl() == MemControl(f, old(Ctl()), Store(mem[..], ramQ, ready, denied))
    {
      hide FieldsOk;
      hide RespParity;
      if ready {
        if f.h && !FieldsOk(Ctl()) {
          Refuse();
        } else {
          var status: bv8 := if denied then 0 else 1;
          var data := if denied then 0 else if r.write then r.data else ramQ;
          ans := Answer(status, data, ans.reason, RespParity(status, data, ans.reason));
          fsm := Rails(S_SIGN);
        }
      }
    }

    method Sign(i: Inputs, busy: bool, locked: bool)
      modifies this`fsm, this`cm, this`ans, this`alarm, this`out
      ensures Ctl() == SignControl(f, old(Ctl()), i, busy, locked)
    {
      hide RespParFault;
      hide RspMsg;
      if RespParFault(f, Ctl()) {
        Refuse();
      } else if i.keysReady && !locked {
        if !busy {
          cm := Command(true, (f.rspKey)(i.activeEpoch), Reply(Ctl()));
          fsm := Rails(S_RESP);
        }
      } else {
        out := Response(true, ans.status, ans.data, Reply(Ctl()), ZERO, ans.reason);
        fsm := Rails(S_IDLE);
      }
    }

    method Respond(severe: bool)
      modifies this`fsm, this`ans, this`alarm, this`out
      ensures Ctl() == RespControl(f, old(Ctl()), engine, severe)
    {
      hide RspMsg;
      if engine.done && f.h && cm.msg != Reply(Ctl()) {
        Refuse();
      } else if engine.done {
        out := Response(true, cm.msg.status, cm.msg.data, cm.msg, engine.tag, ans.reason);
        fsm := Rails(S_IDLE);
      } else if severe {
        fsm := Rails(S_SIGN);
      }
    }

    /** The control registers in one clock edge. */
    method Control(ghost s: Sys, i: Inputs, v: Verdict, accepts: bool, locked: bool)
      requires Valid() && i.Shaped() && s == State()
      requires v == Judge(f, s, i) && accepts == Accepts(f, s, i) && locked == LockdownOut(f, s, i)
      modifies this`fsm, this`cm, this`r, this`check, this`ans, this`alarm, this`out
      ensures Ctl() == NextCtl(f, s, i)
    {
      hide Judge;
      hide Accepts;
      hide LockdownOut;
      hide AcceptRequest;
      hide AuthControl;
      hide Auth2Control;
      hide GuardControl;
      hide MemControl;
      hide SignControl;
      hide RespControl;
      hide Trip;
      var fault := f.h && !fsm.RailsAgree();
      var busy := engine.busy || i.eng.residue;
      cm := cm.(start := false);
      out := out.(valid := false);
      if fsm.state == S_IDLE { if accepts { Accept(i, locked); } }
      else if fsm.state == S_AUTH || fsm.state == S_AUTH2 { Authenticate(v.severe); }
      else if fsm.state == S_GUARD { Decided(v); }
      else if fsm.state == S_MEM { Answered(); }
      else if fsm.state == S_SIGN { Sign(i, busy, locked); }
      else if fsm.state == S_RESP { Respond(v.severe); }
      else { fsm := Rails(S_IDLE); }
      if fault { Refuse(); }
    }

    /** The memory port: a granted access reads or writes one word. */
    method Access(r: Request, go: bool, granted: bool)
      requires Valid()
      modifies mem, this`ramQ, this`ready, this`denied
      ensures mem[..] == if go && r.write then old(mem[..])[MemIndex(r) := r.data] else old(mem[..])
      ensures ramQ == if go && !r.write then old(mem[..])[MemIndex(r)] else old(ramQ)
      ensures ready == granted && denied == (granted && !go)
    {
      var k := MemIndex(r);
      hide MemIndex;
      if go && r.write { mem[k] := r.data; }
      if go && !r.write { ramQ := mem[k]; }
      ready, denied := granted, granted && !go;
    }

    /** One clock edge: control, tag engine, guard and memory, all from the old registers. */
    method Step(i: Inputs)
      requires Valid() && i.Shaped()
      modifies this, mem, guard, guard.lastSeq, guard.seqPar
      ensures Valid() && State() == Next(f, old(State()), i)
    {
      hide NextCtl;
      hide EngineNext;
      hide Judge;
      hide AskGuard;
      hide Clock;
      hide Decide;
      hide MemIndex;
      hide LockdownOut;
      hide Accepts;
      var s := State();
      var granted, go, q, v := Accesses(f, s, i), Executes(f, s, i), AskGuard(f, s.c, i), Judge(f, s, i);
      var e := EngineNext(f, engine, cm, i.eng, v.severe);
      AskedLayer(f, s.c, i);
      Control(s, i, v, Accepts(f, s, i), LockdownOut(f, s, i));
      Access(s.c.r, go, granted);
      var _ := guard.Step(q);
      engine := e;
    }
  }

  lemma AskedLayer(f: Fabric, c: VtfSystem.Ctl, i: Inputs)
    requires i.Shaped()
    ensures var q := AskGuard(f, c, i); q.layer < |q.roles|
  {
  }
}
