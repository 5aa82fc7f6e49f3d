/**
 * Progress: with its keys up and no alarm, the system on chip answers every access
 * it accepts, in exactly so many clocks of its real tag engines, and with success
 * if and only if the policy allows it.
 */
module VtfProgress {
  import opened Words
  import Aes
  import C = CmacRtl
  import opened VtfTypes
  import opened VtfGuard
  import opened VtfSystem
  import opened VtfInvariant
  import opened VtfBridge
  import opened VtfWired
  import opened VtfEngine
  import opened VtfServing

  // --------------------------------------------------------------------- the engines

  /** The unit shows the ports of the engine, and is at rest or `n` clocks from its tag. */
  ghost predicate Paced(e: Engine, u: C.Unit, n: nat) {
    && C.Sane(u) && e.busy == (u.fsm != C.S_IDLE) && e.done == u.done
    && (if e.busy then !e.done && n <= 24 && exists j: C.Job :: C.Working(u, j, n) else C.Settled(u) && !u.core.busy)
  }

  /** The clocks to the tag one clock on. */
  function Sooner(e: Engine, n: nat): nat { if !e.busy then 24 else if n > 0 then n - 1 else 0 }

  /** What the engine becomes in a clock. */
  predicate Ticks(f: Fabric, e: Engine, cm: Command, n: nat, t: Engine) {
    if e.busy then
      && n > 0 && t.busy == (n > 1) && t.done == (n == 1) && t.key == e.key && t.msg == e.msg
      && (n == 1 ==> t.tag == (f.cmac)(e.key, e.msg))
    else if cm.start then t.busy && !t.done && t.key == cm.key && t.msg == cm.msg
    else t == e.(done := false)
  }

  lemma UnitTicks(u: C.Unit, i: C.In, n: nat, j: C.Job)
    requires C.Sane(u) && C.Working(u, j, n) && !i.clear && n <= 24
    ensures n > 0 && (C.Next(u, i).done <==> n == 1) && (C.Next(u, i).fsm == C.S_IDLE <==> n == 1) && C.Sane(C.Next(u, i))
    ensures if n == 1 then C.Settled(C.Next(u, i)) && !C.Next(u, i).core.busy else C.Working(C.Next(u, i), j, n - 1)
  {
    hide C.Working;
    hide C.Next;
    hide C.Sane;
    C.SaneStep(u, i);
    C.WorkStep(u, j, n, i);
    WorkingIsBusy(u, j, n);
    if n > 1 { WorkingIsBusy(C.Next(u, i), j, n - 1); }
  }

  lemma WorkingIsBusy(u: C.Unit, j: C.Job, n: nat)
    requires C.Working(u, j, n)
    ensures u.fsm != C.S_IDLE && n > 0
  {
    hide Aes.Encrypt;
    hide C.CoreWill;
  }

  lemma UnitRests(u: C.Unit, i: C.In)
    requires C.Sane(u) && u.fsm == C.S_IDLE && C.Settled(u) && !u.core.busy && !i.start && !i.clear
    ensures var t := C.Next(u, i); C.Sane(t) && t.fsm == C.S_IDLE && C.Settled(t) && !t.core.busy && !t.done
  {
  }

  lemma UnitStarts(u: C.Unit, i: C.In)
    requires C.Sane(u) && u.fsm == C.S_IDLE && C.Settled(u) && !u.core.busy && i.start && !i.clear && i.k1Valid
    ensures var t := C.Next(u, i); C.Sane(t) && t.fsm != C.S_IDLE && !t.done && exists j: C.Job :: C.Working(t, j, 24)
  {
    hide Aes.Encrypt;
    hide C.Working;
    hide C.Sane;
    hide C.Next;
    C.SaneStep(u, i);
    C.AcceptWorks(u, i);
    WorkingIsBusy(C.Next(u, i), C.JobOf(u, i), 24);
  }

  /** Left to its work, the engine keeps the unit's pace. */
  lemma PacedStep(f: Fabric, sub: Subkeys, e: Engine, cm: Command, u: C.Unit, n: nat)
    requires Paced(e, u, n)
    ensures var t := EngineNext(f, e, cm, Timing(sub, u, cm, false), false);
      Ticks(f, e, cm, n, t) && Paced(t, C.Next(u, Ask(sub, cm, false)), Sooner(e, n))
    ensures !Timing(sub, u, cm, false).residue
  {
    hide C.Sane;
    hide C.Working;
    hide C.Next;
    hide Head;
    hide Tail;
    hide C.Subkey;
    var i := Ask(sub, cm, false);
    if e.busy {
      var j: C.Job :| C.Working(u, j, n);
      UnitTicks(u, i, n, j);
    } else if cm.start {
      UnitStarts(u, i);
    } else {
      UnitRests(u, i);
    }
  }

  // ------------------------------------------------------------- on the real engines

  /** The system on chip with the CMAC units its two tag engines are. */
  datatype Rack = Rack(w: Soc, fu: C.Unit, bu: C.Unit)

  predicate Racked(r: Rack) { r.w.s.Shaped() && |r.w.g.last| == REQUESTERS }

  /** A severe event clears the fabric's unit. */
  predicate Clears(f: Fabric, r: Rack, x: SocIn)
    requires Racked(r) && x.fabric.Shaped()
  {
    Judge(f, r.w.s, FabricIn(r.w, x)).severe
  }

  /** The inputs, with the engines' progress read off the units. */
  function Driven(f: Fabric, sub: Subkeys, r: Rack, x: SocIn): (y: SocIn)
    requires Racked(r) && x.fabric.Shaped()
    ensures y.fabric.Shaped()
  {
    x.(fabric := x.fabric.(eng := Timing(sub, r.fu, r.w.s.c.cm, Clears(f, r, x))),
       bridge := x.bridge.(eng := Timing(sub, r.bu, r.w.b.cm, false)))
  }

  function RackNext(f: Fabric, sub: Subkeys, r: Rack, x: SocIn): (t: Rack)
    requires Racked(r) && x.fabric.Shaped()
    ensures Racked(t)
  {
    Rack(SocNext(f, r.w, Driven(f, sub, r, x)), C.Next(r.fu, Ask(sub, r.w.s.c.cm, Clears(f, r, x))),
         C.Next(r.bu, Ask(sub, r.w.b.cm, false)))
  }

  /** Both engines keep their units' pace, `n` and `m` clocks from their tags. */
  ghost predicate AllPaced(r: Rack, n: nat, m: nat) { Paced(r.w.s.engine, r.fu, n) && Paced(r.w.e, r.bu, m) }

  lemma EnginesTick(f: Fabric, sub: Subkeys, v: Policy, r: Rack, n: nat, m: nat, x: SocIn)
    requires Racked(r) && AllPaced(r, n, m) && Outside(v, x) && !Clears(f, r, x)
    ensures Still(v, Driven(f, sub, r, x))
    ensures var t, w := RackNext(f, sub, r, x), r.w;
      && t.w == SocNext(f, w, Driven(f, sub, r, x)) && AllPaced(t, Sooner(w.s.engine, n), Sooner(w.e, m))
      && Ticks(f, w.s.engine, w.s.c.cm, n, t.w.s.engine) && Ticks(f, w.e, w.b.cm, m, t.w.e)
  {
    var y := Driven(f, sub, r, x);
    PacedStep(f, sub, r.w.s.engine, r.w.s.c.cm, r.fu, n);
    PacedStep(f, sub, r.w.e, r.w.b.cm, r.bu, m);
    BothMove(f, r.w, y);
    SameVerdict(f, r, x, y.fabric.eng);
    hide Paced;
    hide Timing;
    hide Judge;
    hide C.Next;
    hide EngineNext;
    hide SocNext;
    hide GhostNext;
    hide BridgeNext;
    hide NextCtl;
    hide StoreNext;
    hide Clock;
    hide ReqReady;
    hide Ticks;
    hide Ask;
  }

  /** The verdict does not depend on the engine's progress. */
  lemma SameVerdict(f: Fabric, r: Rack, x: SocIn, eng: EngineIn)
    requires Racked(r) && x.fabric.Shaped()
    ensures forall bridge :: Judge(f, r.w.s, FabricIn(r.w, SocIn(x.fabric.(eng := eng), bridge))).severe == Clears(f, r, x)
  {
    hide Decide;
  }

  predicate Awaiting(cm: Command, e: Engine) { cm.start || e.busy || e.done }

  /** A job is being served, and what is waited for is under way. */
  ghost predicate Running(f: Fabric, v: Policy, j: Job, r: Rack, n: nat, m: nat) {
    && Racked(r) && Serving(f, v, j, r.w) && AllPaced(r, n, m)
    && (r.w.b.state == B_SIGN || r.w.b.state == B_VERIFY ==> Awaiting(r.w.b.cm, r.w.e))
    && (r.w.b.state == B_WAIT && Computing(r.w.s.c.fsm.state) ==> Awaiting(r.w.s.c.cm, r.w.s.engine))
  }

  /** The clocks until the engine's tag has been taken. */
  function Wait(cm: Command, e: Engine, n: nat): nat { if cm.start then 26 else if e.done then 1 else n + 1 }

  /** From the guard's clock on: decision, memory if it passes, signing, and verifying. */
  function AfterCheck(v: Policy, q: Request): nat
    requires |v.roles| == LAYERS && q.layer < LAYERS
  {
    if Passes(v, q) then 56 else 55
  }

  /** The clocks of checking the request's tag, twice in hardened fabrics. */
  function Checks(f: Fabric): nat { if f.h then 52 else 26 }

  /** The clocks left until the CPU is told. */
  function ClocksLeft(f: Fabric, v: Policy, q: Request, w: Soc, n: nat, m: nat): nat
    requires |v.roles| == LAYERS && q.layer < LAYERS
  {
    match w.b.state
    case B_IDLE => 0
    case B_SIGN => Wait(w.b.cm, w.e, m) + 1 + Checks(f) + AfterCheck(v, q)
    case B_SEND => 1 + Checks(f) + AfterCheck(v, q)
    case B_WAIT =>
      var t, wait := w.s.c.fsm.state, Wait(w.s.c.cm, w.s.engine, n);
      if t == S_AUTH then wait + Checks(f) - 26 + AfterCheck(v, q)
      else if t == S_AUTH2 then wait + AfterCheck(v, q)
      else if t == S_GUARD then AfterCheck(v, q)
      else if t == S_MEM then 55
      else if t == S_SIGN then 54
      else if t == S_RESP then wait + 27
      else 27
    case B_VERIFY => Wait(w.b.cm, w.e, m)
    case B_DONE => 0
  }

  /** From the clock that accepts an access to the one that tells the CPU. */
  function Latency(f: Fabric, v: Policy, q: Request): nat
    requires |v.roles| == LAYERS && q.layer < LAYERS
  {
    28 + Checks(f) + AfterCheck(v, q)
  }

  /** One clock nearer to the tag. */
  lemma WaitShrinks(f: Fabric, e: Engine, cm: Command, n: nat, t: Engine, next: Command)
    requires Ticks(f, e, cm, n, t) && Awaiting(cm, e) && !e.done && !next.start && (cm.start ==> !e.busy)
    ensures Awaiting(next, t) && Wait(next, t, Sooner(e, n)) == Wait(cm, e, n) - 1 && Wait(cm, e, n) > 1
  {
  }

  lemma NoClear(f: Fabric, v: Policy, j: Job, r: Rack, x: SocIn)
    requires Racked(r) && Serving(f, v, j, r.w) && Outside(v, x)
    ensures !Clears(f, r, x)
  {
    var w, i := r.w, FabricIn(r.w, x);
    ServingShape(f, v, j, w);
    ServingFabric(f, v, j, w);
    if w.s.c.fsm.state == S_GUARD { GuardPasses(f, v, j, w.s, w.g, i); } else { CalmJudge(f, v, w.s, w.g, i); }
    hide Judge;
    hide Serving;
    hide Healthy;
    hide AtWork;
  }

  lemma ServingFabric(f: Fabric, v: Policy, j: Job, w: Soc)
    requires Serving(f, v, j, w)
    ensures w.s.c.fsm.state != S_IDLE ==> w.b.state == B_WAIT && AtWork(f, v, j, w.s, w.g)
    ensures |v.roles| == LAYERS && j.ask.layer < LAYERS
  {
    hide Healthy;
    hide BridgeInv;
    hide Granted;
    hide InStep;
    hide Owing;
    hide Holds;
    hide AtWork;
  }

  /** What one clock of a job does. */
  ghost predicate Nearer(f: Fabric, v: Policy, j: Job, r: Rack, n: nat, m: nat, t: Rack) {
    && Racked(r) && |v.roles| == LAYERS && j.ask.layer < LAYERS
    && Running(f, v, j, t, Sooner(r.w.s.engine, n), Sooner(r.w.e, m))
    && ClocksLeft(f, v, j.ask, r.w, n, m) > 0
    && ClocksLeft(f, v, j.ask, t.w, Sooner(r.w.s.engine, n), Sooner(r.w.e, m)) == ClocksLeft(f, v, j.ask, r.w, n, m) - 1
  }

  /** A start finds its engine idle. */
  lemma StartsFindIdle(f: Fabric, v: Policy, j: Job, w: Soc)
    requires Serving(f, v, j, w)
    ensures w.s.c.cm.start ==> !w.s.engine.busy && !w.s.engine.done
    ensures w.b.cm.start ==> !w.e.busy && !w.e.done
  {
    ServingShape(f, v, j, w);
    HealthyShape(f, w.s, w.g);
    hide Serving;
    hide Intact;
    hide Healthy;
    hide Core;
  }

  lemma OutsideShaped(v: Policy, x: SocIn)
    requires Outside(v, x)
    ensures x.fabric.Shaped() && |v.roles| == LAYERS
  {
  }

  /** The count while the bridge's engine works. */
  lemma BridgeCounts(f: Fabric, v: Policy, q: Request, w: Soc, n: nat, m: nat, t: Soc, k: nat, l: nat)
    requires |v.roles| == LAYERS && q.layer < LAYERS && (w.b.state == B_SIGN || w.b.state == B_VERIFY)
    requires if w.e.done then Wait(w.b.cm, w.e, m) == 1 && t.b.state == (if w.b.state == B_SIGN then B_SEND else B_DONE)
             else t.b.state == w.b.state && Wait(t.b.cm, t.e, l) == Wait(w.b.cm, w.e, m) - 1
    ensures ClocksLeft(f, v, q, w, n, m) > 0 && ClocksLeft(f, v, q, t, k, l) == ClocksLeft(f, v, q, w, n, m) - 1
  {
    hide Wait;
    hide Passes;
  }

  /** The count while the fabric works. */
  lemma FabricCounts(f: Fabric, v: Policy, j: Job, w: Soc, n: nat, m: nat, t: Soc, k: nat, l: nat)
    requires |v.roles| == LAYERS && j.ask.layer < LAYERS && Moves(f, v, j, w.s, t.s)
    requires w.b.state == t.b.state == B_WAIT && 1 <= w.s.c.fsm.state <= S_RESP
    requires Computing(w.s.c.fsm.state) ==>
      if w.s.engine.done then Wait(w.s.c.cm, w.s.engine, n) == 1
      else Wait(t.s.c.cm, t.s.engine, k) == Wait(w.s.c.cm, w.s.engine, n) - 1
    requires t.s.c.cm.start ==> Wait(t.s.c.cm, t.s.engine, k) == 26
    requires Computing(w.s.c.fsm.state) && !w.s.engine.done ==> Wait(w.s.c.cm, w.s.engine, n) > 1
    ensures ClocksLeft(f, v, j.ask, w, n, m) > 0
    ensures ClocksLeft(f, v, j.ask, t, k, l) == ClocksLeft(f, v, j.ask, w, n, m) - 1
  {
    hide Wait;
    hide Passes;
  }

  /** Where a start has just been given, or the engine has gone on, there is something to wait for. */
  lemma FabricAwaits(f: Fabric, v: Policy, j: Job, w: Soc, t: Soc)
    requires |v.roles| == LAYERS && j.ask.layer < LAYERS && Moves(f, v, j, w.s, t.s) && 1 <= w.s.c.fsm.state <= S_RESP
    requires Computing(w.s.c.fsm.state) && !w.s.engine.done ==> Awaiting(t.s.c.cm, t.s.engine)
    ensures Computing(t.s.c.fsm.state) ==> Awaiting(t.s.c.cm, t.s.engine)
  {
    hide Passes;
  }

  lemma StillRunning(f: Fabric, v: Policy, j: Job, r: Rack, n: nat, m: nat, t: Rack)
    requires Racked(r) && |v.roles| == LAYERS && j.ask.layer < LAYERS
    requires var k, l := Sooner(r.w.s.engine, n), Sooner(r.w.e, m);
      && Racked(t) && Serving(f, v, j, t.w) && AllPaced(t, k, l)
      && ClocksLeft(f, v, j.ask, r.w, n, m) > 0
      && ClocksLeft(f, v, j.ask, t.w, k, l) == ClocksLeft(f, v, j.ask, r.w, n, m) - 1
    requires t.w.b.state == B_SIGN || t.w.b.state == B_VERIFY ==> Awaiting(t.w.b.cm, t.w.e)
    requires t.w.b.state == B_WAIT && Computing(t.w.s.c.fsm.state) ==> Awaiting(t.w.s.c.cm, t.w.s.engine)
    ensures Nearer(f, v, j, r, n, m, t)
  {
    hide Serving;
    hide AllPaced;
    hide ClocksLeft;
    hide Awaiting;
    hide Sooner;
  }

  lemma Collected(cm: Command, e: Engine, n: nat)
    requires e.done && !cm.start
    ensures Wait(cm, e, n) == 1
  {
  }

  lemma JustStarted(cm: Command, e: Engine, n: nat)
    requires cm.start
    ensures Wait(cm, e, n) == 26 && Awaiting(cm, e)
  {
  }

  /** The bridge signs or verifies. */
  lemma BridgeClock(f: Fabric, sub: Subkeys, v: Policy, j: Job, r: Rack, n: nat, m: nat, x: SocIn)
    requires Running(f, v, j, r, n, m) && Outside(v, x) && (r.w.b.state == B_SIGN || r.w.b.state == B_VERIFY)
    ensures Racked(r) && Nearer(f, v, j, r, n, m, RackNext(f, sub, r, x))
  {
    hide Serving;
    hide AllPaced;
    hide Ticks;
    hide RackNext;
    hide Driven;
    hide Clears;
    hide Outside;
    hide Passes;
    hide ClocksLeft;
    hide Awaiting;
    hide Wait;
    hide Still;
    hide AtWork;
    hide Moves;
    hide Computing;
    OutsideShaped(v, x);
    var w, y, t := r.w, Driven(f, sub, r, x), RackNext(f, sub, r, x);
    NoClear(f, v, j, r, x);
    EnginesTick(f, sub, v, r, n, m, x);
    StartsFindIdle(f, v, j, w);
    ServingFabric(f, v, j, w);
    var k, l := Sooner(w.s.engine, n), Sooner(w.e, m);
    hide Sooner;
    if w.e.done {
      Collected(w.b.cm, w.e, m);
      if w.b.state == B_SIGN { RequestSigned(f, v, j, w, y); } else { AnswerVerified(f, v, j, w, y); }
    } else {
      BridgeComputes(f, v, j, w, y);
      WaitShrinks(f, w.e, w.b.cm, m, t.w.e, t.w.b.cm);
    }
    BridgeCounts(f, v, j.ask, w, n, m, t.w, k, l);
    hide Running;
    hide Nearer;
    StillRunning(f, v, j, r, n, m, t);
  }

  /** The request goes over, or the answer comes back. */
  lemma WireClock(f: Fabric, sub: Subkeys, v: Policy, j: Job, r: Rack, n: nat, m: nat, x: SocIn)
    requires Running(f, v, j, r, n, m) && Outside(v, x)
    requires r.w.b.state == B_SEND || (r.w.b.state == B_WAIT && r.w.s.c.fsm.state == S_IDLE)
    ensures Racked(r) && Nearer(f, v, j, r, n, m, RackNext(f, sub, r, x))
  {
    hide Serving;
    hide AllPaced;
    hide Ticks;
    hide RackNext;
    hide Driven;
    hide Clears;
    hide Outside;
    hide Passes;
    hide Awaiting;
    hide Wait;
    hide Still;
    hide AtWork;
    hide Moves;
    hide Computing;
    OutsideShaped(v, x);
    var w, y, t := r.w, Driven(f, sub, r, x), RackNext(f, sub, r, x);
    NoClear(f, v, j, r, x);
    EnginesTick(f, sub, v, r, n, m, x);
    ServingFabric(f, v, j, w);
    var k, l := Sooner(w.s.engine, n), Sooner(w.e, m);
    hide Sooner;
    if w.b.state == B_SEND {
      RequestTaken(f, v, j, w, y);
      JustStarted(t.w.s.c.cm, t.w.s.engine, k);
    } else {
      AnswerReceived(f, v, j, w, y);
      JustStarted(t.w.b.cm, t.w.e, l);
    }
    hide Running;
    hide Nearer;
    StillRunning(f, v, j, r, n, m, t);
  }

  /** The fabric works. */
  lemma FabricClock(f: Fabric, sub: Subkeys, v: Policy, j: Job, r: Rack, n: nat, m: nat, x: SocIn)
    requires Running(f, v, j, r, n, m) && Outside(v, x) && r.w.b.state == B_WAIT && r.w.s.c.fsm.state != S_IDLE
    ensures Racked(r) && Nearer(f, v, j, r, n, m, RackNext(f, sub, r, x))
  {
    hide Serving;
    hide AllPaced;
    hide Ticks;
    hide RackNext;
    hide Driven;
    hide Clears;
    hide Outside;
    hide Passes;
    hide ClocksLeft;
    hide Awaiting;
    hide Wait;
    hide Still;
    hide AtWork;
    OutsideShaped(v, x);
    var w, y, t := r.w, Driven(f, sub, r, x), RackNext(f, sub, r, x);
    NoClear(f, v, j, r, x);
    EnginesTick(f, sub, v, r, n, m, x);
    StartsFindIdle(f, v, j, w);
    ServingFabric(f, v, j, w);
    WorkState(f, v, j, w.s, w.g);
    FabricStep(f, v, j, w, y);
    var k, l := Sooner(w.s.engine, n), Sooner(w.e, m);
    hide Sooner;
    if Computing(w.s.c.fsm.state) {
      if w.s.engine.done { Collected(w.s.c.cm, w.s.engine, n); }
      else { WaitShrinks(f, w.s.engine, w.s.c.cm, n, t.w.s.engine, t.w.s.c.cm); }
    }
    if t.w.s.c.cm.start { JustStarted(t.w.s.c.cm, t.w.s.engine, k); }
    hide Moves;
    FabricCounts(f, v, j, w, n, m, t.w, k, l);
    FabricAwaits(f, v, j, w, t.w);
    hide Running;
    hide Nearer;
    StillRunning(f, v, j, r, n, m, t);
  }

  /** Every clock brings the answer one clock nearer. */
  lemma JobClock(f: Fabric, sub: Subkeys, v: Policy, j: Job, r: Rack, n: nat, m: nat, x: SocIn)
    requires Running(f, v, j, r, n, m) && Outside(v, x) && r.w.b.state != B_DONE
    ensures Racked(r) && Nearer(f, v, j, r, n, m, RackNext(f, sub, r, x))
  {
    NeverIdle(f, v, j, r.w);
    hide Running;
    hide Nearer;
    hide Outside;
    if r.w.b.state == B_SIGN || r.w.b.state == B_VERIFY { BridgeClock(f, sub, v, j, r, n, m, x); }
    else if r.w.b.state == B_SEND || r.w.s.c.fsm.state == S_IDLE { WireClock(f, sub, v, j, r, n, m, x); }
    else { FabricClock(f, sub, v, j, r, n, m, x); }
  }

  lemma NeverIdle(f: Fabric, v: Policy, j: Job, w: Soc)
    requires Serving(f, v, j, w)
    ensures w.b.state != B_IDLE
  {
    hide Intact;
    hide JobOk;
  }

  // ------------------------------------------------------------ between two accesses

  lemma EaseShape(f: Fabric, v: Policy, w: Soc)
    requires AtEase(f, v, w)
    ensures Intact(f, v, w) && Healthy(f, w.s, w.g) && w.s.Shaped() && |w.g.last| == REQUESTERS
    ensures w.b.state == B_IDLE && w.s.c.fsm.state == S_IDLE && BridgeInv(f, w.b, w.e, v.epoch)
  {
    hide Healthy;
    hide BridgeInv;
  }

  lemma EaseClears(f: Fabric, v: Policy, r: Rack, x: SocIn)
    requires Racked(r) && AtEase(f, v, r.w) && Outside(v, x)
    ensures !Clears(f, r, x)
  {
    EaseShape(f, v, r.w);
    hide AtEase;
    hide Intact;
    hide Healthy;
    CalmJudge(f, v, r.w.s, r.w.g, FabricIn(r.w, x));
    hide Judge;
  }

  /** The CPU's access is accepted in this clock. */
  predicate Accepted(f: Fabric, sub: Subkeys, r: Rack, x: SocIn)
    requires Racked(r) && x.fabric.Shaped()
  {
    Issues(r.w.b, r.w.e, BridgeSees(f, r.w, Driven(f, sub, r, x)))
  }

  lemma AcceptClock(f: Fabric, sub: Subkeys, v: Policy, r: Rack, n: nat, m: nat, x: SocIn)
    requires Racked(r) && AtEase(f, v, r.w) && AllPaced(r, n, m) && Outside(v, x) && x.fabric.Shaped() && Accepted(f, sub, r, x)
    ensures var t, j := RackNext(f, sub, r, x), JobOf(f, v, r.w, x);
      && JobOk(f, v, j) && |v.roles| == LAYERS && j.ask.layer < LAYERS && j.mem == r.w.s.store.mem
      && Running(f, v, j, t, Sooner(r.w.s.engine, n), Sooner(r.w.e, m))
      && ClocksLeft(f, v, j.ask, t.w, Sooner(r.w.s.engine, n), Sooner(r.w.e, m)) == Latency(f, v, j.ask) - 1
  {
    hide Serving;
    hide AllPaced;
    hide Ticks;
    hide RackNext;
    hide Driven;
    hide Clears;
    hide Outside;
    hide Passes;
    hide Awaiting;
    hide Still;
    hide AtEase;
    hide ReqReady;
    hide Wait;
    hide JobOk;
    hide JobOf;
    var w, y, t := r.w, Driven(f, sub, r, x), RackNext(f, sub, r, x);
    EaseClears(f, v, r, x);
    EnginesTick(f, sub, v, r, n, m, x);
    DrivenIs(f, sub, r, x);
    SameJob(f, v, w, x, y);
    AccessAccepted(f, v, w, y);
    var j := JobOf(f, v, w, y);
    ServingFabric(f, v, j, t.w);
    ServingShape(f, v, j, t.w);
    hide Sooner;
    hide Issues;
    JustStarted(t.w.b.cm, t.w.e, Sooner(w.e, m));
  }

  lemma DrivenIs(f: Fabric, sub: Subkeys, r: Rack, x: SocIn)
    requires Racked(r) && x.fabric.Shaped()
    ensures var y := Driven(f, sub, r, x);
      y == x.(fabric := x.fabric.(eng := y.fabric.eng), bridge := x.bridge.(eng := y.bridge.eng))
  {
    hide Timing;
    hide Clears;
  }

  lemma SameJob(f: Fabric, v: Policy, w: Soc, x: SocIn, y: SocIn)
    requires y == x.(fabric := x.fabric.(eng := y.fabric.eng), bridge := x.bridge.(eng := y.bridge.eng))
    ensures JobOf(f, v, w, y) == JobOf(f, v, w, x) && JobOf(f, v, w, x).mem == w.s.store.mem
  {
    hide Nonce;
    hide ReqMsg;
  }

  /** Without a request everything stays at ease. */
  lemma EaseClock(f: Fabric, sub: Subkeys, v: Policy, r: Rack, n: nat, m: nat, x: SocIn)
    requires Racked(r) && AtEase(f, v, r.w) && AllPaced(r, n, m) && Outside(v, x) && x.fabric.Shaped() && !Accepted(f, sub, r, x)
    ensures var t := RackNext(f, sub, r, x);
      AtEase(f, v, t.w) && AllPaced(t, Sooner(r.w.s.engine, n), Sooner(r.w.e, m)) && t.w.s.store.mem == r.w.s.store.mem
  {
    hide AllPaced;
    hide Ticks;
    hide RackNext;
    hide Driven;
    hide Clears;
    hide Outside;
    hide Still;
    hide Sooner;
    hide ReqReady;
    hide InStep;
    hide Healthy;
    hide BridgeInv;
    hide SocNext;
    hide BridgeNext;
    hide BridgeSees;
    var w, y, t := r.w, Driven(f, sub, r, x), RackNext(f, sub, r, x);
    EaseClears(f, v, r, x);
    EnginesTick(f, sub, v, r, n, m, x);
    EaseShape(f, v, w);
    hide Intact;
    FabricRests(f, v, w, y);
    IdleStays(f, w.b, w.e, BridgeSees(f, w, y));
    hide Issues;
    CountersStay(w, t.w, w.b.q);
  }

  lemma IdleStays(f: Fabric, b: Bridge, e: Engine, i: BridgeIn)
    requires b.state == B_IDLE && !Issues(b, e, i)
    ensures BridgeNext(f, b, e, i) == Quiesce(b) && Quiesce(b).state == B_IDLE && Quiesce(b).seqs == b.seqs
  {
    hide Issues;
  }

  /** The CPU has been told, and all is at ease again. */
  lemma DoneClock(f: Fabric, sub: Subkeys, v: Policy, j: Job, r: Rack, n: nat, m: nat, x: SocIn)
    requires Running(f, v, j, r, n, m) && Outside(v, x) && r.w.b.state == B_DONE && x.fabric.Shaped()
    ensures Racked(r)
    ensures var t := RackNext(f, sub, r, x);
      && AtEase(f, v, t.w) && AllPaced(t, Sooner(r.w.s.engine, n), Sooner(r.w.e, m))
      && JobOk(f, v, j) && t.w.s.store.mem == MemAfter(v, j)
  {
    hide Serving;
    hide AllPaced;
    hide Ticks;
    hide RackNext;
    hide Driven;
    hide Clears;
    hide Outside;
    hide Passes;
    hide Awaiting;
    hide Still;
    hide AtEase;
    hide Sooner;
    hide JobOk;
    hide MemAfter;
    NoClear(f, v, j, r, x);
    EnginesTick(f, sub, v, r, n, m, x);
    ServingShape(f, v, j, r.w);
    hide Intact;
    hide Healthy;
    hide BridgeInv;
    CpuTold(f, v, j, r.w, Driven(f, sub, r, x));
  }

  // ------------------------------------------------------------------------ whole runs

  predicate AllOutside(v: Policy, ins: seq<SocIn>) { forall k :: 0 <= k < |ins| ==> Outside(v, ins[k]) }

  lemma OutsideRest(v: Policy, ins: seq<SocIn>)
    requires AllOutside(v, ins) && ins != []
    ensures Outside(v, ins[0]) && ins[0].fabric.Shaped() && |v.roles| == LAYERS && AllOutside(v, ins[1..])
  {
  }

  function RackAfter(f: Fabric, sub: Subkeys, v: Policy, r: Rack, ins: seq<SocIn>): (t: Rack)
    requires Racked(r) && AllOutside(v, ins)
    ensures Racked(t)
    decreases |ins|
  {
    if ins == [] then r
    else
      OutsideRest(v, ins);
      RackAfter(f, sub, v, RackNext(f, sub, r, ins[0]), ins[1..])
  }

  /** A job under way is done when its clocks have passed, and not before. */
  lemma {:induction false} JobRun(f: Fabric, sub: Subkeys, v: Policy, j: Job, r: Rack, n: nat, m: nat, ins: seq<SocIn>)
    returns (k: nat, l: nat)
    requires Running(f, v, j, r, n, m) && Racked(r) && AllOutside(v, ins) && |v.roles| == LAYERS && j.ask.layer < LAYERS
    requires |ins| <= ClocksLeft(f, v, j.ask, r.w, n, m)
    ensures var t := RackAfter(f, sub, v, r, ins);
      && Running(f, v, j, t, k, l) && ClocksLeft(f, v, j.ask, t.w, k, l) == ClocksLeft(f, v, j.ask, r.w, n, m) - |ins|
    decreases |ins|
  {
    k, l := n, m;
    if ins != [] {
      hide Serving;
      hide AllPaced;
      hide RackNext;
      hide Outside;
      hide AllOutside;
      hide Sooner;
      OutsideRest(v, ins);
      DoneHasNoneLeft(f, v, j, r.w, n, m);
      JobClock(f, sub, v, j, r, n, m, ins[0]);
      hide Running;
      hide ClocksLeft;
      k, l := JobRun(f, sub, v, j, RackNext(f, sub, r, ins[0]), Sooner(r.w.s.engine, n), Sooner(r.w.e, m), ins[1..]);
    }
  }

  lemma DoneHasNoneLeft(f: Fabric, v: Policy, j: Job, w: Soc, n: nat, m: nat)
    requires Serving(f, v, j, w) && |v.roles| == LAYERS && j.ask.layer < LAYERS
    ensures ClocksLeft(f, v, j.ask, w, n, m) == 0 <==> w.b.state == B_DONE
  {
    NeverIdle(f, v, j, w);
    hide Serving;
    hide Passes;
  }

  /** The CPU has been told, truly, and told nothing before. */
  ghost predicate ToldInTime(f: Fabric, v: Policy, j: Job, t: Rack, clocks: nat)
    requires JobOk(f, v, j)
  {
    && (t.w.b.cpu.valid <==> clocks == Latency(f, v, j.ask))
    && (t.w.b.cpu.valid ==>
          && t.w.b.cpu == CpuOut(true, Granted(v, j.ask), DataFor(v, j)) && t.w.s.store.mem == MemAfter(v, j))
  }

  lemma ToldWhenDone(f: Fabric, v: Policy, j: Job, w: Soc, n: nat, m: nat)
    requires Serving(f, v, j, w) && |v.roles| == LAYERS && j.ask.layer < LAYERS
    ensures JobOk(f, v, j)
    ensures ClocksLeft(f, v, j.ask, w, n, m) == 0 ==>
      w.b.cpu == CpuOut(true, Granted(v, j.ask), DataFor(v, j)) && w.s.store.mem == MemAfter(v, j)
  {
    DoneHasNoneLeft(f, v, j, w, n, m);
    hide ClocksLeft;
    hide Intact;
    hide JobOk;
    hide Granted;
    hide MemAfter;
    hide DataFor;
  }

  /** The CPU hears something only in the clock after a verification. */
  lemma HeardWhenDone(f: Fabric, b: Bridge, e: Engine, i: BridgeIn)
    ensures BridgeNext(f, b, e, i).cpu.valid ==> BridgeNext(f, b, e, i).state == B_DONE
  {
    hide Issues;
    hide Verified;
  }

  lemma {:induction false} LastHeard(f: Fabric, sub: Subkeys, v: Policy, r: Rack, ins: seq<SocIn>)
    requires Racked(r) && AllOutside(v, ins) && ins != []
    ensures var b := RackAfter(f, sub, v, r, ins).w.b; b.cpu.valid ==> b.state == B_DONE
    decreases |ins|
  {
    hide BridgeNext;
    hide Next;
    hide GhostNext;
    hide BridgeEngine;
    hide C.Next;
    hide Clears;
    hide Driven;
    hide Outside;
    hide AllOutside;
    hide ReqReady;
    OutsideRest(v, ins);
    if |ins| == 1 {
      var y := Driven(f, sub, r, ins[0]);
      HeardWhenDone(f, r.w.b, r.w.e, BridgeSees(f, r.w, y));
      assert RackAfter(f, sub, v, r, ins) == RackNext(f, sub, r, ins[0]);
    } else {
      LastHeard(f, sub, v, RackNext(f, sub, r, ins[0]), ins[1..]);
    }
  }

  /** From ease, an accepted access is answered in exactly its latency. */
  lemma AccessIsServed(f: Fabric, sub: Subkeys, v: Policy, r: Rack, n: nat, m: nat, ins: seq<SocIn>)
    requires Racked(r) && AtEase(f, v, r.w) && AllPaced(r, n, m) && AllOutside(v, ins) && ins != []
    requires ins[0].fabric.Shaped() && Accepted(f, sub, r, ins[0])
    requires |v.roles| == LAYERS && ins[0].bridge.layer < LAYERS && |ins| <= Latency(f, v, JobOf(f, v, r.w, ins[0]).ask)
    ensures JobOk(f, v, JobOf(f, v, r.w, ins[0]))
    ensures ToldInTime(f, v, JobOf(f, v, r.w, ins[0]), RackAfter(f, sub, v, r, ins), |ins|)
  {
    hide AtEase;
    hide AllPaced;
    hide RackNext;
    hide Outside;
    hide AllOutside;
    hide Accepted;
    hide Sooner;
    hide Serving;
    hide JobOk;
    hide JobOf;
    hide ClocksLeft;
    hide Granted;
    hide DataFor;
    hide MemAfter;
    hide Passes;
    OutsideRest(v, ins);
    AcceptClock(f, sub, v, r, n, m, ins[0]);
    var j, t := JobOf(f, v, r.w, ins[0]), RackNext(f, sub, r, ins[0]);
    var k, l := JobRun(f, sub, v, j, t, Sooner(r.w.s.engine, n), Sooner(r.w.e, m), ins[1..]);
    LastHeard(f, sub, v, r, ins);
    var u := RackAfter(f, sub, v, r, ins);
    assert u == RackAfter(f, sub, v, t, ins[1..]);
    ToldWhenDone(f, v, j, u.w, k, l);
    DoneHasNoneLeft(f, v, j, u.w, k, l);
  }

  /** At ease, or serving. */
  ghost predicate Alive(f: Fabric, v: Policy, r: Rack) {
    && Racked(r)
    && (|| (AtEase(f, v, r.w) && exists n: nat, m: nat :: AllPaced(r, n, m))
        || exists j: Job, n: nat, m: nat :: Running(f, v, j, r, n, m))
  }

  lemma AliveStep(f: Fabric, sub: Subkeys, v: Policy, r: Rack, x: SocIn)
    requires Alive(f, v, r) && Outside(v, x) && x.fabric.Shaped()
    ensures Racked(r) && Alive(f, v, RackNext(f, sub, r, x))
  {
    hide AtEase;
    hide AllPaced;
    hide RackNext;
    hide Outside;
    hide Accepted;
    hide Sooner;
    hide Running;
    hide ClocksLeft;
    hide JobOf;
    hide JobOk;
    hide MemAfter;
    if AtEase(f, v, r.w) && exists n: nat, m: nat :: AllPaced(r, n, m) {
      var n: nat, m: nat :| AllPaced(r, n, m);
      if Accepted(f, sub, r, x) { AcceptClock(f, sub, v, r, n, m, x); } else { EaseClock(f, sub, v, r, n, m, x); }
    } else {
      var j: Job, n: nat, m: nat :| Running(f, v, j, r, n, m);
      if r.w.b.state == B_DONE { DoneClock(f, sub, v, j, r, n, m, x); }
      else {
        JobClock(f, sub, v, j, r, n, m, x);
        NearerRuns(f, v, j, r, n, m, RackNext(f, sub, r, x));
        hide Nearer;
      }
    }
  }

  lemma NearerRuns(f: Fabric, v: Policy, j: Job, r: Rack, n: nat, m: nat, t: Rack)
    requires Nearer(f, v, j, r, n, m, t)
    ensures Running(f, v, j, t, Sooner(r.w.s.engine, n), Sooner(r.w.e, m))
  {
  }

  lemma {:induction false} AliveRun(f: Fabric, sub: Subkeys, v: Policy, r: Rack, ins: seq<SocIn>)
    requires Alive(f, v, r) && Racked(r) && AllOutside(v, ins)
    ensures Alive(f, v, RackAfter(f, sub, v, r, ins))
    decreases |ins|
  {
    hide Alive;
    hide RackNext;
    hide Outside;
    hide AllOutside;
    if ins != [] {
      OutsideRest(v, ins);
      AliveStep(f, sub, v, r, ins[0]);
      AliveRun(f, sub, v, RackNext(f, sub, r, ins[0]), ins[1..]);
    }
  }

  /** Power-on. */
  ghost predicate PowerOn(r: Rack) {
    && SocReset(r.w) && r.w.b.seqs == Counters(0, 0) && !r.w.b.cm.start && !r.w.e.busy && !r.w.e.done
    && r.fu == C.RESET && r.bu == C.RESET
  }

  lemma PowerOnIsAlive(f: Fabric, v: Policy, r: Rack)
    requires PowerOn(r)
    ensures Alive(f, v, r)
  {
    ResetIsGood(f, r.w.s, r.w.g);
    assert AllPaced(r, 0, 0);
    hide Good;
    hide AllPaced;
    assert AtEase(f, v, r.w);
  }

  /** An idle bridge is at ease, and takes whatever the CPU asks for. */
  lemma IdleAccepts(f: Fabric, sub: Subkeys, v: Policy, r: Rack, x: SocIn) returns (n: nat, m: nat)
    requires Alive(f, v, r) && r.w.b.state == B_IDLE && Outside(v, x) && x.fabric.Shaped()
    ensures Racked(r) && AtEase(f, v, r.w) && AllPaced(r, n, m) && (Accepted(f, sub, r, x) <==> x.bridge.valid)
  {
    IdleIsEase(f, v, r);
    hide Alive;
    hide AtEase;
    hide AllPaced;
    hide Driven;
    hide Clears;
    hide Outside;
    hide ReqReady;
    n, m :| AllPaced(r, n, m);
    EaseClears(f, v, r, x);
    EaseShape(f, v, r.w);
    EnginesTick(f, sub, v, r, n, m, x);
    DrivenIs(f, sub, r, x);
    OutsideReady(v, x);
    hide RackNext;
    hide Ticks;
  }

  lemma IdleIsEase(f: Fabric, v: Policy, r: Rack)
    requires Alive(f, v, r) && r.w.b.state == B_IDLE
    ensures Racked(r) && AtEase(f, v, r.w) && exists n: nat, m: nat :: AllPaced(r, n, m)
  {
    forall j, n, m ensures !Running(f, v, j, r, n, m) { IdleServesNothing(f, v, j, r.w); }
    hide AtEase;
    hide AllPaced;
    hide Serving;
  }

  lemma IdleServesNothing(f: Fabric, v: Policy, j: Job, w: Soc)
    requires w.b.state == B_IDLE
    ensures !Serving(f, v, j, w)
  {
    hide Intact;
    hide JobOk;
  }

  lemma OutsideReady(v: Policy, x: SocIn)
    requires Outside(v, x)
    ensures x.bridge.keysReady
  {
  }

  /**
   * Main result. From power-on, through any run with keys ready, no alarm and the
   * epoch and policy steady, an idle bridge accepts every access to a layer that
   * exists; the CPU hears of it after exactly `Latency` clocks of the real engines and
   * not before, of success if and only if policy, address and access switch grant it,
   * with the word; and the memory has changed by that access and nothing else.
   */
  lemma EveryAccessIsServed(f: Fabric, sub: Subkeys, v: Policy, r: Rack, before: seq<SocIn>, ins: seq<SocIn>)
    requires PowerOn(r) && Racked(r) && AllOutside(v, before) && AllOutside(v, ins) && ins != [] && ins[0].bridge.valid
    requires var u := RackAfter(f, sub, v, r, before);
      u.w.b.state == B_IDLE && |ins| <= Latency(f, v, JobOf(f, v, u.w, ins[0]).ask)
    ensures var u := RackAfter(f, sub, v, r, before); var j := JobOf(f, v, u.w, ins[0]);
      JobOk(f, v, j) && ToldInTime(f, v, j, RackAfter(f, sub, v, u, ins), |ins|)
  {
    hide AtEase;
    hide AllPaced;
    hide Outside;
    hide AllOutside;
    hide Accepted;
    hide RackAfter;
    hide PowerOn;
    hide JobOf;
    hide JobOk;
    hide ToldInTime;
    hide Latency;
    PowerOnIsAlive(f, v, r);
    AliveRun(f, sub, v, r, before);
    hide Alive;
    var u := RackAfter(f, sub, v, r, before);
    OutsideRest(v, ins);
    var n, m := IdleAccepts(f, sub, v, u, ins[0]);
    AccessIsServed(f, sub, v, u, n, m, ins);
  }
}
