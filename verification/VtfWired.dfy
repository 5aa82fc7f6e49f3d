/**
 * The system on chip: the CPU's bridge wired straight to the hardened fabric, and a
 * single upset of any fabric register seen from the CPU's side.
 */
module VtfWired {
  import opened Words
  import opened VtfTypes
  import opened VtfGuard
  import opened VtfSystem
  import opened VtfInvariant
  import opened VtfFaults
  import opened VtfBridge

  /** Bridge with its tag engine, fabric with its ghost record. */
  datatype Soc = Soc(b: Bridge, e: Engine, s: Sys, g: Ghost)

  /** What comes from outside; the fields on the wires between the two are not looked at. */
  datatype SocIn = SocIn(fabric: Inputs, bridge: BridgeIn)

  /** The bridge offers its request while it is in the sending state. */
  function FabricIn(w: Soc, x: SocIn): (i: Inputs)
    ensures i.Shaped() == x.fabric.Shaped()
  {
    x.fabric.(reqValid := w.b.state == B_SEND, req := w.b.q, debug := false)
  }

  function BridgeSees(f: Fabric, w: Soc, x: SocIn): BridgeIn
    requires w.s.Shaped() && x.fabric.Shaped()
  {
    var out := w.s.c.out;
    x.bridge.(activeEpoch := x.fabric.activeEpoch, reqReady := ReqReady(f, w.s, FabricIn(w, x)),
              rspValid := out.valid, rsp := Received(out.msg, out.tag, out.status, out.data))
  }

  function SocNext(f: Fabric, w: Soc, x: SocIn): (n: Soc)
    requires w.s.Shaped() && |w.g.last| == REQUESTERS && x.fabric.Shaped()
    ensures n.s.Shaped() && |n.g.last| == REQUESTERS
  {
    var i, j := FabricIn(w, x), BridgeSees(f, w, x);
    Soc(BridgeNext(f, w.b, w.e, j), BridgeEngine(f, w.b, w.e, j), Next(f, w.s, i), GhostNext(f, w.s, w.g, i))
  }

  // ------------------------------------------------------------------- the invariant

  /** No request is being served: idle, or on the way to refusing everything. */
  ghost predicate Resting(f: Fabric, s: Sys)
    requires s.Shaped()
  {
    s.c.fsm.state == S_IDLE || !s.c.fsm.RailsAgree() || Suspect(f, s)
  }

  /** What the bridge waits for, and what it holds, is about its own request. */
  ghost predicate Linked(f: Fabric, w: Soc)
    requires w.s.Shaped()
  {
    var out := w.s.c.out;
    && (w.b.state == B_WAIT || w.b.state == B_VERIFY ==> w.g.cur == w.b.q)
    && (w.b.state == B_WAIT && out.valid ==>
          Resting(f, w.s) && (out.status == 1 ==> w.g.exec == Some(out.data)))
    && (w.b.state == B_VERIFY ==> Resting(f, w.s) && (w.b.rsp.status == 1 ==> w.g.exec == Some(w.b.rsp.data)))
  }

  lemma RestingStep(f: Fabric, s: Sys, i: Inputs)
    requires f.h && s.Shaped() && i.Shaped() && Resting(f, s) && !Accepts(f, s, i)
    ensures Resting(f, Next(f, s, i)) && !Executes(f, s, i)
  {
    if Suspect(f, s) { SuspectRefuses(f, s, i); }
    else if s.c.fsm.RailsAgree() { ControlIs(f, s, i); }
    hide Suspect;
    hide Judge;
    hide LockdownOut;
    hide Accepts;
    hide Control;
    hide Clock;
    hide EngineNext;
    hide StoreNext;
    hide AddrOk;
    hide CodeFault;
    if !s.c.fsm.RailsAgree() && !Suspect(f, s) { TripIsSuspect(f, s, i); }
  }

  lemma TripIsSuspect(f: Fabric, s: Sys, i: Inputs)
    requires f.h && s.Shaped() && i.Shaped() && !s.c.fsm.RailsAgree()
    ensures Suspect(f, Next(f, s, i))
  {
    hide Control;
    hide Clock;
    hide EngineNext;
    hide StoreNext;
  }

  /** A response comes out only at the end of a transaction, and leaves the fabric resting. */
  lemma OutFrom(f: Fabric, s: Sys, i: Inputs)
    requires f.h && s.Shaped() && i.Shaped() && Next(f, s, i).c.out.valid
    ensures s.c.fsm.state == S_SIGN || s.c.fsm.state == S_RESP
    ensures Resting(f, Next(f, s, i))
  {
    hide Judge;
    hide LockdownOut;
    hide Accepts;
    hide Clock;
    hide EngineNext;
    hide StoreNext;
    hide RespParFault;
    hide CodeFault;
    hide FieldsOk;
    hide AddrOk;
    hide Reply;
    hide ReqMsg;
    hide RequestKey;
    hide TagMatches;
    hide MemAnswer;
    hide Refusal;
  }

  lemma BusyGhost(f: Fabric, s: Sys, g: Ghost, i: Inputs)
    requires s.Shaped() && i.Shaped() && |g.last| == REQUESTERS && (s.c.fsm.state == S_SIGN || s.c.fsm.state == S_RESP)
    ensures GhostNext(f, s, g, i) == g
  {
    hide Judge;
    hide LockdownOut;
  }

  lemma QuietGhost(f: Fabric, s: Sys, g: Ghost, i: Inputs)
    requires s.Shaped() && i.Shaped() && |g.last| == REQUESTERS && !Accepts(f, s, i)
    ensures GhostNext(f, s, g, i).cur == g.cur
    ensures !Executes(f, s, i) ==> GhostNext(f, s, g, i).exec == g.exec
  {
    hide Accepts;
    hide Executes;
    hide Consumes;
    hide Result;
  }

  /** The CPU is told of a success only if its own access was made and returned this word. */
  ghost predicate CpuToldTruth(w: Soc, cpu: CpuOut) {
    cpu.valid && cpu.ok ==> w.g.cur == w.b.q && w.g.exec == Some(cpu.rdata)
  }

  lemma BridgeMoves(f: Fabric, b: Bridge, e: Engine, j: BridgeIn)
    ensures var n := BridgeNext(f, b, e, j);
      && (n.state == B_WAIT ==> (b.state == B_SEND && j.reqReady) || (b.state == B_WAIT && !j.rspValid))
      && (n.state == B_VERIFY ==> b.state == B_VERIFY || (b.state == B_WAIT && j.rspValid))
      && (n.state == B_WAIT || n.state == B_VERIFY ==> n.q == b.q)
      && (n.state == B_VERIFY ==> n.rsp == if b.state == B_WAIT then j.rsp else b.rsp)
      && (n.cpu.valid && n.cpu.ok ==> b.state == B_VERIFY && b.rsp.status == 1 && n.cpu.rdata == b.rsp.data)
  {
    hide Verified;
    hide ReqMsg;
    hide NewRequest;
    hide NextSeq;
    hide Issues;
  }

  lemma LinkStep(f: Fabric, w: Soc, x: SocIn)
    requires f.h && w.s.Shaped() && |w.g.last| == REQUESTERS && x.fabric.Shaped() && Linked(f, w)
    requires ResponseIsTrue(Next(f, w.s, FabricIn(w, x)).c.out, w.g)
    ensures Linked(f, SocNext(f, w, x)) && CpuToldTruth(w, SocNext(f, w, x).b.cpu)
  {
    hide Resting;
    hide ReqReady;
    hide BridgeNext;
    hide BridgeEngine;
    hide Next;
    hide GhostNext;
    hide Executes;
    var i, j := FabricIn(w, x), BridgeSees(f, w, x);
    var n := SocNext(f, w, x);
    BridgeMoves(f, w.b, w.e, j);
    if n.s.c.out.valid {
      OutFrom(f, w.s, i);
      BusyGhost(f, w.s, w.g, i);
    }
    if n.b.state == B_WAIT && w.b.state == B_SEND {
      AcceptGhost(f, w.s, w.g, i);
    } else if n.b.state == B_WAIT || n.b.state == B_VERIFY {
      assert !Accepts(f, w.s, i);
      QuietGhost(f, w.s, w.g, i);
      if n.b.state == B_VERIFY { RestingStep(f, w.s, i); }
    }
  }

  lemma AcceptGhost(f: Fabric, s: Sys, g: Ghost, i: Inputs)
    requires s.Shaped() && i.Shaped() && |g.last| == REQUESTERS && Accepts(f, s, i)
    ensures GhostNext(f, s, g, i).cur == i.req && s.c.fsm.state == S_IDLE
  {
    hide LockdownOut;
  }

  /** An upset spoils neither the response register nor the rest. */
  lemma UpsetKeepsLink(f: Fabric, w: Soc, n: Sys)
    requires f.h && Good(f, NoFlaw, w.s, w.g) && Upset(w.s, n) && Linked(f, w)
    ensures n.Shaped() && Linked(f, w.(s := n))
  {
    hide SequenceUpset;
    hide Flipped8;
    hide Flipped128;
    hide ReqMsg;
    hide Core;
    hide Parity;
    hide AnswerFlip;
    if exists r :: 0 <= r < REQUESTERS && SequenceUpset(w.s, n, r) {
      var r :| 0 <= r < REQUESTERS && SequenceUpset(w.s, n, r);
      SequenceKeepsRest(f, w.s, n, r);
    }
  }

  lemma SequenceKeepsRest(f: Fabric, s: Sys, n: Sys, r: nat)
    requires f.h && s.Shaped() && r < REQUESTERS && SequenceUpset(s, n, r) && !s.guard.InternalFault(f.h)
    ensures n.Shaped() && n.c == s.c && (Resting(f, s) ==> Resting(f, n))
  {
    hide Parity;
    hide Flipped;
  }

  // ---------------------------------------------------------------------- whole runs

  predicate AllShapedIn(ins: seq<SocIn>) { forall k :: 0 <= k < |ins| ==> ins[k].fabric.Shaped() }

  function SocAfter(f: Fabric, w: Soc, ins: seq<SocIn>): (n: Soc)
    requires w.s.Shaped() && |w.g.last| == REQUESTERS && AllShapedIn(ins)
    ensures n.s.Shaped() && |n.g.last| == REQUESTERS
    decreases |ins|
  {
    if ins == [] then w else SocAfter(f, SocNext(f, w, ins[0]), ins[1..])
  }

  /** In every clock the fabric is safe and the CPU is told the truth. */
  ghost predicate SocRunIsSafe(f: Fabric, struck: bool, w: Soc, ins: seq<SocIn>)
    requires w.s.Shaped() && |w.g.last| == REQUESTERS && AllShapedIn(ins)
    decreases |ins|
  {
    ins == [] ||
    (var i, n := FabricIn(w, ins[0]), SocNext(f, w, ins[0]);
     && StepIsSafe(f, FlawOf(struck), w.s, w.g, i) && CpuToldTruth(w, n.b.cpu)
     && SocRunIsSafe(f, StillStruck(f, struck, w.s, i), n, ins[1..]))
  }

  lemma SafeLinkStep(f: Fabric, v: Flaw, w: Soc, x: SocIn)
    requires f.h && w.s.Shaped() && |w.g.last| == REQUESTERS && x.fabric.Shaped() && Linked(f, w)
    requires StepIsSafe(f, v, w.s, w.g, FabricIn(w, x))
    ensures Linked(f, SocNext(f, w, x)) && CpuToldTruth(w, SocNext(f, w, x).b.cpu)
  {
    hide AccessIsAuthentic;
    hide Accesses;
    hide NextCtl;
    hide EngineNext;
    hide StoreNext;
    hide Clock;
    hide Linked;
    hide CpuToldTruth;
    hide SocNext;
    LinkStep(f, w, x);
  }

  lemma {:induction false} SoundSocRun(f: Fabric, w: Soc, ins: seq<SocIn>)
    requires f.h && w.s.Shaped() && |w.g.last| == REQUESTERS && AllShapedIn(ins)
    requires Good(f, NoFlaw, w.s, w.g) && Linked(f, w)
    ensures SocRunIsSafe(f, false, w, ins)
    ensures var n := SocAfter(f, w, ins); Good(f, NoFlaw, n.s, n.g) && Linked(f, n)
    decreases |ins|
  {
    hide Good;
    hide StepIsSafe;
    hide Linked;
    hide CpuToldTruth;
    hide Next;
    hide GhostNext;
    hide BridgeNext;
    hide BridgeEngine;
    hide Accepts;
    if ins != [] {
      GoodStep(f, NoFlaw, w.s, w.g, FabricIn(w, ins[0]));
      SafeLinkStep(f, NoFlaw, w, ins[0]);
      SoundSocRun(f, SocNext(f, w, ins[0]), ins[1..]);
    }
  }

  lemma {:induction false} ContainedSocRun(f: Fabric, struck: bool, w: Soc, ins: seq<SocIn>)
    requires f.h && w.s.Shaped() && |w.g.last| == REQUESTERS && AllShapedIn(ins)
    requires Contained(f, struck, w.s, w.g) && Linked(f, w)
    ensures SocRunIsSafe(f, struck, w, ins)
    decreases |ins|
  {
    hide Contained;
    hide StepIsSafe;
    hide StillStruck;
    hide Linked;
    hide CpuToldTruth;
    hide Next;
    hide GhostNext;
    hide BridgeNext;
    hide BridgeEngine;
    if ins != [] {
      var i := FabricIn(w, ins[0]);
      ContainedStep(f, struck, w.s, w.g, i);
      SafeLinkStep(f, FlawOf(struck), w, ins[0]);
      ContainedSocRun(f, StillStruck(f, struck, w.s, i), SocNext(f, w, ins[0]), ins[1..]);
    }
  }

  ghost predicate SocReset(w: Soc) { Reset(w.s, w.g) && w.b.state == B_IDLE }

  lemma ResetIsLinked(f: Fabric, w: Soc)
    requires SocReset(w)
    ensures w.s.Shaped() && |w.g.last| == REQUESTERS && Linked(f, w)
  {
  }

  /**
   * Main result, from the CPU's side: from power-on, with one upset of any register of
   * the fault model at any time, every success the CPU is ever told of is its own
   * access, made with the fields it asked for, with the word that access returned.
   */
  lemma UpsetNeverFoolsCpu(f: Fabric, w: Soc, before: seq<SocIn>, upset: Sys, after: seq<SocIn>)
    requires f.h && SocReset(w) && AllShapedIn(before) && AllShapedIn(after)
    requires w.s.Shaped() && |w.g.last| == REQUESTERS && Upset(SocAfter(f, w, before).s, upset)
    ensures SocRunIsSafe(f, false, w, before) && upset.Shaped()
    ensures var n := SocAfter(f, w, before); SocRunIsSafe(f, TagUpset(n.s, upset), n.(s := upset), after)
  {
    ResetIsLinked(f, w);
    ResetIsGood(f, w.s, w.g);
    SoundSocRun(f, w, before);
    var n := SocAfter(f, w, before);
    UpsetIsContained(f, n.s, upset, n.g);
    UpsetKeepsLink(f, n, upset);
    hide Contained;
    hide Linked;
    hide TagUpset;
    ContainedSocRun(f, TagUpset(n.s, upset), n.(s := upset), after);
  }
}
