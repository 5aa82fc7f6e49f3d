/**
 * Single-event upsets in the hardened fabric: one register is disturbed between
 * two clock edges, at any time of a run.
 */
module VtfFaults {
  import opened Words
  import opened VtfTypes
  import opened VtfGuard
  import opened VtfSystem
  import opened VtfInvariant

  // ---------------------------------------------------------------- fault model

  /** One of the two state rails takes any other value. */
  predicate StateUpset(s: Sys, n: Sys) {
    && n == s.(c := s.c.(fsm := n.c.fsm))
    && (n.c.fsm.state == s.c.fsm.state) != (n.c.fsm.stateN == s.c.fsm.stateN)
  }

  /** One bit of the authentication code. */
  predicate CodeUpset(s: Sys, n: Sys) {
    && n == s.(c := s.c.(check := s.c.check.(code := n.c.check.code)))
    && Flipped8(s.c.check.code, n.c.check.code)
  }

  /** The latched request fields other than the tag change in any way. */
  predicate FieldUpset(s: Sys, n: Sys) {
    && n == s.(c := s.c.(r := n.c.r)) && n.c.r.tag == s.c.r.tag
    && ReqMsg(n.c.r) != ReqMsg(s.c.r)
  }

  /** One bit of the latched tag. */
  predicate TagUpset(s: Sys, n: Sys) {
    && n == s.(c := s.c.(r := s.c.r.(tag := n.c.r.tag)))
    && Flipped128(s.c.r.tag, n.c.r.tag)
  }

  /** The message register of the tag engine changes in any way. */
  predicate MessageUpset(s: Sys, n: Sys) {
    && n == s.(c := s.c.(cm := s.c.cm.(msg := n.c.cm.msg)))
    && n.c.cm.msg != s.c.cm.msg
  }

  /** One rail of the lockdown latch. */
  predicate LatchUpset(s: Sys, n: Sys) {
    && n == s.(guard := s.guard.(lockdown := n.guard.lockdown, lockdownN := n.guard.lockdownN))
    && (n.guard.lockdown == s.guard.lockdown) != (n.guard.lockdownN == s.guard.lockdownN)
  }

  /** One bit of a requester's last sequence number, or its parity bit. */
  predicate SequenceUpset(s: Sys, n: Sys, r: nat)
    requires s.Shaped() && r < REQUESTERS
  {
    var d := s.guard;
    && n == s.(guard := n.guard) && n.Shaped()
    && (|| (n.guard == d.(lastSeq := d.lastSeq[r := n.guard.lastSeq[r]]) && Flipped(d.lastSeq[r], n.guard.lastSeq[r]))
        || n.guard == d.(seqPar := d.seqPar[r := !d.seqPar[r]]))
  }

  /** One bit of the response registers, or their parity bit. */
  predicate AnswerFlip(a: Answer, b: Answer) {
    || (b == a.(status := b.status) && Flipped8(a.status, b.status))
    || (b == a.(data := b.data) && Flipped(a.data, b.data))
    || (b == a.(reason := b.reason) && Flipped8(a.reason, b.reason))
    || b == a.(par := !a.par)
  }

  predicate AnswerUpset(s: Sys, n: Sys) {
    n == s.(c := s.c.(ans := n.c.ans)) && AnswerFlip(s.c.ans, n.c.ans)
  }

  /** The first tag changes in any way, or a shadow decision bit or the alarm flips. */
  predicate ShadowUpset(s: Sys, n: Sys) {
    var k, l := s.c.check, n.c.check;
    || n == s.(c := s.c.(check := k.(ok := l.ok, addrOk := l.addrOk, tag1 := l.tag1)))
    || n == s.(c := s.c.(alarm := !s.c.alarm))
  }

  predicate Upset(s: Sys, n: Sys)
    requires s.Shaped()
  {
    || StateUpset(s, n) || CodeUpset(s, n) || FieldUpset(s, n) || TagUpset(s, n) || MessageUpset(s, n)
    || LatchUpset(s, n) || AnswerUpset(s, n) || ShadowUpset(s, n)
    || exists r :: 0 <= r < REQUESTERS && SequenceUpset(s, n, r)
  }

  // ------------------------------------------------------ where an upset leaves us

  /** Nothing false can be released, provided no request reaches the memory from here. */
  predicate Quiet(c: Ctl, m: Store, g: Ghost) {
    var t := c.fsm.state;
    && (t == S_MEM && m.ready && FieldsOk(c) && !m.denied ==>
          g.exec == Some(if c.r.write then c.r.data else m.ramQ))
    && (t == S_SIGN || t == S_RESP ==> ParityOk(c.ans) ==> AnswerTrue(c.ans, g))
    && (t == S_RESP ==> c.cm.msg == Reply(c) ==> AnswerTrue(c.ans, g))
  }

  /** The alarm, a lockdown latch or a guard self-check has noticed. */
  ghost predicate Suspect(f: Fabric, s: Sys)
    requires s.Shaped()
  {
    s.c.alarm || s.guard.Locked(f.h) || s.guard.InternalFault(f.h)
  }

  ghost predicate Tripped(f: Fabric, s: Sys, g: Ghost) {
    && f.h && s.Shaped() && |g.last| == REQUESTERS && s.c.fsm.RailsAgree()
    && Suspect(f, s) && Quiet(s.c, s.store, g)
  }

  /** The rails disagree and the next clock will notice. */
  predicate OffRail(f: Fabric, s: Sys, g: Ghost) {
    && f.h && s.Shaped() && |g.last| == REQUESTERS && !s.c.fsm.RailsAgree()
    && AnswerTrue(s.c.ans, g)
  }

  /** A request that can no longer pass the guard, or a response that can no longer be wrong. */
  ghost predicate Doubtful(f: Fabric, s: Sys, g: Ghost) {
    var t := s.c.fsm.state;
    && f.h && Sound(f, s, g) && t != S_IDLE && Quiet(s.c, s.store, g)
    && (t == S_AUTH || t == S_AUTH2 ==> !FieldsOk(s.c))
    && (t == S_GUARD ==> !AuthPass(f, s.c))
  }

  /** `struck`: the latched tag of the transaction in progress may be one bit off. */
  ghost predicate Contained(f: Fabric, struck: bool, s: Sys, g: Ghost) {
    || Good(f, NoFlaw, s, g) || (struck && Good(f, TagFlaw, s, g)) || Good(f, CodeFlaw, s, g)
    || Good(f, Tag1Flaw, s, g) || Good(f, StatusFlaw, s, g)
    || Doubtful(f, s, g) || Tripped(f, s, g) || OffRail(f, s, g)
  }

  // -------------------------------------------------------------------- steps

  lemma QuietFront(f: Fabric, s: Sys, g: Ghost, i: Inputs)
    requires f.h && s.Shaped() && i.Shaped() && |g.last| == REQUESTERS && s.c.fsm.RailsAgree()
    requires Quiet(s.c, s.store, g) && !Judge(f, s, i).allow && s.c.fsm.state != S_SIGN && s.c.fsm.state != S_RESP
    ensures var n := Next(f, s, i); Quiet(n.c, n.store, GhostNext(f, s, g, i)) && n.c.fsm.RailsAgree()
    ensures StepIsSafe(f, NoFlaw, s, g, i)
  {
    hide Judge;
    hide LockdownOut;
    hide ReqMsg;
    hide Clock;
    hide EngineNext;
    hide MemIndex;
    hide GuardLayer;
    hide Parity;
    hide Parity8;
    hide CodeFault;
    hide AddrOk;
    hide SignControl;
    hide RespControl;
    hide Reply;
    hide TagMatches;
    hide AccessIsAuthentic;
    ControlIs(f, s, i);
    hide Control;
    hide NextCtl;
  }

  lemma QuietBack(f: Fabric, s: Sys, g: Ghost, i: Inputs)
    requires f.h && s.Shaped() && i.Shaped() && |g.last| == REQUESTERS && s.c.fsm.RailsAgree()
    requires Quiet(s.c, s.store, g) && (s.c.fsm.state == S_SIGN || s.c.fsm.state == S_RESP)
    ensures var n := Next(f, s, i); Quiet(n.c, n.store, GhostNext(f, s, g, i)) && n.c.fsm.RailsAgree()
    ensures StepIsSafe(f, NoFlaw, s, g, i)
  {
    hide Judge;
    hide LockdownOut;
    hide ReqMsg;
    hide Clock;
    hide EngineNext;
    hide StoreNext;
    hide Parity;
    hide Parity8;
    hide FieldsOk;
    hide AcceptRequest;
    hide AuthControl;
    hide Auth2Control;
    hide GuardControl;
    hide MemControl;
    hide AccessIsAuthentic;
    ControlIs(f, s, i);
    hide Control;
    hide NextCtl;
  }

  /** With no access to the memory, nothing false is released and nothing false becomes releasable. */
  lemma QuietStep(f: Fabric, s: Sys, g: Ghost, i: Inputs)
    requires f.h && s.Shaped() && i.Shaped() && |g.last| == REQUESTERS && s.c.fsm.RailsAgree()
    requires Quiet(s.c, s.store, g) && !Judge(f, s, i).allow
    ensures var n := Next(f, s, i); Quiet(n.c, n.store, GhostNext(f, s, g, i)) && n.c.fsm.RailsAgree()
    ensures StepIsSafe(f, NoFlaw, s, g, i)
  {
    hide *;
    if s.c.fsm.state == S_SIGN || s.c.fsm.state == S_RESP { QuietBack(f, s, g, i); } else { QuietFront(f, s, g, i); }
  }

  /** Once something is suspect, the guard locks and stays locked, and nothing is allowed any more. */
  lemma SuspectRefuses(f: Fabric, s: Sys, i: Inputs)
    requires s.Shaped() && i.Shaped() && Suspect(f, s)
    ensures !Judge(f, s, i).allow && Suspect(f, Next(f, s, i))
  {
    hide Parity;
    hide PolicyAllows;
    hide AuthPass;
    hide NextCtl;
    hide EngineNext;
    hide StoreNext;
    hide GuardLayer;
  }

  lemma TrippedStep(f: Fabric, s: Sys, g: Ghost, i: Inputs)
    requires Tripped(f, s, g) && i.Shaped()
    ensures Tripped(f, Next(f, s, i), GhostNext(f, s, g, i)) && StepIsSafe(f, NoFlaw, s, g, i)
  {
    SuspectRefuses(f, s, i);
    hide Suspect;
    hide Judge;
    QuietStep(f, s, g, i);
    hide Quiet;
    hide StepIsSafe;
    hide Next;
    hide GhostNext;
  }

  lemma FieldsStay(f: Fabric, s: Sys, i: Inputs)
    requires s.Shaped() && i.Shaped() && s.c.fsm.RailsAgree()
    ensures var c, n, t := s.c, NextCtl(f, s, i), s.c.fsm.state;
      && (t == S_AUTH || t == S_AUTH2 ==> n.r == c.r && n.cm.msg == c.cm.msg)
      && (t == S_AUTH || t == S_AUTH2 ==> n.fsm.state == S_AUTH || n.fsm.state == S_AUTH2 || n.fsm.state == S_GUARD)
      && (t == S_GUARD || t == S_MEM || t == S_SIGN || t == S_RESP ==>
            n.fsm.state != S_AUTH && n.fsm.state != S_AUTH2 && n.fsm.state != S_GUARD)
  {
    hide Judge;
    hide LockdownOut;
    hide ReqMsg;
    hide RspMsg;
    hide Parity;
    hide Parity8;
    hide TagMatches;
    ControlIs(f, s, i);
    hide Control;
    hide NextCtl;
  }

  lemma DoubtfulStep(f: Fabric, s: Sys, g: Ghost, i: Inputs)
    requires Doubtful(f, s, g) && i.Shaped()
    ensures Contained(f, false, Next(f, s, i), GhostNext(f, s, g, i)) && StepIsSafe(f, NoFlaw, s, g, i)
  {
    var n, h := Next(f, s, i), GhostNext(f, s, g, i);
    if Judge(f, s, i).allow { AllowedMeans(f, s, i); }
    QuietStep(f, s, g, i);
    GuardStep(f, s, g, i);
    HandshakeStep(f, s, i);
    FieldsStay(f, s, i);
    hide Judge;
    hide Quiet;
    hide StepIsSafe;
    hide GhostNext;
    hide NextCtl;
    hide EngineNext;
    hide StoreNext;
    hide Clock;
    hide GuardAgrees;
    hide ReqMsg;
    if n.c.alarm {
      assert Tripped(f, n, h);
    } else if n.c.fsm.state == S_IDLE {
      assert Good(f, StatusFlaw, n, h);
    } else {
      assert Doubtful(f, n, h);
    }
  }

  /** Whatever state the control takes itself to be in, it releases only what the answer registers say. */
  lemma ReleasesAnswer(f: Fabric, s: Sys, g: Ghost, i: Inputs)
    requires f.h && s.Shaped() && i.Shaped() && AnswerTrue(s.c.ans, g)
    ensures ResponseIsTrue(Control(f, s, i).out, g)
  {
    hide Judge;
    hide LockdownOut;
    hide ReqMsg;
    hide Parity;
    hide Parity8;
    hide Accepts;
    hide CodeFault;
    hide RespParFault;
    hide FieldsOk;
    hide AddrOk;
    hide TagMatches;
  }

  lemma OffRailStep(f: Fabric, s: Sys, g: Ghost, i: Inputs)
    requires OffRail(f, s, g) && i.Shaped()
    ensures Tripped(f, Next(f, s, i), GhostNext(f, s, g, i)) && StepIsSafe(f, NoFlaw, s, g, i)
  {
    ReleasesAnswer(f, s, g, i);
    hide Judge;
    hide LockdownOut;
    hide Control;
    hide ReqMsg;
    hide Clock;
    hide EngineNext;
    hide StoreNext;
    hide Parity;
    hide Parity8;
    hide Accepts;
    hide GhostNext;
    hide CodeFault;
    hide FieldsOk;
  }

  /** A flaw anywhere but in the tag leaves every tag check exact. */
  lemma GoodIsContained(f: Fabric, w: Flaw, s: Sys, g: Ghost, i: Inputs)
    requires Good(f, w, s, g) && i.Shaped() && f.h && w != TagFlaw
    ensures Contained(f, false, Next(f, s, i), GhostNext(f, s, g, i)) && StepIsSafe(f, NoFlaw, s, g, i)
  {
    GoodStep(f, w, s, g, i);
    HandshakeStep(f, s, i);
    hide Core;
    hide Next;
    hide GhostNext;
    hide Judge;
    hide NextCtl;
    hide Accesses;
  }

  /** Between transactions a spoilt tag register means nothing. */
  lemma IdleForgets(f: Fabric, s: Sys, g: Ghost)
    requires Good(f, TagFlaw, s, g) && s.c.fsm.state == S_IDLE
    ensures Good(f, NoFlaw, s, g)
  {
    hide GuardAgrees;
  }

  predicate StillStruck(f: Fabric, struck: bool, s: Sys, i: Inputs)
    requires s.Shaped() && i.Shaped()
  {
    struck && !Accepts(f, s, i)
  }

  /** A struck tag goes with its transaction: the next one accepted is checked exactly. */
  lemma TagFlawStep(f: Fabric, s: Sys, g: Ghost, i: Inputs)
    requires Good(f, TagFlaw, s, g) && i.Shaped() && f.h
    ensures Contained(f, StillStruck(f, true, s, i), Next(f, s, i), GhostNext(f, s, g, i)) && StepIsSafe(f, TagFlaw, s, g, i)
  {
    if Accepts(f, s, i) {
      IdleForgets(f, s, g);
      GoodIsContained(f, NoFlaw, s, g, i);
      ExactIsNear(f, s, g, i);
    } else {
      GoodStep(f, TagFlaw, s, g, i);
      HandshakeStep(f, s, i);
    }
    hide Core;
    hide Next;
    hide GhostNext;
    hide Judge;
    hide NextCtl;
    hide Accesses;
    hide StepIsSafe;
  }

  lemma ExactIsNear(f: Fabric, s: Sys, g: Ghost, i: Inputs)
    requires s.Shaped() && i.Shaped() && |g.last| == REQUESTERS && StepIsSafe(f, NoFlaw, s, g, i)
    ensures StepIsSafe(f, TagFlaw, s, g, i)
  {
    hide Accesses;
    hide NextCtl;
    hide ReqMsg;
  }

  // ------------------------------------------------------------ an upset is contained

  lemma StateUpsetLands(f: Fabric, s: Sys, n: Sys, g: Ghost)
    requires f.h && Good(f, NoFlaw, s, g) && StateUpset(s, n)
    ensures OffRail(f, n, g)
  {
    hide GuardAgrees;
  }

  lemma CodeUpsetLands(f: Fabric, s: Sys, n: Sys, g: Ghost)
    requires f.h && Good(f, NoFlaw, s, g) && CodeUpset(s, n)
    ensures Good(f, CodeFlaw, n, g) || Doubtful(f, n, g)
  {
    hide GuardAgrees;
    hide ReqMsg;
    hide RspMsg;
    hide Parity;
    hide Parity8;
    if s.c.fsm.state == S_GUARD {
      assert n.c.check.code != AUTH_PASS && n.c.check.code != AUTH_FAIL ==> !AuthPass(f, n.c);
    }
  }

  lemma FieldUpsetLands(f: Fabric, s: Sys, n: Sys, g: Ghost)
    requires f.h && Good(f, NoFlaw, s, g) && FieldUpset(s, n)
    ensures Good(f, NoFlaw, n, g) || Doubtful(f, n, g)
  {
    hide GuardAgrees;
    hide ReqMsg;
    hide RspMsg;
    hide Parity;
    hide Parity8;
  }

  lemma TagUpsetLands(f: Fabric, s: Sys, n: Sys, g: Ghost)
    requires f.h && Good(f, NoFlaw, s, g) && TagUpset(s, n)
    ensures Good(f, TagFlaw, n, g)
  {
    hide GuardAgrees;
    hide Parity;
    hide Parity8;
    hide Flipped128;
  }

  lemma MessageUpsetLands(f: Fabric, s: Sys, n: Sys, g: Ghost)
    requires f.h && Good(f, NoFlaw, s, g) && MessageUpset(s, n)
    ensures Good(f, NoFlaw, n, g) || Doubtful(f, n, g)
  {
    hide GuardAgrees;
    hide ReqMsg;
    hide RspMsg;
    hide Parity;
    hide Parity8;
  }

  lemma AnswerUpsetLands(f: Fabric, s: Sys, n: Sys, g: Ghost)
    requires f.h && Good(f, NoFlaw, s, g) && AnswerUpset(s, n)
    ensures Good(f, StatusFlaw, n, g) || Doubtful(f, n, g)
  {
    if s.c.fsm.state == S_SIGN || s.c.fsm.state == S_RESP { AnswerFlipShows(s.c.ans, n.c.ans); }
    hide AnswerFlip;
    hide GuardAgrees;
    hide ReqMsg;
    hide ParityOk;
  }

  /** Exactly one of the four registers changes its parity, seen apart. */
  lemma OneParityFlips(a: Answer, b: Answer)
    requires AnswerFlip(a, b)
    ensures var s, d, r, p :=
        Parity8(a.status) != Parity8(b.status), Parity(a.data) != Parity(b.data), Parity8(a.reason) != Parity8(b.reason), a.par != b.par;
      (s && !d && !r && !p) || (!s && d && !r && !p) || (!s && !d && r && !p) || (!s && !d && !r && p)
  {
    hide Parity;
    hide Parity8;
    hide Flipped;
    hide Flipped8;
    if Flipped8(a.status, b.status) { FlipChangesParity8(a.status, b.status); }
    if Flipped(a.data, b.data) { FlipChangesParity(a.data, b.data); }
    if Flipped8(a.reason, b.reason) { FlipChangesParity8(a.reason, b.reason); }
  }

  lemma AnswerFlipShows(a: Answer, b: Answer)
    requires AnswerFlip(a, b) && ParityOk(a)
    ensures !ParityOk(b)
  {
    hide Parity;
    hide Parity8;
    hide AnswerFlip;
    OneParityFlips(a, b);
  }

  lemma LatchUpsetLands(f: Fabric, s: Sys, n: Sys, g: Ghost)
    requires f.h && Good(f, NoFlaw, s, g) && LatchUpset(s, n)
    ensures Tripped(f, n, g)
  {
    hide Parity;
    hide Parity8;
    GoodIsQuiet(f, s, g);
    hide Core;
    hide Quiet;
    hide Handshake;
  }

  lemma GoodIsQuiet(f: Fabric, s: Sys, g: Ghost)
    requires Good(f, NoFlaw, s, g)
    ensures Quiet(s.c, s.store, g)
  {
    hide GuardAgrees;
    hide ReqMsg;
    hide RspMsg;
    hide Parity;
    hide Parity8;
  }

  lemma SequenceUpsetLands(f: Fabric, s: Sys, n: Sys, g: Ghost, r: nat)
    requires f.h && Good(f, NoFlaw, s, g) && r < REQUESTERS && SequenceUpset(s, n, r)
    ensures Tripped(f, n, g)
  {
    if Flipped(s.guard.lastSeq[r], n.guard.lastSeq[r]) { FlipChangesParity(s.guard.lastSeq[r], n.guard.lastSeq[r]); }
    hide Parity;
    hide Flipped;
    GoodIsQuiet(f, s, g);
    hide Core;
    hide Quiet;
    hide Handshake;
    assert Parity(n.guard.lastSeq[r]) != n.guard.seqPar[r];
  }

  lemma ShadowUpsetLands(f: Fabric, s: Sys, n: Sys, g: Ghost)
    requires f.h && Good(f, NoFlaw, s, g) && ShadowUpset(s, n)
    ensures Good(f, Tag1Flaw, n, g) || Tripped(f, n, g)
  {
    GoodIsQuiet(f, s, g);
    hide GuardAgrees;
    hide ReqMsg;
    hide RspMsg;
    hide Parity;
    hide Parity8;
  }

  /** Wherever a single upset strikes a sound fabric, it is contained. */
  lemma UpsetIsContained(f: Fabric, s: Sys, n: Sys, g: Ghost)
    requires f.h && Good(f, NoFlaw, s, g) && Upset(s, n)
    ensures Contained(f, TagUpset(s, n), n, g)
  {
    assert s.Shaped();
    hide Good;
    hide Tripped;
    hide Doubtful;
    hide OffRail;
    hide StateUpset;
    hide CodeUpset;
    hide FieldUpset;
    hide TagUpset;
    hide MessageUpset;
    hide LatchUpset;
    hide AnswerUpset;
    hide ShadowUpset;
    hide SequenceUpset;
    if StateUpset(s, n) { StateUpsetLands(f, s, n, g); }
    else if CodeUpset(s, n) { CodeUpsetLands(f, s, n, g); }
    else if FieldUpset(s, n) { FieldUpsetLands(f, s, n, g); }
    else if TagUpset(s, n) { TagUpsetLands(f, s, n, g); }
    else if MessageUpset(s, n) { MessageUpsetLands(f, s, n, g); }
    else if LatchUpset(s, n) { LatchUpsetLands(f, s, n, g); }
    else if AnswerUpset(s, n) { AnswerUpsetLands(f, s, n, g); }
    else if ShadowUpset(s, n) { ShadowUpsetLands(f, s, n, g); }
    else {
      var r :| 0 <= r < REQUESTERS && SequenceUpset(s, n, r);
      SequenceUpsetLands(f, s, n, g, r);
    }
  }

  function FlawOf(struck: bool): Flaw { if struck then TagFlaw else NoFlaw }

  /** A contained fault stays contained, and every clock is safe. */
  lemma ContainedStep(f: Fabric, struck: bool, s: Sys, g: Ghost, i: Inputs)
    requires f.h && s.Shaped() && |g.last| == REQUESTERS && Contained(f, struck, s, g) && i.Shaped()
    ensures Contained(f, StillStruck(f, struck, s, i), Next(f, s, i), GhostNext(f, s, g, i))
    ensures StepIsSafe(f, FlawOf(struck), s, g, i)
  {
    hide Good;
    hide Tripped;
    hide Doubtful;
    hide OffRail;
    hide Next;
    hide GhostNext;
    hide StepIsSafe;
    hide StillStruck;
    if Good(f, NoFlaw, s, g) { GoodIsContained(f, NoFlaw, s, g, i); }
    else if struck && Good(f, TagFlaw, s, g) { TagFlawStep(f, s, g, i); }
    else if Good(f, CodeFlaw, s, g) { GoodIsContained(f, CodeFlaw, s, g, i); }
    else if Good(f, Tag1Flaw, s, g) { GoodIsContained(f, Tag1Flaw, s, g, i); }
    else if Good(f, StatusFlaw, s, g) { GoodIsContained(f, StatusFlaw, s, g, i); }
    else if Doubtful(f, s, g) { DoubtfulStep(f, s, g, i); }
    else if Tripped(f, s, g) { TrippedStep(f, s, g, i); }
    else { OffRailStep(f, s, g, i); }
    if StepIsSafe(f, NoFlaw, s, g, i) { ExactIsNear(f, s, g, i); }
  }

  // ------------------------------------------------------------------ whole runs

  predicate AllShaped(ins: seq<Inputs>) { forall k :: 0 <= k < |ins| ==> ins[k].Shaped() }

  /** The system and its ghost record after a run of clocks. */
  function Clocked(f: Fabric, s: Sys, g: Ghost, ins: seq<Inputs>): (r: (Sys, Ghost))
    requires s.Shaped() && |g.last| == REQUESTERS && AllShaped(ins)
    ensures r.0.Shaped() && |r.1.last| == REQUESTERS
    decreases |ins|
  {
    if ins == [] then (s, g) else Clocked(f, Next(f, s, ins[0]), GhostNext(f, s, g, ins[0]), ins[1..])
  }

  /** Every clock of the run is safe. */
  ghost predicate RunIsSafe(f: Fabric, w: Flaw, s: Sys, g: Ghost, ins: seq<Inputs>)
    requires s.Shaped() && |g.last| == REQUESTERS && AllShaped(ins)
    decreases |ins|
  {
    ins == [] ||
    (StepIsSafe(f, w, s, g, ins[0]) &&
     RunIsSafe(f, w, Next(f, s, ins[0]), GhostNext(f, s, g, ins[0]), ins[1..]))
  }

  /**
   * Without upsets: every access is authentic and fresh, every success response is
   * true, and no alarm is ever raised, with or without hardening.
   */
  lemma {:induction false} FaultFreeRun(f: Fabric, s: Sys, g: Ghost, ins: seq<Inputs>)
    requires Good(f, NoFlaw, s, g) && AllShaped(ins)
    ensures RunIsSafe(f, NoFlaw, s, g, ins)
    ensures var r := Clocked(f, s, g, ins); Good(f, NoFlaw, r.0, r.1) && !r.0.c.alarm
    decreases |ins|
  {
    assert s.Shaped() && |g.last| == REQUESTERS && !s.c.alarm;
    hide Good;
    hide StepIsSafe;
    hide Next;
    hide GhostNext;
    if ins != [] {
      GoodStep(f, NoFlaw, s, g, ins[0]);
      FaultFreeRun(f, Next(f, s, ins[0]), GhostNext(f, s, g, ins[0]), ins[1..]);
    }
  }

  /**
   * Every clock of the run is safe, with every tag exactly right, but for the one
   * transaction whose latched tag was struck: its tag may be one bit off.
   */
  ghost predicate RunIsExact(f: Fabric, struck: bool, s: Sys, g: Ghost, ins: seq<Inputs>)
    requires s.Shaped() && |g.last| == REQUESTERS && AllShaped(ins)
    decreases |ins|
  {
    ins == [] ||
    (StepIsSafe(f, FlawOf(struck), s, g, ins[0]) &&
     RunIsExact(f, StillStruck(f, struck, s, ins[0]), Next(f, s, ins[0]), GhostNext(f, s, g, ins[0]), ins[1..]))
  }

  lemma {:induction false} ContainedRun(f: Fabric, struck: bool, s: Sys, g: Ghost, ins: seq<Inputs>)
    requires f.h && s.Shaped() && |g.last| == REQUESTERS && Contained(f, struck, s, g) && AllShaped(ins)
    ensures RunIsExact(f, struck, s, g, ins)
    decreases |ins|
  {
    hide Contained;
    hide StepIsSafe;
    hide StillStruck;
    hide Next;
    hide GhostNext;
    if ins != [] {
      ContainedStep(f, struck, s, g, ins[0]);
      ContainedRun(f, StillStruck(f, struck, s, ins[0]), Next(f, s, ins[0]), GhostNext(f, s, g, ins[0]), ins[1..]);
    }
  }

  /**
   * The hardened fabric survives any single upset: from power-on, run for any
   * number of clocks, let any one register of the fault model be upset, and run on
   * with any inputs. No request ever reaches the memory unless it is the one
   * presented, its tag is right and its sequence number is the next; and every
   * success response reports what its access did. Only if the upset struck a latched
   * tag, that one transaction may pass with a tag one bit off.
   */
  lemma SingleUpsetIsSurvived(f: Fabric, s: Sys, g: Ghost, before: seq<Inputs>, upset: Sys, after: seq<Inputs>)
    requires f.h && Reset(s, g) && AllShaped(before) && AllShaped(after)
    requires Upset(Clocked(f, s, g, before).0, upset)
    ensures RunIsSafe(f, NoFlaw, s, g, before)
    ensures upset.Shaped()
    ensures RunIsExact(f, TagUpset(Clocked(f, s, g, before).0, upset), upset, Clocked(f, s, g, before).1, after)
  {
    ResetIsGood(f, s, g);
    FaultFreeRun(f, s, g, before);
    var r := Clocked(f, s, g, before);
    UpsetIsContained(f, r.0, upset, r.1);
    assert upset.Shaped();
    hide Contained;
    hide TagUpset;
    ContainedRun(f, TagUpset(r.0, upset), upset, r.1, after);
  }

  /**
   * Without hardening one flipped bit, the decision bit in front of the guard,
   * lets a forged request through, whatever else is in order.
   */
  lemma UnhardenedUpsetAdmitsForgery(f: Fabric, s: Sys, g: Ghost, i: Inputs)
    requires !f.h && Good(f, NoFlaw, s, g) && i.Shaped() && s.c.fsm.state == S_GUARD && !s.c.check.ok
    requires !s.guard.lockdown && !i.physical && !i.sentinel && !i.thermal
    requires s.c.r.requester < REQUESTERS && s.c.r.layer < LAYERS && s.c.r.addr < LAYER_WORDS
    requires s.c.r.epoch == i.activeEpoch && s.c.r.seqNo == g.last[s.c.r.requester] + 1
    requires PolicyAllows(s.c.r.requester, s.c.r.write, i.roles[s.c.r.layer], i.debug)
    requires !Signed(f, NoFlaw, g)
    ensures !Accesses(f, s, i)
    ensures var n := s.(c := s.c.(check := s.c.check.(ok := true)));
      ShadowUpset(s, n) && Accesses(f, n, i) && !StepIsSafe(f, NoFlaw, n, g, i)
  {
    hide PolicyAllows;
    hide Signed;
    hide Parity;
    hide ResponseIsTrue;
    hide NextCtl;
    hide ReqMsg;
  }
}
