/**
 * The software fabric and the unhardened hardware guard side by side: they accept
 * the same requests, keep the same counters and lock at the same events, within
 * one epoch; and honest use in order never locks.
 */
module VtfAgreement {
  import opened Words
  import opened VtfTypes
  import opened VtfGuard
  import opened VtfSoftware

  /** What a clock brings: alarms, and perhaps a request. */
  datatype Event = Event(physical: bool, sentinel: bool, thermal: bool, request: Request, valid: bool)

  /** The layer and the address of a request exist. */
  predicate InRange(c: Config, q: Request) { q.layer < c.layers && q.addr < c.words }

  // ------------------------------------------------------------------ one event

  function TripIf(c: Config, s: Soft, alarm: bool, why: Reason): (t: Soft)
    requires c.Valid() && s.Shaped(c)
    ensures t.Shaped(c)
  {
    if alarm then Severe(c, s, why) else s
  }

  /** The software takes the alarms first, and then the request. */
  function Alarmed(c: Config, s: Soft, e: Event): (t: Soft)
    requires c.Valid() && s.Shaped(c)
    ensures t.Shaped(c)
  {
    TripIf(c, TripIf(c, TripIf(c, s, e.physical, Physical), e.sentinel, Sentinel), e.thermal, Thermal)
  }

  function SoftNext(c: Config, s: Soft, e: Event): (t: Soft)
    requires c.Valid() && s.Shaped(c)
    ensures t.Shaped(c)
  {
    var a := Alarmed(c, s, e);
    if e.valid then Executed(c, a, e.request) else a
  }

  predicate SoftAccepts(c: Config, s: Soft, e: Event)
    requires c.Valid() && s.Shaped(c)
  {
    e.valid && Finding(c, Alarmed(c, s, e), e.request) == NoReason
  }

  /** What the guard is asked in the same clock, in the epoch of the software. */
  function Asked(c: Config, epoch: Word, e: Event): (r: Question)
    ensures r.layer < LAYERS && r.roles == c.roles
  {
    var q := e.request;
    Question(e.valid, q.requester, q.write, if q.layer < LAYERS then q.layer else 0, q.seqNo, q.epoch, epoch,
             (c.f.cmac)((c.f.reqKey)(q.requester, epoch), ReqMsg(q)) == q.tag, c.debug, c.roles,
             e.physical, e.sentinel, e.thermal)
  }

  /** The two sides are in the same state. */
  predicate Agree(c: Config, s: Soft, g: Guard) {
    s.Shaped(c) && g.Shaped() && g.lastSeq == s.rx && g.lockdown == s.lockdown
  }

  /** The guard's code for a finding of the software. */
  function Code(why: Reason): bv8 {
    match why
    case NoReason => DENY_NONE
    case Lockdown => DENY_LOCKDOWN
    case InvalidField => DENY_POLICY
    case Policy => DENY_POLICY
    case BadTag => DENY_AUTH
    case Replay => DENY_REPLAY
    case BadEpoch => DENY_EPOCH
    case Thermal => DENY_THERMAL
    case Physical => DENY_PHYSICAL
    case Sentinel => DENY_SENTINEL
  }

  lemma SevereIs(c: Config, s: Soft, why: Reason)
    requires c.Valid() && s.Shaped(c)
    ensures var t := Severe(c, s, why); t.rx == s.rx && t.tx == s.tx && t.epoch == s.epoch && t.lockdown
  {
    hide Zeroized;
  }

  lemma AlarmedIs(c: Config, s: Soft, e: Event)
    requires c.Valid() && s.Shaped(c)
    ensures var a := Alarmed(c, s, e);
      && a.rx == s.rx && a.tx == s.tx && a.epoch == s.epoch
      && a.lockdown == (s.lockdown || e.physical || e.sentinel || e.thermal)
  {
    hide Severe;
    var p := TripIf(c, s, e.physical, Physical);
    var q := TripIf(c, p, e.sentinel, Sentinel);
    SevereIs(c, s, Physical);
    SevereIs(c, p, Sentinel);
    SevereIs(c, q, Thermal);
  }

  lemma ExecutedIs(c: Config, s: Soft, q: Request)
    requires c.Valid() && s.Shaped(c)
    ensures var t, why := Executed(c, s, q), Finding(c, s, q);
      && t.tx == s.tx && t.epoch == s.epoch
      && t.rx == (if why == NoReason || why == Policy then s.rx[q.requester := q.seqNo] else s.rx)
      && t.lockdown == (s.lockdown || !(why == NoReason || why == Policy || why == Lockdown))
  {
    hide Zeroized;
    hide PolicyAllows;
    hide TagValid;
  }

  /** Without an alarm the guard's verdict is the software's finding. */
  lemma VerdictIsFinding(c: Config, s: Soft, g: Guard, e: Event)
    requires c.Valid() && Agree(c, s, g) && e.valid && !e.physical && !e.sentinel && !e.thermal && InRange(c, e.request)
    ensures var v, why := Decide(false, g, Asked(c, s.epoch, e)), Finding(c, s, e.request);
      && v.reason == Code(why) && v.allow == (why == NoReason)
      && v.severe == !(why == NoReason || why == Policy || why == Lockdown)
      && v.consume == (why == NoReason || why == Policy)
  {
    hide PolicyAllows;
    hide ReqMsg;
  }

  /** An alarm: the guard refuses and locks, if it is not locked already. */
  lemma AlarmVerdict(c: Config, s: Soft, g: Guard, e: Event)
    requires c.Valid() && Agree(c, s, g) && (e.physical || e.sentinel || e.thermal)
    ensures var v := Decide(false, g, Asked(c, s.epoch, e)); !v.allow && !v.consume && v.severe == !g.lockdown
  {
    hide PolicyAllows;
    hide ReqMsg;
  }

  /** One event keeps the two sides in step. */
  lemma AgreeStep(c: Config, s: Soft, g: Guard, e: Event)
    requires c.Valid() && Agree(c, s, g) && (e.valid ==> InRange(c, e.request))
    ensures var n, v := Clock(false, g, Asked(c, s.epoch, e)), Decide(false, g, Asked(c, s.epoch, e));
      && Agree(c, SoftNext(c, s, e), n) && v.allow == SoftAccepts(c, s, e) && SoftNext(c, s, e).epoch == s.epoch
  {
    hide Finding;
    hide ReqMsg;
    hide Executed;
    hide Alarmed;
    hide Decide;
    hide Parity;
    AlarmedIs(c, s, e);
    var a := Alarmed(c, s, e);
    if e.valid { ExecutedIs(c, a, e.request); }
    if e.physical || e.sentinel || e.thermal {
      AlarmVerdict(c, s, g, e);
      LockedFinds(c, a, e.request);
    } else {
      NoAlarm(c, s, e);
      if e.valid { VerdictIsFinding(c, s, g, e); FindingFields(c, a, e.request); } else { IdleVerdict(c, s, g, e); }
    }
  }

  lemma NoAlarm(c: Config, s: Soft, e: Event)
    requires c.Valid() && s.Shaped(c) && !e.physical && !e.sentinel && !e.thermal
    ensures Alarmed(c, s, e) == s
  {
  }

  lemma LockedFinds(c: Config, s: Soft, q: Request)
    requires c.Valid() && s.Shaped(c) && s.lockdown
    ensures Finding(c, s, q) == Lockdown
  {
  }

  lemma FindingFields(c: Config, s: Soft, q: Request)
    requires c.Valid() && s.Shaped(c)
    ensures Finding(c, s, q) == NoReason || Finding(c, s, q) == Policy ==> q.requester < REQUESTERS
  {
    hide TagValid;
    hide PolicyAllows;
  }

  lemma IdleVerdict(c: Config, s: Soft, g: Guard, e: Event)
    requires c.Valid() && Agree(c, s, g) && !e.valid && !e.physical && !e.sentinel && !e.thermal
    ensures var v := Decide(false, g, Asked(c, s.epoch, e)); !v.allow && !v.consume && !v.severe
  {
    hide PolicyAllows;
    hide ReqMsg;
  }

  // --------------------------------------------------------------------- whole runs

  function SoftRun(c: Config, s: Soft, es: seq<Event>): (t: Soft)
    requires c.Valid() && s.Shaped(c)
    ensures t.Shaped(c)
    decreases |es|
  {
    if es == [] then s else SoftRun(c, SoftNext(c, s, es[0]), es[1..])
  }

  /** The requests the software accepts, in their order. */
  function SoftAccepted(c: Config, s: Soft, es: seq<Event>): seq<Request>
    requires c.Valid() && s.Shaped(c)
    decreases |es|
  {
    if es == [] then []
    else (if SoftAccepts(c, s, es[0]) then [es[0].request] else []) + SoftAccepted(c, SoftNext(c, s, es[0]), es[1..])
  }

  function GuardRun(c: Config, epoch: Word, g: Guard, es: seq<Event>): (n: Guard)
    requires c.Valid() && g.Shaped()
    ensures n.Shaped()
    decreases |es|
  {
    if es == [] then g else GuardRun(c, epoch, Clock(false, g, Asked(c, epoch, es[0])), es[1..])
  }

  function GuardAccepted(c: Config, epoch: Word, g: Guard, es: seq<Event>): seq<Request>
    requires c.Valid() && g.Shaped()
    decreases |es|
  {
    if es == [] then []
    else
      (if Decide(false, g, Asked(c, epoch, es[0])).allow then [es[0].request] else []) +
      GuardAccepted(c, epoch, Clock(false, g, Asked(c, epoch, es[0])), es[1..])
  }

  predicate AllInRange(c: Config, es: seq<Event>) {
    forall k :: 0 <= k < |es| ==> es[k].valid ==> InRange(c, es[k].request)
  }

  /**
   * Main result. In any run of alarms and requests within an epoch, hostile ones
   * included, the software and the hardware accept the same requests and end with
   * the same counters and the same lockdown bit.
   */
  lemma {:induction false} RunsAgree(c: Config, s: Soft, g: Guard, es: seq<Event>)
    requires c.Valid() && Agree(c, s, g) && AllInRange(c, es)
    ensures Agree(c, SoftRun(c, s, es), GuardRun(c, s.epoch, g, es))
    ensures SoftAccepted(c, s, es) == GuardAccepted(c, s.epoch, g, es)
    decreases |es|
  {
    hide SoftNext;
    hide SoftAccepts;
    hide Decide;
    hide Clock;
    hide Asked;
    if es != [] {
      AgreeStep(c, s, g, es[0]);
      RunsAgree(c, SoftNext(c, s, es[0]), Clock(false, g, Asked(c, s.epoch, es[0])), es[1..]);
    }
  }

  /** Advancing the epoch resets the counters in software only: the two stay in step exactly if none was used. */
  lemma EpochKeepsAgreementExactly(c: Config, s: Soft, g: Guard)
    requires Agree(c, s, g)
    ensures Agree(c, Advanced(c, s), g) <==> g.lastSeq == seq(REQUESTERS, _ => 0)
  {
  }

  // -------------------------------------------------------------------- honest use

  /** A requester asks for something, or the oldest request of a requester arrives. */
  datatype Move = Ask(requester: U3, write: bool, layer: U8, addr: U32, data: Word) | Deliver(requester: U3)

  /** The requests issued and not yet delivered, per requester. */
  type Outstanding = qs: seq<seq<Request>> | |qs| == REQUESTERS witness seq(REQUESTERS, _ => [])

  predicate Plays(c: Config, qs: Outstanding, m: Move) {
    && m.requester < REQUESTERS
    && match m
       case Ask(_, _, layer, addr, _) => layer < c.layers && addr < c.words
       case Deliver(r) => qs[r] != []
  }

  function MoveSoft(c: Config, s: Soft, qs: Outstanding, m: Move): (t: Soft)
    requires c.Valid() && s.Shaped(c) && Plays(c, qs, m)
    ensures t.Shaped(c)
  {
    match m
    case Ask(r, _, _, _, _) => AfterIssue(c, s, r)
    case Deliver(r) => Executed(c, s, qs[r][0])
  }

  function MoveOutstanding(c: Config, s: Soft, qs: Outstanding, m: Move): Outstanding
    requires c.Valid() && s.Shaped(c) && Plays(c, qs, m)
  {
    match m
    case Ask(r, w, layer, addr, data) => qs[r := qs[r] + [Issued(c, s, r, w, layer, addr, data)]]
    case Deliver(r) => qs[r := qs[r][1..]]
  }

  /** What is on its way is signed, in range, of this epoch, and numbered on from the last one executed. */
  predicate InOrder(c: Config, s: Soft, r: nat, q: seq<Request>)
    requires s.Shaped(c) && r < REQUESTERS
  {
    && Numbered(q, s.rx[r], s.tx[r])
    && forall k :: 0 <= k < |q| ==> q[k].requester == r && InRange(c, q[k]) && q[k].epoch == s.epoch && TagValid(c, s, q[k])
  }

  /** The sequence numbers run on from `from` and end with `to`. */
  predicate Numbered(q: seq<Request>, from: Word, to: Word)
    decreases |q|
  {
    if q == [] then from == to else q[0].seqNo == Succ(from) && Numbered(q[1..], q[0].seqNo, to)
  }

  predicate Honest(c: Config, s: Soft, qs: Outstanding) {
    s.Shaped(c) && !s.lockdown && forall r :: 0 <= r < REQUESTERS ==> InOrder(c, s, r, qs[r])
  }

  lemma {:induction false} NumberedOn(q: seq<Request>, from: Word, to: Word, next: Request)
    requires Numbered(q, from, to) && next.seqNo == Succ(to)
    ensures Numbered(q + [next], from, next.seqNo)
    decreases |q|
  {
    if q == [] {
      assert (q + [next])[1..] == [];
    } else {
      NumberedOn(q[1..], q[0].seqNo, to, next);
      assert (q + [next])[1..] == q[1..] + [next];
    }
  }

  lemma IssuedIs(c: Config, s: Soft, m: Move)
    requires s.Shaped(c) && m.Ask? && m.requester < REQUESTERS
    ensures var q := Issued(c, s, m.requester, m.write, m.layer, m.addr, m.data);
      && q.requester == m.requester && q.layer == m.layer && q.addr == m.addr && q.epoch == s.epoch
      && q.seqNo == Succ(s.tx[m.requester]) && TagValid(c, s, q)
  {
  }

  /** A queue of another requester, or the rest of the own one, stays in order when only counters move. */
  lemma QueueStays(c: Config, s: Soft, t: Soft, r: nat, q: seq<Request>)
    requires s.Shaped(c) && t.Shaped(c) && r < REQUESTERS && InOrder(c, s, r, q)
    requires t.epoch == s.epoch && t.rx[r] == s.rx[r] && t.tx[r] == s.tx[r]
    ensures InOrder(c, t, r, q)
  {
  }

  lemma QueueGrows(c: Config, s: Soft, t: Soft, r: nat, q: seq<Request>, next: Request)
    requires s.Shaped(c) && t.Shaped(c) && r < REQUESTERS && InOrder(c, s, r, q)
    requires t.epoch == s.epoch && t.rx[r] == s.rx[r] && t.tx[r] == next.seqNo == Succ(s.tx[r])
    requires next.requester == r && InRange(c, next) && next.epoch == s.epoch && TagValid(c, s, next)
    ensures InOrder(c, t, r, q + [next])
  {
    NumberedOn(q, s.rx[r], s.tx[r], next);
    hide Numbered;
  }

  lemma AskedQueues(c: Config, s: Soft, qs: Outstanding, r: nat, q: Request)
    requires Honest(c, s, qs) && r < REQUESTERS && q.seqNo == Succ(s.tx[r])
    requires q.requester == r && InRange(c, q) && q.epoch == s.epoch && TagValid(c, s, q)
    ensures Honest(c, AfterIssue(c, s, r), qs[r := qs[r] + [q]])
  {
    hide TagValid;
    hide InOrder;
    hide InRange;
    var t := AfterIssue(c, s, r);
    QueueGrows(c, s, t, r, qs[r], q);
    forall j | 0 <= j < REQUESTERS && j != r ensures InOrder(c, t, j, qs[j]) {
      QueueStays(c, s, t, j, qs[j]);
    }
  }

  lemma AskIsHonest(c: Config, s: Soft, qs: Outstanding, m: Move)
    requires c.Valid() && Honest(c, s, qs) && m.Ask? && Plays(c, qs, m)
    ensures Honest(c, MoveSoft(c, s, qs, m), MoveOutstanding(c, s, qs, m))
  {
    hide Issued;
    hide TagValid;
    hide InOrder;
    IssuedIs(c, s, m);
    AskedQueues(c, s, qs, m.requester, Issued(c, s, m.requester, m.write, m.layer, m.addr, m.data));
    hide Honest;
  }

  lemma TagStays(c: Config, s: Soft, t: Soft, q: Request)
    requires t.epoch == s.epoch
    ensures TagValid(c, t, q) == TagValid(c, s, q)
  {
  }

  /** An honest delivery is accepted exactly if the policy allows it, and never locks. */
  lemma DeliverIsHonest(c: Config, s: Soft, qs: Outstanding, m: Move)
    requires c.Valid() && Honest(c, s, qs) && m.Deliver? && Plays(c, qs, m)
    ensures Honest(c, MoveSoft(c, s, qs, m), MoveOutstanding(c, s, qs, m))
    ensures var q := qs[m.requester][0];
      Finding(c, s, q) == if PolicyAllows(q.requester, q.write, c.roles[q.layer], c.debug) then NoReason else Policy
  {
    hide TagValid;
    hide PolicyAllows;
    var r, q := m.requester, qs[m.requester][0];
    assert InOrder(c, s, r, qs[r]);
    ExecutedIs(c, s, q);
    hide Executed;
    var t := Executed(c, s, q);
    forall j: nat, k: nat | j < REQUESTERS && k < |qs[j]| ensures TagValid(c, t, qs[j][k]) == TagValid(c, s, qs[j][k]) {
      TagStays(c, s, t, qs[j][k]);
    }
  }

  predicate AllPlay(c: Config, s: Soft, qs: Outstanding, ms: seq<Move>)
    requires c.Valid() && s.Shaped(c)
    decreases |ms|
  {
    ms == [] ||
    (Plays(c, qs, ms[0]) && AllPlay(c, MoveSoft(c, s, qs, ms[0]), MoveOutstanding(c, s, qs, ms[0]), ms[1..]))
  }

  function Played(c: Config, s: Soft, qs: Outstanding, ms: seq<Move>): (r: (Soft, Outstanding))
    requires c.Valid() && s.Shaped(c) && AllPlay(c, s, qs, ms)
    ensures r.0.Shaped(c)
    decreases |ms|
  {
    if ms == [] then (s, qs)
    else Played(c, MoveSoft(c, s, qs, ms[0]), MoveOutstanding(c, s, qs, ms[0]), ms[1..])
  }

  /**
   * However the requesters' requests are interleaved, and whatever the policy
   * denies, a fabric whose requests arrive in their order never locks.
   */
  lemma {:induction false} HonestUseNeverLocks(c: Config, s: Soft, qs: Outstanding, ms: seq<Move>)
    requires c.Valid() && Honest(c, s, qs) && AllPlay(c, s, qs, ms)
    ensures var (t, q) := Played(c, s, qs, ms); Honest(c, t, q)
    decreases |ms|
  {
    hide Honest;
    hide Plays;
    hide MoveSoft;
    hide MoveOutstanding;
    HonestShaped(c, s, qs);
    if ms != [] {
      var m := ms[0];
      if m.Ask? { AskIsHonest(c, s, qs, m); } else { DeliverIsHonest(c, s, qs, m); }
      HonestUseNeverLocks(c, MoveSoft(c, s, qs, m), MoveOutstanding(c, s, qs, m), ms[1..]);
    }
  }

  lemma FreshIsHonest(c: Config, s: Soft)
    requires s.Shaped(c) && !s.lockdown && s.tx == s.rx
    ensures Honest(c, s, seq(REQUESTERS, _ => []))
  {
  }

  lemma HonestShaped(c: Config, s: Soft, qs: Outstanding)
    requires Honest(c, s, qs)
    ensures s.Shaped(c) && !s.lockdown
  {
  }

  /** A request that is on its way when the epoch advances locks the fabric when it arrives. */
  lemma LateRequestLocks(c: Config, s: Soft, qs: Outstanding, r: nat)
    requires c.Valid() && Honest(c, s, qs) && r < REQUESTERS && qs[r] != []
    ensures Executed(c, Advanced(c, s), qs[r][0]).lockdown
  {
    hide TagValid;
    hide PolicyAllows;
    assert InOrder(c, s, r, qs[r]);
    ExecutedIs(c, Advanced(c, s), qs[r][0]);
    NextEpochDiffers(s.epoch);
    hide Executed;
  }

  lemma NextEpochDiffers(e: Word)
    ensures Succ(e) != e
  {
  }
}
